/**
 Disk reconcile on one node for one running Machine: attach what the spec asks for,
 detach what it dropped, unpublish CSI volumes nobody needs. Every call may fail on its
 own, and the others go on.
 */
module Disks {

  import opened Options

  type Id = nat

  /** A published CSI volume, as status.diskVolumes records it. */
  datatype Volume = Volume(name: Id, node: Id, driver: Id, handle: Id)

  /** What the claim of a disk resolves to; Unresolved when it cannot be. */
  datatype Source = Unresolved | Csi(driver: Id, handle: Id) | Host

  datatype Disk = Disk(name: Id, source: Source)

  /** The Machine: spec.disks, status.attachedDisks, status.diskVolumes. */
  datatype Input = Input(node: Id, valid: bool, disks: seq<Disk>, attached: seq<Id>, records: seq<Volume>)

  /** The disks whose call of each kind fails this time. */
  datatype Env = Env(listOk: bool, publishFails: set<Id>, attachFails: set<Id>, detachFails: set<Id>,
                     unpublishFails: set<Id>)

  /** What is really there: the VM's disks, and this Machine's published volumes here. */
  datatype Live = Live(plugged: set<Id>, published: set<Volume>)

  datatype Work = Work(volumes: map<Id, Volume>, live: Live, failed: bool)

  datatype Result = Result(attached: seq<Id>, records: seq<Volume>, live: Live, ok: bool)

  // ------------------------------------------------------------------ records

  function LocalOf(node: Id, records: seq<Volume>): (r: map<Id, Volume>)
    ensures forall n :: n in r ==> r[n].name == n && r[n].node == node && r[n] in records
  {
    if records == [] then map[]
    else
      var v := records[|records| - 1];
      var front := LocalOf(node, records[..|records| - 1]);
      if v.node == node then front[v.name := v] else front
  }

  function ForeignOf(node: Id, records: seq<Volume>): (r: seq<Volume>) {
    if records == [] then []
    else
      var v := records[|records| - 1];
      ForeignOf(node, records[..|records| - 1]) + if v.node == node then [] else [v]
  }

  function Wanted(disks: seq<Disk>): (r: set<Id>) { set d | d in disks :: d.name }

  // ------------------------------------------------------------------- attach

  datatype Resolved = Resolved(ok: bool, volume: Option<Volume>, published: bool)

  /** resolveDiskPath: a volume already published for the disk is used again only for the
      same claim. */
  function Resolve(d: Disk, volumes: map<Id, Volume>, node: Id, e: Env): (r: Resolved) {
    match d.source
    case Unresolved => Resolved(false, None, false)
    case Host => Resolved(true, None, false)
    case Csi(driver, handle) =>
      if d.name in volumes then
        if volumes[d.name].handle == handle && volumes[d.name].driver == driver
        then Resolved(true, Some(volumes[d.name]), false)
        else Resolved(false, None, false)
      else if d.name in e.publishFails then Resolved(false, None, false)
      else Resolved(true, Some(Volume(d.name, node, driver, handle)), true)
  }

  function AttachOne(w: Work, d: Disk, node: Id, e: Env): (r: Work) {
    if d.name in w.live.plugged then w
    else
      var res := Resolve(d, w.volumes, node, e);
      var volumes := if res.volume.Some? then w.volumes[d.name := res.volume.value] else w.volumes;
      var published := if res.published then w.live.published + {res.volume.value} else w.live.published;
      if res.ok && d.name !in e.attachFails
      then Work(volumes, Live(w.live.plugged + {d.name}, published), w.failed)
      else Work(volumes, Live(w.live.plugged, published), true)
  }

  function AttachEach(w: Work, disks: seq<Disk>, node: Id, e: Env): (r: Work) {
    if disks == [] then w else AttachOne(AttachEach(w, disks[..|disks| - 1], node, e), disks[|disks| - 1], node, e)
  }

  // ------------------------------------------------------- detach and unpublish

  function DetachOne(w: Work, name: Id, want: set<Id>, e: Env): (r: Work) {
    if name in want || name !in w.live.plugged then w
    else if name in e.detachFails then w.(failed := true)
    else w.(live := w.live.(plugged := w.live.plugged - {name}))
  }

  function DetachEach(w: Work, names: seq<Id>, want: set<Id>, e: Env): (r: Work) {
    if names == [] then w else DetachOne(DetachEach(w, names[..|names| - 1], want, e), names[|names| - 1], want, e)
  }

  /** Recorded volumes whose disk is neither asked for nor plugged in. */
  function Idle(w: Work, want: set<Id>): (r: set<Id>) {
    set n | n in w.volumes && n !in want && n !in w.live.plugged
  }

  /** The idle volumes among `names`, as far as their driver lets go of them. */
  function Unpublish(w: Work, names: set<Id>, want: set<Id>, e: Env): (r: Work) {
    var gone := Idle(w, want) * names - e.unpublishFails;
    Work(w.volumes - gone,
         w.live.(published := set v | v in w.live.published && !(v.name in gone && w.volumes[v.name] == v)),
         w.failed || Idle(w, want) * names * e.unpublishFails != {})
  }

  function UnpublishIdle(w: Work, want: set<Id>, e: Env): (r: Work) { Unpublish(w, w.volumes.Keys, want, e) }

  function Reconciled(i: Input, live: Live, e: Env): (w: Work) {
    var start := Work(LocalOf(i.node, i.records), live, false);
    var want := Wanted(i.disks);
    UnpublishIdle(DetachEach(AttachEach(start, i.disks, i.node, e), i.attached, want, e), want, e)
  }

  // ------------------------------------------------------------------- result

  function AttachedSpec(disks: seq<Disk>, plugged: set<Id>): (r: seq<Id>) {
    if disks == [] then []
    else
      var d := disks[|disks| - 1];
      AttachedSpec(disks[..|disks| - 1], plugged) + if d.name in plugged then [d.name] else []
  }

  function AttachedRest(names: seq<Id>, want: set<Id>, plugged: set<Id>): (r: seq<Id>) {
    if names == [] then []
    else
      var n := names[|names| - 1];
      AttachedRest(names[..|names| - 1], want, plugged) + if n !in want && n in plugged then [n] else []
  }

  /** A list that holds each of the node's records once. */
  ghost predicate Enumerates(locals: seq<Volume>, volumes: map<Id, Volume>) {
    |locals| == |volumes| && forall v :: v in locals <==> v.name in volumes && volumes[v.name] == v
  }

  /** The returned records: other nodes' as they were, this node's once each, and no more. */
  ghost predicate Recorded(records: seq<Volume>, foreign: seq<Volume>, volumes: map<Id, Volume>) {
    exists locals: seq<Volume> ::
      Enumerates(locals, volumes) && multiset(records) == multiset(foreign) + multiset(locals)
  }

  predicate Skipped(i: Input) { i.disks == [] && i.attached == [] && i.records == [] }
}
