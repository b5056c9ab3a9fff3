/** What a disk reconcile may touch, whichever of its calls fail. */
module DiskLaws {

  import opened Options
  import opened Disks

  // ------------------------------------------------ what the three loops touch

  /** Records only grow, and what was added is what was published. */
  predicate Grew(w: Work, r: Work, want: set<Id>, node: Id) {
    && w.live.published <= r.live.published
    && (forall n :: n in w.volumes ==> n in r.volumes && r.volumes[n] == w.volumes[n])
    && (forall v :: v in r.live.published && v !in w.live.published ==>
          v.name in want && v.name !in w.volumes && v.name in r.volumes && r.volumes[v.name] == v)
    && (forall n :: n in r.volumes && n !in w.volumes ==>
          r.volumes[n] in r.live.published && r.volumes[n].name == n && r.volumes[n].node == node)
  }

  lemma {:induction false} AttachOneGrew(w: Work, d: Disk, node: Id, e: Env, want: set<Id>)
    requires d.name in want
    ensures Grew(w, AttachOne(w, d, node, e), want, node)
  {
  }

  lemma {:induction false} GrewOn(w: Work, m: Work, r: Work, want: set<Id>, node: Id)
    requires Grew(w, m, want, node) && Grew(m, r, want, node)
    ensures Grew(w, r, want, node)
  {
  }

  lemma {:induction false} AttachGrew(w: Work, disks: seq<Disk>, node: Id, e: Env, want: set<Id>)
    requires forall d :: d in disks ==> d.name in want
    ensures Grew(w, AttachEach(w, disks, node, e), want, node)
  {
    if disks != [] {
      AttachGrew(w, disks[..|disks| - 1], node, e, want);
      var m := AttachEach(w, disks[..|disks| - 1], node, e);
      AttachOneGrew(m, disks[|disks| - 1], node, e, want);
      GrewOn(w, m, AttachEach(w, disks, node, e), want, node);
    }
  }

  lemma {:induction false} AttachPlugs(w: Work, disks: seq<Disk>, node: Id, e: Env)
    ensures var r := AttachEach(w, disks, node, e);
            && w.live.plugged <= r.live.plugged <= w.live.plugged + Wanted(disks)
            && (!r.failed ==> Wanted(disks) <= r.live.plugged)
            && (w.failed ==> r.failed)
  {
    if disks != [] {
      AttachPlugs(w, disks[..|disks| - 1], node, e);
      assert Wanted(disks) == Wanted(disks[..|disks| - 1]) + {disks[|disks| - 1].name};
    }
  }

  lemma {:induction false} AttachTouches(w: Work, disks: seq<Disk>, node: Id, e: Env)
    ensures var r := AttachEach(w, disks, node, e);
            && Grew(w, r, Wanted(disks), node)
            && w.live.plugged <= r.live.plugged <= w.live.plugged + Wanted(disks)
            && (!r.failed ==> Wanted(disks) <= r.live.plugged)
  {
    AttachPlugs(w, disks, node, e);
    AttachGrew(w, disks, node, e, Wanted(disks));
  }

  lemma {:induction false} DetachTouches(w: Work, names: seq<Id>, want: set<Id>, e: Env)
    ensures var r := DetachEach(w, names, want, e);
            && r.volumes == w.volumes && r.live.published == w.live.published
            && r.live.plugged <= w.live.plugged
            && (forall n :: n in w.live.plugged && n !in r.live.plugged ==> n in names && n !in want)
            && (!r.failed ==> forall n :: n in names && n !in want ==> n !in r.live.plugged)
            && (w.failed ==> r.failed)
  {
    if names != [] {
      DetachTouches(w, names[..|names| - 1], want, e);
      assert names == names[..|names| - 1] + [names[|names| - 1]];
    }
  }

  // ------------------------------------------------------------------ theorems

  /** Whatever fails: only recorded disks that left the spec are detached, only disks of
      the spec are attached, and a volume is unpublished only when its disk is neither in
      the spec nor plugged in at the end. */
  lemma {:induction false} OnlyDroppedDisksGo(i: Input, live: Live, e: Env)
    ensures var r := Reconciled(i, live, e).live;
            && (forall n :: n in live.plugged && n !in r.plugged ==> n in i.attached && n !in Wanted(i.disks))
            && (forall n :: n in r.plugged && n !in live.plugged ==> n in Wanted(i.disks))
            && (forall v :: v in live.published && v !in r.published ==>
                  v.name !in Wanted(i.disks) && v.name !in r.plugged)
  {
    var want := Wanted(i.disks);
    var w := Work(LocalOf(i.node, i.records), live, false);
    var a := AttachEach(w, i.disks, i.node, e);
    AttachTouches(w, i.disks, i.node, e);
    DetachTouches(a, i.attached, want, e);
  }

  /** The recorded names whose volume a pass has let go. */
  function LetGo(names: set<Id>, i: Input, r: Work, e: Env): (gone: set<Id>) {
    set n | n in names && n !in Wanted(i.disks) && n !in r.live.plugged && n !in e.unpublishFails
  }

  /** The local records afterwards are the old ones and those published now, less those
      unpublished now, whatever fails. */
  lemma {:induction false} RecordsConserved(i: Input, live: Live, e: Env)
    ensures var before, r := LocalOf(i.node, i.records), Reconciled(i, live, e);
            var attached := AttachEach(Work(before, live, false), i.disks, i.node, e);
            && r.volumes.Keys == attached.volumes.Keys - LetGo(attached.volumes.Keys, i, r, e)
            && (forall n :: n in before && n in r.volumes ==> r.volumes[n] == before[n])
            && (forall n :: n in attached.volumes && n !in before ==>
                  attached.volumes[n] in attached.live.published - live.published
                  || attached.volumes[n] in live.published)
            && (forall v :: v in attached.live.published - live.published ==>
                  v.name !in before && v.name in r.volumes && r.volumes[v.name] == v)
  {
    var want := Wanted(i.disks);
    var w := Work(LocalOf(i.node, i.records), live, false);
    var a := AttachEach(w, i.disks, i.node, e);
    AttachTouches(w, i.disks, i.node, e);
    DetachTouches(a, i.attached, want, e);
  }

  /** The records say exactly what is published. */
  predicate Truthful(volumes: map<Id, Volume>, published: set<Volume>) {
    && (forall v :: v in published ==> v.name in volumes && volumes[v.name] == v)
    && (forall n :: n in volumes ==> volumes[n].name == n && volumes[n] in published)
  }

  /** Records that were true before are true afterwards, whatever fails. */
  lemma {:induction false} RecordsStayTrue(i: Input, live: Live, e: Env)
    requires Truthful(LocalOf(i.node, i.records), live.published)
    ensures var r := Reconciled(i, live, e); Truthful(r.volumes, r.live.published)
  {
    var want := Wanted(i.disks);
    var w := Work(LocalOf(i.node, i.records), live, false);
    var a := AttachEach(w, i.disks, i.node, e);
    AttachTouches(w, i.disks, i.node, e);
    DetachTouches(a, i.attached, want, e);
    assert Truthful(a.volumes, a.live.published);
  }

  /** A pass with no failure ends with exactly the spec's disks plugged in, of those the
      Machine owns, and no volume of a dropped disk left. */
  lemma {:induction false} FullSuccess(i: Input, live: Live, e: Env)
    requires !Reconciled(i, live, e).failed
    ensures var r := Reconciled(i, live, e);
            && Wanted(i.disks) <= r.live.plugged
            && (forall n :: n in i.attached && n in r.live.plugged ==> n in Wanted(i.disks))
            && (forall n :: n in r.volumes ==> n in Wanted(i.disks) || n in r.live.plugged)
            && AttachedSpec(i.disks, r.live.plugged) == seq(|i.disks|, k requires 0 <= k < |i.disks| => i.disks[k].name)
            && AttachedRest(i.attached, Wanted(i.disks), r.live.plugged) == []
  {
    var want := Wanted(i.disks);
    var w := Work(LocalOf(i.node, i.records), live, false);
    var a := AttachEach(w, i.disks, i.node, e);
    var d := DetachEach(a, i.attached, want, e);
    AttachTouches(w, i.disks, i.node, e);
    DetachTouches(a, i.attached, want, e);
    assert Reconciled(i, live, e) == UnpublishIdle(d, want, e);
    assert Idle(d, want) * d.volumes.Keys == Idle(d, want);
    assert Idle(d, want) * e.unpublishFails == {};
    MinusDisjoint(Idle(d, want), e.unpublishFails);
    AllAttached(i.disks, d.live.plugged);
    NoneRest(i.attached, want, d.live.plugged);
  }

  lemma {:induction false} MinusDisjoint(a: set<Id>, b: set<Id>)
    requires a * b == {}
    ensures a - b == a
  {
    forall n | n in a ensures n !in b {
      assert n in b ==> n in a * b;
    }
  }

  lemma {:induction false} AllAttached(disks: seq<Disk>, plugged: set<Id>)
    requires Wanted(disks) <= plugged
    ensures AttachedSpec(disks, plugged) == seq(|disks|, k requires 0 <= k < |disks| => disks[k].name)
  {
    if disks != [] {
      assert disks[|disks| - 1].name in Wanted(disks);
      assert Wanted(disks[..|disks| - 1]) <= Wanted(disks);
      AllAttached(disks[..|disks| - 1], plugged);
    }
  }

  lemma {:induction false} NoneRest(names: seq<Id>, want: set<Id>, plugged: set<Id>)
    requires forall n :: n in names && n in plugged ==> n in want
    ensures AttachedRest(names, want, plugged) == []
  {
    if names != [] { NoneRest(names[..|names| - 1], want, plugged); }
  }

  /** The returned list names exactly the disks that are plugged in and either asked for or
      recorded before. */
  lemma {:induction false} AttachedMeans(disks: seq<Disk>, names: seq<Id>, want: set<Id>, plugged: set<Id>, n: Id)
    ensures n in AttachedSpec(disks, plugged) <==> n in Wanted(disks) && n in plugged
    ensures n in AttachedRest(names, want, plugged) <==> n in names && n !in want && n in plugged
    decreases |disks| + |names|
  {
    if disks != [] {
      AttachedMeans(disks[..|disks| - 1], names, want, plugged, n);
      assert Wanted(disks) == Wanted(disks[..|disks| - 1]) + {disks[|disks| - 1].name};
    } else if names != [] {
      AttachedMeans(disks, names[..|names| - 1], want, plugged, n);
    }
  }

  // ------------------------------------------------------------ stored records

  /** What status.diskVolumes holds after the pass; an empty list is never written. */
  function StoredRecords(stored: seq<Volume>, returned: seq<Volume>): (r: seq<Volume>) {
    MergePatchList(stored, returned)
  }

  lemma {:induction false} LocalOfHas(node: Id, records: seq<Volume>, v: Volume)
    requires v in records && v.node == node
    ensures v.name in LocalOf(node, records)
  {
    var last := records[|records| - 1];
    if v != last { LocalOfHas(node, records[..|records| - 1], v); }
  }

  lemma {:induction false} ForeignOfHas(node: Id, records: seq<Volume>, v: Volume)
    ensures v in ForeignOf(node, records) <==> v in records && v.node != node
  {
    if records != [] {
      ForeignOfHas(node, records[..|records| - 1], v);
      assert records == records[..|records| - 1] + [records[|records| - 1]];
    }
  }

  lemma {:induction false} LocalsKept(i: Input, live: Live, e: Env, n: Id)
    requires n in Reconciled(i, live, e).volumes
    ensures Reconciled(i, live, e).volumes[n].name == n && Reconciled(i, live, e).volumes[n].node == i.node
  {
    var w := Work(LocalOf(i.node, i.records), live, false);
    AttachTouches(w, i.disks, i.node, e);
    DetachTouches(AttachEach(w, i.disks, i.node, e), i.attached, Wanted(i.disks), e);
  }

  lemma {:induction false} ListHas(returned: seq<Volume>, foreign: seq<Volume>, locals: seq<Volume>)
    requires multiset(returned) == multiset(foreign) + multiset(locals)
    ensures |returned| == |foreign| + |locals|
    ensures forall v :: v in returned <==> v in foreign || v in locals
  {
    assert |multiset(returned)| == |multiset(foreign)| + |multiset(locals)|;
    forall v ensures v in returned <==> v in foreign || v in locals {
      assert v in returned <==> v in multiset(returned);
    }
  }

  lemma {:induction false} ReadBack(node: Id, foreign: seq<Volume>, locals: seq<Volume>, volumes: map<Id, Volume>,
                                    returned: seq<Volume>)
    requires forall v :: v in foreign ==> v.node != node
    requires forall n :: n in volumes ==> volumes[n].name == n && volumes[n].node == node
    requires Enumerates(locals, volumes)
    requires forall v :: v in returned <==> v in foreign || v in locals
    ensures LocalOf(node, returned) == volumes
  {
    forall n | n in volumes ensures n in LocalOf(node, returned) {
      assert volumes[n] in locals;
      LocalOfHas(node, returned, volumes[n]);
    }
    forall n | n in LocalOf(node, returned) ensures n in volumes && LocalOf(node, returned)[n] == volumes[n] {
      assert LocalOf(node, returned)[n] in locals;
    }
  }

  /** Reading back the returned list gives the records of the pass. */
  lemma {:induction false} ReturnedReadBack(i: Input, live: Live, e: Env, returned: seq<Volume>)
    requires Recorded(returned, ForeignOf(i.node, i.records), Reconciled(i, live, e).volumes)
    ensures LocalOf(i.node, returned) == Reconciled(i, live, e).volumes
    ensures returned == [] <==> ForeignOf(i.node, i.records) == [] && Reconciled(i, live, e).volumes == map[]
  {
    var foreign, volumes := ForeignOf(i.node, i.records), Reconciled(i, live, e).volumes;
    var locals :| Enumerates(locals, volumes) && multiset(returned) == multiset(foreign) + multiset(locals);
    ListHas(returned, foreign, locals);
    forall v | v in foreign ensures v.node != i.node { ForeignOfHas(i.node, i.records, v); }
    forall n | n in volumes ensures volumes[n].name == n && volumes[n].node == i.node { LocalsKept(i, live, e, n); }
    ReadBack(i.node, foreign, locals, volumes, returned);
    assert |volumes| == 0 <==> volumes == map[];
  }

  /** After a pass from true records, whatever failed in it, the stored records are true if
      and only if the pass returned any or there were none: the last record of a Machine is
      never cleared. */
  lemma {:induction false} LastRecordLingers(i: Input, live: Live, e: Env, returned: seq<Volume>)
    requires Truthful(LocalOf(i.node, i.records), live.published)
    requires Recorded(returned, ForeignOf(i.node, i.records), Reconciled(i, live, e).volumes)
    ensures Truthful(LocalOf(i.node, StoredRecords(i.records, returned)), Reconciled(i, live, e).live.published)
       <==> returned != [] || i.records == []
  {
    RecordsStayTrue(i, live, e);
    ReturnedReadBack(i, live, e, returned);
    if returned == [] && i.records != [] {
      var v := i.records[0];
      ForeignOfHas(i.node, i.records, v);
      LocalOfHas(i.node, i.records, v);
    }
  }

  // ----------------------------------------------------- attached, not published

  predicate Published(live: Live, n: Id) { exists v :: v in live.published && v.name == n }

  predicate DistinctNames(disks: seq<Disk>) {
    forall a, b :: 0 <= a < b < |disks| ==> disks[a].name != disks[b].name
  }

  lemma {:induction false} AttachOnePublishes(w: Work, d: Disk, node: Id, e: Env, n: Id)
    ensures var r := AttachOne(w, d, node, e);
            && (n in w.volumes ==> (Published(r.live, n) <==> Published(w.live, n)))
            && (d.name != n ==> (Published(r.live, n) <==> Published(w.live, n)))
            && (d.name == n && d.source.Csi? && n !in w.volumes && n !in w.live.plugged && n in r.live.plugged ==>
                  Published(r.live, n))
  {
    var r := AttachOne(w, d, node, e);
    assert w.live.published <= r.live.published;
    assert forall v :: v in r.live.published && v !in w.live.published ==> v.name == d.name && v.name !in w.volumes;
    if d.source.Csi? && d.name !in w.volumes && d.name !in w.live.plugged && d.name in r.live.plugged {
      assert Volume(d.name, node, d.source.driver, d.source.handle) in r.live.published;
    }
  }

  lemma {:induction false} AttachRecorded(w: Work, disks: seq<Disk>, node: Id, e: Env, n: Id)
    requires n in w.volumes
    ensures var r := AttachEach(w, disks, node, e);
            n in r.volumes && (Published(r.live, n) <==> Published(w.live, n))
  {
    if disks != [] {
      var front := disks[..|disks| - 1];
      AttachRecorded(w, front, node, e, n);
      AttachOnePublishes(AttachEach(w, front, node, e), disks[|disks| - 1], node, e, n);
    }
  }

  lemma {:induction false} AttachUnrecorded(w: Work, disks: seq<Disk>, node: Id, e: Env, k: nat)
    requires k < |disks| && disks[k].source.Csi? && DistinctNames(disks)
    requires disks[k].name !in w.volumes && disks[k].name !in w.live.plugged
    ensures var r := AttachEach(w, disks, node, e);
            disks[k].name in r.live.plugged ==> Published(r.live, disks[k].name)
  {
    var front, last := disks[..|disks| - 1], disks[|disks| - 1];
    var m := AttachEach(w, front, node, e);
    if k < |front| {
      AttachUnrecorded(w, front, node, e, k);
      assert last.name != disks[k].name;
      AttachOnePublishes(m, last, node, e, disks[k].name);
    } else {
      assert disks[k].name !in Wanted(front);
      AttachTouches(w, front, node, e);
      AttachOnePublishes(m, last, node, e, last.name);
    }
  }

  lemma {:induction false} WantedStaysPublished(i: Input, live: Live, e: Env, n: Id)
    requires n in Wanted(i.disks)
    ensures var a := AttachEach(Work(LocalOf(i.node, i.records), live, false), i.disks, i.node, e);
            var r := Reconciled(i, live, e);
            && (Published(r.live, n) <==> Published(a.live, n))
            && (n in r.live.plugged <==> n in a.live.plugged)
  {
    var a := AttachEach(Work(LocalOf(i.node, i.records), live, false), i.disks, i.node, e);
    DetachTouches(a, i.attached, Wanted(i.disks), e);
    var d := DetachEach(a, i.attached, Wanted(i.disks), e);
    var r := Reconciled(i, live, e);
    assert r.live.plugged == d.live.plugged;
    if Published(d.live, n) {
      var v :| v in d.live.published && v.name == n;
      assert v in r.live.published;
    }
  }

  /** A CSI disk that a pass plugs in has its volume published afterwards if and only if it
      was published before or no record named the disk. */
  lemma {:induction false} PublishedIffUnrecorded(i: Input, live: Live, e: Env, k: nat)
    requires k < |i.disks| && i.disks[k].source.Csi? && DistinctNames(i.disks)
    requires i.disks[k].name !in live.plugged && i.disks[k].name in Reconciled(i, live, e).live.plugged
    ensures Published(Reconciled(i, live, e).live, i.disks[k].name)
       <==> Published(live, i.disks[k].name) || i.disks[k].name !in LocalOf(i.node, i.records)
  {
    var n, w := i.disks[k].name, Work(LocalOf(i.node, i.records), live, false);
    assert i.disks[k] in i.disks;
    WantedStaysPublished(i, live, e, n);
    if n in w.volumes {
      AttachRecorded(w, i.disks, i.node, e, n);
    } else {
      AttachUnrecorded(w, i.disks, i.node, e, k);
    }
  }

  lemma {:induction false} AttachReaches(w: Work, disks: seq<Disk>, node: Id, e: Env, k: nat, v: Volume)
    requires k < |disks| && disks[k].name !in e.attachFails
    requires disks[k].name in w.volumes && w.volumes[disks[k].name] == v
    requires disks[k].source == Csi(v.driver, v.handle)
    ensures disks[k].name in AttachEach(w, disks, node, e).live.plugged
  {
    var front := disks[..|disks| - 1];
    AttachTouches(w, front, node, e);
    AttachTouches(w, disks, node, e);
    if k < |front| { AttachReaches(w, front, node, e, k, v); }
  }

  /** A pass that returns no record, although some were stored, and then a pass that asks
      for one of those disks again: the disk is plugged in, recorded, and not published. */
  lemma {:induction false} ReattachedUnpublished(i: Input, live: Live, e: Env, next: Input, e2: Env, k: nat)
    requires Truthful(LocalOf(i.node, i.records), live.published)
    requires Recorded([], ForeignOf(i.node, i.records), Reconciled(i, live, e).volumes)
    requires next.node == i.node && next.records == StoredRecords(i.records, [])
    requires k < |next.disks| && next.disks[k].name in LocalOf(i.node, i.records)
    requires var v := LocalOf(i.node, i.records)[next.disks[k].name]; next.disks[k].source == Csi(v.driver, v.handle)
    requires next.disks[k].name !in e2.attachFails
    ensures var r, n := Reconciled(next, Reconciled(i, live, e).live, e2), next.disks[k].name;
            n in r.live.plugged && n in r.volumes && !Published(r.live, n)
  {
    var n, between := next.disks[k].name, Reconciled(i, live, e).live;
    RecordsStayTrue(i, live, e);
    ReturnedReadBack(i, live, e, []);
    var w := Work(LocalOf(next.node, next.records), between, false);
    assert next.disks[k] in next.disks;
    AttachReaches(w, next.disks, next.node, e2, k, w.volumes[n]);
    AttachRecorded(w, next.disks, next.node, e2, n);
    WantedStaysPublished(next, between, e2, n);
    DetachTouches(AttachEach(w, next.disks, next.node, e2), next.attached, Wanted(next.disks), e2);
  }

  /** One disk attached and published; dropped from the spec; then asked for again. */
  lemma {:induction false} ReattachedExample()
    ensures var v, ok := Volume(1, 1, 5, 6), Env(true, {}, {}, {}, {});
            var dropped := Reconciled(Input(1, true, [], [1], [v]), Live({1}, {v}), ok);
            var again := Reconciled(Input(1, true, [Disk(1, Csi(5, 6))], [], StoredRecords([v], [])), dropped.live, ok);
            && dropped.live == Live({}, {}) && dropped.volumes == map[] && !dropped.failed
            && 1 in again.live.plugged && again.live.published == {} && again.volumes == map[1 := v]
  {
    DroppedExample();
    var v, ok := Volume(1, 1, 5, 6), Env(true, {}, {}, {}, {});
    assert [v][..0] == [];
    var w, disk := Work(map[1 := v], Live({}, {}), false), Disk(1, Csi(5, 6));
    assert [disk][..0] == [];
    var a := AttachEach(w, [disk], 1, ok);
    assert a == AttachOne(w, disk, 1, ok) == Work(map[1 := v], Live({1}, {}), false);
    assert Wanted([disk]) == {1};
    assert Idle(a, {1}) == {};
  }

  lemma {:induction false} DroppedExample()
    ensures var v, ok := Volume(1, 1, 5, 6), Env(true, {}, {}, {}, {});
            Reconciled(Input(1, true, [], [1], [v]), Live({1}, {v}), ok) == Work(map[], Live({}, {}), false)
  {
    var v, ok := Volume(1, 1, 5, 6), Env(true, {}, {}, {}, {});
    assert [v][..0] == [] && [1][..0] == [];
    var w := Work(map[1 := v], Live({1}, {v}), false);
    assert Wanted([]) == {};
    assert {1} - {1} == {};
    assert DetachEach(w, [1], {}, ok) == DetachOne(w, 1, {}, ok);
    var d := Work(map[1 := v], Live({}, {v}), false);
    assert DetachOne(w, 1, {}, ok) == d;
    assert Idle(d, {}) == {1};
    assert Idle(d, {}) * d.volumes.Keys == {1};
    assert map[1 := v] - {1} == map[];
  }
}
