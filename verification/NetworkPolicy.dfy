/**
 One node agent's network tick: every MachineNetworkPolicy pushes its rules to the
 Machines it selects and resets the ones it dropped, then the default-deny pass and
 the tenant-fence pass run over what is left. Later pushes overwrite earlier ones;
 the theorems say what each guest ends with.
 */
module NetworkPolicy {

  import opened Options

  type Id = nat
  const NoId: Id := 0

  datatype VmPolicy = VmPolicy(defaultAllow: bool, rules: seq<nat>)

  const AllowAll := VmPolicy(true, [])
  const DenyAll := VmPolicy(false, [])

  /** `denies` is the tenant fence for the Machine's tenant; `wantsFence` says the
      Machine names a tenant and opted in. `runtime` is status.runtimeID. */
  datatype Machine = Machine(
    ns: Id, name: Id, node: Id, labels: nat, running: bool, runtime: Id, wantsFence: bool, denies: seq<nat>)

  /** `selector` holds the label sets that match; it is consulted only without a machineName. */
  datatype Policy = Policy(
    ns: Id, name: Id, deleting: bool, finalizer: bool, machineName: Id, selector: set<nat>,
    rules: VmPolicy, applied: seq<Id>)

  /** This node. `merge` adds a deny list to a policy. */
  datatype Config = Config(node: Id, defaultDeny: bool, merge: (VmPolicy, seq<nat>) -> VmPolicy)

  /** The runtimes FluxVM refuses during one policy's turn, during the default-deny pass
      and during the fence pass, and the policies whose own preparation (finalizer or CNP)
      fails. */
  datatype Trouble = Trouble(turn: (Id, Id) -> set<Id>, deny: set<Id>, fence: set<Id>, stuck: set<(Id, Id)>)

  const NoTrouble := Trouble((ns: Id, name: Id) => {}, {}, {}, {})

  type Flux = map<Id, VmPolicy>

  datatype Result = Result(flux: Flux, ok: bool)

  // ----------------------------------------------------------------- searches

  predicate Selects(p: Policy, m: Machine) {
    if p.machineName != NoId then p.machineName == m.name else m.labels in p.selector
  }

  predicate Claims(p: Policy, m: Machine) {
    p.ns == m.ns && !p.deleting && Selects(p, m)
  }

  predicate AnyClaims(ps: seq<Policy>, m: Machine) {
    exists k :: 0 <= k < |ps| && Claims(ps[k], m)
  }

  predicate SameObject(p: Policy, q: Policy) { p.ns == q.ns && p.name == q.name }

  predicate AnotherClaims(ps: seq<Policy>, p: Policy, m: Machine) {
    exists k :: 0 <= k < |ps| && !SameObject(ps[k], p) && Claims(ps[k], m)
  }

  function Find(ms: seq<Machine>, ns: Id, name: Id): (r: Option<Machine>)
    ensures r.Some? ==> r.value in ms && r.value.ns == ns && r.value.name == name
    ensures r.None? ==> forall m :: m in ms && m.ns == ns ==> m.name != name
  {
    if ms == [] then None
    else if ms[0].ns == ns && ms[0].name == name then Some(ms[0])
    else Find(ms[1..], ns, name)
  }

  // -------------------------------------------------------------- one push

  /** A 404 is tolerated: nothing there to set. */
  function Push(flux: Flux, rt: Id, pol: VmPolicy, down: set<Id>): (r: Result)
    ensures r.flux.Keys == flux.Keys
  {
    if rt in down then Result(flux, false)
    else Result(if rt in flux then flux[rt := pol] else flux, true)
  }

  predicate Here(c: Config, m: Machine) { m.node == c.node && m.runtime != NoId }

  predicate Receives(c: Config, p: Policy, m: Machine) {
    Here(c, m) && m.ns == p.ns && Selects(p, m) && m.running
  }

  predicate Releases(c: Config, p: Policy, m: Machine) {
    Here(c, m) && m.ns == p.ns && Selects(p, m)
  }

  // --------------------------------------------- reconcileMachineNetworkPolicy

  function PushEach(c: Config, p: Policy, ms: seq<Machine>, down: set<Id>, flux: Flux): (r: Result)
    ensures r.flux.Keys == flux.Keys
  {
    if ms == [] then Result(flux, true)
    else
      var m := ms[|ms| - 1];
      var r := PushEach(c, p, ms[..|ms| - 1], down, flux);
      if !r.ok || !Receives(c, p, m) then r else Push(r.flux, m.runtime, c.merge(p.rules, m.denies), down)
  }

  function ReleaseEach(c: Config, p: Policy, ms: seq<Machine>, down: set<Id>, flux: Flux): (r: Result)
    ensures r.flux.Keys == flux.Keys
  {
    if ms == [] then Result(flux, true)
    else
      var m := ms[|ms| - 1];
      var r := ReleaseEach(c, p, ms[..|ms| - 1], down, flux);
      if !r.ok || !Releases(c, p, m) then r else Push(r.flux, m.runtime, AllowAll, down)
  }

  /** The names a turn that reaches its end records as applied. */
  function Names(c: Config, p: Policy, ms: seq<Machine>): (r: seq<Id>) {
    if ms == [] then []
    else
      var m := ms[|ms| - 1];
      Names(c, p, ms[..|ms| - 1]) + if Receives(c, p, m) then [m.name] else []
  }

  predicate Stale(c: Config, p: Policy, ps: seq<Policy>, ms: seq<Machine>, name: Id) {
    var found := Find(ms, p.ns, name);
    name !in Names(c, p, ms) && found.Some? && Here(c, found.value) && !AnotherClaims(ps, p, found.value)
  }

  function PruneEach(c: Config, p: Policy, ps: seq<Policy>, ms: seq<Machine>, prev: seq<Id>,
                     down: set<Id>, flux: Flux): (r: Result)
    ensures r.flux.Keys == flux.Keys
    decreases |prev|
  {
    if prev == [] then Result(flux, true)
    else
      var name := prev[|prev| - 1];
      var r := PruneEach(c, p, ps, ms, prev[..|prev| - 1], down, flux);
      if !r.ok || !Stale(c, p, ps, ms, name) then r
      else Push(r.flux, Find(ms, p.ns, name).value.runtime, AllowAll, down)
  }

  function Turn(c: Config, p: Policy, ps: seq<Policy>, ms: seq<Machine>, t: Trouble, flux: Flux): (r: Result)
    ensures r.flux.Keys == flux.Keys
  {
    var down := t.turn(p.ns, p.name);
    if p.deleting then if p.finalizer then ReleaseEach(c, p, ms, down, flux) else Result(flux, true)
    else if (p.ns, p.name) in t.stuck then Result(flux, false)
    else
      var r := PushEach(c, p, ms, down, flux);
      if !r.ok then r else PruneEach(c, p, ps, ms, p.applied, down, r.flux)
  }

  function Turns(c: Config, todo: seq<Policy>, ps: seq<Policy>, ms: seq<Machine>, t: Trouble, flux: Flux): (r: Flux)
    ensures r.Keys == flux.Keys
    decreases |todo|
  {
    if todo == [] then flux
    else Turn(c, todo[|todo| - 1], ps, ms, t, Turns(c, todo[..|todo| - 1], ps, ms, t, flux)).flux
  }

  // ------------------------------------------------------- the two later passes

  predicate Unclaimed(c: Config, ps: seq<Policy>, m: Machine) {
    Here(c, m) && m.running && !AnyClaims(ps, m)
  }

  predicate Fenced(c: Config, ps: seq<Policy>, m: Machine) {
    Unclaimed(c, ps, m) && m.wantsFence && m.denies != []
  }

  function FenceOf(c: Config, m: Machine): (r: VmPolicy) {
    c.merge(VmPolicy(!c.defaultDeny, []), m.denies)
  }

  function DenyPass(c: Config, ps: seq<Policy>, ms: seq<Machine>, down: set<Id>, flux: Flux): (r: Flux)
    ensures r.Keys == flux.Keys
  {
    if ms == [] then flux
    else
      var m := ms[|ms| - 1];
      var f := DenyPass(c, ps, ms[..|ms| - 1], down, flux);
      if Unclaimed(c, ps, m) then Push(f, m.runtime, DenyAll, down).flux else f
  }

  function FencePass(c: Config, ps: seq<Policy>, ms: seq<Machine>, down: set<Id>, flux: Flux): (r: Flux)
    ensures r.Keys == flux.Keys
  {
    if ms == [] then flux
    else
      var m := ms[|ms| - 1];
      var f := FencePass(c, ps, ms[..|ms| - 1], down, flux);
      if Fenced(c, ps, m) then Push(f, m.runtime, FenceOf(c, m), down).flux else f
  }

  function Tick(c: Config, ps: seq<Policy>, ms: seq<Machine>, t: Trouble, flux: Flux): (r: Flux)
    ensures r.Keys == flux.Keys
  {
    var pushed := Turns(c, ps, ps, ms, t, flux);
    var denied := if c.defaultDeny then DenyPass(c, ps, ms, t.deny, pushed) else pushed;
    FencePass(c, ps, ms, t.fence, denied)
  }

  // ------------------------------------------------------ declarative reference

  /** Whether p's turn resets m: p is on its way out, or p once applied to m, no longer
      does, and nobody else claims it. */
  predicate Frees(c: Config, p: Policy, ps: seq<Policy>, m: Machine) {
    if p.deleting then p.finalizer && Releases(c, p, m)
    else Here(c, m) && m.ns == p.ns && m.name in p.applied && !Receives(c, p, m) && !AnotherClaims(ps, p, m)
  }

  /** The last policy of the list that claims m. */
  function LastClaim(ps: seq<Policy>, m: Machine): (k: nat)
    requires AnyClaims(ps, m)
    ensures k < |ps| && Claims(ps[k], m)
    ensures forall j :: k < j < |ps| ==> !Claims(ps[j], m)
  {
    if Claims(ps[|ps| - 1], m) then |ps| - 1 else
      assert AnyClaims(ps[..|ps| - 1], m) by {
        var k :| 0 <= k < |ps| && Claims(ps[k], m);
        assert ps[..|ps| - 1][k] == ps[k];
      }
      LastClaim(ps[..|ps| - 1], m)
  }

  predicate ReleasedAfter(c: Config, ps: seq<Policy>, k: int, m: Machine) {
    exists j :: k < j < |ps| && 0 <= j && ps[j].deleting && ps[j].finalizer && Releases(c, ps[j], m)
  }

  predicate AnyFrees(c: Config, ps: seq<Policy>, m: Machine) {
    exists k :: 0 <= k < |ps| && Frees(c, ps[k], ps, m)
  }

  /** What the guest of m ends the tick with, read off the listings. */
  function Outcome(c: Config, ps: seq<Policy>, m: Machine, before: VmPolicy): (r: VmPolicy) {
    if m.running && AnyClaims(ps, m) then
      var k := LastClaim(ps, m);
      if ReleasedAfter(c, ps, k, m) then AllowAll else c.merge(ps[k].rules, m.denies)
    else if m.running && m.wantsFence && m.denies != [] then FenceOf(c, m)
    else if m.running && c.defaultDeny then DenyAll
    else if AnyFrees(c, ps, m) then AllowAll
    else before
  }

  /** What status.appliedMachines holds after a turn whose status write lands. */
  function Recorded(c: Config, p: Policy, ms: seq<Machine>): (r: seq<Id>) {
    MergePatchList(p.applied, Names(c, p, ms))
  }
}
