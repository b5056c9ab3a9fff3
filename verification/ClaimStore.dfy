/**
 Binding under stale listings. Any number of controllers hold listings taken at
 different times and bind from them; the stored Machine accepts a patch only if the
 resourceVersion it carries is the stored one. A Machine is named by its position.
 */
module ClaimStore {

  import opened Claims

  const NoVersion := 0

  /** A member of the claim's pool that the listing shows warm, running and acceptable. */
  predicate Candidate(c: Claim, m: Machine) {
    && m.ns == c.ns && m.pool == c.pool && m.state == Warm && !m.deleting && m.phase == PhaseRunning
    && EligibleWarm(c, m)
  }

  datatype Store = Store(objs: seq<Machine>, clock: nat)

  /** Every accepted write takes a version never used before. */
  function Write(s: Store, i: nat, m: Machine): (r: Store)
    requires i < |s.objs|
  {
    Store(s.objs[i := m.(rv := s.clock + 1)], s.clock + 1)
  }

  datatype BindOutcome = Bound | Conflict | Refused

  /** bindMachine's patch, carrying the listed version when there is one. */
  function TryBind(s: Store, listed: Machine, c: Claim, broken: set<nat>): (r: (Store, BindOutcome))
    ensures |r.0.objs| == |s.objs|
  {
    var i := listed.name;
    if i >= |s.objs| || i in broken then (s, Refused)
    else if listed.rv != NoVersion && s.objs[i].rv != listed.rv then (s, Conflict)
    else (Write(s, i, s.objs[i].(state := Taken, claim := c.name)), Bound)
  }

  // --------------------------------------------------------------------- runs

  /** `views[k]` is the listing controller k works from. `rebound` is set when a bind
      lands on a Machine that another claim holds. */
  datatype Sys = Sys(store: Store, views: seq<seq<Machine>>, rebound: bool)

  datatype Act =
    | List(k: nat, withVersions: bool)
    | BindFrom(k: nat, i: nat, c: Claim, broken: set<nat>)
    | Release(k: nat, i: nat, c: Claim)
    | Touch(i: nat, phase: Phase, deleting: bool)
    | Create(m: Machine)

  function Blanked(objs: seq<Machine>): (r: seq<Machine>) {
    seq(|objs|, i requires 0 <= i < |objs| => objs[i].(rv := NoVersion))
  }

  predicate HeldByOther(m: Machine, c: Claim) { m.claim != NoId && m.claim != c.name }

  function BindStep(s: Sys, listed: Machine, c: Claim, broken: set<nat>): (r: Sys) {
    var (store, outcome) := TryBind(s.store, listed, c, broken);
    var over := outcome == Bound && listed.name < |s.store.objs| && HeldByOther(s.store.objs[listed.name], c);
    Sys(store, s.views, s.rebound || over)
  }

  /** releaseMachineClaim for Retain: the labels go, if the listing shows them ours. */
  function ReleaseStep(s: Sys, listed: Machine, c: Claim): (r: Sys) {
    if listed.claim != c.name || c.name == NoId || listed.name >= |s.store.objs| then s
    else
      var m := s.store.objs[listed.name];
      s.(store := Write(s.store, listed.name, m.(claim := NoId, state := NoState, pool := NoId)))
  }

  function Step(s: Sys, a: Act): (r: Sys) {
    match a
    case List(k, withVersions) =>
      if k >= |s.views| then s
      else s.(views := s.views[k := if withVersions then s.store.objs else Blanked(s.store.objs)])
    case BindFrom(k, i, c, broken) =>
      if k < |s.views| && i < |s.views[k]| && Candidate(c, s.views[k][i])
      then BindStep(s, s.views[k][i], c, broken) else s
    case Release(k, i, c) =>
      if k < |s.views| && i < |s.views[k]| then ReleaseStep(s, s.views[k][i], c) else s
    case Touch(i, phase, deleting) =>
      if i < |s.store.objs|
      then s.(store := Write(s.store, i,
                             s.store.objs[i].(phase := phase, deleting := s.store.objs[i].deleting || deleting)))
      else s
    case Create(m) =>
      var made := m.(name := |s.store.objs|, rv := s.store.clock + 1, claim := NoId, state := Warm, deleting := false);
      s.(store := Store(s.store.objs + [made], s.store.clock + 1))
  }

  function Run(s: Sys, acts: seq<Act>): (r: Sys)
    decreases |acts|
  {
    if acts == [] then s else Run(Step(s, acts[0]), acts[1..])
  }
}
