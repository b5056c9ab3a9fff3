/** What the network tick leaves each guest with, proved against the fold of its loops. */
module NetworkOutcome {

  import opened NetworkPolicy

  // -------------------------------------------------- writes seen by one guest

  /** m is the only local Machine behind its runtime. */
  predicate Owns(c: Config, ms: seq<Machine>, m: Machine) {
    forall x :: x in ms && Here(c, x) && x.runtime == m.runtime ==> x == m
  }

  predicate OnlyName(ms: seq<Machine>, m: Machine) {
    forall x :: x in ms && x.ns == m.ns && x.name == m.name ==> x == m
  }

  predicate UniquePolicies(ps: seq<Policy>) {
    forall i, j :: 0 <= i < |ps| && 0 <= j < |ps| && SameObject(ps[i], ps[j]) ==> i == j
  }

  lemma {:induction false} PushEachAt(c: Config, p: Policy, ms: seq<Machine>, flux: Flux, m: Machine)
    requires Here(c, m) && m.runtime in flux && Owns(c, ms, m)
    ensures var r := PushEach(c, p, ms, {}, flux);
            r.ok && r.flux[m.runtime]
                 == if m in ms && Receives(c, p, m) then c.merge(p.rules, m.denies) else flux[m.runtime]
  {
    if ms != [] { PushEachAt(c, p, ms[..|ms| - 1], flux, m); }
  }

  lemma {:induction false} ReleaseEachAt(c: Config, p: Policy, ms: seq<Machine>, flux: Flux, m: Machine)
    requires Here(c, m) && m.runtime in flux && Owns(c, ms, m)
    ensures var r := ReleaseEach(c, p, ms, {}, flux);
            r.ok && r.flux[m.runtime] == if m in ms && Releases(c, p, m) then AllowAll else flux[m.runtime]
  {
    if ms != [] { ReleaseEachAt(c, p, ms[..|ms| - 1], flux, m); }
  }

  lemma {:induction false} NamesAre(c: Config, p: Policy, ms: seq<Machine>, m: Machine)
    requires Here(c, m) && m.ns == p.ns && OnlyName(ms, m)
    ensures m.name in Names(c, p, ms) <==> m in ms && Receives(c, p, m)
  {
    if ms != [] { NamesAre(c, p, ms[..|ms| - 1], m); }
  }

  lemma {:induction false} StaleIs(c: Config, p: Policy, ps: seq<Policy>, ms: seq<Machine>, name: Id, m: Machine)
    requires Here(c, m) && m in ms && Owns(c, ms, m) && OnlyName(ms, m)
    requires Stale(c, p, ps, ms, name)
    ensures Find(ms, p.ns, name).value.runtime == m.runtime
       <==> m.ns == p.ns && m.name == name && !Receives(c, p, m) && !AnotherClaims(ps, p, m)
  {
    if m.ns == p.ns { NamesAre(c, p, ms, m); }
  }

  lemma {:induction false} PruneEachAt(c: Config, p: Policy, ps: seq<Policy>, ms: seq<Machine>, prev: seq<Id>,
                                       flux: Flux, m: Machine)
    requires Here(c, m) && m.runtime in flux && m in ms && Owns(c, ms, m) && OnlyName(ms, m)
    ensures var r := PruneEach(c, p, ps, ms, prev, {}, flux);
            r.ok && r.flux[m.runtime]
                 == if m.ns == p.ns && m.name in prev && !Receives(c, p, m) && !AnotherClaims(ps, p, m)
                    then AllowAll else flux[m.runtime]
    decreases |prev|
  {
    if prev != [] {
      var name := prev[|prev| - 1];
      PruneEachAt(c, p, ps, ms, prev[..|prev| - 1], flux, m);
      if Stale(c, p, ps, ms, name) {
        StaleIs(c, p, ps, ms, name, m);
      } else if m.ns == p.ns && m.name == name {
        NamesAre(c, p, ms, m);
      }
    }
  }

  /** One policy's whole turn, as one guest sees it. */
  function Seen(c: Config, p: Policy, ps: seq<Policy>, m: Machine, before: VmPolicy): (r: VmPolicy) {
    if !p.deleting && Receives(c, p, m) then c.merge(p.rules, m.denies)
    else if Frees(c, p, ps, m) then AllowAll
    else before
  }

  lemma {:induction false} TurnAt(c: Config, p: Policy, ps: seq<Policy>, ms: seq<Machine>, flux: Flux, m: Machine)
    requires Here(c, m) && m.runtime in flux && m in ms && Owns(c, ms, m) && OnlyName(ms, m)
    ensures Turn(c, p, ps, ms, NoTrouble, flux).flux[m.runtime] == Seen(c, p, ps, m, flux[m.runtime])
  {
    if p.deleting {
      ReleaseEachAt(c, p, ms, flux, m);
    } else {
      PushEachAt(c, p, ms, flux, m);
      PruneEachAt(c, p, ps, ms, p.applied, PushEach(c, p, ms, {}, flux).flux, m);
    }
  }

  function SeenAll(c: Config, todo: seq<Policy>, ps: seq<Policy>, m: Machine, before: VmPolicy): (r: VmPolicy)
    decreases |todo|
  {
    if todo == [] then before
    else Seen(c, todo[|todo| - 1], ps, m, SeenAll(c, todo[..|todo| - 1], ps, m, before))
  }

  lemma {:induction false} TurnsAt(c: Config, todo: seq<Policy>, ps: seq<Policy>, ms: seq<Machine>, flux: Flux,
                                   m: Machine)
    requires Here(c, m) && m.runtime in flux && m in ms && Owns(c, ms, m) && OnlyName(ms, m)
    ensures Turns(c, todo, ps, ms, NoTrouble, flux)[m.runtime] == SeenAll(c, todo, ps, m, flux[m.runtime])
    decreases |todo|
  {
    if todo != [] {
      TurnsAt(c, todo[..|todo| - 1], ps, ms, flux, m);
      TurnAt(c, todo[|todo| - 1], ps, ms, Turns(c, todo[..|todo| - 1], ps, ms, NoTrouble, flux), m);
    }
  }

  // ----------------------------------------------------- closed form of the loop

  /** While somebody claims a running Machine, nobody resets it for having dropped it. */
  lemma {:induction false} ClaimedNotDropped(c: Config, ps: seq<Policy>, p: Policy, m: Machine)
    requires p in ps && UniquePolicies(ps) && m.running && AnyClaims(ps, m) && !p.deleting
    ensures !Frees(c, p, ps, m)
  {
    var k := LastClaim(ps, m);
    var j :| 0 <= j < |ps| && ps[j] == p;
    if SameObject(ps[k], p) { assert k == j; } else { assert AnotherClaims(ps, p, m); }
  }

  lemma {:induction false} ClaimedLoop(c: Config, n: nat, ps: seq<Policy>, m: Machine, before: VmPolicy)
    requires n <= |ps| && UniquePolicies(ps) && Here(c, m) && m.running && AnyClaims(ps, m)
    requires n > LastClaim(ps, m)
    ensures SeenAll(c, ps[..n], ps, m, before)
         == var k := LastClaim(ps, m);
            if ReleasedAfter(c, ps[..n], k, m) then AllowAll else c.merge(ps[k].rules, m.denies)
  {
    var k := LastClaim(ps, m);
    var todo := ps[..n];
    var p := todo[n - 1];
    assert todo[..n - 1] == ps[..n - 1] && p in ps;
    if !p.deleting { ClaimedNotDropped(c, ps, p, m); }
    if n - 1 > k {
      ClaimedLoop(c, n - 1, ps, m, before);
      ReleasedExtends(c, ps, k, n, m);
    }
  }

  lemma {:induction false} ReleasedExtends(c: Config, ps: seq<Policy>, k: nat, n: nat, m: Machine)
    requires k < n - 1 < n <= |ps|
    ensures ReleasedAfter(c, ps[..n], k, m)
       <==> ReleasedAfter(c, ps[..n - 1], k, m)
            || (ps[n - 1].deleting && ps[n - 1].finalizer && Releases(c, ps[n - 1], m))
  {
    var a, b := ps[..n], ps[..n - 1];
    if ReleasedAfter(c, b, k, m) {
      var j :| k < j < |b| && b[j].deleting && b[j].finalizer && Releases(c, b[j], m);
      assert a[j] == b[j];
    }
    if ReleasedAfter(c, a, k, m) {
      var j :| k < j < |a| && a[j].deleting && a[j].finalizer && Releases(c, a[j], m);
      assert j < n - 1 ==> b[j] == a[j];
    }
    assert a[n - 1] == ps[n - 1];
  }

  predicate FreedBefore(c: Config, n: nat, ps: seq<Policy>, m: Machine) {
    exists k :: 0 <= k < n && k < |ps| && Frees(c, ps[k], ps, m)
  }

  lemma {:induction false} UnclaimedLoop(c: Config, n: nat, ps: seq<Policy>, m: Machine, before: VmPolicy)
    requires n <= |ps| && (!m.running || !AnyClaims(ps, m))
    ensures SeenAll(c, ps[..n], ps, m, before) == if FreedBefore(c, n, ps, m) then AllowAll else before
  {
    if n > 0 {
      assert ps[..n][..n - 1] == ps[..n - 1];
      UnclaimedLoop(c, n - 1, ps, m, before);
      if FreedBefore(c, n, ps, m) && !Frees(c, ps[n - 1], ps, m) {
        var k :| 0 <= k < n && Frees(c, ps[k], ps, m);
        assert k < n - 1;
      }
    }
  }

  lemma {:induction false} DenyPassAt(c: Config, ps: seq<Policy>, ms: seq<Machine>, down: set<Id>, flux: Flux,
                                      m: Machine)
    requires Here(c, m) && m.runtime in flux && Owns(c, ms, m)
    ensures DenyPass(c, ps, ms, down, flux)[m.runtime]
         == if m in ms && Unclaimed(c, ps, m) && m.runtime !in down then DenyAll else flux[m.runtime]
  {
    if ms != [] { DenyPassAt(c, ps, ms[..|ms| - 1], down, flux, m); }
  }

  lemma {:induction false} FencePassAt(c: Config, ps: seq<Policy>, ms: seq<Machine>, down: set<Id>, flux: Flux,
                                       m: Machine)
    requires Here(c, m) && m.runtime in flux && Owns(c, ms, m)
    ensures FencePass(c, ps, ms, down, flux)[m.runtime]
         == if m in ms && Fenced(c, ps, m) && m.runtime !in down then FenceOf(c, m) else flux[m.runtime]
  {
    if ms != [] { FencePassAt(c, ps, ms[..|ms| - 1], down, flux, m); }
  }

  // ---------------------------------------------------------------- theorems

  /** A tick in which no call fails leaves every local guest with its declarative
      outcome, whatever its power state and whichever policies are being deleted. */
  lemma {:induction false} TickOutcome(c: Config, ps: seq<Policy>, ms: seq<Machine>, flux: Flux, m: Machine)
    requires UniquePolicies(ps)
    requires Here(c, m) && m.runtime in flux && m in ms && Owns(c, ms, m) && OnlyName(ms, m)
    ensures Tick(c, ps, ms, NoTrouble, flux)[m.runtime] == Outcome(c, ps, m, flux[m.runtime])
  {
    var pushed := Turns(c, ps, ps, ms, NoTrouble, flux);
    TurnsAt(c, ps, ps, ms, flux, m);
    assert ps[..|ps|] == ps;
    if m.running && AnyClaims(ps, m) {
      ClaimedLoop(c, |ps|, ps, m, flux[m.runtime]);
    } else {
      UnclaimedLoop(c, |ps|, ps, m, flux[m.runtime]);
      assert FreedBefore(c, |ps|, ps, m) <==> AnyFrees(c, ps, m);
    }
    DenyPassAt(c, ps, ms, {}, pushed, m);
    FencePassAt(c, ps, ms, {}, if c.defaultDeny then DenyPass(c, ps, ms, {}, pushed) else pushed, m);
  }

  predicate Listed(ps: seq<Policy>, m: Machine) {
    exists k :: 0 <= k < |ps| && ps[k].ns == m.ns && m.name in ps[k].applied
  }

  /** With no policy being deleted, a running guest ends with the last policy that claims
      it; unclaimed, with its tenant fence, else with default deny, else reset if some
      policy had listed it, else as it was. */
  lemma {:induction false} SettledTick(c: Config, ps: seq<Policy>, ms: seq<Machine>, flux: Flux, m: Machine)
    requires UniquePolicies(ps) && forall p :: p in ps ==> !p.deleting
    requires Here(c, m) && m.running && m.runtime in flux && m in ms && Owns(c, ms, m) && OnlyName(ms, m)
    ensures Tick(c, ps, ms, NoTrouble, flux)[m.runtime]
         == if AnyClaims(ps, m) then c.merge(ps[LastClaim(ps, m)].rules, m.denies)
            else if m.wantsFence && m.denies != [] then FenceOf(c, m)
            else if c.defaultDeny then DenyAll
            else if Listed(ps, m) then AllowAll
            else flux[m.runtime]
  {
    TickOutcome(c, ps, ms, flux, m);
    if !AnyClaims(ps, m) {
      if Listed(ps, m) {
        var k :| 0 <= k < |ps| && ps[k].ns == m.ns && m.name in ps[k].applied;
        assert Frees(c, ps[k], ps, m);
      }
      if AnyFrees(c, ps, m) {
        var k :| 0 <= k < |ps| && Frees(c, ps[k], ps, m);
        assert ps[k] in ps;
        assert ps[k].ns == m.ns && m.name in ps[k].applied;
      }
    }
  }

  /** A running guest keeps the rules of its last claiming policy exactly when no later
      policy of the list is a deleting one that still selects it. */
  lemma {:induction false} LaterDeletionWins(c: Config, ps: seq<Policy>, ms: seq<Machine>, flux: Flux, m: Machine)
    requires UniquePolicies(ps)
    requires Here(c, m) && m.running && m.runtime in flux && m in ms && Owns(c, ms, m) && OnlyName(ms, m)
    requires AnyClaims(ps, m) && c.merge(ps[LastClaim(ps, m)].rules, m.denies) != AllowAll
    ensures Tick(c, ps, ms, NoTrouble, flux)[m.runtime] == c.merge(ps[LastClaim(ps, m)].rules, m.denies)
       <==> !ReleasedAfter(c, ps, LastClaim(ps, m), m)
  {
    TickOutcome(c, ps, ms, flux, m);
  }

  /** A guest that is not Running is rewritten exactly when some turn frees it. The one
      policy that still selects it counts as having dropped it, so a paused guest loses
      the rules it had. */
  lemma {:induction false} NotRunningTick(c: Config, ps: seq<Policy>, ms: seq<Machine>, flux: Flux, m: Machine, k: nat)
    requires UniquePolicies(ps) && k < |ps|
    requires Here(c, m) && !m.running && m.runtime in flux && m in ms && Owns(c, ms, m) && OnlyName(ms, m)
    ensures Tick(c, ps, ms, NoTrouble, flux)[m.runtime] == if AnyFrees(c, ps, m) then AllowAll else flux[m.runtime]
    ensures Claims(ps[k], m) && m.name in ps[k].applied && !AnotherClaims(ps, ps[k], m) ==> AnyFrees(c, ps, m)
  {
    TickOutcome(c, ps, ms, flux, m);
    assert Claims(ps[k], m) && m.name in ps[k].applied && !AnotherClaims(ps, ps[k], m) ==> Frees(c, ps[k], ps, m);
  }

  /** The two later passes do not depend on any other call's success, to this guest or to
      others: a guest that nobody claims is fenced if the fence call reaches it, else denied
      if the deny call does. */
  lemma {:induction false} UnclaimedDespiteTrouble(c: Config, ps: seq<Policy>, ms: seq<Machine>, t: Trouble,
                                                   flux: Flux, m: Machine)
    requires Here(c, m) && m.runtime in flux && m in ms && Owns(c, ms, m) && Unclaimed(c, ps, m)
    ensures Tick(c, ps, ms, t, flux)[m.runtime]
         == if Fenced(c, ps, m) && m.runtime !in t.fence then FenceOf(c, m)
            else if c.defaultDeny && m.runtime !in t.deny then DenyAll
            else Turns(c, ps, ps, ms, t, flux)[m.runtime]
  {
    var pushed := Turns(c, ps, ps, ms, t, flux);
    DenyPassAt(c, ps, ms, t.deny, pushed, m);
    FencePassAt(c, ps, ms, t.fence, if c.defaultDeny then DenyPass(c, ps, ms, t.deny, pushed) else pushed, m);
  }

  predicate NotOurs(c: Config, ms: seq<Machine>, rt: Id) {
    forall x :: x in ms && Here(c, x) ==> x.runtime != rt
  }

  /** Runtimes that belong to no local Machine are never written, whatever fails. */
  lemma {:induction false} ForeignUntouched(c: Config, ps: seq<Policy>, ms: seq<Machine>, t: Trouble, flux: Flux,
                                            rt: Id)
    requires NotOurs(c, ms, rt) && rt in flux
    ensures Tick(c, ps, ms, t, flux)[rt] == flux[rt]
  {
    ForeignTurns(c, ps, ps, ms, t, flux, rt);
    var pushed := Turns(c, ps, ps, ms, t, flux);
    ForeignPasses(c, ps, ms, t.deny, pushed, rt);
    ForeignPasses(c, ps, ms, t.fence, if c.defaultDeny then DenyPass(c, ps, ms, t.deny, pushed) else pushed, rt);
  }

  lemma {:induction false} ForeignPasses(c: Config, ps: seq<Policy>, ms: seq<Machine>, down: set<Id>, flux: Flux,
                                         rt: Id)
    requires NotOurs(c, ms, rt) && rt in flux
    ensures DenyPass(c, ps, ms, down, flux)[rt] == flux[rt]
    ensures FencePass(c, ps, ms, down, flux)[rt] == flux[rt]
  {
    if ms != [] { ForeignPasses(c, ps, ms[..|ms| - 1], down, flux, rt); }
  }

  lemma {:induction false} ForeignLoops(c: Config, p: Policy, ms: seq<Machine>, down: set<Id>, flux: Flux, rt: Id)
    requires NotOurs(c, ms, rt) && rt in flux
    ensures PushEach(c, p, ms, down, flux).flux[rt] == flux[rt]
    ensures ReleaseEach(c, p, ms, down, flux).flux[rt] == flux[rt]
  {
    if ms != [] { ForeignLoops(c, p, ms[..|ms| - 1], down, flux, rt); }
  }

  lemma {:induction false} ForeignPrune(c: Config, p: Policy, ps: seq<Policy>, ms: seq<Machine>, prev: seq<Id>,
                                        down: set<Id>, flux: Flux, rt: Id)
    requires NotOurs(c, ms, rt) && rt in flux
    ensures PruneEach(c, p, ps, ms, prev, down, flux).flux[rt] == flux[rt]
    decreases |prev|
  {
    if prev != [] { ForeignPrune(c, p, ps, ms, prev[..|prev| - 1], down, flux, rt); }
  }

  lemma {:induction false} ForeignTurns(c: Config, todo: seq<Policy>, ps: seq<Policy>, ms: seq<Machine>, t: Trouble,
                                        flux: Flux, rt: Id)
    requires NotOurs(c, ms, rt) && rt in flux
    ensures Turns(c, todo, ps, ms, t, flux)[rt] == flux[rt]
    decreases |todo|
  {
    if todo != [] {
      var p, f := todo[|todo| - 1], Turns(c, todo[..|todo| - 1], ps, ms, t, flux);
      ForeignTurns(c, todo[..|todo| - 1], ps, ms, t, flux, rt);
      var down := t.turn(p.ns, p.name);
      ForeignLoops(c, p, ms, down, f, rt);
      ForeignPrune(c, p, ps, ms, p.applied, down, PushEach(c, p, ms, down, f).flux, rt);
    }
  }

  // ------------------------------------------------------------ concrete inputs

  const Site := Config(1, false, (pol: VmPolicy, denies: seq<nat>) => pol)
  const Guest := Machine(1, 1, 1, 5, true, 9, false, [])
  const Current := Policy(1, 1, false, true, 1, {}, VmPolicy(false, [8]), [1])
  const Leaving := Policy(1, 2, true, true, 1, {}, AllowAll, [1])

  /** A deleting policy listed after the current one resets the guest both select; listed
      before it, it does not. */
  lemma {:induction false} DeletionOrderMatters()
    ensures Tick(Site, [Current, Leaving], [Guest], NoTrouble, map[9 := Current.rules])[9] == AllowAll
    ensures Tick(Site, [Leaving, Current], [Guest], NoTrouble, map[9 := AllowAll])[9] == Current.rules
  {
    var late, early := [Current, Leaving], [Leaving, Current];
    assert Claims(late[0], Guest) && Claims(early[1], Guest);
    assert late[1].deleting && Releases(Site, late[1], Guest);
    TickOutcome(Site, late, [Guest], map[9 := Current.rules], Guest);
    TickOutcome(Site, early, [Guest], map[9 := AllowAll], Guest);
  }

  /** A paused guest loses the rules of the one policy that selects it. */
  lemma {:induction false} PausedLosesRules()
    ensures var paused := Guest.(running := false);
            Tick(Site, [Current], [paused], NoTrouble, map[9 := Current.rules])[9] == AllowAll
  {
    var paused := Guest.(running := false);
    NotRunningTick(Site, [Current], [paused], map[9 := Current.rules], paused, 0);
  }
}
