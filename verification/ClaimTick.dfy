/** What the claim pass does with a listing that is still current, and its handoff to the
    pool pass of the same tick. */
module ClaimTick {

  import opened Options
  import opened Claims
  import opened ClaimStore
  import opened Sorting
  import opened Pools

  // -------------------------------------------------------------- candidates

  lemma {:induction false} ReadyHas(c: Claim, listing: seq<Machine>, bound: set<nat>, m: Machine)
    ensures m in Ready(c, listing, bound) <==> m in listing && WarmReady(c, m, bound)
  {
    if listing != [] {
      ReadyHas(c, listing[..|listing| - 1], bound, m);
      assert listing == listing[..|listing| - 1] + [listing[|listing| - 1]];
    }
  }

  lemma {:induction false} EligibleHas(c: Claim, ms: seq<Machine>, m: Machine)
    ensures m in Eligible(c, ms) <==> m in ms && EligibleWarm(c, m)
  {
    if ms != [] {
      EligibleHas(c, ms[..|ms| - 1], m);
      assert ms == ms[..|ms| - 1] + [ms[|ms| - 1]];
    }
  }

  lemma {:induction false} CandidatesAre(c: Claim, listing: seq<Machine>, bound: set<nat>, m: Machine)
    ensures m in Candidates(c, listing, bound) <==> m in listing && Candidate(c, m) && m.name !in bound
  {
    EligibleHas(c, SortBy(Ready(c, listing, bound), BornOf), m);
    SortByHas(Ready(c, listing, bound), BornOf, m);
    ReadyHas(c, listing, bound, m);
  }

  lemma {:induction false} EligibleSorted(c: Claim, ms: seq<Machine>)
    requires Sorted(ms, BornOf)
    ensures Sorted(Eligible(c, ms), BornOf)
  {
    if ms != [] {
      var front, last := ms[..|ms| - 1], ms[|ms| - 1];
      EligibleSorted(c, front);
      forall y | y in Eligible(c, front) ensures BornOf(y) <= BornOf(last) {
        EligibleHas(c, front, y);
        SortedFront(ms, BornOf, y);
      }
      SortedSnoc(Eligible(c, front), last, BornOf);
      assert Eligible(c, front) + [] == Eligible(c, front);
    }
  }

  /** The first member tried is the oldest of those the claim may take. */
  lemma {:induction false} OldestFirst(c: Claim, listing: seq<Machine>, bound: set<nat>, m: Machine)
    requires m in listing && Candidate(c, m) && m.name !in bound
    ensures var cands := Candidates(c, listing, bound);
            cands != [] && cands[0] in listing && Candidate(c, cands[0]) && cands[0].name !in bound
            && cands[0].born <= m.born
  {
    var cands := Candidates(c, listing, bound);
    CandidatesAre(c, listing, bound, m);
    CandidatesAre(c, listing, bound, cands[0]);
    SortBySorts(Ready(c, listing, bound), BornOf);
    EligibleSorted(c, SortBy(Ready(c, listing, bound), BornOf));
    var i :| 0 <= i < |cands| && cands[i] == m;
    assert BornOf(cands[0]) <= BornOf(cands[i]);
  }

  // ---------------------------------------------------------- a current listing

  /** What a current listing has become while claims are served: bound this tick, or as
      listed, or given up by the claim that held it. */
  predicate Served(m: Machine, now: Machine, bound: set<nat>) {
    if m.name in bound then m.state == Warm && now.state == Taken && now.deleting == m.deleting
    else now == m || (m.claim != NoId && now.state != Warm)
  }

  predicate Serving(listing: seq<Machine>, p: Pass) {
    && Named(listing) && |listing| == |p.store.objs|
    && forall i :: 0 <= i < |listing| ==> Served(listing[i], p.store.objs[i], p.bound)
  }

  predicate Fresh(listing: seq<Machine>) {
    forall i :: 0 <= i < |listing| ==>
      && listing[i].name == i && listing[i].rv != NoVersion
      && (listing[i].state == Warm ==> listing[i].claim == NoId)
  }

  /** With a current listing the first member tried is the one bound. */
  lemma {:induction false} BindFirstServes(s: Store, cands: seq<Machine>, c: Claim, broken: set<nat>)
    requires Stored(s, cands) && forall m :: m in cands ==> m.name !in broken
    ensures BindFirst(s, cands, c, broken)
         == if cands == [] then Picked(s, None, true)
            else Picked(Write(s, cands[0].name, cands[0].(state := Taken, claim := c.name)), Some(cands[0].name), true)
  {
    if cands != [] { assert cands[0] in cands; }
  }

  lemma {:induction false} BindFirstStored(s: Store, cands: seq<Machine>, c: Claim, broken: set<nat>)
    requires Stored(s, cands)
    ensures var r := BindFirst(s, cands, c, broken);
            || (r.store == s && r.got == None)
            || (cands != [] && r.got == Some(cands[0].name)
                && r.store == Write(s, cands[0].name, cands[0].(state := Taken, claim := c.name)))
  {
    if cands != [] { assert cands[0] in cands; }
  }

  lemma {:induction false} CandidatesStored(p: Pass, listing: seq<Machine>, c: Claim)
    requires Fresh(listing) && Serving(listing, p)
    ensures Stored(p.store, Candidates(c, listing, p.bound))
  {
    forall m | m in Candidates(c, listing, p.bound)
      ensures m.name < |p.store.objs| && p.store.objs[m.name] == m
    {
      CandidatesAre(c, listing, p.bound, m);
      var i :| 0 <= i < |listing| && listing[i] == m;
      assert Served(listing[i], p.store.objs[i], p.bound);
    }
  }

  lemma {:induction false} ClaimStepServes(p: Pass, listing: seq<Machine>, c: Claim, e: ClaimEnv)
    requires Fresh(listing) && Serving(listing, p)
    ensures Serving(listing, ClaimStep(p, listing, c, e))
  {
    if !c.deleting && c.machine.None? {
      var cands := Candidates(c, listing, p.bound);
      CandidatesStored(p, listing, c);
      BindFirstStored(p.store, cands, c, e.broken);
      if cands != [] { CandidatesAre(c, listing, p.bound, cands[0]); }
    }
  }

  lemma {:induction false} ClaimPassServes(s: Store, listing: seq<Machine>, claims: seq<(Claim, ClaimEnv)>)
    requires Fresh(listing) && s.objs == listing
    ensures Serving(listing, ClaimPass(s, listing, claims))
    decreases |claims|
  {
    if claims != [] {
      ClaimPassServes(s, listing, claims[..|claims| - 1]);
      var c := claims[|claims| - 1];
      ClaimStepServes(ClaimPass(s, listing, claims[..|claims| - 1]), listing, c.0, c.1);
    }
  }

  // ------------------------------------------------------------- arrival order

  lemma {:induction false} PassPrefix(s: Store, listing: seq<Machine>, claims: seq<(Claim, ClaimEnv)>, n: nat)
    requires n <= |claims|
    ensures var early, late := ClaimPass(s, listing, claims[..n]), ClaimPass(s, listing, claims);
            early.got <= late.got && early.bound <= late.bound
    decreases |claims|
  {
    if n == |claims| {
      assert claims[..n] == claims;
    } else {
      PassPrefix(s, listing, claims[..|claims| - 1], n);
      assert claims[..|claims| - 1][..n] == claims[..n];
    }
  }

  /** A pending claim whose own calls succeed. */
  predicate Waiting(c: Claim, e: ClaimEnv) {
    !c.deleting && c.machine.None? && c.pool != NoId && (c.finalizer || e.finalizerLands) && e.broken == {}
  }

  /** A waiting claim goes without exactly when the listing holds no member for it that an
      earlier claim has not taken, and otherwise takes the oldest such member. */
  lemma {:induction false} ServedIff(s: Store, listing: seq<Machine>, claims: seq<(Claim, ClaimEnv)>, a: nat)
    requires Fresh(listing) && s.objs == listing && a < |claims| && Waiting(claims[a].0, claims[a].1)
    ensures var early := ClaimPass(s, listing, claims[..a]);
            var got := ClaimPass(s, listing, claims).got[a];
            var cands := Candidates(claims[a].0, listing, early.bound);
            got == (if cands == [] then None else Some(cands[0].name))
  {
    var early := ClaimPass(s, listing, claims[..a]);
    ClaimPassServes(s, listing, claims[..a]);
    CandidatesStored(early, listing, claims[a].0);
    BindFirstServes(early.store, Candidates(claims[a].0, listing, early.bound), claims[a].0, {});
    PassPrefix(s, listing, claims, a + 1);
    assert claims[..a + 1][..a] == claims[..a];
  }

  lemma {:induction false} GotWasFree(s: Store, listing: seq<Machine>, claims: seq<(Claim, ClaimEnv)>, b: nat)
    requires Fresh(listing) && s.objs == listing && b < |claims|
    requires ClaimPass(s, listing, claims).got[b].Some?
    ensures var m := ClaimPass(s, listing, claims).got[b].value;
            m < |listing| && m !in ClaimPass(s, listing, claims[..b]).bound
  {
    var early := ClaimPass(s, listing, claims[..b]);
    var c := claims[b];
    ClaimPassServes(s, listing, claims[..b]);
    PassPrefix(s, listing, claims, b + 1);
    assert claims[..b + 1][..b] == claims[..b];
    if !c.0.deleting && c.0.machine.None? {
      var cands := Candidates(c.0, listing, early.bound);
      CandidatesStored(early, listing, c.0);
      BindFirstStored(early.store, cands, c.0, c.1.broken);
      if cands != [] {
        CandidatesAre(c.0, listing, early.bound, cands[0]);
        var i :| 0 <= i < |listing| && listing[i] == cands[0];
      }
    }
  }

  /** Claims are served in arrival order: one that went without could not have used any
      Machine that a later one received. */
  lemma {:induction false} ArrivalOrder(s: Store, listing: seq<Machine>, claims: seq<(Claim, ClaimEnv)>, a: nat, b: nat)
    requires Fresh(listing) && s.objs == listing && a < b < |claims| && Waiting(claims[a].0, claims[a].1)
    requires var got := ClaimPass(s, listing, claims).got; got[a].None? && got[b].Some?
    ensures var m := ClaimPass(s, listing, claims).got[b].value;
            m < |listing| && !Candidate(claims[a].0, listing[m])
  {
    var m := ClaimPass(s, listing, claims).got[b].value;
    var early := ClaimPass(s, listing, claims[..a]);
    GotWasFree(s, listing, claims, b);
    PassPrefix(s, listing, claims[..b], a);
    assert claims[..b][..a] == claims[..a];
    ServedIff(s, listing, claims, a);
    CandidatesAre(claims[a].0, listing, early.bound, listing[m]);
    assert listing[m] in listing;
  }

  /** No Machine is bound twice in a tick. */
  lemma {:induction false} BoundOnce(s: Store, listing: seq<Machine>, claims: seq<(Claim, ClaimEnv)>, a: nat, b: nat)
    requires Fresh(listing) && s.objs == listing && a < b < |claims|
    requires var got := ClaimPass(s, listing, claims).got; got[a].Some? && got[b].Some?
    ensures ClaimPass(s, listing, claims).got[a] != ClaimPass(s, listing, claims).got[b]
  {
    GotWasFree(s, listing, claims, b);
    PassPrefix(s, listing, claims, a + 1);
    PassPrefix(s, listing, claims[..b], a + 1);
    assert claims[..b][..a + 1] == claims[..a + 1];
    assert claims[..a + 1][..a] == claims[..a];
  }

  predicate AnyCandidate(c: Claim, listing: seq<Machine>) {
    exists i :: 0 <= i < |listing| && Candidate(c, listing[i])
  }

  /** A claim that already labelled a Machine but whose status write was lost takes a
      second one exactly when there is a member for it: only status is consulted. */
  lemma {:induction false} LostStatusBindsAgain(s: Store, c: Claim, e: ClaimEnv, i: nat)
    requires Fresh(s.objs) && Waiting(c, e) && i < |s.objs| && c.name != NoId && s.objs[i].claim == c.name
    ensures var r := ReconcileClaim(s, s.objs, {}, c, e);
            && (r.got.Some? <==> AnyCandidate(c, s.objs))
            && (r.got.Some? ==>
                  && r.got.value != i && r.got.value < |s.objs|
                  && r.store.objs[i].claim == c.name && r.store.objs[r.got.value].claim == c.name)
  {
    var p := Pass(s, {}, []);
    var cands := Candidates(c, s.objs, {});
    CandidatesStored(p, s.objs, c);
    BindFirstServes(s, cands, c, {});
    if cands != [] {
      CandidatesAre(c, s.objs, {}, cands[0]);
      var k :| 0 <= k < |s.objs| && s.objs[k] == cands[0];
    }
    if AnyCandidate(c, s.objs) {
      var k :| 0 <= k < |s.objs| && Candidate(c, s.objs[k]);
      CandidatesAre(c, s.objs, {}, s.objs[k]);
    }
  }

  const Elder := Machine(1, 0, 1, 1, Warm, NoId, 0, PhaseRunning, false, 0, NoId, NoId)
  const Younger := Elder.(name := 1, rv := 2, born := 1)
  const OneClaim := Claim(1, 7, 1, NoId, NoId, true, Delete, false, 0, false, None, None, 0, false, true)

  /** Two warm members and one claim whose status write is lost: it ends with both. */
  lemma {:induction false} LostStatusTakesTwo()
    ensures var e, s := ClaimEnv(true, {}, true), Store([Elder, Younger], 2);
            var first := ReconcileClaim(s, s.objs, {}, OneClaim, e);
            var second := ReconcileClaim(first.store, first.store.objs, {}, OneClaim, e);
            && first.got == Some(0) && second.got == Some(1) && |second.store.objs| == 2
            && second.store.objs[0].claim == second.store.objs[1].claim == OneClaim.name
  {
    var e, s := ClaimEnv(true, {}, true), Store([Elder, Younger], 2);
    var cands := Candidates(OneClaim, s.objs, {});
    OldestFirst(OneClaim, s.objs, {}, s.objs[0]);
    assert cands[0] == Elder;
    CandidatesStored(Pass(s, {}, []), s.objs, OneClaim);
    BindFirstServes(s, cands, OneClaim, {});
    var first := ReconcileClaim(s, s.objs, {}, OneClaim, e);
    assert first.got == Some(0) && first.store.objs[1] == Younger;
    assert Candidate(OneClaim, first.store.objs[1]);
    LostStatusBindsAgain(first.store, OneClaim, e, 0);
  }

  // ------------------------------------------------------------------- handoff

  lemma {:induction false} ServedHanded(listing: seq<Machine>, p: Pass)
    requires Fresh(listing) && Serving(listing, p)
    ensures Agrees(listing, p.store, p.bound)
  {
    forall i | 0 <= i < |listing| ensures Handed(listing[i], p.store.objs[i], p.bound) {
      assert Served(listing[i], p.store.objs[i], p.bound);
    }
  }

  /** One tick from a current listing: whatever the claims took, the pool pass refills
      or trims to exactly the desired number of warm current members in the same tick,
      keeps as many running ones as fit, and deletes no Machine bound this tick. */
  lemma {:induction false} TickHandoff(s: Store, claims: seq<(Claim, ClaimEnv)>, p: Pool, e: PoolEnv)
    requires Fresh(s.objs)
    requires (p.finalizer || e.finalizerLands) && e.calls >= 2 * |s.objs| + Desired(p)
    ensures var pass := ReconcileClaims(s, s.objs, claims);
            var r := ReconcilePool(pass.store, s.objs, pass.bound, p, e);
            && r.ok
            && Count(p, WarmCurrent, r.store.objs) == Desired(p)
            && Count(p, WarmOutdated, r.store.objs) == 0
            && Count(p, WarmRunning, r.store.objs) == Least(Desired(p), Count(p, WarmRunning, pass.store.objs))
            && (forall i :: i in pass.bound && i < |s.objs| ==>
                  i < |r.store.objs| && r.store.objs[i] == pass.store.objs[i]
                  && r.store.objs[i].state == Taken && r.store.objs[i].deleting == s.objs[i].deleting)
  {
    var order := SortBy(claims, ArrivalOf);
    var pass := ReconcileClaims(s, s.objs, claims);
    ClaimPassServes(s, s.objs, order);
    ServedHanded(s.objs, pass);
    PoolLevels(pass.store, s.objs, pass.bound, p, e);
    forall i | i in pass.bound && i < |s.objs|
      ensures var r := ReconcilePool(pass.store, s.objs, pass.bound, p, e);
              i < |r.store.objs| && r.store.objs[i] == pass.store.objs[i]
    {
      PoolSpares(pass.store, s.objs, pass.bound, p, e, i);
    }
    forall i | i in pass.bound && i < |s.objs|
      ensures pass.store.objs[i].state == Taken && pass.store.objs[i].deleting == s.objs[i].deleting
    {
      assert Served(s.objs[i], pass.store.objs[i], pass.bound);
    }
  }
}
