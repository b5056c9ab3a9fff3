/** The claim and pool reconcilers, as they relabel, create and delete Machines one API
    call at a time. */
module PoolControllers {

  import opened Options
  import opened Claims
  import opened ClaimStore
  import opened Sorting
  import opened Pools

  method WarmMembers(c: Claim, listing: seq<Machine>, bound: set<nat>) returns (ready: seq<Machine>)
    ensures ready == SortBy(Ready(c, listing, bound), BornOf)
  {
    ready := [];
    for i := 0 to |listing|
      invariant ready == Ready(c, listing[..i], bound)
    {
      var m := listing[i];
      assert listing[..i + 1][..|listing[..i + 1]| - 1] == listing[..i];
      if m.ns != c.ns || m.pool != c.pool || m.state != Warm || m.deleting || m.name in bound { continue; }
      if m.phase == PhaseRunning { ready := ready + [m]; }
    }
    assert listing[..|listing|] == listing;
    ready := SortBy(ready, BornOf);
  }

  method FilterEligible(c: Claim, ms: seq<Machine>) returns (filtered: seq<Machine>)
    ensures filtered == Eligible(c, ms)
  {
    filtered := [];
    for i := 0 to |ms|
      invariant filtered == Eligible(c, ms[..i])
    {
      assert ms[..i + 1][..|ms[..i + 1]| - 1] == ms[..i];
      if EligibleWarm(c, ms[i]) { filtered := filtered + [ms[i]]; }
    }
    assert ms[..|ms|] == ms;
  }

  class PoolController {
    var store: Store
    var bound: set<nat>

    /** bindMachine. */
    method BindMachine(c: Claim, m: Machine, broken: set<nat>) returns (outcome: BindOutcome)
      modifies this`store
      ensures (store, outcome) == TryBind(old(store), m, c, broken)
    {
      if m.name >= |store.objs| || m.name in broken { return Refused; }
      var current := store.objs[m.name];
      if m.rv != NoVersion && current.rv != m.rv { return Conflict; }
      store := Write(store, m.name, current.(state := Taken, claim := c.name));
      outcome := Bound;
    }

    method BindAny(c: Claim, cands: seq<Machine>, broken: set<nat>) returns (got: Option<nat>, ok: bool)
      modifies this`store
      ensures Picked(store, got, ok) == BindFirst(old(store), cands, c, broken)
    {
      for i := 0 to |cands|
        invariant store == old(store)
        invariant BindFirst(store, cands, c, broken) == BindFirst(store, cands[i..], c, broken)
      {
        var outcome := BindMachine(c, cands[i], broken);
        assert cands[i..][0] == cands[i] && cands[i..][1..] == cands[i + 1..];
        match outcome
        case Conflict =>
        case Refused => return None, false;
        case Bound => return Some(cands[i].name), true;
      }
      assert cands[|cands|..] == [];
      got, ok := None, true;
    }

    method ReconcileMachineClaim(c: Claim, listing: seq<Machine>, e: ClaimEnv) returns (got: Option<nat>, ok: bool)
      modifies this
      ensures Picked(store, got, ok) == ReconcileClaim(old(store), listing, old(bound), c, e)
      ensures bound == if got.Some? then old(bound) + {got.value} else old(bound)
    {
      if c.machine.Some? { return None, true; }
      if c.pool == NoId { return None, false; }
      if !c.finalizer && !e.finalizerLands { return None, false; }
      var ready := WarmMembers(c, listing, bound);
      var cands := FilterEligible(c, ready);
      got, ok := BindAny(c, cands, e.broken);
      if got.Some? { bound := bound + {got.value}; }
    }

    method ReleaseMachineClaim(c: Claim, listing: seq<Machine>, e: ClaimEnv)
      modifies this`store
      ensures store == ReleaseClaim(old(store), listing, c, e)
    {
      if !c.finalizer || !e.released || c.machine.None? { return; }
      var i := c.machine.value;
      if i >= |listing| || i >= |store.objs| { return; }
      if listing[i].claim != c.name || c.name == NoId || i in e.broken { return; }
      if c.reclaim == Retain {
        store := Write(store, i, store.objs[i].(claim := NoId, state := NoState, pool := NoId));
      } else if !listing[i].deleting {
        store := Write(store, i, store.objs[i].(deleting := true));
      }
    }

    /** The claim pass; `ArrivalOrder` and `TickHandoff` say what it does. */
    method ReconcileMachineClaims(claims: seq<(Claim, ClaimEnv)>, listing: seq<Machine>) returns (got: seq<Option<nat>>)
      modifies this
      ensures Pass(store, bound, got) == ReconcileClaims(old(store), listing, claims)
    {
      var order := SortBy(claims, ArrivalOf);
      bound, got := {}, [];
      for i := 0 to |order|
        invariant Pass(store, bound, got) == ClaimPass(old(store), listing, order[..i])
      {
        assert order[..i + 1][..|order[..i + 1]| - 1] == order[..i];
        var c, e := order[i].0, order[i].1;
        if c.deleting {
          ReleaseMachineClaim(c, listing, e);
          got := got + [None];
        } else {
          var one, ok := ReconcileMachineClaim(c, listing, e);
          got := got + [one];
        }
      }
      assert order[..|order|] == order;
    }

    method DeleteMembers(batch: seq<Machine>, calls: nat) returns (ok: bool)
      modifies this`store
      ensures Done(store, ok) == DeleteBatch(old(store), batch, calls)
    {
      for i := 0 to |batch|
        invariant i <= calls && store == DeleteFirst(old(store), batch, i)
      {
        if i == calls { return false; }
        var name := batch[i].name;
        if name < |store.objs| {
          store := Write(store, name, store.objs[name].(deleting := true));
        }
      }
      ok := true;
    }

    method CreateMembers(p: Pool, n: nat, calls: nat) returns (ok: bool)
      modifies this`store
      ensures Done(store, ok) == Done(CreateFirst(old(store), p, Least(calls, n)), Least(calls, n) == n)
    {
      for i := 0 to n
        invariant i <= calls && store == CreateFirst(old(store), p, i)
      {
        if i == calls { return false; }
        store := Store(store.objs + [Member(p, |store.objs|, store.clock + 1)], store.clock + 1);
      }
      ok := true;
    }

    method Partition(p: Pool, listing: seq<Machine>) returns (current: seq<Machine>, outdated: seq<Machine>)
      ensures current == CurrentOf(p, listing, bound) && outdated == OutdatedOf(p, listing, bound)
    {
      current, outdated := [], [];
      for i := 0 to |listing|
        invariant current == CurrentOf(p, listing[..i], bound) && outdated == OutdatedOf(p, listing[..i], bound)
      {
        var m := listing[i];
        assert listing[..i + 1][..|listing[..i + 1]| - 1] == listing[..i];
        if m.ns != p.ns || m.pool != p.name || m.deleting { continue; }
        if m.state != Warm || m.name in bound { continue; }
        if m.hash != p.hash {
          outdated := outdated + [m];
          continue;
        }
        current := current + [m];
      }
      assert listing[..|listing|] == listing;
    }

    method ReconcileMachinePool(p: Pool, listing: seq<Machine>, e: PoolEnv) returns (ok: bool)
      modifies this`store
      ensures Done(store, ok) == ReconcilePool(old(store), listing, bound, p, e)
    {
      var desired := if p.replicas < 0 then 0 else p.replicas;
      var current, outdated := Partition(p, listing);
      if !p.finalizer && !e.finalizerLands { return false; }
      ok := DeleteMembers(outdated, e.calls);
      if !ok { return; }
      if |current| < desired {
        ok := CreateMembers(p, desired - |current|, e.calls - |outdated|);
      } else {
        ok := DeleteMembers(Surplus(p, current), e.calls - |outdated|);
      }
    }
  }
}
