/** The caps hold over every run, and the tick's counters never fall behind a recount. */
module MigrationCapsSafety {

  import M = Migration
  import opened MigrationCaps

  // --------------------------------------------------------------- invariant

  /** A listed copy not yet handled: the stored migration differs from it only if it
      was deleted, or if an agent moved it on from a phase agents own. */
  predicate Tracks(x: Slot, stored: Slot) {
    || stored.deleted
    || (&& stored.source == x.source && stored.target == x.target && stored.matches == x.matches
        && (stored.phase == x.phase || AgentOwned(x.phase)))
  }

  predicate InStep(s: Sys, caps: Caps) {
    s.tick.Tick? ==>
      && |s.tick.listing| <= |s.stored|
      && |s.tick.load.active| == |caps.policy|
      && forall i :: s.tick.next <= i < |s.tick.listing| ==> Tracks(s.tick.listing[i], s.stored[i])
  }

  /** The bound never to be passed: what was there at the start, or the cap. */
  function Bound(start: nat, cap: int): (b: int)
    ensures b >= start && b >= cap && (b == start || b == cap)
  {
    if start < cap then cap else start
  }

  predicate Inv(s: Sys, caps: Caps, sc: Scope, start: nat) {
    && InStep(s, caps)
    && (Cap(caps, sc) > 0 ==> Recount(s.stored, sc) <= Bound(start, Cap(caps, sc)))
    && (s.tick.Tick? && (sc.Under? ==> sc.k < |caps.policy|) ==>
          && Recount(s.stored, sc) <= Counted(s.tick.load, sc)
          && (Cap(caps, sc) > 0 ==> Counted(s.tick.load, sc) <= Bound(start, Cap(caps, sc))))
  }

  // ---------------------------------------------------------- counting lemmas

  function Bit(x: Slot, sc: Scope): (b: nat) { if Occupies(x, sc) then 1 else 0 }

  lemma {:induction false} RecountUpdate(xs: seq<Slot>, i: nat, y: Slot, sc: Scope)
    requires i < |xs|
    ensures Recount(xs[i := y], sc) == Recount(xs, sc) - Bit(xs[i], sc) + Bit(y, sc)
  {
    var front := xs[..|xs| - 1];
    if i == |xs| - 1 {
      assert xs[i := y][..|xs| - 1] == front;
    } else {
      RecountUpdate(front, i, y, sc);
      assert xs[i := y][..|xs| - 1] == front[i := y];
    }
  }

  lemma RecountAppend(xs: seq<Slot>, y: Slot, sc: Scope)
    ensures Recount(xs + [y], sc) == Recount(xs, sc) + Bit(y, sc)
  {
    assert (xs + [y])[..|xs + [y]| - 1] == xs;
  }

  lemma BumpCounts(byNode: map<M.Node, nat>, source: M.Node, target: M.Node, n: M.Node)
    ensures At(BumpRoute(byNode, source, target), n)
         == At(byNode, n) + if n != M.NoNode && (n == source || n == target) then 1 else 0
  {
  }

  lemma {:induction false} ListingCounts(xs: seq<Slot>, policies: nat, sc: Scope)
    requires sc.Under? ==> sc.k < policies
    ensures Counted(CountListing(xs, policies), sc) == Recount(xs, sc)
  {
    if xs != [] {
      ListingCounts(xs[..|xs| - 1], policies, sc);
      if sc.On? {
        var x := xs[|xs| - 1];
        BumpCounts(CountListing(xs[..|xs| - 1], policies).byNode, x.source, x.target, sc.n);
      }
    }
  }

  // ------------------------------------------------------------ preservation

  /** An admission was only given where the scope it occupies had room. */
  lemma AdmittedHadRoom(load: Load, caps: Caps, x: Slot, e: HandleEnv, sc: Scope)
    requires |load.active| == |caps.policy|
    requires sc.Under? ==> sc.k < |caps.policy|
    ensures Counted(load, sc) <= Counted(Charge(load, caps, x, e), sc) <= Counted(load, sc) + 1
    ensures Counted(Charge(load, caps, x, e), sc) > Counted(load, sc) ==> Room(load, caps, sc)
  {
    var v := Decide(load, caps, x, e);
    if v.Admitted? && sc.On? { BumpCounts(load.byNode, v.source, v.target, sc.n); }
  }

  /** Handling a listed copy adds at most what it charged. */
  lemma HandleCharges(load: Load, caps: Caps, x: Slot, stored: Slot, e: HandleEnv, sc: Scope)
    requires |load.active| == |caps.policy|
    requires sc.Under? ==> sc.k < |caps.policy|
    requires Tracks(x, stored)
    ensures Bit(Written(stored, x, Decide(load, caps, x, e), e), sc) - Bit(stored, sc)
         <= Counted(Charge(load, caps, x, e), sc) - Counted(load, sc)
  {
    AdmittedHadRoom(load, caps, x, e, sc);
    var v := Decide(load, caps, x, e);
    if v.Admitted? {
      if sc.On? { BumpCounts(load.byNode, v.source, v.target, sc.n); }
    } else if v.Moved? {
      assert stored.deleted || stored.phase == x.phase;
    }
  }

  /** Without a charge nothing is added, whether or not the scope is a known policy. */
  lemma HandleWithinBound(s: Sys, caps: Caps, e: HandleEnv, sc: Scope, start: nat)
    requires Inv(s, caps, sc, start)
    requires s.tick.Tick? && s.tick.next < |s.tick.listing|
    requires sc.Under? ==> sc.k < |caps.policy|
    ensures Inv(Handle(s, caps, e), caps, sc, start)
  {
    var i, load := s.tick.next, s.tick.load;
    var x := s.tick.listing[i];
    HandleCharges(load, caps, x, s.stored[i], e, sc);
    AdmittedHadRoom(load, caps, x, e, sc);
    RecountUpdate(s.stored, i, Written(s.stored[i], x, Decide(load, caps, x, e), e), sc);
  }

  lemma AgentKeeps(s: Sys, caps: Caps, i: nat, after: Slot, sc: Scope, start: nat)
    requires Inv(s, caps, sc, start)
    ensures Inv(Step(s, caps, AgentWrites(i, after)), caps, sc, start)
  {
    if i < |s.stored| && !s.stored[i].deleted && AgentMove(s.stored[i], after) {
      RecountUpdate(s.stored, i, after, sc);
    }
  }

  lemma ListingKeeps(s: Sys, caps: Caps, sc: Scope, start: nat)
    requires Inv(s, caps, sc, start) && (sc.Under? ==> sc.k < |caps.policy|)
    ensures Inv(s.(tick := Tick(s.stored, 0, CountListing(s.stored, |caps.policy|))), caps, sc, start)
  {
    ListingCounts(s.stored, |caps.policy|, sc);
  }

  lemma CreationKeeps(s: Sys, caps: Caps, x: Slot, sc: Scope, start: nat)
    requires Inv(s, caps, sc, start) && x.phase == M.Unset
    ensures Inv(s.(stored := s.stored + [x]), caps, sc, start)
  {
    RecountAppend(s.stored, x, sc);
  }

  lemma DeletionKeeps(s: Sys, caps: Caps, i: nat, sc: Scope, start: nat)
    requires Inv(s, caps, sc, start) && i < |s.stored|
    ensures Inv(s.(stored := s.stored[i := s.stored[i].(deleted := true)]), caps, sc, start)
  {
    RecountUpdate(s.stored, i, s.stored[i].(deleted := true), sc);
  }

  lemma StepKeeps(s: Sys, caps: Caps, a: Act, sc: Scope, start: nat)
    requires Inv(s, caps, sc, start)
    requires sc.Under? ==> sc.k < |caps.policy|
    ensures Inv(Step(s, caps, a), caps, sc, start)
  {
    match a
    case BeginTick => ListingKeeps(s, caps, sc, start);
    case HandleNext(e) =>
      if s.tick.Tick? && s.tick.next < |s.tick.listing| <= |s.stored| {
        HandleWithinBound(s, caps, e, sc, start);
      }
    case EndTick =>
    case AgentWrites(i, after) => AgentKeeps(s, caps, i, after, sc, start);
    case CreateMigration(matches) =>
      CreationKeeps(s, caps, Slot(M.Unset, M.NoNode, M.NoNode, matches, false), sc, start);
    case DeleteMigration(i) => if i < |s.stored| { DeletionKeeps(s, caps, i, sc, start); }
  }

  lemma {:induction false} RunKeeps(s: Sys, caps: Caps, acts: seq<Act>, sc: Scope, start: nat)
    requires Inv(s, caps, sc, start)
    requires sc.Under? ==> sc.k < |caps.policy|
    ensures Inv(Run(s, caps, acts), caps, sc, start)
    decreases |acts|
  {
    if acts != [] {
      StepKeeps(s, caps, acts[0], sc, start);
      RunKeeps(Step(s, caps, acts[0]), caps, acts[1..], sc, start);
    }
  }

  // ---------------------------------------------------------------- theorems

  /** Over any run, in any interleaving with agents and operators, no capped scope ever
      holds more migrations than it started with or than its cap allows. */
  lemma CapsHold(s: Sys, caps: Caps, acts: seq<Act>, sc: Scope)
    requires s.tick.NoTick?
    requires sc.Under? ==> sc.k < |caps.policy|
    requires Cap(caps, sc) > 0
    ensures Recount(Run(s, caps, acts).stored, sc) <= Bound(Recount(s.stored, sc), Cap(caps, sc))
  {
    RunKeeps(s, caps, acts, sc, Recount(s.stored, sc));
  }

  /** At every point of a tick the counters are at least what a recount of the stored
      migrations would give, in every scope. */
  lemma LoadOverApproximates(s: Sys, caps: Caps, acts: seq<Act>, sc: Scope)
    requires s.tick.NoTick?
    requires sc.Under? ==> sc.k < |caps.policy|
    ensures var r := Run(s, caps, acts);
            r.tick.Tick? ==> Recount(r.stored, sc) <= Counted(r.tick.load, sc)
  {
    RunKeeps(s, caps, acts, sc, Recount(s.stored, sc));
  }
}
