/** No interleaving of stale listings binds a Machine twice. */
module ClaimSafety {

  import opened Options
  import opened Claims
  import opened ClaimStore

  // ---------------------------------------------------------------- invariant

  predicate Sound(s: Store) {
    forall i :: 0 <= i < |s.objs| ==>
      && s.objs[i].name == i && NoVersion < s.objs[i].rv <= s.clock
      && (s.objs[i].state == Warm ==> s.objs[i].claim == NoId)
  }

  /** A listed copy: old, or exactly what is stored. A Machine once claimed stays with its
      claim or is released, and is never warm again. */
  predicate Copy(s: Store, i: nat, m: Machine) {
    && i < |s.objs| && m.name == i
    && NoVersion < m.rv <= s.clock
    && (m.rv == s.objs[i].rv ==> m == s.objs[i])
    && (m.state == Warm ==> m.claim == NoId)
    && (m.claim != NoId ==> s.objs[i].state != Warm && (s.objs[i].claim == m.claim || s.objs[i].claim == NoId))
  }

  /** What a write may do to the labels. */
  predicate Proper(was: Machine, now: Machine) {
    && now.name == was.name
    && (now.state == Warm ==> was.state == Warm && now.claim == NoId)
    && (now.claim == was.claim || now.claim == NoId || was.state == Warm)
  }

  predicate Copies(s: Store, view: seq<Machine>) {
    forall i :: 0 <= i < |view| ==> Copy(s, i, view[i])
  }

  predicate Inv(s: Sys) {
    && Sound(s.store)
    && (forall k :: 0 <= k < |s.views| ==> Copies(s.store, s.views[k]))
    && !s.rebound
  }

  predicate Versioned(a: Act) { a.List? ==> a.withVersions }

  /** A write leaves every listed copy old or exact. */
  lemma {:induction false} WriteCopies(s: Store, i: nat, m: Machine, view: seq<Machine>)
    requires Sound(s) && i < |s.objs| && Copies(s, view) && Proper(s.objs[i], m)
    ensures Sound(Write(s, i, m)) && Copies(Write(s, i, m), view)
  {
    var r := Write(s, i, m);
    forall j | 0 <= j < |view| ensures Copy(r, j, view[j]) {
      assert Copy(s, j, view[j]);
    }
  }

  lemma {:induction false} WriteKeeps(s: Sys, i: nat, m: Machine)
    requires Inv(s) && i < |s.store.objs| && Proper(s.store.objs[i], m)
    ensures Inv(s.(store := Write(s.store, i, m)))
  {
    WriteCopies(s.store, i, m, []);
    forall k | 0 <= k < |s.views| ensures Copies(Write(s.store, i, m), s.views[k]) {
      WriteCopies(s.store, i, m, s.views[k]);
    }
  }

  lemma {:induction false} BindKeeps(s: Sys, k: nat, i: nat, c: Claim, broken: set<nat>)
    requires Inv(s) && k < |s.views| && i < |s.views[k]| && Candidate(c, s.views[k][i])
    ensures Inv(BindStep(s, s.views[k][i], c, broken))
  {
    var listed := s.views[k][i];
    assert Copy(s.store, i, listed);
    if TryBind(s.store, listed, c, broken).1 == Bound {
      assert s.store.objs[i] == listed;
      WriteKeeps(s, i, s.store.objs[i].(state := Taken, claim := c.name));
    }
  }

  lemma {:induction false} CreateKeeps(s: Sys, m: Machine)
    requires Inv(s)
    ensures Inv(Step(s, Create(m)))
  {
    var r := Step(s, Create(m));
    forall k | 0 <= k < |r.views| ensures Copies(r.store, r.views[k]) {
      forall j | 0 <= j < |r.views[k]| ensures Copy(r.store, j, r.views[k][j]) {
        assert Copy(s.store, j, s.views[k][j]);
      }
    }
  }

  lemma {:induction false} ListKeeps(s: Sys, k: nat)
    requires Inv(s) && k < |s.views|
    ensures Inv(Step(s, List(k, true)))
  {
    var r := Step(s, List(k, true));
    assert Copies(s.store, s.store.objs);
    forall j | 0 <= j < |r.views| ensures Copies(r.store, r.views[j]) {
      if j != k { assert r.views[j] == s.views[j]; }
    }
  }

  lemma {:induction false} StepKeeps(s: Sys, a: Act)
    requires Inv(s) && Versioned(a)
    ensures Inv(Step(s, a))
  {
    match a
    case List(k, withVersions) => if k < |s.views| { ListKeeps(s, k); }
    case BindFrom(k, i, c, broken) =>
      if k < |s.views| && i < |s.views[k]| && Candidate(c, s.views[k][i]) { BindKeeps(s, k, i, c, broken); }
    case Release(k, i, c) =>
      if k < |s.views| && i < |s.views[k]| {
        assert Copy(s.store, i, s.views[k][i]);
        WriteKeeps(s, i, s.store.objs[i].(claim := NoId, state := NoState, pool := NoId));
      }
    case Touch(i, phase, deleting) =>
      if i < |s.store.objs| {
        WriteKeeps(s, i, s.store.objs[i].(phase := phase, deleting := s.store.objs[i].deleting || deleting));
      }
    case Create(m) => CreateKeeps(s, m);
  }

  lemma {:induction false} RunKeeps(s: Sys, acts: seq<Act>)
    requires Inv(s) && forall a :: a in acts ==> Versioned(a)
    ensures Inv(Run(s, acts))
    decreases |acts|
  {
    if acts != [] {
      assert Versioned(acts[0]);
      StepKeeps(s, acts[0]);
      RunKeeps(Step(s, acts[0]), acts[1..]);
    }
  }

  // ----------------------------------------------------------------- theorems

  /** Any number of controllers, listings however old: no bind ever lands on a Machine
      that another claim holds. */
  lemma {:induction false} ClaimedNeverRebound(s: Sys, acts: seq<Act>)
    requires Inv(s) && forall a :: a in acts ==> Versioned(a)
    ensures !Run(s, acts).rebound
  {
    RunKeeps(s, acts);
  }

  predicate Releases(a: Act, c: Id) { a.Release? && a.c.name == c }

  lemma {:induction false} StepHolds(s: Sys, a: Act, i: nat, holder: Id)
    requires Inv(s) && Versioned(a) && i < |s.store.objs| && holder != NoId
    requires s.store.objs[i].claim == holder && !Releases(a, holder)
    ensures i < |Step(s, a).store.objs| && Step(s, a).store.objs[i].claim == holder
  {
    if (a.BindFrom? || a.Release?) && a.k < |s.views| && a.i < |s.views[a.k]| {
      assert Copy(s.store, a.i, s.views[a.k][a.i]);
    }
  }

  /** Once a claim holds a Machine it keeps it over any run in which it is not released. */
  lemma {:induction false} HolderKeepsMachine(s: Sys, acts: seq<Act>, i: nat, holder: Id)
    requires Inv(s) && i < |s.store.objs| && holder != NoId && s.store.objs[i].claim == holder
    requires forall a :: a in acts ==> Versioned(a) && !Releases(a, holder)
    ensures i < |Run(s, acts).store.objs| && Run(s, acts).store.objs[i].claim == holder
    decreases |acts|
  {
    if acts != [] {
      assert acts[0] in acts;
      StepHolds(s, acts[0], i, holder);
      StepKeeps(s, acts[0]);
      HolderKeepsMachine(Step(s, acts[0]), acts[1..], i, holder);
    }
  }

  /** From a reachable state, a bind lands on a Machine held by another claim exactly when
      the listed copy carried no version, whatever the copy said. */
  lemma {:induction false} RebindsIffUnversioned(s: Sys, k: nat, i: nat, c: Claim, blank: bool)
    requires Inv(s) && k < |s.views| && i < |s.views[k]| && Candidate(c, s.views[k][i])
    requires HeldByOther(s.store.objs[i], c)
    ensures var listed := s.views[k][i].(rv := if blank then NoVersion else s.views[k][i].rv);
            BindStep(s, listed, c, {}).rebound <==> blank
  {
    assert Copy(s.store, i, s.views[k][i]);
  }

  const Idle := Machine(1, 0, 1, 1, Warm, NoId, 0, PhaseRunning, false, 0, NoId, NoId)

  function ClaimNamed(name: Id): (c: Claim) {
    Claim(1, name, 1, NoId, NoId, true, NoReclaim, false, 0, false, None, None, 0, false, true)
  }

  /** Two controllers list the same warm Machine without versions and bind it in turn. */
  lemma {:induction false} UnversionedListingsRebind()
    ensures var s := Sys(Store([Idle], 1), [[], []], false);
            Inv(s) && Run(s, [List(0, false), List(1, false), BindFrom(0, 0, ClaimNamed(2), {}),
                              BindFrom(1, 0, ClaimNamed(3), {})]).rebound
  {
    var s := Sys(Store([Idle], 1), [[], []], false);
    var a, b, c, d := List(0, false), List(1, false),
      BindFrom(0, 0, ClaimNamed(2), {}), BindFrom(1, 0, ClaimNamed(3), {});
    var s1 := Step(s, a);
    var s2 := Step(s1, b);
    assert s2.views == [Blanked([Idle]), Blanked([Idle])];
    var s3 := Step(s2, c);
    assert s3.store.objs[0].claim == 2;
    assert s3.views == s2.views;
    assert Step(s3, d).rebound;
    assert [a, b, c, d][1..] == [b, c, d] && [b, c, d][1..] == [c, d] && [c, d][1..] == [d] && [d][1..] == [];
    assert Run(s3, [d]) == Run(Step(s3, d), []);
    assert Run(s2, [c, d]) == Run(s3, [d]);
    assert Run(s1, [b, c, d]) == Run(s2, [c, d]);
  }
}
