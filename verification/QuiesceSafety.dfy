/** What every run of the freeze/thaw protocol keeps, and when a guest stays frozen. */
module QuiesceSafety {

  import opened Quiesce

  // -------------------------------------------------------------- the volumes

  lemma {:induction false} SplitLast(vs: seq<Volume>)
    requires vs != []
    ensures var front, v := vs[..|vs| - 1], vs[|vs| - 1];
            && (NoneHalts(vs) <==> NoneHalts(front) && !Halts(v))
            && (SomeMade(vs) <==> SomeMade(front) || Makes(v))
            && (AllReady(vs) <==> AllReady(front) && IsReady(v))
  {
    var front, v := vs[..|vs| - 1], vs[|vs| - 1];
    assert vs == front + [v];
    assert forall k :: 0 <= k < |front| ==> front[k] == vs[k];
  }

  /** A pass that met no error reports what was made and whether everything is ready. */
  lemma {:induction false} TakeMeans(vs: seq<Volume>)
    ensures var t := Take(vs);
            && (t.stopped <==> !NoneHalts(vs))
            && (!t.stopped ==> (t.created <==> SomeMade(vs)) && (t.allReady <==> AllReady(vs)))
  {
    if vs != [] {
      TakeMeans(vs[..|vs| - 1]);
      SplitLast(vs);
    }
  }

  /** The recorded references are the volumes' readiness, in order. */
  lemma {:induction false} TakeRefs(vs: seq<Volume>)
    requires NoneHalts(vs)
    ensures |Take(vs).refs| == |vs| && forall k :: 0 <= k < |vs| ==> Take(vs).refs[k] == IsReady(vs[k])
  {
    if vs != [] {
      TakeRefs(vs[..|vs| - 1]);
      TakeMeans(vs[..|vs| - 1]);
    }
  }

  // ---------------------------------------------------------------- invariant

  /** A snapshot an annotation names still exists and still has its finalizer. */
  predicate Held(s: State, x: Id) { x != NoId ==> x in s.snaps && s.snaps[x].finalizer }

  predicate Inv(s: State) {
    && (s.frozen <==> s.status != NoId)
    && Held(s, s.request) && Held(s, s.status)
    && (s.gone ==> s.request == NoId && s.status == NoId)
    && NoId !in s.snaps
    && !s.ledger.tookUnfrozen && !s.ledger.droppedHeld
  }

  lemma {:induction false} FailKeeps(s: State, x: Id, e: Env)
    requires x in s.snaps && Inv(s)
    ensures Inv(Fail(s, x, e))
  {
  }

  lemma {:induction false} SetPhaseKeeps(s: State, x: Id, p: Phase, e: Env)
    requires x in s.snaps && Inv(s)
    ensures Inv(SetPhase(s, x, p, e))
  {
  }

  lemma {:induction false} RequestFreezeKeeps(s: State, x: Id, e: Env)
    requires x in s.snaps && Inv(s) && !s.gone
    ensures Inv(RequestFreeze(s, x, e))
  {
    FailKeeps(s, x, e);
    var s1 := s.(snaps := s.snaps[x := s.snaps[x].(finalizer := true)]);
    FailKeeps(s1, x, e);
    SetPhaseKeeps(s1.(request := x), x, Freezing, e);
  }

  lemma {:induction false} ConcludeKeeps(s: State, x: Id, t: Taking, e: Env)
    requires x in s.snaps && Inv(s)
    ensures Inv(Conclude(s, x, t, e))
  {
    FailKeeps(s, x, e);
    SetPhaseKeeps(s, x, Failed, e);
    SetPhaseKeeps(s.(request := NoId), x, Failed, e);
    SetPhaseKeeps(s.(request := NoId), x, Thawing, e);
    SetPhaseKeeps(s, x, if t.allReady then Succeeded else Pending, e);
  }

  lemma {:induction false} TakeVolumesKeeps(s: State, x: Id, confirmed: bool, e: Env)
    requires x in s.snaps && Inv(s)
    requires confirmed ==> s.status == x
    ensures Inv(TakeVolumes(s, x, confirmed, e))
  {
    assert TakeVolumes(s, x, confirmed, e) == Conclude(s, x, Take(e.volumes), e);
    ConcludeKeeps(s, x, Take(e.volumes), e);
  }

  lemma {:induction false} AwaitFreezeKeeps(s: State, x: Id, e: Env)
    requires x in s.snaps && Inv(s) && s.snaps[x].phase == Freezing && !s.gone
    ensures Inv(AwaitFreeze(s, x, e))
  {
    if s.request != x {
      RequestFreezeKeeps(s, x, e);
    } else if s.status == x {
      TakeVolumesKeeps(s, x, true, e);
    } else if e.timedOut {
      FailKeeps(s, x, e);
      FailKeeps(s.(request := NoId), x, e);
      TakeVolumesKeeps(s.(request := NoId), x, false, e);
    }
  }

  lemma {:induction false} DeletionKeeps(s: State, x: Id, e: Env)
    requires x in s.snaps && Inv(s)
    ensures Inv(Deletion(s, x, e))
  {
    FailKeeps(s, x, e);
  }

  lemma {:induction false} ReconcileKeeps(s: State, x: Id, e: Env)
    requires x in s.snaps && Inv(s)
    ensures Inv(Reconcile(s, x, e))
  {
    FailKeeps(s, x, e);
    if s.snaps[x].deleting {
      DeletionKeeps(s, x, e);
    } else if s.gone || !e.specOk {
    } else if !s.agentOn {
      TakeVolumesKeeps(s, x, false, e);
    } else if s.snaps[x].phase == Unset {
      RequestFreezeKeeps(s, x, e);
    } else if s.snaps[x].phase == Freezing {
      AwaitFreezeKeeps(s, x, e);
    } else if s.snaps[x].phase != Thawing || s.status == NoId {
      TakeVolumesKeeps(s, x, false, e);
    }
  }

  lemma {:induction false} StepKeeps(s: State, a: Act)
    requires Inv(s)
    ensures Inv(Step(s, a))
  {
    match a
    case ReconcileOne(x, e) => if x in s.snaps { ReconcileKeeps(s, x, e); }
    case ByAgent(ok) =>
    case Create(x) =>
    case Delete(x) =>
    case SetAgent(on) =>
    case SetActive(on) =>
    case MachineGone =>
    case MachineBack =>
  }

  lemma {:induction false} RunKeeps(s: State, acts: seq<Act>)
    requires Inv(s)
    ensures Inv(Run(s, acts))
    decreases |acts|
  {
    if acts != [] {
      StepKeeps(s, acts[0]);
      RunKeeps(Step(s, acts[0]), acts[1..]);
    }
  }

  // ------------------------------------------------------------ leaving Thawing

  /** A reconcile that takes a snapshot out of Thawing although the guest is frozen: what
      it names no longer resolves, the guest agent was switched off in the spec, or the
      deletion of a snapshot that holds nothing fails. */
  predicate Exits(s: State, x: Id, e: Env)
    requires x in s.snaps
  {
    && s.snaps[x].phase == Thawing && s.frozen
    && if s.snaps[x].deleting then
         && e.failedLands && s.snaps[x].finalizer
         && if s.request == x then !e.clearLands else s.status != x && !e.finalizerLands
       else if !e.specOk then e.failedLands
       else !s.agentOn && (e.failedLands || (e.statusLands && (Take(e.volumes).stopped ==> Take(e.volumes).viaAtlas)))
  }

  predicate ExitsIn(s: State, a: Act) { a.ReconcileOne? && a.x in s.snaps && Exits(s, a.x, a.e) }

  predicate ExitsDuring(s: State, acts: seq<Act>)
    decreases |acts|
  {
    acts != [] && (ExitsIn(s, acts[0]) || ExitsDuring(Step(s, acts[0]), acts[1..]))
  }

  lemma {:induction false} WithPhaseLeaves(s: State, x: Id, p: Phase)
    requires x in s.snaps && s.snaps[x].phase == Thawing && s.frozen && p != Thawing
    ensures WithPhase(s, x, p).snaps[x].phase == p && WithPhase(s, x, p).ledger.leftThawingFrozen
  {
  }

  lemma {:induction false} FailLeaves(s: State, x: Id, e: Env)
    requires x in s.snaps && s.snaps[x].phase == Thawing && s.frozen
    ensures Fail(s, x, e).snaps[x].phase != Thawing <==> e.failedLands
    ensures Fail(s, x, e).ledger.leftThawingFrozen == (s.ledger.leftThawingFrozen || e.failedLands)
  {
    WithPhaseLeaves(s, x, Failed);
  }

  lemma {:induction false} PhaseLeaves(s: State, x: Id, p: Phase, e: Env)
    requires x in s.snaps && s.snaps[x].phase == Thawing && s.frozen && p != Thawing
    ensures SetPhase(s, x, p, e).snaps[x].phase != Thawing <==> e.statusLands || e.failedLands
    ensures SetPhase(s, x, p, e).ledger.leftThawingFrozen
         == (s.ledger.leftThawingFrozen || e.statusLands || e.failedLands)
  {
    if e.statusLands {
      WithPhaseLeaves(s, x, p);
    } else {
      FailLeaves(s, x, e);
    }
  }

  lemma {:induction false} ConcludeLeaves(s: State, x: Id, t: Taking, e: Env)
    requires x in s.snaps && s.snaps[x].phase == Thawing && s.frozen
    ensures var r, exits := Conclude(s, x, t, e), e.failedLands || (e.statusLands && (t.stopped ==> t.viaAtlas));
            && (r.snaps[x].phase != Thawing <==> exits)
            && r.ledger.leftThawingFrozen == (s.ledger.leftThawingFrozen || exits)
  {
    FailLeaves(s, x, e);
    PhaseLeaves(s, x, Failed, e);
    PhaseLeaves(s, x, if t.allReady then Succeeded else Pending, e);
  }

  lemma {:induction false} TakeVolumesLeaves(s: State, x: Id, e: Env)
    requires x in s.snaps && s.snaps[x].phase == Thawing && s.frozen
    ensures var r, t := TakeVolumes(s, x, false, e), Take(e.volumes);
            var exits := e.failedLands || (e.statusLands && (t.stopped ==> t.viaAtlas));
            && (r.snaps[x].phase != Thawing <==> exits)
            && r.ledger.leftThawingFrozen == (s.ledger.leftThawingFrozen || exits)
  {
    assert TakeVolumes(s, x, false, e) == Conclude(s, x, Take(e.volumes), e);
    ConcludeLeaves(s, x, Take(e.volumes), e);
  }

  /** The snapshot is not in Thawing, or the guest is thawed. */
  predicate Calm(s: State, x: Id)
    requires x in s.snaps
  {
    s.snaps[x].phase != Thawing || !s.frozen
  }

  lemma {:induction false} CalmPhase(s: State, x: Id, p: Phase, e: Env)
    requires x in s.snaps && Calm(s, x)
    ensures SetPhase(s, x, p, e).ledger == Fail(s, x, e).ledger == s.ledger
  {
  }

  lemma {:induction false} CalmFreeze(s: State, x: Id, e: Env)
    requires x in s.snaps && Calm(s, x)
    ensures RequestFreeze(s, x, e).ledger == s.ledger
  {
    var s1 := s.(snaps := s.snaps[x := s.snaps[x].(finalizer := true)]);
    CalmPhase(s, x, Freezing, e);
    CalmPhase(s1, x, Freezing, e);
    CalmPhase(s1.(request := x), x, Freezing, e);
  }

  lemma {:induction false} CalmConclude(s: State, x: Id, t: Taking, e: Env)
    requires x in s.snaps && Calm(s, x)
    ensures Conclude(s, x, t, e).ledger == s.ledger
  {
    CalmPhase(s, x, Failed, e);
    CalmPhase(s, x, if t.allReady then Succeeded else Pending, e);
    CalmPhase(s.(request := NoId), x, Failed, e);
    CalmPhase(s.(request := NoId), x, Thawing, e);
  }

  lemma {:induction false} CalmTake(s: State, x: Id, confirmed: bool, e: Env)
    requires x in s.snaps && Calm(s, x)
    ensures TakeVolumes(s, x, confirmed, e).ledger.leftThawingFrozen == s.ledger.leftThawingFrozen
  {
    var t := Take(e.volumes);
    var s1 := s.(ledger := s.ledger.(tookUnfrozen :=
      s.ledger.tookUnfrozen || (t.created && confirmed && !s.frozen)));
    CalmConclude(s1, x, t, e);
  }

  lemma {:induction false} CalmAwait(s: State, x: Id, e: Env)
    requires x in s.snaps && Calm(s, x)
    ensures AwaitFreeze(s, x, e).ledger.leftThawingFrozen == s.ledger.leftThawingFrozen
  {
    CalmFreeze(s, x, e);
    CalmTake(s, x, true, e);
    CalmTake(s.(request := NoId), x, false, e);
    CalmPhase(s, x, Failed, e);
    CalmPhase(s.(request := NoId), x, Failed, e);
  }

  lemma {:induction false} CalmProgress(s: State, x: Id, e: Env)
    requires x in s.snaps && Calm(s, x)
    ensures Progress(s, x, e).ledger.leftThawingFrozen == s.ledger.leftThawingFrozen
  {
    if s.agentOn && s.snaps[x].phase == Unset {
      CalmFreeze(s, x, e);
    } else if s.agentOn && s.snaps[x].phase == Freezing {
      CalmAwait(s, x, e);
    } else {
      CalmTake(s, x, false, e);
    }
  }

  lemma {:induction false} CalmDeletion(s: State, x: Id, e: Env)
    requires x in s.snaps && Calm(s, x)
    ensures Deletion(s, x, e).ledger.leftThawingFrozen == s.ledger.leftThawingFrozen
  {
    CalmPhase(s, x, Failed, e);
  }

  lemma {:induction false} CalmLeaves(s: State, x: Id, e: Env)
    requires x in s.snaps && Calm(s, x)
    ensures Reconcile(s, x, e).ledger.leftThawingFrozen == s.ledger.leftThawingFrozen
  {
    if s.snaps[x].deleting {
      CalmDeletion(s, x, e);
    } else {
      CalmPhase(s, x, Failed, e);
      CalmProgress(s, x, e);
    }
  }

  lemma {:induction false} ThawingLeaves(s: State, x: Id, e: Env)
    requires Inv(s) && x in s.snaps && s.snaps[x].phase == Thawing && s.frozen
    ensures var r := Reconcile(s, x, e);
            && r.ledger.leftThawingFrozen == (s.ledger.leftThawingFrozen || Exits(s, x, e))
            && (x in r.snaps ==> (r.snaps[x].phase != Thawing <==> Exits(s, x, e)))
  {
    if !s.snaps[x].deleting && e.specOk && !s.agentOn {
      assert Reconcile(s, x, e) == TakeVolumes(s, x, false, e);
      TakeVolumesLeaves(s, x, e);
    }
  }

  lemma {:induction false} StepLeaves(s: State, a: Act)
    requires Inv(s)
    ensures Step(s, a).ledger.leftThawingFrozen == (s.ledger.leftThawingFrozen || ExitsIn(s, a))
  {
    if a.ReconcileOne? && a.x in s.snaps {
      if s.snaps[a.x].phase == Thawing && s.frozen {
        ThawingLeaves(s, a.x, a.e);
      } else {
        CalmLeaves(s, a.x, a.e);
      }
    }
  }

  lemma {:induction false} RunLeaves(s: State, acts: seq<Act>)
    requires Inv(s)
    ensures Run(s, acts).ledger.leftThawingFrozen == (s.ledger.leftThawingFrozen || ExitsDuring(s, acts))
    decreases |acts|
  {
    if acts != [] {
      StepLeaves(s, acts[0]);
      StepKeeps(s, acts[0]);
      RunLeaves(Step(s, acts[0]), acts[1..]);
    }
  }

  // ----------------------------------------------------------------- theorems

  /** Over any run: whoever holds the guest frozen still has its finalizer; no finalizer is
      dropped while an annotation names its snapshot; volume snapshots of the confirmed
      branch were taken while the guest was frozen; and Thawing was left with the guest
      frozen if and only if some reconcile met one of the named conditions. */
  lemma {:induction false} FreezeThawSafety(s: State, acts: seq<Act>)
    requires Start(s)
    ensures var r := Run(s, acts);
            && (r.request != NoId ==> r.request in r.snaps && r.snaps[r.request].finalizer)
            && (r.frozen ==> r.status in r.snaps && r.snaps[r.status].finalizer)
            && !r.ledger.droppedHeld && !r.ledger.tookUnfrozen
            && (r.ledger.leftThawingFrozen <==> ExitsDuring(s, acts))
  {
    RunKeeps(s, acts);
    RunLeaves(s, acts);
  }

  /** While the guest agent is enabled, a snapshot that is not being deleted leaves Thawing
      with the guest frozen exactly when its volumes stop resolving and the failure is
      recorded. */
  lemma {:induction false} ThawingLeftFrozenIff(s: State, x: Id, e: Env)
    requires Inv(s) && s.agentOn && x in s.snaps && !s.snaps[x].deleting
    requires s.snaps[x].phase == Thawing && s.status != NoId
    ensures Reconcile(s, x, e).snaps[x].phase != Thawing <==> !e.specOk && e.failedLands
  {
    ThawingLeaves(s, x, e);
  }

  /** With the guest agent switched off, or the Machine paused, nothing thaws the guest but
      the Machine's end. */
  lemma {:induction false} OffStaysFrozen(s: State, acts: seq<Act>)
    requires Inv(s) && s.frozen && !(s.agentOn && s.active)
    requires forall a :: a in acts ==> a != MachineGone && a != SetAgent(true) && a != SetActive(true)
    ensures Run(s, acts).frozen && Run(s, acts).status == s.status
    decreases |acts|
  {
    if acts != [] {
      assert acts[0] in acts;
      var s1 := Step(s, acts[0]);
      StepKeeps(s, acts[0]);
      if acts[0].ReconcileOne? && acts[0].x in s.snaps { assert s1.status == s.status; }
      assert forall a :: a in acts[1..] ==> a in acts;
      OffStaysFrozen(s1, acts[1..]);
    }
  }

  // ----------------------------------------------------------- concrete inputs

  const Good := Env(true, false, true, true, true, true, true, true, true, [Fresh(false, true)])
  const Bare := State(true, true, false, NoId, NoId, false, map[], Ledger(false, false, false))

  /** Create, ask and freeze. */
  const ToFrozen := [Create(1), ReconcileOne(1, Good), ByAgent(true)]

  lemma {:induction false} FrozenRun()
    ensures Start(Bare)
    ensures Run(Bare, ToFrozen)
         == Bare.(request := 1, status := 1, frozen := true, snaps := map[1 := Snap(Freezing, false, true)])
  {
    RunThree(Bare, Create(1), ReconcileOne(1, Good), ByAgent(true));
    var asked := Step(Step(Bare, Create(1)), ReconcileOne(1, Good));
    assert asked.request == 1 && asked.snaps == map[1 := Snap(Freezing, false, true)];
  }

  lemma {:induction false} TakenRun()
    ensures Run(Bare, ToFrozen + [ReconcileOne(1, Good)])
         == Bare.(status := 1, frozen := true, snaps := map[1 := Snap(Thawing, false, true)])
  {
    FrozenRun();
    var s := Run(Bare, ToFrozen);
    assert Good.volumes[..0] == [];
    assert Take(Good.volumes) == Taking(false, false, true, true, [true]);
    assert Reconcile(s, 1, Good) == TakeVolumes(s, 1, true, Good);
    assert TakeVolumes(s, 1, true, Good).snaps == map[1 := Snap(Thawing, false, true)];
    RunSplit(Bare, ToFrozen, ReconcileOne(1, Good));
  }

  /** Taken, and then the Machine loses the volume the snapshot names: Failed, although the
      guest is still frozen. */
  lemma {:induction false} ThawingFailsFrozen()
    ensures var taken := Run(Bare, ToFrozen + [ReconcileOne(1, Good)]);
            var left := Step(taken, ReconcileOne(1, Good.(specOk := false)));
            && Start(Bare) && 1 in taken.snaps && taken.snaps[1].phase == Thawing
            && 1 in left.snaps && left.snaps[1].phase == Failed && left.frozen && left.ledger.leftThawingFrozen
  {
    FrozenRun();
    TakenRun();
  }

  /** Taken, and then the guest agent is switched off: Succeeded, the guest still frozen. */
  lemma {:induction false} SwitchedOffSucceedsFrozen()
    ensures var taken := Run(Bare, ToFrozen + [ReconcileOne(1, Good)]);
            var left := Step(Step(taken, SetAgent(false)), ReconcileOne(1, Good.(volumes := [])));
            1 in left.snaps && left.snaps[1].phase == Succeeded && left.frozen && left.ledger.leftThawingFrozen
  {
    TakenRun();
    var off := Step(Run(Bare, ToFrozen + [ReconcileOne(1, Good)]), SetAgent(false));
    assert Reconcile(off, 1, Good.(volumes := [])) == TakeVolumes(off, 1, false, Good.(volumes := []));
  }

  /** Frozen, and every volume snapshot is there already: Succeeded, and the request stands. */
  lemma {:induction false} NothingMadeStaysFrozen()
    ensures var left := Step(Run(Bare, ToFrozen), ReconcileOne(1, Good.(volumes := [Existing(false, true)])));
            1 in left.snaps && left.snaps[1].phase == Succeeded && left.frozen && Abandoned(left, 1)
  {
    FrozenRun();
    var s, e := Run(Bare, ToFrozen), Good.(volumes := [Existing(false, true)]);
    assert e.volumes[..0] == [];
    assert Take(e.volumes) == Taking(false, false, false, true, [true]);
    assert Reconcile(s, 1, e) == TakeVolumes(s, 1, true, e);
  }

  /** Frozen, and then a volume snapshot cannot be created: Failed, and the request stands. */
  lemma {:induction false} ErrorFailsFrozen()
    ensures var left := Step(Run(Bare, ToFrozen), ReconcileOne(1, Good.(volumes := [CreateFailed])));
            1 in left.snaps && left.snaps[1].phase == Failed && left.frozen && Abandoned(left, 1)
  {
    FrozenRun();
    var s, e := Run(Bare, ToFrozen), Good.(volumes := [CreateFailed]);
    assert e.volumes[..0] == [];
    assert Take(e.volumes).stopped && !Take(e.volumes).viaAtlas;
    assert Reconcile(s, 1, e) == TakeVolumes(s, 1, true, e);
  }

  /** Over any run, while the Machine is not paused, one successful agent step with no
      standing request leaves the guest thawed, and with a standing one leaves it frozen for
      that snapshot. */
  lemma {:induction false} AgentThaws(s: State, acts: seq<Act>)
    requires Start(s)
    ensures var r := Run(s, acts + [ByAgent(true)]);
            r.agentOn && r.active && !r.gone ==>
              && (r.request == NoId ==> !r.frozen && r.status == NoId)
              && (r.request != NoId ==> r.frozen && r.status == r.request)
  {
    RunKeeps(s, acts);
    RunSplit(s, acts, ByAgent(true));
  }

  lemma {:induction false} RunSplit(s: State, acts: seq<Act>, a: Act)
    ensures Run(s, acts + [a]) == Step(Run(s, acts), a)
    decreases |acts|
  {
    if acts == [] {
      assert acts + [a] == [a];
      assert Run(s, [a]) == Run(Step(s, a), []);
    } else {
      assert (acts + [a])[1..] == acts[1..] + [a];
      RunSplit(Step(s, acts[0]), acts[1..], a);
    }
  }

  predicate Smooth(e: Env) {
    && e.specOk && e.finalizerLands && e.requestLands && e.clearLands && e.messageLands
    && e.thawLands && e.statusLands
  }

  /** Three steps that succeed, a reconcile, an agent step and a reconcile, remove a deleted
      snapshot whatever it held, unless the guest is frozen for it and the agent is
      switched off or the Machine paused; and the guest is then not frozen on its behalf. */
  lemma {:induction false} DeletionCompletes(s: State, x: Id, e: Env)
    requires Inv(s) && x in s.snaps && s.snaps[x].deleting && Smooth(e)
    ensures var r := Run(s, [ReconcileOne(x, e), ByAgent(true), ReconcileOne(x, e)]);
            && (x !in r.snaps <==> (s.agentOn && s.active) || s.status != x)
            && (x !in r.snaps ==> r.request != x && r.status != x)
  {
    var s1 := Step(s, ReconcileOne(x, e));
    var s2 := Step(s1, ByAgent(true));
    var s3 := Step(s2, ReconcileOne(x, e));
    RunThree(s, ReconcileOne(x, e), ByAgent(true), ReconcileOne(x, e));
    StepKeeps(s, ReconcileOne(x, e));
    StepKeeps(s1, ByAgent(true));
    StepKeeps(s2, ReconcileOne(x, e));
    if s.snaps[x].finalizer && !s.gone {
      if s.request == x || s.status == x {
        assert x in s1.snaps && s1.snaps[x] == s.snaps[x] && s1.request != x && s1.gone == s.gone;
        assert s1.agentOn == s.agentOn && s1.active == s.active && s1.status == s.status;
        assert x in s2.snaps && s2.snaps[x] == s.snaps[x] && s2.request != x;
        assert s2.status == x <==> s.status == x && !(s.agentOn && s.active);
      }
    }
  }

  lemma {:induction false} RunThree(s: State, a: Act, b: Act, c: Act)
    ensures Run(s, [a, b, c]) == Step(Step(Step(s, a), b), c)
  {
    assert [a, b, c][1..] == [b, c] && [b, c][1..] == [c] && [c][1..] == [];
    assert Run(Step(Step(s, a), b), [c]) == Run(Step(Step(Step(s, a), b), c), []);
    assert Run(Step(s, a), [b, c]) == Run(Step(Step(s, a), b), [c]);
  }

  /** From a fresh snapshot of a running guest, five steps that succeed freeze the guest,
      take the volumes, thaw it and finish. */
  lemma {:induction false} SnapshotCompletes(s: State, x: Id, e: Env, done: Env)
    requires Inv(s) && s.agentOn && s.active && !s.gone && s.request == NoId && s.status == NoId
    requires x in s.snaps && s.snaps[x] == Snap(Unset, false, false)
    requires Smooth(e) && NoneHalts(e.volumes) && SomeMade(e.volumes)
    requires Smooth(done) && NoneHalts(done.volumes) && AllReady(done.volumes)
    ensures var frozen := Step(Step(s, ReconcileOne(x, e)), ByAgent(true));
            var taken := Step(frozen, ReconcileOne(x, e));
            var thawed := Step(taken, ByAgent(true));
            && frozen.frozen && frozen.status == x
            && taken.frozen && taken.snaps[x].phase == Thawing
            && !thawed.frozen
            && Step(thawed, ReconcileOne(x, done)).snaps[x].phase == Succeeded
  {
    TakeMeans(e.volumes);
    TakeMeans(done.volumes);
    var asked := Step(s, ReconcileOne(x, e));
    assert asked.snaps[x].phase == Freezing && asked.request == x;
    var frozen := Step(asked, ByAgent(true));
    assert Reconcile(frozen, x, e) == TakeVolumes(frozen, x, true, e);
    var taken := Step(frozen, ReconcileOne(x, e));
    assert taken.snaps[x].phase == Thawing && taken.request == NoId && !taken.snaps[x].deleting;
    var thawed := Step(taken, ByAgent(true));
    assert Reconcile(thawed, x, done) == TakeVolumes(thawed, x, false, done);
  }

  // -------------------------------------------------------- standing requests

  /** Once the confirmed branch gets through the volumes, the thaw is asked for exactly
      when that pass made a volume snapshot. */
  lemma {:induction false} ThawAskedIffCreated(s: State, x: Id, e: Env)
    requires Inv(s) && x in s.snaps && s.agentOn && !s.gone
    requires !s.snaps[x].deleting && s.snaps[x].phase == Freezing && s.request == x && s.status == x
    requires Smooth(e) && NoneHalts(e.volumes)
    ensures Reconcile(s, x, e).request == NoId <==> SomeMade(e.volumes)
    ensures SomeMade(e.volumes) <==> Reconcile(s, x, e).snaps[x].phase == Thawing
  {
    TakeMeans(e.volumes);
    assert Reconcile(s, x, e) == TakeVolumes(s, x, true, e);
  }

  /** An error among the volumes fails the snapshot; the request is withdrawn only when the
      error came from Atlas, so otherwise the guest stays frozen. */
  lemma {:induction false} ErrorWhileFrozen(s: State, x: Id, e: Env)
    requires Inv(s) && x in s.snaps && s.agentOn && !s.gone
    requires !s.snaps[x].deleting && s.snaps[x].phase == Freezing && s.request == x && s.status == x
    requires Smooth(e) && e.failedLands && !NoneHalts(e.volumes)
    ensures var r := Reconcile(s, x, e);
            r.snaps[x].phase == Failed && r.frozen && (r.request == x <==> !Take(e.volumes).viaAtlas)
  {
    TakeMeans(e.volumes);
    assert Reconcile(s, x, e) == TakeVolumes(s, x, true, e);
  }

  /** The snapshot has finished or waits for storage only, yet its request stands. */
  predicate Abandoned(s: State, x: Id) {
    && x in s.snaps && s.request == x && !s.gone
    && (s.snaps[x].phase == Pending || s.snaps[x].phase == Succeeded || s.snaps[x].phase == Failed)
    && !s.snaps[x].deleting
  }

  /** An abandoned request is withdrawn by nothing but the deletion of its snapshot, the
      Machine's disappearance or another snapshot of the same Machine. */
  lemma {:induction false} AbandonedStays(s: State, x: Id, a: Act)
    requires Abandoned(s, x) && x != NoId
    requires a != MachineGone && a != Delete(x)
    requires a.ReconcileOne? ==> a.x == x
    ensures Abandoned(Step(s, a), x)
  {
    if a.ReconcileOne? { AbandonedReconciled(s, x, a.e); }
  }

  lemma {:induction false} AbandonedReconciled(s: State, x: Id, e: Env)
    requires Abandoned(s, x) && x != NoId
    ensures Abandoned(Reconcile(s, x, e), x)
  {
    if s.snaps[x].phase != Pending {
      assert Reconcile(s, x, e) == s;
    } else if !e.specOk {
      assert Reconcile(s, x, e) == Fail(s, x, e);
    } else {
      var t := Take(e.volumes);
      assert Reconcile(s, x, e) == TakeVolumes(s, x, false, e);
      assert TakeVolumes(s, x, false, e) == Conclude(s, x, t, e);
      AbandonedConcluded(s, x, t, e);
    }
  }

  lemma {:induction false} AbandonedConcluded(s: State, x: Id, t: Taking, e: Env)
    requires Abandoned(s, x) && s.snaps[x].phase == Pending
    ensures Abandoned(Conclude(s, x, t, e), x)
  {
  }

  predicate Leaves(a: Act, x: Id) {
    a != MachineGone && a != Delete(x) && (a.ReconcileOne? ==> a.x == x)
  }

  /** So the guest is still frozen, or frozen again by the next good agent step, for as
      long as none of those happens. */
  lemma {:induction false} AbandonedRun(s: State, x: Id, acts: seq<Act>)
    requires Abandoned(s, x) && x != NoId
    requires forall a :: a in acts ==> Leaves(a, x)
    ensures Abandoned(Run(s, acts), x)
    ensures Run(s, acts).agentOn && Run(s, acts).active ==> Step(Run(s, acts), ByAgent(true)).status == x
    decreases |acts|
  {
    if acts != [] {
      assert Leaves(acts[0], x);
      AbandonedStays(s, x, acts[0]);
      AbandonedRun(Step(s, acts[0]), x, acts[1..]);
    }
  }
}
