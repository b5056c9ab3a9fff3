/** Where the protocol's promises stop, and exactly where. */
module MigrationLimits {

  import opened Migration
  import MigrationCold

  // ------------------------------------------------------- parked migrations

  /** A parked migration without an attested instruction is only ever parked
      again, or failed by an unreachable control plane; nothing else moves. */
  lemma UnattestedStaysParked(s: State, e: SourceEnv)
    requires s.mig.phase.NeedsRecovery? && !Authorised(s.mig.recovery)
    ensures var r := SourceStep(s, e);
            && r.peer == s.peer && r.runtimes == s.runtimes && r.quiesced == s.quiesced
            && r.m == s.m && r.talk == s.talk && r.guard == s.guard
            && (r.mig == s.mig || r.mig == s.mig.(phase := Failed))
            && (e.peerReady && e.urlOk && e.statusLands ==> r == s)
  {
    if !e.peerReady || !e.urlOk {
      if e.failedLands {} else {}
    } else {
      assert SourceStep(s, e) == Park(s, e);
      if e.statusLands {} else if e.failedLands {} else {}
    }
  }

  // -------------------------------------------------- cancelled and deletion

  lemma CancelledAgent(s: State, n: Node, e: AgentEnv)
    requires s.mig.phase.Cancelled? && !s.m.gone
    ensures AgentStep(s, n, e).mig.phase.Cancelled? && !AgentStep(s, n, e).m.gone
  {
    if s.m.node != n {
    } else if s.m.deleting {
    } else {
      match s.m.power
      case PowerStopped =>
      case PowerPaused =>
      case PowerHalted =>
      case _ => if n in s.runtimes {}
    }
  }

  lemma CancelledStep(s: State, a: Act)
    requires s.mig.phase.Cancelled? && !s.m.gone
    ensures Step(s, a).mig.phase.Cancelled? && !Step(s, a).m.gone
  {
    match a
    case ByAgent(n, e) => CancelledAgent(s, n, e);
    case _ =>
  }

  /** With calls that succeed, the agent removes a deleting Machine exactly when no
      migration of it counts as in flight. */
  lemma AgentDeletesIff(s: State, n: Node, e: AgentEnv)
    requires s.m.deleting && !s.m.gone && s.m.node == n && e.listOk && e.opOk && e.finishOk
    ensures AgentStep(s, n, e).m.gone <==> !InFlight(s.mig.phase)
  {
  }

  /** The phases nothing but an operator moves and that still count as in flight. */
  lemma SettledInFlight(p: Phase)
    ensures Settled(p) && InFlight(p) <==> p.Cancelled? || p.NeedsRecovery?
  {
  }

  /** One controller step and one agent step that succeed remove a deleting Machine if and
      only if its migration is neither Cancelled nor parked. */
  lemma DeletionProceedsIff(s: State, c: ControllerEnv, e: AgentEnv)
    requires s.m.deleting && !s.m.gone && c.failedLands && e.listOk && e.opOk && e.finishOk
    ensures Run(s, [ByController(c), ByAgent(s.m.node, e)]).m.gone
       <==> !s.mig.phase.Cancelled? && !s.mig.phase.NeedsRecovery?
  {
    var s1 := Step(s, ByController(c));
    assert s1.m == s.m;
    SettledInFlight(s.mig.phase);
    AgentDeletesIff(s1, s.m.node, e);
    RunTwo(s, ByController(c), ByAgent(s.m.node, e));
  }

  /** The agent does not count Cancelled among the finished phases, so while a
      Cancelled migration object exists its Machine is never deleted. */
  lemma {:induction false} CancelledBlocksDeletion(s: State, acts: seq<Act>)
    requires s.mig.phase.Cancelled? && !s.m.gone
    ensures Run(s, acts).mig.phase.Cancelled? && !Run(s, acts).m.gone
    decreases |acts|
  {
    if acts != [] {
      CancelledStep(s, acts[0]);
      CancelledBlocksDeletion(Step(s, acts[0]), acts[1..]);
    }
  }

  // ------------------------------------------------ the source network quiesce

  /** The step gets past the checks on Machine, peer and runtime. */
  predicate Engages(s: State, e: SourceEnv) {
    && s.mig.strategy.Live? && !s.mig.cancel
    && !s.m.gone && e.machineFound && s.m.node == s.mig.source && e.backendOk
    && e.peerReady && e.migratorReady && e.lookupOk && s.mig.source in s.runtimes && e.urlOk
  }

  /** The step gets as far as quiescing the source network. */
  predicate ReachesPrepare(s: State, e: SourceEnv) { s.mig.phase.Starting? && Engages(s, e) }

  /** The step gets as far as asking the source migrator about the transfer. */
  predicate ReachesPoll(s: State, e: SourceEnv) {
    s.mig.phase.Running? && Engages(s, e) && s.mig.session && s.mig.transfer
  }

  /** The step gets as far as cancelling a migration that recorded its runtime. */
  predicate ReachesCancel(s: State) {
    (s.mig.phase.Starting? || s.mig.phase.Running?) && s.mig.strategy.Live? && s.mig.cancel && s.mig.runtimeID
  }

  /** The prepared target turned out unusable, or the transfer did not get going. */
  predicate LaunchBacksOut(s: State, e: SourceEnv) {
    || PeerPrepare(s.peer, e.supported).Unsupported? || !e.modeOk
    || e.started.StartUnsupported? || e.started.StartFailed? || e.started == Started(Stopped)
  }

  /** The step calls resume on the source network. */
  predicate Resumes(s: State, e: SourceEnv) {
    || ReachesCancel(s)
    || (ReachesPrepare(s, e) && e.prepareOk && LaunchBacksOut(s, e))
    || (ReachesPoll(s, e) && e.polled == Stopped)
  }

  lemma PrepareQuiesces(s: State, e: SourceEnv)
    ensures PrepareAndStart(s, e).quiesced
       <==> (s.quiesced || e.quiesceOk) && !(e.prepareOk && LaunchBacksOut(s, e) && e.resumeOk)
  {
    if e.prepareOk {
      var s1 := s.(quiesced := s.quiesced || e.quiesceOk, peer := PeerPrepare(s.peer, e.supported));
      var rec := s.mig.(session := true, runtimeID := true);
      if !s1.peer.Unsupported? {
        assert PrepareAndStart(s, e) == Launch(s1, rec, e);
        LaunchQuiesces(s1, rec, e);
      }
    }
  }

  lemma LaunchQuiesces(s: State, rec: Record, e: SourceEnv)
    ensures Launch(s, rec, e).quiesced
       <==> s.quiesced && !((!e.modeOk || e.started.StartUnsupported? || e.started.StartFailed?
                             || e.started == Started(Stopped)) && e.resumeOk)
  {
    if e.modeOk && e.started.Started? { ProjectQuiesces(s, rec.(transfer := true), e.started.t, e); }
  }

  lemma ProjectQuiesces(s: State, rec: Record, t: Transfer, e: SourceEnv)
    ensures Project(s, rec, t, e).quiesced <==> s.quiesced && !(t == Stopped && e.resumeOk)
  {
    match t
    case Completed =>
    case Stopped =>
    case _ =>
  }

  /** The operator's order has the source runtime deleted, and the call succeeds. */
  predicate DeletesSource(s: State, e: SourceEnv) {
    && s.mig.phase.NeedsRecovery? && e.peerReady && e.urlOk && s.mig.runtimeID && e.deleteOk
    && Authorised(s.mig.recovery)
    && (s.mig.recovery.action.ConfirmCommitted? || (s.mig.recovery.action.ConfirmNotCommitted? && CommitAcked(s, e)))
  }

  lemma ConfirmQuiesces(s: State, e: SourceEnv)
    ensures ApplyConfirmCommitted(s, e).quiesced == (s.quiesced && !(s.mig.runtimeID && e.deleteOk))
    ensures ApplyConfirmNotCommitted(s, e).quiesced
         == (s.quiesced && !(CommitAcked(s, e) && s.mig.runtimeID && e.deleteOk))
    ensures ApplyForceAbort(s, e).quiesced == Park(s, e).quiesced == Fail(s, e.failedLands).quiesced == s.quiesced
  {
  }

  lemma RecoverQuiesces(s: State, e: SourceEnv)
    requires s.mig.phase.NeedsRecovery?
    ensures Recover(s, e).quiesced == (s.quiesced && !DeletesSource(s, e))
  {
    ConfirmQuiesces(s, e);
    if s.mig.recovery.Order? {
      match s.mig.recovery.action
      case ConfirmCommitted =>
      case ConfirmNotCommitted =>
      case ForceAbort =>
      case UnknownAction =>
    }
  }

  lemma SourceQuiesces(s: State, e: SourceEnv)
    ensures SourceStep(s, e).quiesced
       <==> && (s.quiesced || (ReachesPrepare(s, e) && e.quiesceOk))
            && !(Resumes(s, e) && e.resumeOk) && !DeletesSource(s, e)
  {
    if s.mig.phase.NeedsRecovery? {
      RecoverQuiesces(s, e);
    } else if (s.mig.phase.Starting? || s.mig.phase.Running?) && s.mig.strategy.Live? {
      if s.mig.cancel {
        assert SourceStep(s, e) == CancelLive(s, e);
      } else {
        assert SourceStep(s, e) == Drive(s, e);
        DriveQuiesces(s, e);
      }
    }
  }

  lemma DriveQuiesces(s: State, e: SourceEnv)
    requires (s.mig.phase.Starting? || s.mig.phase.Running?) && s.mig.strategy.Live? && !s.mig.cancel
    ensures Drive(s, e).quiesced
       <==> (s.quiesced || (ReachesPrepare(s, e) && e.quiesceOk)) && !(Resumes(s, e) && e.resumeOk)
  {
    if ReachesPrepare(s, e) {
      PrepareQuiesces(s, e);
    } else if ReachesPoll(s, e) {
      assert Drive(s, e) == Poll(s, e);
      ProjectQuiesces(s, s.mig, e.polled, e);
    }
  }

  lemma ControllerQuiesces(s: State, e: ControllerEnv)
    ensures ControllerStep(s, e).quiesced == s.quiesced
  {
    if !Settled(s.mig.phase) && !s.m.gone && !s.m.deleting {
      assert ControllerStep(s, e) == Advance(s, e);
      match s.mig.phase
      case Unset => AdmitQuiesces(s, e);
      case Pending => AdmitQuiesces(s, e);
      case _ => AdvanceQuiesces(s, e);
    }
  }

  lemma AdvanceQuiesces(s: State, e: ControllerEnv)
    ensures CutOver(s, e).quiesced == Adopt(s, e).quiesced == Reassign(s, e).quiesced == s.quiesced
    ensures Settle(s, e).quiesced == Fail(s, e.failedLands).quiesced == s.quiesced
  {
  }

  lemma AdmitQuiesces(s: State, e: ControllerEnv)
    ensures Admit(s, e).quiesced == s.quiesced
  {
    var target := MigrationTarget(s.m.node, e.choice);
    var strategy := EffectiveStrategy(s.mig.wanted, e.liveEligible);
    assert Block(s, e).quiesced == s.quiesced;
    assert Begin(s, s.mig.(source := s.m.node, target := target, strategy := strategy), e).quiesced == s.quiesced;
  }

  /** An agent's step leaves migrations alone, and the quiesce except with its runtime. */
  predicate Kept(s: State, r: State) {
    r.mig == s.mig && (r.quiesced <==> s.quiesced && (s.mig.source in s.runtimes ==> s.mig.source in r.runtimes))
  }

  lemma ConcludeLeaves(s: State, n: Node, p: MachinePhase, id: bool, e: AgentEnv)
    ensures AgentError(s, n, e).quiesced == s.quiesced
    ensures WriteMachine(s, n, p, id, e).quiesced == s.quiesced
    ensures Conclude(s, n, p, id, e).quiesced == s.quiesced
  {
  }

  lemma KeepLeaves(s: State, n: Node, e: AgentEnv)
    requires n in s.runtimes
    ensures KeepRuntime(s, n, e).quiesced == s.quiesced && KeepRuntime(s, n, e).mig == s.mig
    ensures KeepRuntime(s, n, e).runtimes.Keys == s.runtimes.Keys
  {
    ConcludeLeaves(s, n, MachinePhaseOf(s.runtimes[n]), true, e);
    ConcludeLeaves(s.(runtimes := s.runtimes[n := Up]), n, MachineRunning, true, e);
  }

  lemma RunningLeaves(s: State, n: Node, e: AgentEnv)
    ensures Kept(s, EnsureRunning(s, n, e))
  {
    if n in s.runtimes { KeepLeaves(s, n, e); }
  }

  lemma StoppedLeaves(s: State, n: Node, e: AgentEnv)
    requires s.quiesced ==> s.mig.source in s.runtimes
    ensures Kept(s, EnsureStopped(s, n, e))
  {
    ConcludeLeaves(s, n, MachineStopped, false, e);
    ConcludeLeaves(Lose(s, n), n, MachineStopped, false, e);
  }

  lemma CleanupLeaves(s: State, n: Node, e: AgentEnv)
    requires s.quiesced ==> s.mig.source in s.runtimes
    ensures Kept(s, Cleanup(s, n, e))
  {
    ConcludeLeaves(s, n, MachineStopped, false, e);
    ConcludeLeaves(Lose(s, n), n, MachineStopped, false, e);
  }

  lemma AgentLeaves(s: State, n: Node, e: AgentEnv)
    requires s.quiesced ==> s.mig.source in s.runtimes
    ensures Kept(s, AgentStep(s, n, e))
  {
    if s.m.gone || s.m.node != n {
    } else if s.m.deleting {
      CleanupLeaves(s, n, e);
    } else {
      match s.m.power
      case PowerStopped => StoppedLeaves(s, n, e);
      case PowerPaused =>
      case PowerHalted =>
      case _ => RunningLeaves(s, n, e);
    }
  }

  predicate EndedShort(p: Phase) { p.Failed? || p.Blocked? || p.Cancelled? }

  lemma AgentKeepsRecord(s: State, n: Node, e: AgentEnv)
    ensures AgentStep(s, n, e).mig == s.mig
  {
    if s.m.gone || s.m.node != n {
    } else if s.m.deleting {
    } else {
      match s.m.power
      case PowerStopped =>
      case PowerPaused =>
      case PowerHalted =>
      case _ => RunningLeaves(s, n, e);
    }
  }

  /** Only the controller and the source agent ever end a migration. */
  lemma OnlyTwoEnd(s: State, a: Act)
    requires !EndedShort(s.mig.phase) && EndedShort(Step(s, a).mig.phase)
    ensures a.BySource? || a.ByController?
  {
    if a.ByAgent? { AgentKeepsRecord(s, a.n, a.a); }
  }

  /** A step that ends a live migration short of its commit leaves the source network
      quiesced if and only if it was, or the step quiesced it, and the step did not resume
      it: that is, unless it cancels a migration that recorded its runtime, gives up after
      Prepare succeeded, or polls the transfer as stopped. */
  lemma EndLeavesQuiesced(s: State, a: Act)
    requires !EndedShort(s.mig.phase) && EndedShort(Step(s, a).mig.phase)
    requires a.BySource? ==> a.src.resumeOk && a.src.statusLands && a.src.failedLands
    ensures a.BySource? || a.ByController?
    ensures Step(s, a).quiesced
       <==> if a.BySource? then
              && (s.quiesced || (ReachesPrepare(s, a.src) && a.src.quiesceOk))
              && !ReachesCancel(s)
              && !(ReachesPrepare(s, a.src) && a.src.prepareOk)
              && !(ReachesPoll(s, a.src) && a.src.polled == Stopped)
            else s.quiesced
  {
    OnlyTwoEnd(s, a);
    if a.BySource? {
      SourceQuiesces(s, a.src);
      if ReachesPrepare(s, a.src) && a.src.prepareOk && !LaunchBacksOut(s, a.src) { LaunchedGoesOn(s, a.src); }
      if DeletesSource(s, a.src) { DeletionGoesOn(s, a.src); }
    } else {
      ControllerQuiesces(s, a.c);
    }
  }

  /** Nor does an order that has the source deleted. */
  lemma DeletionGoesOn(s: State, e: SourceEnv)
    requires DeletesSource(s, e) && e.statusLands
    ensures SourceStep(s, e).mig.phase.Cutover?
  {
    if s.mig.recovery.action.ConfirmCommitted? {
      assert SourceStep(s, e) == ApplyConfirmCommitted(s, e);
    } else {
      assert SourceStep(s, e) == ApplyConfirmNotCommitted(s, e);
    }
  }

  /** A transfer that got going does not end the migration when the write lands. */
  lemma LaunchedGoesOn(s: State, e: SourceEnv)
    requires ReachesPrepare(s, e) && e.prepareOk && !LaunchBacksOut(s, e) && e.statusLands
    ensures !EndedShort(SourceStep(s, e).mig.phase)
  {
    var s1 := s.(quiesced := s.quiesced || e.quiesceOk, peer := PeerPrepare(s.peer, e.supported));
    var rec := s.mig.(session := true, runtimeID := true);
    assert SourceStep(s, e) == PrepareAndStart(s, e) == Launch(s1, rec, e);
    match e.started.t
    case Completed =>
    case _ =>
  }

  lemma EndedStep(s: State, a: Act)
    requires EndedShort(s.mig.phase) && (s.quiesced ==> s.mig.source in s.runtimes)
    ensures var r := Step(s, a);
            && EndedShort(r.mig.phase) && r.mig.source == s.mig.source
            && (r.quiesced <==> s.quiesced && (s.mig.source in s.runtimes ==> s.mig.source in r.runtimes))
  {
    match a
    case ByAgent(n, e) => AgentLeaves(s, n, e);
    case _ =>
  }

  /** The runtime the migration started from exists at every point of the run. */
  predicate Lasts(s: State, acts: seq<Act>)
    decreases |acts|
  {
    s.mig.source in s.runtimes && (acts == [] || Lasts(Step(s, acts[0]), acts[1..]))
  }

  lemma {:induction false} NotQuiescedAgain(s: State, acts: seq<Act>)
    requires EndedShort(s.mig.phase) && !s.quiesced
    ensures !Run(s, acts).quiesced
    decreases |acts|
  {
    if acts != [] {
      EndedStep(s, acts[0]);
      NotQuiescedAgain(Step(s, acts[0]), acts[1..]);
    }
  }

  /** Afterwards nothing resumes it: over every later run the network stays quiesced exactly
      as long as that runtime exists. */
  lemma {:induction false} EndedStaysQuiesced(s: State, acts: seq<Act>)
    requires EndedShort(s.mig.phase) && s.quiesced && s.mig.source in s.runtimes
    ensures EndedShort(Run(s, acts).mig.phase)
    ensures Run(s, acts).quiesced <==> Lasts(s, acts)
    decreases |acts|
  {
    if acts != [] {
      var s1 := Step(s, acts[0]);
      EndedStep(s, acts[0]);
      if s1.mig.source in s1.runtimes {
        EndedStaysQuiesced(s1, acts[1..]);
      } else {
        NotQuiescedAgain(s1, acts[1..]);
        EndedStays(s1, acts[1..]);
      }
    }
  }

  lemma {:induction false} EndedStays(s: State, acts: seq<Act>)
    requires EndedShort(s.mig.phase) && !s.quiesced
    ensures EndedShort(Run(s, acts).mig.phase)
    decreases |acts|
  {
    if acts != [] {
      EndedStep(s, acts[0]);
      EndedStays(Step(s, acts[0]), acts[1..]);
    }
  }

  /** At Starting: exactly when the quiesce took effect and Prepare then failed. */
  lemma StartingLeavesQuiesced(s: State, e: SourceEnv)
    requires ReachesPrepare(s, e) && !s.quiesced && e.resumeOk && e.statusLands && e.failedLands
    ensures EndedShort(SourceStep(s, e).mig.phase) ==> (SourceStep(s, e).quiesced <==> e.quiesceOk && !e.prepareOk)
  {
    if EndedShort(SourceStep(s, e).mig.phase) { EndLeavesQuiesced(s, BySource(e)); }
  }

  /** At Running, not cancelled: exactly when the end was anything but a transfer polled as
      stopped. */
  lemma RunningLeavesQuiesced(s: State, e: SourceEnv)
    requires s.mig.phase.Running? && !s.mig.cancel && s.quiesced && e.resumeOk && e.statusLands && e.failedLands
    ensures EndedShort(SourceStep(s, e).mig.phase) ==>
              (SourceStep(s, e).quiesced <==> !(ReachesPoll(s, e) && e.polled == Stopped))
  {
    if EndedShort(SourceStep(s, e).mig.phase) { EndLeavesQuiesced(s, BySource(e)); }
  }

  // ------------------------------------------------------------ concrete runs

  const SomeRecord := Record(Pending, NoStrategy, NoNode, NoNode, false, false, false, WantLive, false, NoOrder)

  const Idle := State(
    Machine(1, PowerRunning, false, false, false, MachineRunning, 1, true),
    SomeRecord, map[1 := Up], NoSession, false,
    PeerLedger(false, false, false, false, false), GuardLedger(false, false, false, false, false), false)

  const AllGood := SourceEnv(
    true, true, true, true, true, true, true, true, true, true, Started(InProgress),
    InProgress, AppliedAcked, true, true, true, true, true)

  const Lands := ControllerEnv(true, true, true, 2, true, true, true, true)

  const Admits := ByController(Lands)
  const Starts := BySource(AllGood)

  lemma FirstTwoSteps() returns (s: State)
    ensures s == Step(Step(Idle, Admits), Starts)
    ensures s == Idle.(mig := SomeRecord.(phase := Running, strategy := Live, source := 1, target := 2,
                                          session := true, transfer := true, runtimeID := true),
                       peer := Prepared, quiesced := true)
  {
    var s1 := Step(Idle, Admits);
    assert s1 == Idle.(mig := SomeRecord.(phase := Starting, strategy := Live, source := 1, target := 2));
    s := Step(s1, Starts);
  }

  lemma RunTwo(s: State, a: Act, b: Act)
    ensures Run(s, [a, b]) == Step(Step(s, a), b)
  {
    assert [a, b][1..] == [b];
    assert Run(Step(s, a), [b]) == Run(Step(Step(s, a), b), []);
  }

  lemma {:induction false} RunOn(s: State, acts: seq<Act>, more: seq<Act>)
    ensures Run(s, acts + more) == Run(Run(s, acts), more)
    decreases |acts|
  {
    if acts == [] {
      assert acts + more == more;
    } else {
      assert (acts + more)[1..] == acts[1..] + more;
      RunOn(Step(s, acts[0]), acts[1..], more);
    }
  }

  lemma RunFour(s: State, a: Act, b: Act, c: Act, d: Act)
    ensures Run(s, [a, b, c, d]) == Step(Step(Step(Step(s, a), b), c), d)
  {
    assert [a, b, c, d][1..] == [b, c, d];
    assert [b, c, d][1..] == [c, d];
    assert [c, d][1..] == [d];
    var s1, s2, s3 := Step(s, a), Step(Step(s, a), b), Step(Step(Step(s, a), b), c);
    assert Run(s3, [d]) == Run(Step(s3, d), []);
    assert Run(s2, [c, d]) == Run(s3, [d]);
    assert Run(s1, [b, c, d]) == Run(s2, [c, d]);
  }

  /** Admitted, cancelled at once, then deleted: Cancelled, and never removed. */
  lemma CancelledNeverDeleted(acts: seq<Act>)
    ensures Fresh(Idle)
    ensures var s := Run(Idle, [Admits, RequestCancel, Starts, DeleteMachine]);
            && s.mig.phase.Cancelled? && s.m.deleting && !s.lost
            && !Run(s, acts).m.gone
  {
    var s1 := Step(Idle, Admits);
    assert s1.mig == SomeRecord.(phase := Starting, strategy := Live, source := 1, target := 2);
    var s3 := Step(Step(s1, RequestCancel), Starts);
    assert s3.mig.phase.Cancelled? && !s3.lost && !s3.m.gone;
    RunFour(Idle, Admits, RequestCancel, Starts, DeleteMachine);
    CancelledBlocksDeletion(Step(s3, DeleteMachine), acts);
  }

  /** A failed Prepare, a failed poll and a missing peer: Failed, Failed and Blocked, each
      with the source network quiesced for as long as its runtime exists. */
  lemma LeftQuiesced(acts: seq<Act>)
    ensures var noPrepare := Step(Step(Idle, Admits), BySource(AllGood.(prepareOk := false)));
            noPrepare.mig.phase.Failed? && (Run(noPrepare, acts).quiesced <==> Lasts(noPrepare, acts))
    ensures var noPoll := Step(Step(Step(Idle, Admits), Starts), BySource(AllGood.(polled := PollFailed)));
            noPoll.mig.phase.Failed? && (Run(noPoll, acts).quiesced <==> Lasts(noPoll, acts))
    ensures var noPeer := Step(Step(Step(Idle, Admits), Starts), BySource(AllGood.(peerReady := false)));
            noPeer.mig.phase.Blocked? && (Run(noPeer, acts).quiesced <==> Lasts(noPeer, acts))
  {
    var s1 := Step(Idle, Admits);
    assert s1.mig == SomeRecord.(phase := Starting, strategy := Live, source := 1, target := 2);
    EndedStaysQuiesced(Step(s1, BySource(AllGood.(prepareOk := false))), acts);
    var s2 := FirstTwoSteps();
    EndedStaysQuiesced(Step(s2, BySource(AllGood.(polled := PollFailed))), acts);
    EndedStaysQuiesced(Step(s2, BySource(AllGood.(peerReady := false))), acts);
  }

  /** The way out: stopped and started again, the Machine has a new runtime that is not
      quiesced. */
  lemma RestartEndsQuiesce()
    ensures var failed := Step(Step(Idle, Admits), BySource(AllGood.(prepareOk := false)));
            var r := Run(failed, [SetPower(PowerStopped), ByAgent(1, Quiet),
                                  SetPower(PowerRunning), ByAgent(1, Quiet)]);
            failed.quiesced && 1 in r.runtimes && !r.quiesced
  {
    var s1 := Step(Idle, Admits);
    assert s1.mig == SomeRecord.(phase := Starting, strategy := Live, source := 1, target := 2);
    var failed := Step(s1, BySource(AllGood.(prepareOk := false)));
    var stopped := Step(Step(failed, SetPower(PowerStopped)), ByAgent(1, Quiet));
    assert 1 !in stopped.runtimes && !stopped.quiesced && stopped.m.node == 1 && !stopped.m.adoptOnly;
    RunFour(failed, SetPower(PowerStopped), ByAgent(1, Quiet), SetPower(PowerRunning), ByAgent(1, Quiet));
  }

  // ------------------------------------------------------ lost status writes

  const CommitsUnrecorded := BySource(AllGood.(polled := Completed, statusLands := false, failedLands := false))
  const SeesStopped := BySource(AllGood.(polled := Stopped))

  /** NoAbortAfterAck needs its hypothesis: when the write of Cutover and the
      write of Failed are both lost, the next poll may abort a committed session. */
  lemma LostWriteAllowsAbort()
    ensures Fresh(Idle)
    ensures Run(Idle, [Admits, Starts, CommitsUnrecorded, SeesStopped]).talk.abortAfterAck
  {
    var s2 := FirstTwoSteps();
    var s3 := Step(s2, CommitsUnrecorded);
    assert s3.mig == s2.mig && s3.talk.acked;
    assert Step(s3, SeesStopped).talk.abortAfterAck;
    RunFour(Idle, Admits, Starts, CommitsUnrecorded, SeesStopped);
  }

  const Quiet := AgentEnv(true, true, true, true, true, true, true, true)
  const ColdIdle := Idle.(mig := SomeRecord.(wanted := WantCold))

  lemma ColdStopped() returns (s: State)
    ensures s == Run(ColdIdle, [Admits, ByAgent(1, Quiet)])
    ensures s == ColdIdle.(
      m := Machine(1, PowerStopped, false, false, false, MachineStopped, 1, true),
      mig := SomeRecord.(wanted := WantCold, phase := Stopping, strategy := Cold, source := 1, target := 2),
      runtimes := map[])
  {
    RunTwo(ColdIdle, Admits, ByAgent(1, Quiet));
    var s1 := Step(ColdIdle, Admits);
    assert s1.m.power == PowerStopped && s1.mig.phase == Stopping;
    s := Step(s1, ByAgent(1, Quiet));
    assert ColdIdle.runtimes - {1} == map[];
  }

  /** Powered back on, its status writes lost, and moved on. */
  lemma BothHold(s: State)
    requires s == ColdIdle.(
      m := Machine(1, PowerStopped, false, false, false, MachineStopped, 1, true),
      mig := SomeRecord.(wanted := WantCold, phase := Stopping, strategy := Cold, source := 1, target := 2),
      runtimes := map[])
    ensures var r := Run(s, PoweredBackOn); 1 in r.runtimes && 2 in r.runtimes
  {
    var a0, a1, a2, a3 := PoweredBackOn[0], PoweredBackOn[1], PoweredBackOn[2], PoweredBackOn[3];
    var s1 := Step(s, a0);
    var s2 := Step(s1, a1);
    assert 1 in s2.runtimes && s2.m.phase.MachineStopped? && s2.mig == s.mig;
    var s3 := Step(s2, a2);
    assert s3.m.node == 2 && s3.runtimes == s2.runtimes && s3.m.power == PowerRunning;
    assert s3.m == s2.m.(node := 2);
    assert 2 in Step(s3, a3).runtimes && 1 in Step(s3, a3).runtimes;
    RunFour(s, a0, a1, a2, a3);
  }

  const PoweredBackOn := [
    SetPower(PowerRunning), ByAgent(1, Quiet.(statusLands := false, errorLands := false)), Admits, ByAgent(2, Quiet)]

  /** Cold safety needs its hypothesis: a Machine powered back on while it is being
      moved, whose status writes are lost, ends with a runtime on both nodes. */
  lemma LostWriteAllowsTwoRuntimes()
    ensures Fresh(ColdIdle) && MigrationCold.Alone(ColdIdle) && !ColdIdle.mig.wanted.WantLive?
    ensures var r := Run(ColdIdle, [Admits, ByAgent(1, Quiet)] + PoweredBackOn);
            1 in r.runtimes && 2 in r.runtimes
  {
    var s := ColdStopped();
    BothHold(s);
    RunOn(ColdIdle, [Admits, ByAgent(1, Quiet)], PoweredBackOn);
  }
}
