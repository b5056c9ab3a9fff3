/** What every run of the migration protocol keeps. */
module MigrationSafety {

  import opened Migration

  predicate NotAdmitted(p: Phase) {
    p.Unset? || p.Pending?
  }

  /** Phases in which the source agent may still talk to the peer. */
  predicate SourceOwned(p: Phase) {
    p.Starting? || p.Running? || p.NeedsRecovery?
  }

  /** How phase, strategy and assignment hang together. */
  predicate Shape(s: State) {
    && (NotAdmitted(s.mig.phase) ==> s.mig.strategy.NoStrategy?)
    && (SourceOwned(s.mig.phase) || s.mig.phase.Cutover? || s.mig.phase.Adopting? ==> s.mig.strategy == Live)
    && (s.mig.phase.Stopping? || s.mig.phase.Restarting? ==> s.mig.strategy == Cold)
    && (s.mig.phase.Adopting? ==> s.guard.cutover)
    && (s.mig.strategy.NoStrategy? ==> s.m.statusNode == NoNode || s.m.statusNode == s.m.node)
    && (!s.mig.strategy.NoStrategy? ==> s.mig.target != NoNode && s.mig.target != s.mig.source)
    && (s.guard.cutover ==> s.mig.strategy == Live)
    && (s.mig.strategy == Live && !s.guard.cutover ==>
          s.m.node == s.mig.source && (s.m.statusNode == NoNode || s.m.statusNode == s.mig.source))
  }

  /** From the cutover patch until the guard is lifted the Machine carries
      adopt-only, and its status only says Running on the target once the target
      agent has found a runtime there. */
  predicate Guarded(s: State) {
    && (s.guard.cutover && !s.guard.lifted ==> s.m.adoptOnly)
    && (s.guard.cutover && !s.guard.adopted ==>
          !(s.m.statusNode == s.mig.target && s.m.phase.MachineRunning?))
    && (s.guard.lifted ==> s.guard.adopted)
    && !s.guard.createdUnderGuard
    && !s.guard.liftedUnadopted
  }

  predicate Attributable(s: State) {
    && (s.mig.strategy == Live && (s.mig.phase.Cutover? || s.mig.phase.Adopting? || s.mig.phase.Succeeded?) ==>
          s.talk.acked || s.talk.attested)
    && (s.talk.acked ==> s.peer.Committed?)
    && !s.talk.deletedUnjustified
    && !s.talk.parkedTouched
  }

  predicate Ordered(s: State) {
    !s.lost ==>
      && (s.talk.acked ==> !NotAdmitted(s.mig.phase) && !SourceOwned(s.mig.phase))
      && !s.talk.abortAfterAck
  }

  predicate Inv(s: State) {
    Shape(s) && Guarded(s) && Attributable(s) && Ordered(s)
  }

  // ------------------------------------------------------------- controller

  lemma ControllerPatchKeeps(s: State, rec: Record, lands: bool, failedLands: bool)
    requires Inv(s) && !SourceOwned(s.mig.phase)
    requires Inv(s.(mig := rec))
    ensures Inv(PatchStatus(s, rec, lands, failedLands))
  {
    if lands {} else if failedLands {} else {}
  }

  lemma FailKeeps(s: State, failedLands: bool)
    requires Inv(s)
    ensures Inv(Fail(s, failedLands))
  {
    if failedLands {} else {}
  }

  lemma BeginKeeps(s: State, rec: Record, e: ControllerEnv)
    requires Inv(s) && NotAdmitted(s.mig.phase)
    requires rec == s.mig.(source := s.m.node, target := rec.target, strategy := rec.strategy)
    requires !rec.strategy.NoStrategy? && rec.target != NoNode && rec.target != s.m.node
    ensures Inv(Begin(s, rec, e))
  {
    if rec.strategy.Live? {
      ControllerPatchKeeps(s, rec.(phase := Starting), e.statusLands, e.failedLands);
    } else if e.machineLands {
      ControllerPatchKeeps(s.(m := s.m.(power := PowerStopped)), rec.(phase := Stopping), e.statusLands, e.failedLands);
    } else {
      FailKeeps(s, e.failedLands);
    }
  }

  lemma AdmitKeeps(s: State, e: ControllerEnv)
    requires Inv(s) && NotAdmitted(s.mig.phase)
    ensures Inv(Admit(s, e))
  {
    var strategy := EffectiveStrategy(s.mig.wanted, e.liveEligible);
    var target := MigrationTarget(s.m.node, e.choice);
    ControllerPatchKeeps(s, s.mig.(phase := Blocked), e.statusLands, e.failedLands);
    if !strategy.NoStrategy? && target != NoNode {
      BeginKeeps(s, s.mig.(source := s.m.node, target := target, strategy := strategy), e);
    }
  }

  lemma CutOverKeeps(s: State, e: ControllerEnv)
    requires Inv(s) && s.mig.phase.Cutover?
    ensures Inv(CutOver(s, e))
  {
    if e.machineLands {
      var s1 := s.(m := s.m.(node := s.mig.target, adoptOnly := true), guard := s.guard.(cutover := true));
      ControllerPatchKeeps(s1, s.mig.(phase := Adopting), e.statusLands, e.failedLands);
    } else {
      FailKeeps(s, e.failedLands);
    }
  }

  lemma AdoptKeeps(s: State, e: ControllerEnv)
    requires Inv(s) && s.mig.phase.Adopting?
    ensures Inv(Adopt(s, e))
  {
    if ReportsRunningOn(s.m, s.mig.target) {
      if e.machineLands {
        var s1 := NoteLifted(s.(m := s.m.(adoptOnly := false)));
        ControllerPatchKeeps(s1, s.mig.(phase := Succeeded), e.statusLands, e.failedLands);
      } else {
        FailKeeps(s, e.failedLands);
      }
    }
  }

  lemma ReassignKeeps(s: State, e: ControllerEnv)
    requires Inv(s) && s.mig.phase.Stopping?
    ensures Inv(Reassign(s, e))
  {
    if s.m.phase.MachineStopped? {
      if e.machineLands {
        var s1 := s.(m := s.m.(node := s.mig.target, power := PowerRunning));
        ControllerPatchKeeps(s1, s.mig.(phase := Restarting), e.statusLands, e.failedLands);
      } else {
        FailKeeps(s, e.failedLands);
      }
    }
  }

  lemma AdvanceKeeps(s: State, e: ControllerEnv)
    requires Inv(s)
    ensures Inv(Advance(s, e))
  {
    match s.mig.phase
    case Unset => AdmitKeeps(s, e);
    case Pending => AdmitKeeps(s, e);
    case Starting =>
    case Running =>
    case Cutover => CutOverKeeps(s, e);
    case Adopting => AdoptKeeps(s, e);
    case Stopping => ReassignKeeps(s, e);
    case Restarting => ControllerPatchKeeps(s, s.mig.(phase := Succeeded), e.statusLands, e.failedLands);
    case _ => FailKeeps(s, e.failedLands);
  }

  lemma ControllerKeeps(s: State, e: ControllerEnv)
    requires Inv(s)
    ensures Inv(ControllerStep(s, e))
  {
    FailKeeps(s, e.failedLands);
    AdvanceKeeps(s, e);
  }

  // ------------------------------------------------------------ source agent

  /** Before the status write, source-side work only touches the peer, the source
      runtime and network, and the record of what was said. */
  predicate Side(s: State, r: State) {
    && r.m == s.m && r.mig == s.mig && r.guard == s.guard && r.lost == s.lost
    && (s.talk.acked ==> r.talk.acked) && (s.talk.attested ==> r.talk.attested)
    && (r.talk.acked ==> r.peer.Committed?)
    && !r.talk.deletedUnjustified && !r.talk.parkedTouched
    && (!r.lost ==> !r.talk.abortAfterAck)
  }

  /** The state such work may start from: `unacked` is what Ordered leaves known. */
  predicate Unspoilt(s: State) {
    && (s.talk.acked ==> s.peer.Committed?)
    && !s.talk.deletedUnjustified && !s.talk.parkedTouched
    && (!s.lost ==> !s.talk.abortAfterAck)
  }

  lemma AbortSide(s: State, order: Recovery, e: SourceEnv)
    requires Unspoilt(s) && !Untoward(s, order) && (!s.lost ==> !s.talk.acked)
    ensures Side(s, SendAbort(s, order, e)) && SendAbort(s, order, e).talk.acked == s.talk.acked
  {
  }

  lemma BackOutSide(s: State, e: SourceEnv)
    requires Unspoilt(s) && !s.mig.phase.NeedsRecovery? && (!s.lost ==> !s.talk.acked)
    ensures Side(s, BackOut(s, e)) && BackOut(s, e).talk.acked == s.talk.acked
  {
    AbortSide(s, NoOrder, e);
  }

  lemma CommitSide(s: State, order: Recovery, e: SourceEnv)
    requires Unspoilt(s) && !Untoward(s, order)
    ensures Side(s, SendCommit(s, order, e))
    ensures SendCommit(s, order, e).talk.acked == (s.talk.acked || CommitAcked(s, e))
  {
  }

  lemma RemoveSide(s: State, order: Recovery, e: SourceEnv)
    requires Unspoilt(s) && Authorised(order) && order.action != ForceAbort
    requires s.talk.acked || s.talk.attested
    ensures Side(s, RemoveSource(s, order, e)) && RemoveSource(s, order, e).talk == s.talk
  {
    if s.mig.runtimeID {}
  }

  /** A phase the source agent may write after such work. */
  predicate Writable(r: State, p: Phase) {
    && (p.Cutover? ==> r.talk.acked || r.talk.attested)
    && (SourceOwned(p) ==> (!r.lost ==> !r.talk.acked))
    && (SourceOwned(p) || p.Cutover? || p.Failed? || p.Blocked? || p.Cancelled?)
  }

  lemma SourceFailKeeps(s: State, s1: State, failedLands: bool)
    requires Inv(s) && SourceOwned(s.mig.phase) && Side(s, s1) && (!s.lost ==> !s1.talk.acked)
    ensures Inv(Fail(s1, failedLands))
  {
    if failedLands {} else {}
  }

  lemma SourcePatchKeeps(s: State, s1: State, rec: Record, lands: bool, failedLands: bool)
    requires Inv(s) && SourceOwned(s.mig.phase) && Side(s, s1)
    requires rec.source == s.mig.source && rec.target == s.mig.target && rec.strategy == s.mig.strategy
    requires Writable(s1, rec.phase)
    ensures Inv(PatchStatus(s1, rec, lands, failedLands))
  {
    if lands {} else if failedLands {} else {}
  }

  /** A status record for the same transfer. */
  predicate SameTransfer(s: State, rec: Record) {
    rec.source == s.mig.source && rec.target == s.mig.target && rec.strategy == s.mig.strategy
  }

  lemma BackOutToKeeps(s: State, s1: State, rec: Record, p: Phase, e: SourceEnv)
    requires Inv(s) && (s.mig.phase.Starting? || s.mig.phase.Running?)
    requires Side(s, s1) && s1.talk == s.talk && SameTransfer(s, rec)
    requires p.Failed? || p.Blocked?
    ensures Inv(BackOutTo(s1, rec, p, e))
  {
    BackOutSide(s1, e);
    SourcePatchKeeps(s, BackOut(s1, e), rec.(phase := p), e.statusLands, e.failedLands);
  }

  lemma FinishAckedKeeps(s: State, s1: State, rec: Record, e: SourceEnv)
    requires Inv(s) && SourceOwned(s.mig.phase) && !Untoward(s, NoOrder)
    requires Side(s, s1) && SameTransfer(s, rec) && CommitAcked(s1, e)
    ensures Inv(PatchStatus(SendCommit(s1, NoOrder, e), rec.(phase := Cutover), e.statusLands, e.failedLands))
  {
    CommitSide(s1, NoOrder, e);
    SourcePatchKeeps(s, SendCommit(s1, NoOrder, e), rec.(phase := Cutover), e.statusLands, e.failedLands);
  }

  lemma FinishParkedKeeps(s: State, s1: State, rec: Record, e: SourceEnv)
    requires Inv(s) && SourceOwned(s.mig.phase) && !Untoward(s, NoOrder)
    requires Side(s, s1) && s1.talk == s.talk && SameTransfer(s, rec) && !CommitAcked(s1, e)
    ensures Inv(PatchStatus(SendCommit(s1, NoOrder, e), rec.(phase := NeedsRecovery), e.statusLands, e.failedLands))
  {
    CommitSide(s1, NoOrder, e);
    SourcePatchKeeps(s, SendCommit(s1, NoOrder, e), rec.(phase := NeedsRecovery), e.statusLands, e.failedLands);
  }

  lemma FinishKeeps(s: State, s1: State, rec: Record, e: SourceEnv)
    requires Inv(s) && (s.mig.phase.Starting? || s.mig.phase.Running?)
    requires Side(s, s1) && s1.talk == s.talk && SameTransfer(s, rec)
    ensures Inv(Finish(s1, rec, e))
  {
    if CommitAcked(s1, e) { FinishAckedKeeps(s, s1, rec, e); } else { FinishParkedKeeps(s, s1, rec, e); }
  }

  lemma ProjectKeeps(s: State, s1: State, rec: Record, t: Transfer, e: SourceEnv)
    requires Inv(s) && (s.mig.phase.Starting? || s.mig.phase.Running?)
    requires Side(s, s1) && s1.talk == s.talk && SameTransfer(s, rec)
    ensures Inv(Project(s1, rec, t, e))
  {
    match t
    case Completed => FinishKeeps(s, s1, rec, e);
    case Stopped => BackOutToKeeps(s, s1, rec, Failed, e);
    case _ => SourcePatchKeeps(s, s1, rec.(phase := Running), e.statusLands, e.failedLands);
  }

  lemma LaunchKeeps(s: State, s1: State, rec: Record, e: SourceEnv)
    requires Inv(s) && s.mig.phase.Starting?
    requires Side(s, s1) && s1.talk == s.talk && SameTransfer(s, rec)
    ensures Inv(Launch(s1, rec, e))
  {
    if !e.modeOk {
      BackOutSide(s1, e);
      SourceFailKeeps(s, BackOut(s1, e), e.failedLands);
    } else {
      match e.started
      case Started(t) => ProjectKeeps(s, s1, rec.(transfer := true), t, e);
      case StartUnsupported => BackOutToKeeps(s, s1, rec, Blocked, e);
      case StartFailed => BackOutToKeeps(s, s1, rec, Failed, e);
    }
  }

  lemma RefuseKeeps(s: State, s1: State, rec: Record, e: SourceEnv)
    requires Inv(s) && s.mig.phase.Starting?
    requires Side(s, s1) && s1.talk == s.talk && SameTransfer(s, rec)
    ensures Inv(Refuse(s1, rec, e))
  {
    SourcePatchKeeps(s, Resume(s1, e), rec.(phase := Blocked), e.statusLands, e.failedLands);
  }

  lemma PrepareKeeps(s: State, e: SourceEnv)
    requires Inv(s) && s.mig.phase.Starting?
    ensures Inv(PrepareAndStart(s, e))
  {
    var s0 := s.(quiesced := s.quiesced || e.quiesceOk);
    var s1 := s0.(peer := PeerPrepare(s.peer, e.supported));
    var rec := s.mig.(session := true, runtimeID := true);
    if !e.prepareOk {
      SourceFailKeeps(s, s0, e.failedLands);
    } else if s1.peer.Unsupported? {
      RefuseKeeps(s, s1, rec, e);
    } else {
      LaunchKeeps(s, s1, rec, e);
    }
  }

  lemma CancelKeeps(s: State, e: SourceEnv)
    requires Inv(s) && SourceOwned(s.mig.phase) && !s.mig.phase.NeedsRecovery?
    ensures Inv(CancelLive(s, e))
  {
    AbortSide(s, NoOrder, e);
    var s1 := if e.peerReady && s.mig.session && e.urlOk then SendAbort(s, NoOrder, e) else s;
    var s2 := if s.mig.runtimeID then Resume(s1, e) else s1;
    SourcePatchKeeps(s, s2, s.mig.(phase := Cancelled), e.statusLands, e.failedLands);
  }

  lemma ConfirmCommittedKeeps(s: State, e: SourceEnv)
    requires Inv(s) && s.mig.phase.NeedsRecovery? && Authorised(s.mig.recovery)
    requires s.mig.recovery.action != ForceAbort
    ensures Inv(ApplyConfirmCommitted(s, e))
  {
    var s2 := AttestedSide(s, e);
    SourcePatchKeeps(s, s2, s.mig.(phase := Cutover), e.statusLands, e.failedLands);
  }

  lemma SideOn(s: State, s1: State, s2: State)
    requires Side(s, s1) && Side(s1, s2)
    ensures Side(s, s2)
  {
  }

  /** What an attested commit has done before its status write. */
  lemma AttestedSide(s: State, e: SourceEnv) returns (s2: State)
    requires Inv(s) && s.mig.phase.NeedsRecovery? && Authorised(s.mig.recovery)
    requires s.mig.recovery.action != ForceAbort
    ensures ApplyConfirmCommitted(s, e) == PatchStatus(s2, s.mig.(phase := Cutover), e.statusLands, e.failedLands)
    ensures Side(s, s2) && s2.talk.attested
  {
    var order, s0 := s.mig.recovery, s.(talk := s.talk.(attested := true));
    var s1 := SendCommit(s0, order, e);
    assert Unspoilt(s0) && Side(s, s0);
    CommitSide(s0, order, e);
    SideOn(s, s0, s1);
    s2 := RemoveSource(s1, order, e);
    RemoveSide(s1, order, e);
    SideOn(s, s1, s2);
  }

  lemma RetriedCommitKeeps(s: State, e: SourceEnv)
    requires Inv(s) && s.mig.phase.NeedsRecovery? && Authorised(s.mig.recovery)
    requires s.mig.recovery.action != ForceAbort && CommitAcked(s, e)
    ensures Inv(ApplyConfirmNotCommitted(s, e))
  {
    var s1 := SendCommit(s, s.mig.recovery, e);
    CommitSide(s, s.mig.recovery, e);
    RemoveSide(s1, s.mig.recovery, e);
    SourcePatchKeeps(s, RemoveSource(s1, s.mig.recovery, e), s.mig.(phase := Cutover), e.statusLands, e.failedLands);
  }

  lemma ConfirmNotCommittedKeeps(s: State, e: SourceEnv)
    requires Inv(s) && s.mig.phase.NeedsRecovery? && Authorised(s.mig.recovery)
    requires s.mig.recovery.action != ForceAbort
    ensures Inv(ApplyConfirmNotCommitted(s, e))
  {
    if CommitAcked(s, e) {
      RetriedCommitKeeps(s, e);
    } else {
      var s1 := SendCommit(s, s.mig.recovery, e);
      CommitSide(s, s.mig.recovery, e);
      AbortSide(s1, s.mig.recovery, e);
      SourcePatchKeeps(s, SendAbort(s1, s.mig.recovery, e), s.mig.(phase := Failed), e.statusLands, e.failedLands);
    }
  }

  lemma ForceAbortKeeps(s: State, e: SourceEnv)
    requires Inv(s) && s.mig.phase.NeedsRecovery? && Authorised(s.mig.recovery)
    ensures Inv(ApplyForceAbort(s, e))
  {
    AbortSide(s, s.mig.recovery, e);
    SourcePatchKeeps(s, SendAbort(s, s.mig.recovery, e), s.mig.(phase := Failed), e.statusLands, e.failedLands);
  }

  lemma ParkKeeps(s: State, e: SourceEnv)
    requires Inv(s) && s.mig.phase.NeedsRecovery?
    ensures Inv(Park(s, e))
  {
    SourcePatchKeeps(s, s, s.mig, e.statusLands, e.failedLands);
  }

  lemma RecoverKeeps(s: State, e: SourceEnv)
    requires Inv(s) && s.mig.phase.NeedsRecovery?
    ensures Inv(Recover(s, e))
  {
    if !e.peerReady || !e.urlOk {
      FailKeeps(s, e.failedLands);
    } else if !Authorised(s.mig.recovery) {
      ParkKeeps(s, e);
    } else {
      match s.mig.recovery.action
      case ConfirmCommitted => ConfirmCommittedKeeps(s, e);
      case ConfirmNotCommitted => ConfirmNotCommittedKeeps(s, e);
      case ForceAbort => ForceAbortKeeps(s, e);
    }
  }

  lemma PollKeeps(s: State, e: SourceEnv)
    requires Inv(s) && s.mig.phase.Running?
    ensures Inv(Poll(s, e))
  {
    FailKeeps(s, e.failedLands);
    ProjectKeeps(s, s, s.mig, e.polled, e);
  }

  lemma DriveKeeps(s: State, e: SourceEnv)
    requires Inv(s) && (s.mig.phase.Starting? || s.mig.phase.Running?)
    ensures Inv(Drive(s, e))
  {
    FailKeeps(s, e.failedLands);
    SourcePatchKeeps(s, s, s.mig.(phase := Blocked), e.statusLands, e.failedLands);
    if s.mig.phase.Starting? { PrepareKeeps(s, e); } else { PollKeeps(s, e); }
  }

  lemma SourceKeeps(s: State, e: SourceEnv)
    requires Inv(s)
    ensures Inv(SourceStep(s, e))
  {
    if s.mig.phase.NeedsRecovery? {
      RecoverKeeps(s, e);
    } else if s.mig.phase.Starting? || s.mig.phase.Running? {
      CancelKeeps(s, e);
      DriveKeeps(s, e);
    }
  }

  // -------------------------------------------------------------- node agent

  /** A machine status an agent on n may write. */
  lemma WriteKeeps(s: State, n: Node, p: MachinePhase, id: bool, e: AgentEnv)
    requires Inv(s) && s.m.node == n
    requires p.MachineRunning? && s.guard.cutover && !s.guard.adopted ==> n != s.mig.target
    ensures Inv(WriteMachine(s, n, p, id, e))
  {
    if e.statusLands {} else if e.errorLands {} else {}
  }

  lemma AgentErrorKeeps(s: State, n: Node, e: AgentEnv)
    requires Inv(s) && s.m.node == n
    ensures Inv(AgentError(s, n, e))
  {
    if e.errorLands {} else {}
  }

  lemma ConcludeKeeps(s: State, n: Node, p: MachinePhase, id: bool, e: AgentEnv)
    requires Inv(s) && s.m.node == n
    requires p.MachineRunning? && s.guard.cutover && !s.guard.adopted ==> n != s.mig.target
    ensures Inv(Conclude(s, n, p, id, e))
  {
    AgentErrorKeeps(s, n, e);
    WriteKeeps(s, n, p, id, e);
  }

  lemma CreateKeeps(s: State, n: Node, e: AgentEnv)
    requires Inv(s) && s.m.node == n && !s.m.adoptOnly
    ensures Inv(CreateRuntime(s, n, e))
  {
    AgentErrorKeeps(s, n, e);
    var born := if e.bornUp then Up else Booting;
    ConcludeKeeps(NoteCreated(s.(runtimes := s.runtimes[n := born])), n, MachinePhaseOf(born), true, e);
  }

  lemma ReportKeeps(s: State, n: Node, now: Runtime, e: AgentEnv)
    requires Inv(s) && s.m.node == n
    ensures Inv(ReportRuntime(s, n, now, e))
  {
    if now.Up? && e.finishOk && e.statusLands {
    } else if now.Up? {
      AgentErrorKeeps(s, n, e);
      AgentErrorKeeps(s.(lost := true), n, e);
    } else {
      ConcludeKeeps(s, n, MachinePhaseOf(now), true, e);
    }
  }

  lemma KeepRuntimeKeeps(s: State, n: Node, e: AgentEnv)
    requires Inv(s) && s.m.node == n && n in s.runtimes
    ensures Inv(KeepRuntime(s, n, e))
  {
    AgentErrorKeeps(s, n, e);
    ReportKeeps(s, n, s.runtimes[n], e);
    ReportKeeps(s.(runtimes := s.runtimes[n := Up]), n, Up, e);
  }

  lemma EnsureRunningKeeps(s: State, n: Node, e: AgentEnv)
    requires Inv(s) && s.m.node == n
    ensures Inv(EnsureRunning(s, n, e))
  {
    AgentErrorKeeps(s, n, e);
    WriteKeeps(s, n, MachineBlocked, false, e);
    if n in s.runtimes { KeepRuntimeKeeps(s, n, e); }
    if !s.m.adoptOnly { CreateKeeps(s, n, e); }
  }

  lemma EnsureStoppedKeeps(s: State, n: Node, e: AgentEnv)
    requires Inv(s) && s.m.node == n
    ensures Inv(EnsureStopped(s, n, e))
  {
    AgentErrorKeeps(s, n, e);
    ConcludeKeeps(Lose(s, n), n, MachineStopped, false, e);
  }

  lemma EnsurePausedKeeps(s: State, n: Node, e: AgentEnv)
    requires Inv(s) && s.m.node == n
    ensures Inv(EnsurePaused(s, n, e))
  {
    AgentErrorKeeps(s, n, e);
    WriteKeeps(s, n, MachinePending, false, e);
    WriteKeeps(s.(runtimes := s.runtimes[n := Suspended]), n, MachinePaused, true, e);
  }

  lemma EnsureHaltedKeeps(s: State, n: Node, e: AgentEnv)
    requires Inv(s) && s.m.node == n
    ensures Inv(EnsureHalted(s, n, e))
  {
    AgentErrorKeeps(s, n, e);
    WriteKeeps(s, n, MachinePending, false, e);
    ConcludeKeeps(s.(runtimes := s.runtimes[n := Down]), n, MachineHalted, true, e);
  }

  lemma CleanupKeeps(s: State, n: Node, e: AgentEnv)
    requires Inv(s) && s.m.node == n
    ensures Inv(Cleanup(s, n, e))
  {
    var s1 := if s.m.recorded then Lose(s, n) else s;
    assert Inv(s1) by { LoseKeeps(s, n); }
    AgentErrorKeeps(s, n, e);
    AgentErrorKeeps(s1, n, e);
    GoneKeeps(s1);
  }

  lemma LoseKeeps(s: State, n: Node)
    requires Inv(s)
    ensures Inv(Lose(s, n))
  {
  }

  lemma GoneKeeps(s: State)
    requires Inv(s)
    ensures Inv(s.(m := s.m.(gone := true)))
  {
  }

  lemma AgentKeeps(s: State, n: Node, e: AgentEnv)
    requires Inv(s)
    ensures Inv(AgentStep(s, n, e))
  {
    if s.m.node == n {
      CleanupKeeps(s, n, e);
      EnsureStoppedKeeps(s, n, e);
      EnsurePausedKeeps(s, n, e);
      EnsureHaltedKeeps(s, n, e);
      EnsureRunningKeeps(s, n, e);
    }
  }

  // -------------------------------------------------------------------- runs

  lemma StepKeeps(s: State, a: Act)
    requires Inv(s)
    ensures Inv(Step(s, a))
  {
    match a
    case ByController(e) => ControllerKeeps(s, e);
    case BySource(e) => SourceKeeps(s, e);
    case ByAgent(n, e) => AgentKeeps(s, n, e);
    case _ =>
  }

  lemma {:induction false} RunKeeps(s: State, acts: seq<Act>)
    requires Inv(s)
    ensures Inv(Run(s, acts))
    decreases |acts|
  {
    if acts != [] {
      StepKeeps(s, acts[0]);
      RunKeeps(Step(s, acts[0]), acts[1..]);
    }
  }

  lemma FreshInv(s: State)
    requires Fresh(s)
    ensures Inv(s)
  {
  }

  // ---------------------------------------------------------------- theorems

  lemma EnsureRunningCreates(s: State, n: Node, e: AgentEnv, i: Node)
    requires i in EnsureRunning(s, n, e).runtimes && i !in s.runtimes
    ensures i == n && !s.m.adoptOnly
  {
    if n in s.runtimes {}
  }

  /** In any state, an agent step that makes a runtime appear makes it on its own
      node, for a Machine assigned there, neither guarded nor meant to be off. */
  lemma CreatesOnlyUnguarded(s: State, n: Node, e: AgentEnv, i: Node)
    requires i in AgentStep(s, n, e).runtimes && i !in s.runtimes
    ensures i == n == s.m.node && !s.m.adoptOnly && !s.m.deleting
    ensures s.m.power == PowerRunning || s.m.power == PowerOther
  {
    if s.m.gone || s.m.node != n {
    } else if s.m.deleting {
    } else {
      match s.m.power
      case PowerStopped =>
      case PowerPaused =>
      case PowerHalted =>
      case _ => EnsureRunningCreates(s, n, e, i);
    }
  }

  /** Over every run: from the cutover patch until the target agent has reported
      Running on a runtime it found, the Machine carries adopt-only; no agent
      creates a runtime before the guard is lifted; the guard is only lifted
      after that report. */
  lemma AdoptOnlyGuard(s: State, acts: seq<Act>)
    requires Fresh(s)
    ensures var r := Run(s, acts);
            && (r.guard.cutover && !r.guard.adopted ==> r.m.adoptOnly)
            && !r.guard.createdUnderGuard
            && !r.guard.liftedUnadopted
            && (r.guard.lifted ==> r.guard.adopted)
  {
    FreshInv(s);
    RunKeeps(s, acts);
  }

  /** Over every run: a live migration is past its commit point only on an
      acknowledged Commit or an attestation, and an acknowledged Commit stands. */
  lemma CommitEvidence(s: State, acts: seq<Act>)
    requires Fresh(s)
    ensures var r := Run(s, acts);
            && (r.mig.strategy.Live? && (r.mig.phase.Cutover? || r.mig.phase.Adopting? || r.mig.phase.Succeeded?) ==>
                  r.talk.acked || r.talk.attested)
            && (r.talk.acked ==> r.peer.Committed?)
  {
    FreshInv(s);
    RunKeeps(s, acts);
  }

  /** Over every run in which all status writes land: no Abort follows an
      acknowledged Commit. */
  lemma NoAbortAfterAck(s: State, acts: seq<Act>)
    requires Fresh(s)
    requires !Run(s, acts).lost
    ensures !Run(s, acts).talk.abortAfterAck
  {
    FreshInv(s);
    RunKeeps(s, acts);
  }

  /** Over every run: nothing is committed, aborted, deleted or resumed for a
      parked migration without an attested instruction, and migration code deletes
      the source runtime only on an acknowledged Commit or an attestation, never
      for a forced abort. */
  lemma ParkedRecovery(s: State, acts: seq<Act>)
    requires Fresh(s)
    ensures !Run(s, acts).talk.parkedTouched && !Run(s, acts).talk.deletedUnjustified
  {
    FreshInv(s);
    RunKeeps(s, acts);
  }
}
