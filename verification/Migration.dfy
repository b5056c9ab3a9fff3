/**
 One Machine and the one MachineMigration that names it, as the controller, the
 node agents and FluxVM change them. Every reconcile of one object is one atomic
 step; every outcome the step cannot decide (an API write, a FluxVM call, the
 peer's answer) is a field of the step's environment.
 */
module Migration {

  /** A node name; `NoNode` is the empty one. */
  type Node = nat
  const NoNode: Node := 0

  // ---------------------------------------------------------------- objects

  datatype Phase =
    | Unset | Pending | Starting | Running | Cutover | Adopting | Stopping | Restarting
    | NeedsRecovery | Succeeded | Failed | Blocked | Cancelled | Unrecognised

  datatype Strategy = NoStrategy | Live | Cold

  datatype Wanted = WantLive | WantCold | WantAuto | WantOther

  datatype Power = PowerRunning | PowerStopped | PowerPaused | PowerHalted | PowerOther

  /** FluxVM record status, after normalizePhase. */
  datatype Runtime = Up | Suspended | Down | Booting | Odd

  datatype MachinePhase =
    | NoPhase | MachineStopped | MachineRunning | MachinePaused | MachineHalted
    | MachinePending | MachineBlocked | MachineError | MachineStarting | MachineUnknown

  /** `recorded` says status.runtimeID is set; a merge patch never clears it. */
  datatype Machine = Machine(
    node: Node, power: Power, adoptOnly: bool, deleting: bool, gone: bool,
    phase: MachinePhase, statusNode: Node, recorded: bool)

  datatype Action = ConfirmCommitted | ConfirmNotCommitted | ForceAbort | UnknownAction

  datatype Diagnosis = SawCommitted | SawNotCommitted | SawUnknown

  /** spec.recovery, when the operator has set it. */
  datatype Recovery = NoOrder | Order(action: Action, diagnosis: Diagnosis, reasonBlank: bool)

  /** `session`, `transfer` and `runtimeID` say that status carries that id. */
  datatype Record = Record(
    phase: Phase, strategy: Strategy, source: Node, target: Node,
    session: bool, transfer: bool, runtimeID: bool,
    wanted: Wanted, cancel: bool, recovery: Recovery)

  /** The destination's session register. */
  datatype Peer = NoSession | Prepared | Unsupported | Committed | Aborted

  // ----------------------------------------------------------------- history

  /** The attested instruction reconcileNeedsRecovery is willing to follow. */
  predicate Authorised(order: Recovery) {
    && order.Order?
    && !order.reasonBlank
    && match order.action
       case ConfirmCommitted => order.diagnosis == SawCommitted
       case ConfirmNotCommitted => order.diagnosis == SawNotCommitted
       case ForceAbort => true
       case UnknownAction => false
  }

  /** What has happened so far around the peer. `abortAfterAck`, `deletedUnjustified`
      and `parkedTouched` are set by an event that breaks the rule they name and
      are never cleared. */
  datatype PeerLedger = PeerLedger(
    acked: bool, attested: bool, abortAfterAck: bool, deletedUnjustified: bool, parkedTouched: bool)

  /** What has happened so far around the cutover guard. `createdUnderGuard` and
      `liftedUnadopted` are set by an event that breaks the rule they name. */
  datatype GuardLedger = GuardLedger(
    cutover: bool, adopted: bool, lifted: bool, createdUnderGuard: bool, liftedUnadopted: bool)

  /** `quiesced` is about the source's runtime; `lost` says some status write did not land. */
  datatype State = State(
    m: Machine, mig: Record, runtimes: map<Node, Runtime>, peer: Peer, quiesced: bool,
    talk: PeerLedger, guard: GuardLedger, lost: bool)

  /** Node n's runtime goes, and a quiesce of the source's network with it. */
  function Lose(s: State, n: Node): (r: State) {
    s.(runtimes := s.runtimes - {n}, quiesced := s.quiesced && n != s.mig.source)
  }

  /** A step acting for a parked migration without an attested instruction. */
  predicate Untoward(s: State, order: Recovery) {
    s.mig.phase.NeedsRecovery? && !Authorised(order)
  }

  function NoteCommit(s: State, order: Recovery, acked: bool): (r: State) {
    s.(talk := s.talk.(acked := s.talk.acked || acked,
                       parkedTouched := s.talk.parkedTouched || Untoward(s, order)))
  }

  function NoteAbort(s: State, order: Recovery): (r: State) {
    s.(talk := s.talk.(abortAfterAck := s.talk.abortAfterAck || s.talk.acked,
                       parkedTouched := s.talk.parkedTouched || Untoward(s, order)))
  }

  /** Deleting the source runtime is justified by an acknowledged Commit or by the
      operator's attestation, and never as part of a forced abort. */
  function NoteDelete(s: State, order: Recovery): (r: State) {
    var justified := (s.talk.acked || s.talk.attested) && order.Order? && order.action != ForceAbort;
    s.(talk := s.talk.(deletedUnjustified := s.talk.deletedUnjustified || !justified,
                       parkedTouched := s.talk.parkedTouched || Untoward(s, order)))
  }

  function NoteResume(s: State): (r: State) {
    s.(talk := s.talk.(parkedTouched := s.talk.parkedTouched || s.mig.phase.NeedsRecovery?))
  }

  function NoteCreated(s: State): (r: State) {
    s.(guard := s.guard.(createdUnderGuard :=
      s.guard.createdUnderGuard || (s.guard.cutover && !s.guard.lifted)))
  }

  /** Node n reported Running on a runtime it found. */
  function NoteReported(s: State, n: Node): (r: State) {
    s.(guard := s.guard.(adopted := s.guard.adopted || (s.guard.cutover && n == s.mig.target)))
  }

  function NoteLifted(s: State): (r: State) {
    s.(guard := s.guard.(lifted := true, liftedUnadopted := s.guard.liftedUnadopted || !s.guard.adopted))
  }

  // ------------------------------------------------------- phase predicates

  /** Phases that hold a migration slot. */
  predicate Active(p: Phase) {
    p.Starting? || p.Running? || p.Cutover? || p.Adopting? || p.Stopping? || p.Restarting? || p.NeedsRecovery?
  }

  /** Phases the controller never looks at again. */
  predicate Settled(p: Phase) {
    p.Succeeded? || p.Failed? || p.Blocked? || p.NeedsRecovery? || p.Cancelled?
  }

  /** The agent's own notion of a migration that may still be streaming. */
  predicate InFlight(p: Phase) {
    !(p.Succeeded? || p.Failed? || p.Blocked? || p.Unset?)
  }

  function MachinePhaseOf(r: Runtime): (p: MachinePhase) {
    match r
    case Up => MachineRunning
    case Suspended => MachinePaused
    case Down => MachineStopped
    case Booting => MachineStarting
    case Odd => MachineUnknown
  }

  // ----------------------------------------------------------- peer register

  datatype CommitOutcome = AppliedAcked | AppliedLostAck | NotApplied

  function PeerPrepare(p: Peer, supported: bool): (r: Peer) {
    if p != NoSession then p else if supported then Prepared else Unsupported
  }

  /** The peer commits a prepared session, and says so again for a committed one. */
  predicate Commits(p: Peer, o: CommitOutcome) {
    (p == Prepared || p == Committed) && o != NotApplied
  }

  function PeerAbort(p: Peer, applied: bool): (r: Peer) {
    if p == Committed || p == NoSession || !applied then p else Aborted
  }

  // ---------------------------------------------------- status write outcomes

  /** Reconcile's error path: the listed status with phase Failed. */
  function Fail(s: State, failedLands: bool): (r: State)
    ensures r.runtimes == s.runtimes
  {
    if failedLands then s.(mig := s.mig.(phase := Failed)) else s.(lost := true)
  }

  /** A status patch; when it is lost the error path tries to write Failed. */
  function PatchStatus(s: State, rec: Record, lands: bool, failedLands: bool): (r: State)
    ensures r.runtimes == s.runtimes
  {
    if lands then s.(mig := rec) else Fail(s.(lost := true), failedLands)
  }

  // ------------------------------------------------------------- controller

  datatype ControllerEnv = ControllerEnv(
    room: bool, policyAdmits: bool, liveEligible: bool, choice: Node, targetRoom: bool,
    machineLands: bool, statusLands: bool, failedLands: bool)

  function EffectiveStrategy(w: Wanted, liveEligible: bool): (r: Strategy) {
    match w
    case WantCold => Cold
    case WantAuto => Cold
    case WantLive => if liveEligible then Live else NoStrategy
    case WantOther => NoStrategy
  }

  /** The scheduler only ever sees candidates other than the current node. */
  function MigrationTarget(node: Node, choice: Node): (r: Node)
    ensures r != NoNode ==> r != node
  {
    if choice != node then choice else NoNode
  }

  function Block(s: State, e: ControllerEnv): (r: State) {
    PatchStatus(s, s.mig.(phase := Blocked), e.statusLands, e.failedLands)
  }

  function Admit(s: State, e: ControllerEnv): (r: State) {
    if s.m.node == NoNode then Block(s, e)
    else if !e.room || !e.policyAdmits then Block(s, e)
    else
      var strategy := EffectiveStrategy(s.mig.wanted, e.liveEligible);
      if strategy == NoStrategy then Block(s, e)
      else
        var target := MigrationTarget(s.m.node, e.choice);
        if target == NoNode || !e.targetRoom then Block(s, e)
        else Begin(s, s.mig.(source := s.m.node, target := target, strategy := strategy), e)
  }

  function Begin(s: State, rec: Record, e: ControllerEnv): (r: State) {
    if rec.strategy == Live then
      PatchStatus(s, rec.(phase := Starting), e.statusLands, e.failedLands)
    else if !e.machineLands then Fail(s, e.failedLands)
    else
      var s1 := s.(m := s.m.(power := PowerStopped));
      PatchStatus(s1, rec.(phase := Stopping), e.statusLands, e.failedLands)
  }

  function CutOver(s: State, e: ControllerEnv): (r: State) {
    if s.mig.strategy != Live || !e.machineLands then Fail(s, e.failedLands)
    else
      var s1 := s.(m := s.m.(node := s.mig.target, adoptOnly := true), guard := s.guard.(cutover := true));
      PatchStatus(s1, s.mig.(phase := Adopting), e.statusLands, e.failedLands)
  }

  predicate ReportsRunningOn(m: Machine, n: Node) {
    m.node == n && m.statusNode == n && m.phase == MachineRunning
  }

  function Adopt(s: State, e: ControllerEnv): (r: State) {
    if !ReportsRunningOn(s.m, s.mig.target) then s
    else if !e.machineLands then Fail(s, e.failedLands)
    else
      var s1 := NoteLifted(s.(m := s.m.(adoptOnly := false)));
      PatchStatus(s1, s.mig.(phase := Succeeded), e.statusLands, e.failedLands)
  }

  function Reassign(s: State, e: ControllerEnv): (r: State) {
    if s.m.phase != MachineStopped then s
    else if !e.machineLands then Fail(s, e.failedLands)
    else
      var s1 := s.(m := s.m.(node := s.mig.target, power := PowerRunning));
      PatchStatus(s1, s.mig.(phase := Restarting), e.statusLands, e.failedLands)
  }

  function ControllerStep(s: State, e: ControllerEnv): (r: State) {
    if Settled(s.mig.phase) then s
    else if s.m.gone || s.m.deleting then Fail(s, e.failedLands)
    else Advance(s, e)
  }

  function Advance(s: State, e: ControllerEnv): (r: State) {
    match s.mig.phase
    case Unset => Admit(s, e)
    case Pending => Admit(s, e)
    case Starting => s
    case Running => s
    case Cutover => CutOver(s, e)
    case Adopting => Adopt(s, e)
    case Stopping => Reassign(s, e)
    case Restarting => Settle(s, e)
    case _ => Fail(s, e.failedLands)
  }

  function Settle(s: State, e: ControllerEnv): (r: State) {
    if ReportsRunningOn(s.m, s.mig.target)
    then PatchStatus(s, s.mig.(phase := Succeeded), e.statusLands, e.failedLands)
    else s
  }

  // ------------------------------------------ source agent: live migration

  /** A transfer's reported phase; `PollFailed` when there was no answer. */
  datatype Transfer = Completed | Stopped | InProgress | PollFailed

  datatype StartOutcome = Started(t: Transfer) | StartUnsupported | StartFailed

  datatype SourceEnv = SourceEnv(
    peerReady: bool, migratorReady: bool, machineFound: bool, backendOk: bool, lookupOk: bool, urlOk: bool,
    quiesceOk: bool, prepareOk: bool, supported: bool, modeOk: bool, started: StartOutcome,
    polled: Transfer, commit: CommitOutcome, abortApplied: bool, resumeOk: bool, deleteOk: bool,
    statusLands: bool, failedLands: bool)

  function SendAbort(s: State, order: Recovery, e: SourceEnv): (r: State) {
    NoteAbort(s, order).(peer := PeerAbort(s.peer, e.abortApplied))
  }

  function Resume(s: State, e: SourceEnv): (r: State) {
    NoteResume(s).(quiesced := s.quiesced && !e.resumeOk)
  }

  function SendCommit(s: State, order: Recovery, e: SourceEnv): (r: State) {
    NoteCommit(s, order, CommitAcked(s, e))
      .(peer := if Commits(s.peer, e.commit) then Committed else s.peer)
  }

  predicate CommitAcked(s: State, e: SourceEnv) {
    Commits(s.peer, e.commit) && e.commit == AppliedAcked
  }

  /** Deletes the runtime status.runtimeID names; the call may fail. */
  function RemoveSource(s: State, order: Recovery, e: SourceEnv): (r: State) {
    if !s.mig.runtimeID then s
    else
      NoteDelete(s, order)
        .(runtimes := if e.deleteOk then s.runtimes - {s.mig.source} else s.runtimes,
          quiesced := s.quiesced && !e.deleteOk)
  }

  /** The prepared target is aborted and the source network resumed. */
  function BackOut(s: State, e: SourceEnv): (r: State) {
    Resume(SendAbort(s, NoOrder, e), e)
  }

  function BackOutTo(s: State, rec: Record, p: Phase, e: SourceEnv): (r: State) {
    PatchStatus(BackOut(s, e), rec.(phase := p), e.statusLands, e.failedLands)
  }

  /** The transfer completed: commit the target, or park when that is in doubt. */
  function Finish(s: State, rec: Record, e: SourceEnv): (r: State) {
    if CommitAcked(s, e)
    then PatchStatus(SendCommit(s, NoOrder, e), rec.(phase := Cutover), e.statusLands, e.failedLands)
    else PatchStatus(SendCommit(s, NoOrder, e), rec.(phase := NeedsRecovery), e.statusLands, e.failedLands)
  }

  /** projectTransfer, for the status record `rec` built so far. */
  function Project(s: State, rec: Record, t: Transfer, e: SourceEnv): (r: State) {
    match t
    case Completed => Finish(s, rec, e)
    case Stopped => BackOutTo(s, rec, Failed, e)
    case _ => PatchStatus(s, rec.(phase := Running), e.statusLands, e.failedLands)
  }

  function Launch(s: State, rec: Record, e: SourceEnv): (r: State) {
    if !e.modeOk then Fail(BackOut(s, e), e.failedLands)
    else match e.started
      case Started(t) => Project(s, rec.(transfer := true), t, e)
      case StartUnsupported => BackOutTo(s, rec, Blocked, e)
      case StartFailed => BackOutTo(s, rec, Failed, e)
  }

  function Refuse(s: State, rec: Record, e: SourceEnv): (r: State) {
    PatchStatus(Resume(s, e), rec.(phase := Blocked), e.statusLands, e.failedLands)
  }

  function PrepareAndStart(s: State, e: SourceEnv): (r: State) {
    var s0 := s.(quiesced := s.quiesced || e.quiesceOk);
    if !e.prepareOk then Fail(s0, e.failedLands)
    else
      var s1 := s0.(peer := PeerPrepare(s.peer, e.supported));
      var rec := s.mig.(session := true, runtimeID := true);
      if s1.peer == Unsupported then Refuse(s1, rec, e) else Launch(s1, rec, e)
  }

  function Poll(s: State, e: SourceEnv): (r: State) {
    if !s.mig.session || !s.mig.transfer || e.polled == PollFailed then Fail(s, e.failedLands)
    else Project(s, s.mig, e.polled, e)
  }

  function CancelLive(s: State, e: SourceEnv): (r: State) {
    var s1 := if e.peerReady && s.mig.session && e.urlOk then SendAbort(s, NoOrder, e) else s;
    var s2 := if s.mig.runtimeID then Resume(s1, e) else s1;
    PatchStatus(s2, s.mig.(phase := Cancelled), e.statusLands, e.failedLands)
  }

  /** Only the status message changes. */
  function Park(s: State, e: SourceEnv): (r: State) {
    PatchStatus(s, s.mig, e.statusLands, e.failedLands)
  }

  function ApplyConfirmCommitted(s: State, e: SourceEnv): (r: State) {
    var s0 := s.(talk := s.talk.(attested := true));
    var s1 := SendCommit(s0, s.mig.recovery, e);
    var s2 := RemoveSource(s1, s.mig.recovery, e);
    PatchStatus(s2, s.mig.(phase := Cutover), e.statusLands, e.failedLands)
  }

  function ApplyConfirmNotCommitted(s: State, e: SourceEnv): (r: State) {
    var s1 := SendCommit(s, s.mig.recovery, e);
    if CommitAcked(s, e) then
      var s2 := RemoveSource(s1, s.mig.recovery, e);
      PatchStatus(s2, s.mig.(phase := Cutover), e.statusLands, e.failedLands)
    else
      var s2 := SendAbort(s1, s.mig.recovery, e);
      PatchStatus(s2, s.mig.(phase := Failed), e.statusLands, e.failedLands)
  }

  function ApplyForceAbort(s: State, e: SourceEnv): (r: State) {
    var s1 := SendAbort(s, s.mig.recovery, e);
    PatchStatus(s1, s.mig.(phase := Failed), e.statusLands, e.failedLands)
  }

  function Recover(s: State, e: SourceEnv): (r: State) {
    if !e.peerReady || !e.urlOk then Fail(s, e.failedLands)
    else if s.mig.recovery.NoOrder? || s.mig.recovery.reasonBlank then Park(s, e)
    else match s.mig.recovery.action
      case ConfirmCommitted =>
        if s.mig.recovery.diagnosis != SawCommitted then Park(s, e) else ApplyConfirmCommitted(s, e)
      case ConfirmNotCommitted =>
        if s.mig.recovery.diagnosis != SawNotCommitted then Park(s, e) else ApplyConfirmNotCommitted(s, e)
      case ForceAbort => ApplyForceAbort(s, e)
      case UnknownAction => Park(s, e)
  }

  function Drive(s: State, e: SourceEnv): (r: State) {
    if s.m.gone || !e.machineFound || s.m.node != s.mig.source || !e.backendOk then Fail(s, e.failedLands)
    else if !e.peerReady || !e.migratorReady then
      PatchStatus(s, s.mig.(phase := Blocked), e.statusLands, e.failedLands)
    else if !e.lookupOk || s.mig.source !in s.runtimes || !e.urlOk then Fail(s, e.failedLands)
    else if s.mig.phase == Starting then PrepareAndStart(s, e)
    else Poll(s, e)
  }

  function SourceStep(s: State, e: SourceEnv): (r: State) {
    if s.mig.phase == NeedsRecovery then Recover(s, e)
    else if (s.mig.phase != Starting && s.mig.phase != Running) || s.mig.strategy != Live then s
    else if s.mig.cancel then CancelLive(s, e)
    else Drive(s, e)
  }

  // --------------------------------------------- node agent: reconcileMachine

  datatype AgentEnv = AgentEnv(
    listOk: bool, resolveOk: bool, lookupOk: bool, opOk: bool, bornUp: bool, finishOk: bool,
    statusLands: bool, errorLands: bool)

  /** Reconcile's error path for a Machine. */
  function AgentError(s: State, n: Node, e: AgentEnv): (r: State)
    ensures r.runtimes == s.runtimes && r.mig == s.mig && r.m.gone == s.m.gone
  {
    if e.errorLands then s.(m := s.m.(phase := MachineError, statusNode := n)) else s.(lost := true)
  }

  function WriteMachine(s: State, n: Node, p: MachinePhase, id: bool, e: AgentEnv): (r: State)
    ensures r.runtimes == s.runtimes && r.mig == s.mig && r.m.gone == s.m.gone
  {
    if e.statusLands
    then s.(m := s.m.(phase := p, statusNode := n, recorded := s.m.recorded || id))
    else AgentError(s.(lost := true), n, e)
  }

  /** The remaining calls of a reconcile, then its status write. */
  function Conclude(s: State, n: Node, p: MachinePhase, id: bool, e: AgentEnv): (r: State)
    ensures r.runtimes == s.runtimes && r.mig == s.mig && r.m.gone == s.m.gone
  {
    if !e.finishOk then AgentError(s, n, e) else WriteMachine(s, n, p, id, e)
  }

  function EnsureStopped(s: State, n: Node, e: AgentEnv): (r: State) {
    if !e.lookupOk || (n in s.runtimes && !e.opOk) then AgentError(s, n, e)
    else Conclude(Lose(s, n), n, MachineStopped, false, e)
  }

  function EnsurePaused(s: State, n: Node, e: AgentEnv): (r: State) {
    if !e.lookupOk then AgentError(s, n, e)
    else if n !in s.runtimes then WriteMachine(s, n, MachinePending, false, e)
    else if s.runtimes[n] != Suspended && !e.opOk then AgentError(s, n, e)
    else WriteMachine(s.(runtimes := s.runtimes[n := Suspended]), n, MachinePaused, true, e)
  }

  function EnsureHalted(s: State, n: Node, e: AgentEnv): (r: State) {
    if !e.lookupOk then AgentError(s, n, e)
    else if n !in s.runtimes then WriteMachine(s, n, MachinePending, false, e)
    else if s.runtimes[n] != Down && !e.opOk then AgentError(s, n, e)
    else Conclude(s.(runtimes := s.runtimes[n := Down]), n, MachineHalted, true, e)
  }

  function CreateRuntime(s: State, n: Node, e: AgentEnv): (r: State) {
    if !e.opOk then AgentError(s, n, e)
    else
      var born := if e.bornUp then Up else Booting;
      Conclude(NoteCreated(s.(runtimes := s.runtimes[n := born])), n, MachinePhaseOf(born), true, e)
  }

  /** Paused and wanted running, or stopped: the agent starts it again. */
  predicate Startable(was: Runtime, power: Power) {
    (was == Suspended && power == PowerRunning) || was == Down
  }

  /** Resume, start or leave alone a runtime that was found. */
  function KeepRuntime(s: State, n: Node, e: AgentEnv): (r: State)
    requires n in s.runtimes
  {
    if !Startable(s.runtimes[n], s.m.power) then ReportRuntime(s, n, s.runtimes[n], e)
    else if !e.opOk then AgentError(s, n, e)
    else ReportRuntime(s.(runtimes := s.runtimes[n := Up]), n, Up, e)
  }

  function ReportRuntime(s: State, n: Node, now: Runtime, e: AgentEnv): (r: State)
    ensures r.runtimes == s.runtimes && r.mig == s.mig && r.m.gone == s.m.gone
  {
    var s1 := Conclude(s, n, MachinePhaseOf(now), true, e);
    if now == Up && e.finishOk && e.statusLands then NoteReported(s1, n) else s1
  }

  function EnsureRunning(s: State, n: Node, e: AgentEnv): (r: State) {
    if !e.resolveOk || !e.lookupOk then AgentError(s, n, e)
    else if n in s.runtimes then KeepRuntime(s, n, e)
    else if s.m.adoptOnly then WriteMachine(s, n, MachineBlocked, false, e)
    else CreateRuntime(s, n, e)
  }

  function Cleanup(s: State, n: Node, e: AgentEnv): (r: State) {
    if !e.listOk || InFlight(s.mig.phase) || (s.m.recorded && !e.opOk) then AgentError(s, n, e)
    else
      var s1 := if s.m.recorded then Lose(s, n) else s;
      if !e.finishOk then AgentError(s1, n, e) else s1.(m := s1.m.(gone := true))
  }

  function AgentStep(s: State, n: Node, e: AgentEnv): (r: State) {
    if s.m.gone || s.m.node != n then s
    else if s.m.deleting then Cleanup(s, n, e)
    else match s.m.power
      case PowerStopped => EnsureStopped(s, n, e)
      case PowerPaused => EnsurePaused(s, n, e)
      case PowerHalted => EnsureHalted(s, n, e)
      case _ => EnsureRunning(s, n, e)
  }

  // -------------------------------------------------------------------- runs

  /** Everything that can happen next. The last four are the operator's; the
      four before them are FluxVM's and the destination's own. */
  datatype Act =
    | ByController(c: ControllerEnv)
    | BySource(src: SourceEnv)
    | ByAgent(n: Node, a: AgentEnv)
    | Incoming(status: Runtime)
    | Drift(n: Node, status: Runtime)
    | Vanish(n: Node)
    | Reap
    | SetPower(power: Power)
    | RequestCancel
    | SetRecovery(recovery: Recovery)
    | DeleteMachine

  function Step(s: State, a: Act): (r: State) {
    match a
    case ByController(e) => ControllerStep(s, e)
    case BySource(e) => SourceStep(s, e)
    case ByAgent(n, e) => AgentStep(s, n, e)
    case Incoming(status) =>
      if s.peer == Prepared || s.peer == Committed
      then s.(runtimes := s.runtimes[s.mig.target := status]) else s
    case Drift(n, status) => if n in s.runtimes then s.(runtimes := s.runtimes[n := status]) else s
    case Vanish(n) => Lose(s, n)
    case Reap => if s.peer == Prepared then s.(peer := Aborted) else s
    case SetPower(p) => s.(m := s.m.(power := p))
    case RequestCancel => s.(mig := s.mig.(cancel := true))
    case SetRecovery(r) => s.(mig := s.mig.(recovery := r))
    case DeleteMachine => s.(m := s.m.(deleting := true))
  }

  function Run(s: State, acts: seq<Act>): (r: State)
    decreases |acts|
  {
    if acts == [] then s else Run(Step(s, acts[0]), acts[1..])
  }

  /** A migration not yet admitted, on a Machine whose last status write, if any,
      came from the node it is assigned to. */
  predicate Fresh(s: State) {
    && s.talk == PeerLedger(false, false, false, false, false)
    && s.guard == GuardLedger(false, false, false, false, false)
    && !s.lost
    && (s.mig.phase.Unset? || s.mig.phase.Pending?)
    && s.mig.strategy == NoStrategy
    && !s.mig.session && !s.mig.transfer && !s.mig.runtimeID
    && s.peer == NoSession
    && (s.m.statusNode == NoNode || s.m.statusNode == s.m.node)
  }
}
