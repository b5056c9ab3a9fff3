/** Cold migration: source and target never both hold a runtime. */
module MigrationCold {

  import opened Migration
  import opened MigrationSafety

  /** The migration never was and never will be live. */
  predicate NeverLive(s: State) {
    && !s.mig.wanted.WantLive? && !s.mig.strategy.Live? && s.peer.NoSession?
    && !s.mig.phase.NeedsRecovery? && !s.mig.phase.Adopting?
  }

  /** Only the assigned node holds a runtime, and none does once the Machine's
      status says Stopped. */
  predicate Alone(s: State) {
    && (forall n :: n in s.runtimes ==> n == s.m.node)
    && (s.m.phase.MachineStopped? ==> s.m.node !in s.runtimes)
  }

  predicate ColdInv(s: State) {
    NeverLive(s) && (!s.lost ==> Alone(s))
  }

  // ---------------------------------------------------------------- controller

  lemma FailCold(s: State, failedLands: bool)
    requires ColdInv(s)
    ensures ColdInv(Fail(s, failedLands))
  {
  }

  lemma PatchCold(s: State, rec: Record, lands: bool, failedLands: bool)
    requires ColdInv(s)
    requires NeverLive(s.(mig := rec))
    ensures ColdInv(PatchStatus(s, rec, lands, failedLands))
  {
    if lands {} else if failedLands {} else {}
  }

  lemma AdmitCold(s: State, e: ControllerEnv)
    requires ColdInv(s)
    ensures ColdInv(Admit(s, e))
  {
    PatchCold(s, s.mig.(phase := Blocked), e.statusLands, e.failedLands);
    var strategy := EffectiveStrategy(s.mig.wanted, e.liveEligible);
    var target := MigrationTarget(s.m.node, e.choice);
    var rec := s.mig.(source := s.m.node, target := target, strategy := strategy);
    FailCold(s, e.failedLands);
    PatchCold(s.(m := s.m.(power := PowerStopped)), rec.(phase := Stopping), e.statusLands, e.failedLands);
  }

  lemma ReassignCold(s: State, e: ControllerEnv)
    requires ColdInv(s)
    ensures ColdInv(Reassign(s, e))
  {
    FailCold(s, e.failedLands);
    if s.m.phase.MachineStopped? {
      var s1 := s.(m := s.m.(node := s.mig.target, power := PowerRunning));
      PatchCold(s1, s.mig.(phase := Restarting), e.statusLands, e.failedLands);
    }
  }

  lemma AdvanceCold(s: State, e: ControllerEnv)
    requires ColdInv(s)
    ensures ColdInv(Advance(s, e))
  {
    match s.mig.phase
    case Unset => AdmitCold(s, e);
    case Pending => AdmitCold(s, e);
    case Starting =>
    case Running =>
    case Stopping => ReassignCold(s, e);
    case Restarting => PatchCold(s, s.mig.(phase := Succeeded), e.statusLands, e.failedLands);
    case Cutover =>
      FailCold(s, e.failedLands);
      assert CutOver(s, e) == Fail(s, e.failedLands);
    case _ => FailCold(s, e.failedLands);
  }

  lemma ControllerCold(s: State, e: ControllerEnv)
    requires ColdInv(s)
    ensures ColdInv(ControllerStep(s, e))
  {
    FailCold(s, e.failedLands);
    AdvanceCold(s, e);
  }

  // --------------------------------------------------------------- node agent

  lemma ErrorCold(s: State, n: Node, e: AgentEnv)
    requires NeverLive(s) && s.m.node == n
    requires !s.lost ==> forall k :: k in s.runtimes ==> k == n
    ensures ColdInv(AgentError(s, n, e))
  {
  }

  lemma WriteCold(s: State, n: Node, p: MachinePhase, id: bool, e: AgentEnv)
    requires NeverLive(s) && s.m.node == n
    requires !s.lost ==> forall k :: k in s.runtimes ==> k == n
    requires p.MachineStopped? ==> n !in s.runtimes
    ensures ColdInv(WriteMachine(s, n, p, id, e))
  {
    if e.statusLands {} else if e.errorLands {} else {}
  }

  lemma EnsureRunningCold(s: State, n: Node, e: AgentEnv)
    requires ColdInv(s) && s.m.node == n
    ensures ColdInv(EnsureRunning(s, n, e))
  {
    ErrorCold(s, n, e);
    WriteCold(s, n, MachineBlocked, false, e);
    if n in s.runtimes {
      KeepCold(s, n, e);
    } else {
      CreateCold(s, n, e);
    }
  }

  lemma ConcludeCold(s: State, n: Node, p: MachinePhase, id: bool, e: AgentEnv)
    requires NeverLive(s) && s.m.node == n
    requires !s.lost ==> forall k :: k in s.runtimes ==> k == n
    requires p.MachineStopped? ==> n !in s.runtimes
    ensures ColdInv(Conclude(s, n, p, id, e))
  {
    ErrorCold(s, n, e);
    WriteCold(s, n, p, id, e);
  }

  lemma CreateCold(s: State, n: Node, e: AgentEnv)
    requires ColdInv(s) && s.m.node == n
    ensures ColdInv(CreateRuntime(s, n, e))
  {
    ErrorCold(s, n, e);
    var born := if e.bornUp then Up else Booting;
    ConcludeCold(NoteCreated(s.(runtimes := s.runtimes[n := born])), n, MachinePhaseOf(born), true, e);
  }

  lemma KeepCold(s: State, n: Node, e: AgentEnv)
    requires ColdInv(s) && s.m.node == n && n in s.runtimes
    ensures ColdInv(KeepRuntime(s, n, e))
  {
    ErrorCold(s, n, e);
    if Startable(s.runtimes[n], s.m.power) {
      ConcludeCold(s.(runtimes := s.runtimes[n := Up]), n, MachinePhaseOf(Up), true, e);
    } else {
      ConcludeCold(s, n, MachinePhaseOf(s.runtimes[n]), true, e);
    }
  }

  lemma EnsureStoppedCold(s: State, n: Node, e: AgentEnv)
    requires ColdInv(s) && s.m.node == n
    ensures ColdInv(EnsureStopped(s, n, e))
  {
    ErrorCold(s, n, e);
    ConcludeCold(Lose(s, n), n, MachineStopped, false, e);
  }

  lemma EnsurePausedCold(s: State, n: Node, e: AgentEnv)
    requires ColdInv(s) && s.m.node == n
    ensures ColdInv(EnsurePaused(s, n, e))
  {
    ErrorCold(s, n, e);
    WriteCold(s, n, MachinePending, false, e);
    WriteCold(s.(runtimes := s.runtimes[n := Suspended]), n, MachinePaused, true, e);
  }

  lemma EnsureHaltedCold(s: State, n: Node, e: AgentEnv)
    requires ColdInv(s) && s.m.node == n
    ensures ColdInv(EnsureHalted(s, n, e))
  {
    ErrorCold(s, n, e);
    WriteCold(s, n, MachinePending, false, e);
    ConcludeCold(s.(runtimes := s.runtimes[n := Down]), n, MachineHalted, true, e);
  }

  lemma CleanupCold(s: State, n: Node, e: AgentEnv)
    requires ColdInv(s) && s.m.node == n
    ensures ColdInv(Cleanup(s, n, e))
  {
    ErrorCold(s, n, e);
    ErrorCold(Lose(s, n), n, e);
  }

  lemma AgentCold(s: State, n: Node, e: AgentEnv)
    requires ColdInv(s)
    ensures ColdInv(AgentStep(s, n, e))
  {
    if s.m.node == n {
      CleanupCold(s, n, e);
      EnsureStoppedCold(s, n, e);
      EnsurePausedCold(s, n, e);
      EnsureHaltedCold(s, n, e);
      EnsureRunningCold(s, n, e);
    }
  }

  // --------------------------------------------------------------------- runs

  lemma StepCold(s: State, a: Act)
    requires ColdInv(s)
    ensures ColdInv(Step(s, a))
  {
    match a
    case ByController(e) => ControllerCold(s, e);
    case ByAgent(n, e) => AgentCold(s, n, e);
    case _ =>
  }

  lemma {:induction false} RunCold(s: State, acts: seq<Act>)
    requires ColdInv(s)
    ensures ColdInv(Run(s, acts))
    decreases |acts|
  {
    if acts != [] {
      StepCold(s, acts[0]);
      RunCold(Step(s, acts[0]), acts[1..]);
    }
  }

  /** Nothing but the assigned node's own agent makes a runtime appear. */
  lemma CreatesOnAssignedNode(s: State, a: Act, i: Node)
    requires NeverLive(s)
    requires i in Step(s, a).runtimes && i !in s.runtimes
    ensures i == s.m.node
  {
    match a
    case ByController(e) => ControllerRuntimes(s, e);
    case ByAgent(n, e) => CreatesOnlyUnguarded(s, n, e, i);
    case _ =>
  }

  lemma ControllerRuntimes(s: State, e: ControllerEnv)
    ensures ControllerStep(s, e).runtimes == s.runtimes
  {
  }

  /** Over every interleaving in which status writes land: two nodes never hold a
      runtime at once, and a runtime is only ever created while none exists. */
  lemma ColdMigrationSafety(s: State, acts: seq<Act>, next: Act)
    requires Fresh(s) && !s.mig.wanted.WantLive? && Alone(s)
    requires !Run(s, acts).lost && !Step(Run(s, acts), next).lost
    ensures var r, r' := Run(s, acts), Step(Run(s, acts), next);
            && (forall i, j :: i in r'.runtimes && j in r'.runtimes ==> i == j)
            && (forall i :: i in r'.runtimes && i !in r.runtimes ==> forall j :: j !in r.runtimes)
  {
    var r := Run(s, acts);
    RunCold(s, acts);
    StepCold(r, next);
    forall i | i in Step(r, next).runtimes && i !in r.runtimes
      ensures i == r.m.node
    {
      CreatesOnAssignedNode(r, next, i);
    }
  }
}
