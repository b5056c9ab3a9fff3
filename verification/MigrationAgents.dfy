/** The reconcilers themselves, as they change the cluster call by call. */
module MigrationAgents {

  import opened Migration

  /** The objects of one Machine's migration, as the API server, FluxVM and the
      peer hold them. Each reconcile returns whether it ended in an error, which
      its caller then writes to status. */
  class Cluster {
    var m: Machine
    var mig: Record
    var runtimes: map<Node, Runtime>
    var peer: Peer
    var quiesced: bool
    var talk: PeerLedger
    var guard: GuardLedger
    var lost: bool

    ghost function View(): (s: State)
      reads this
    {
      State(m, mig, runtimes, peer, quiesced, talk, guard, lost)
    }

    // ------------------------------------------------------------- calls out

    method PatchMigrationStatus(rec: Record, lands: bool) returns (err: bool)
      modifies this
      ensures err == !lands
      ensures View() == if lands then old(View()).(mig := rec) else old(View()).(lost := true)
    {
      if lands {
        mig := rec;
      } else {
        lost := true;
      }
      err := !lands;
    }

    method SendPeerAbort(order: Recovery, e: SourceEnv)
      modifies this
      ensures View() == SendAbort(old(View()), order, e)
    {
      talk := talk.(abortAfterAck := talk.abortAfterAck || talk.acked,
                    parkedTouched := talk.parkedTouched || (mig.phase.NeedsRecovery? && !Authorised(order)));
      peer := PeerAbort(peer, e.abortApplied);
    }

    method SendPeerCommit(order: Recovery, e: SourceEnv) returns (acked: bool)
      modifies this
      ensures View() == SendCommit(old(View()), order, e)
      ensures acked == CommitAcked(old(View()), e)
    {
      acked := Commits(peer, e.commit) && e.commit == AppliedAcked;
      talk := talk.(acked := talk.acked || acked,
                    parkedTouched := talk.parkedTouched || (mig.phase.NeedsRecovery? && !Authorised(order)));
      if Commits(peer, e.commit) { peer := Committed; }
    }

    method ResumeSourceNetwork(e: SourceEnv)
      modifies this
      ensures View() == Resume(old(View()), e)
    {
      talk := talk.(parkedTouched := talk.parkedTouched || mig.phase.NeedsRecovery?);
      if e.resumeOk { quiesced := false; }
    }

    method LoseRuntime(n: Node)
      modifies this
      ensures View() == Lose(old(View()), n)
    {
      runtimes := runtimes - {n};
      if n == mig.source { quiesced := false; }
    }

    method DeleteSourceRuntime(order: Recovery, e: SourceEnv)
      modifies this
      ensures View() == RemoveSource(old(View()), order, e)
    {
      if mig.runtimeID {
        var justified := (talk.acked || talk.attested) && order.Order? && order.action != ForceAbort;
        talk := talk.(deletedUnjustified := talk.deletedUnjustified || !justified,
                      parkedTouched := talk.parkedTouched || (mig.phase.NeedsRecovery? && !Authorised(order)));
        if e.deleteOk { LoseRuntime(mig.source); }
      }
    }

    // ----------------------------------------------------------- source agent

    method ProjectTransfer(rec: Record, t: Transfer, e: SourceEnv) returns (err: bool)
      modifies this
      ensures (if err then Fail(View(), e.failedLands) else View()) == Project(old(View()), rec, t, e)
    {
      var status := rec;
      match t {
        case Completed =>
          var acked := SendPeerCommit(NoOrder, e);
          if !acked {
            err := PatchMigrationStatus(status.(phase := NeedsRecovery), e.statusLands);
            return;
          }
          status := status.(phase := Cutover);
        case Stopped =>
          SendPeerAbort(NoOrder, e);
          ResumeSourceNetwork(e);
          status := status.(phase := Failed);
        case _ =>
          status := status.(phase := Running);
      }
      err := PatchMigrationStatus(status, e.statusLands);
    }

    method StartTransfer(e: SourceEnv) returns (err: bool)
      modifies this
      ensures (if err then Fail(View(), e.failedLands) else View()) == PrepareAndStart(old(View()), e)
    {
      if e.quiesceOk { quiesced := true; }
      if !e.prepareOk { return true; }
      peer := PeerPrepare(peer, e.supported);
      var status := mig.(session := true, runtimeID := true);
      if peer == Unsupported {
        ResumeSourceNetwork(e);
        err := PatchMigrationStatus(status.(phase := Blocked), e.statusLands);
        return;
      }
      err := LaunchTransfer(status, e);
    }

    method LaunchTransfer(status: Record, e: SourceEnv) returns (err: bool)
      modifies this
      ensures (if err then Fail(View(), e.failedLands) else View()) == Launch(old(View()), status, e)
    {
      if !e.modeOk {
        SendPeerAbort(NoOrder, e);
        ResumeSourceNetwork(e);
        return true;
      }
      if !e.started.Started? {
        SendPeerAbort(NoOrder, e);
        ResumeSourceNetwork(e);
        var p := if e.started == StartUnsupported then Blocked else Failed;
        err := PatchMigrationStatus(status.(phase := p), e.statusLands);
        return;
      }
      err := ProjectTransfer(status.(transfer := true), e.started.t, e);
    }

    method CancelLiveMigration(e: SourceEnv) returns (err: bool)
      modifies this
      ensures (if err then Fail(View(), e.failedLands) else View()) == CancelLive(old(View()), e)
    {
      if e.peerReady && mig.session && e.urlOk { SendPeerAbort(NoOrder, e); }
      if mig.runtimeID { ResumeSourceNetwork(e); }
      err := PatchMigrationStatus(mig.(phase := Cancelled), e.statusLands);
    }

    method ApplyRecovery(e: SourceEnv) returns (err: bool)
      requires Authorised(mig.recovery)
      modifies this
      ensures (if err then Fail(View(), e.failedLands) else View()) ==
              match old(mig.recovery.action)
              case ConfirmCommitted => ApplyConfirmCommitted(old(View()), e)
              case ConfirmNotCommitted => ApplyConfirmNotCommitted(old(View()), e)
              case _ => ApplyForceAbort(old(View()), e)
    {
      var status := mig;
      match mig.recovery.action {
        case ConfirmCommitted =>
          talk := talk.(attested := true);
          var _ := SendPeerCommit(mig.recovery, e);
          DeleteSourceRuntime(mig.recovery, e);
          status := status.(phase := Cutover);
        case ConfirmNotCommitted =>
          var acked := SendPeerCommit(mig.recovery, e);
          if acked {
            DeleteSourceRuntime(mig.recovery, e);
            status := status.(phase := Cutover);
          } else {
            SendPeerAbort(mig.recovery, e);
            status := status.(phase := Failed);
          }
        case ForceAbort =>
          SendPeerAbort(mig.recovery, e);
          status := status.(phase := Failed);
        case UnknownAction => assert false;
      }
      err := PatchMigrationStatus(status, e.statusLands);
    }

    method ReconcileNeedsRecovery(e: SourceEnv) returns (err: bool)
      modifies this
      ensures (if err then Fail(View(), e.failedLands) else View()) == Recover(old(View()), e)
    {
      if !e.peerReady || !e.urlOk { return true; }
      if !Authorised(mig.recovery) {
        err := PatchMigrationStatus(mig, e.statusLands);
        return;
      }
      err := ApplyRecovery(e);
    }

    method ReconcileMigration(e: SourceEnv) returns (err: bool)
      modifies this
      ensures (if err then Fail(View(), e.failedLands) else View()) == SourceStep(old(View()), e)
    {
      if mig.phase == NeedsRecovery { err := ReconcileNeedsRecovery(e); return; }
      if mig.phase != Starting && mig.phase != Running { return false; }
      if mig.strategy != Live { return false; }
      if mig.cancel { err := CancelLiveMigration(e); return; }
      if m.gone || !e.machineFound { return true; }
      if m.node != mig.source || !e.backendOk { return true; }
      if !e.peerReady || !e.migratorReady {
        err := PatchMigrationStatus(mig.(phase := Blocked), e.statusLands);
        return;
      }
      if !e.lookupOk || mig.source !in runtimes || !e.urlOk { return true; }
      if mig.phase == Starting { err := StartTransfer(e); return; }
      if !mig.session || !mig.transfer || e.polled == PollFailed { return true; }
      err := ProjectTransfer(mig, e.polled, e);
    }

    // ------------------------------------------------------------- node agent

    method PatchMachineStatus(n: Node, p: MachinePhase, id: bool, lands: bool) returns (err: bool)
      modifies this
      ensures err == !lands
      ensures View() == if lands
                        then old(View()).(m := old(m).(phase := p, statusNode := n, recorded := old(m.recorded) || id))
                        else old(View()).(lost := true)
    {
      if lands {
        m := m.(phase := p, statusNode := n, recorded := m.recorded || id);
      } else {
        lost := true;
      }
      err := !lands;
    }

    method EnsureStoppedOn(n: Node, e: AgentEnv) returns (err: bool)
      modifies this
      ensures (if err then AgentError(View(), n, e) else View()) == EnsureStopped(old(View()), n, e)
    {
      if !e.lookupOk { return true; }
      if n in runtimes && !e.opOk { return true; }
      LoseRuntime(n);
      if !e.finishOk { return true; }
      err := PatchMachineStatus(n, MachineStopped, false, e.statusLands);
    }

    method EnsurePausedOn(n: Node, e: AgentEnv) returns (err: bool)
      modifies this
      ensures (if err then AgentError(View(), n, e) else View()) == EnsurePaused(old(View()), n, e)
    {
      if !e.lookupOk { return true; }
      if n !in runtimes {
        err := PatchMachineStatus(n, MachinePending, false, e.statusLands);
        return;
      }
      if runtimes[n] != Suspended && !e.opOk { return true; }
      runtimes := runtimes[n := Suspended];
      err := PatchMachineStatus(n, MachinePaused, true, e.statusLands);
    }

    method EnsureHaltedOn(n: Node, e: AgentEnv) returns (err: bool)
      modifies this
      ensures (if err then AgentError(View(), n, e) else View()) == EnsureHalted(old(View()), n, e)
    {
      if !e.lookupOk { return true; }
      if n !in runtimes {
        err := PatchMachineStatus(n, MachinePending, false, e.statusLands);
        return;
      }
      if runtimes[n] != Down && !e.opOk { return true; }
      runtimes := runtimes[n := Down];
      if !e.finishOk { return true; }
      err := PatchMachineStatus(n, MachineHalted, true, e.statusLands);
    }

    method EnsureRunningOn(n: Node, e: AgentEnv) returns (err: bool)
      modifies this
      ensures (if err then AgentError(View(), n, e) else View()) == EnsureRunning(old(View()), n, e)
    {
      if !e.resolveOk || !e.lookupOk { return true; }
      if n in runtimes { err := KeepRuntimeOn(n, e); return; }
      if m.adoptOnly {
        err := PatchMachineStatus(n, MachineBlocked, false, e.statusLands);
        return;
      }
      err := CreateRuntimeOn(n, e);
    }

    method CreateRuntimeOn(n: Node, e: AgentEnv) returns (err: bool)
      modifies this
      ensures (if err then AgentError(View(), n, e) else View()) == CreateRuntime(old(View()), n, e)
    {
      if !e.opOk { return true; }
      var born := if e.bornUp then Up else Booting;
      runtimes := runtimes[n := born];
      guard := guard.(createdUnderGuard := guard.createdUnderGuard || (guard.cutover && !guard.lifted));
      if !e.finishOk { return true; }
      err := PatchMachineStatus(n, MachinePhaseOf(born), true, e.statusLands);
    }

    method KeepRuntimeOn(n: Node, e: AgentEnv) returns (err: bool)
      requires n in runtimes
      modifies this
      ensures (if err then AgentError(View(), n, e) else View()) == KeepRuntime(old(View()), n, e)
    {
      var found := runtimes[n];
      if Startable(found, m.power) {
        if !e.opOk { return true; }
        found := Up;
        runtimes := runtimes[n := found];
      }
      err := ReportRuntimeOn(n, found, e);
    }

    method ReportRuntimeOn(n: Node, found: Runtime, e: AgentEnv) returns (err: bool)
      modifies this
      ensures (if err then AgentError(View(), n, e) else View()) == ReportRuntime(old(View()), n, found, e)
    {
      if !e.finishOk { return true; }
      err := PatchMachineStatus(n, MachinePhaseOf(found), true, e.statusLands);
      if found == Up && !err {
        guard := guard.(adopted := guard.adopted || (guard.cutover && n == mig.target));
      }
    }

    method CleanUp(n: Node, e: AgentEnv) returns (err: bool)
      modifies this
      ensures (if err then AgentError(View(), n, e) else View()) == Cleanup(old(View()), n, e)
    {
      if !e.listOk || InFlight(mig.phase) { return true; }
      if m.recorded {
        if !e.opOk { return true; }
        LoseRuntime(n);
      }
      if !e.finishOk { return true; }
      m := m.(gone := true);
      err := false;
    }

    method ReconcileMachine(n: Node, e: AgentEnv) returns (err: bool)
      modifies this
      ensures (if err then AgentError(View(), n, e) else View()) == AgentStep(old(View()), n, e)
    {
      if m.gone || m.node != n { return false; }
      if m.deleting { err := CleanUp(n, e); return; }
      match m.power
      case PowerStopped => err := EnsureStoppedOn(n, e);
      case PowerPaused => err := EnsurePausedOn(n, e);
      case PowerHalted => err := EnsureHaltedOn(n, e);
      case _ => err := EnsureRunningOn(n, e);
    }

    // ------------------------------------------------------------- controller

    method AdmitMigration(e: ControllerEnv) returns (err: bool)
      modifies this
      ensures (if err then Fail(View(), e.failedLands) else View()) == Admit(old(View()), e)
    {
      if m.node != NoNode && e.room && e.policyAdmits {
        var strategy := EffectiveStrategy(mig.wanted, e.liveEligible);
        if strategy != NoStrategy {
          var target := MigrationTarget(m.node, e.choice);
          if target != NoNode && e.targetRoom {
            err := BeginMigration(mig.(source := m.node, target := target, strategy := strategy), e);
            return;
          }
        }
      }
      err := PatchMigrationStatus(mig.(phase := Blocked), e.statusLands);
    }

    method BeginMigration(status: Record, e: ControllerEnv) returns (err: bool)
      modifies this
      ensures (if err then Fail(View(), e.failedLands) else View()) == Begin(old(View()), status, e)
    {
      if status.strategy == Live {
        err := PatchMigrationStatus(status.(phase := Starting), e.statusLands);
        return;
      }
      if !e.machineLands { return true; }
      m := m.(power := PowerStopped);
      err := PatchMigrationStatus(status.(phase := Stopping), e.statusLands);
    }

    method CutOverToTarget(e: ControllerEnv) returns (err: bool)
      modifies this
      ensures (if err then Fail(View(), e.failedLands) else View()) == CutOver(old(View()), e)
    {
      if mig.strategy != Live || !e.machineLands { return true; }
      m := m.(node := mig.target, adoptOnly := true);
      guard := guard.(cutover := true);
      err := PatchMigrationStatus(mig.(phase := Adopting), e.statusLands);
    }

    method FinishAdoption(e: ControllerEnv) returns (err: bool)
      modifies this
      ensures (if err then Fail(View(), e.failedLands) else View()) == Adopt(old(View()), e)
    {
      if !ReportsRunningOn(m, mig.target) { return false; }
      if !e.machineLands { return true; }
      m := m.(adoptOnly := false);
      guard := guard.(lifted := true, liftedUnadopted := guard.liftedUnadopted || !guard.adopted);
      err := PatchMigrationStatus(mig.(phase := Succeeded), e.statusLands);
    }

    method ReassignStopped(e: ControllerEnv) returns (err: bool)
      modifies this
      ensures (if err then Fail(View(), e.failedLands) else View()) == Reassign(old(View()), e)
    {
      if m.phase != MachineStopped { return false; }
      if !e.machineLands { return true; }
      m := m.(node := mig.target, power := PowerRunning);
      err := PatchMigrationStatus(mig.(phase := Restarting), e.statusLands);
    }

    method ReconcileFromController(e: ControllerEnv) returns (err: bool)
      modifies this
      ensures (if err then Fail(View(), e.failedLands) else View()) == ControllerStep(old(View()), e)
    {
      if Settled(mig.phase) { return false; }
      if m.gone || m.deleting { return true; }
      err := AdvanceFromController(e);
    }

    method AdvanceFromController(e: ControllerEnv) returns (err: bool)
      modifies this
      ensures (if err then Fail(View(), e.failedLands) else View()) == Advance(old(View()), e)
    {
      match mig.phase
      case Unset => err := AdmitMigration(e);
      case Pending => err := AdmitMigration(e);
      case Starting => err := false;
      case Running => err := false;
      case Cutover => err := CutOverToTarget(e);
      case Adopting => err := FinishAdoption(e);
      case Stopping => err := ReassignStopped(e);
      case Restarting =>
        if !ReportsRunningOn(m, mig.target) { return false; }
        err := PatchMigrationStatus(mig.(phase := Succeeded), e.statusLands);
      case _ => err := true;
    }
  }
}
