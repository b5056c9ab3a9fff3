/** The counters of one controller tick as they are built and spent in place, and the
    agreement between the capped cluster and the single-migration protocol. */
module MigrationLoads {

  import opened Migration
  import opened MigrationCaps
  import opened MigrationCapsSafety

  class MigrationLoad {
    var byNode: map<Node, nat>
    var total: nat

    /** Counts one listing; the result is exactly the recount. */
    constructor (migrations: seq<Slot>)
      ensures total == Recount(migrations, Cluster)
      ensures forall n :: n != NoNode ==> At(byNode, n) == Recount(migrations, On(n))
      ensures byNode == CountListing(migrations, 0).byNode && total == CountListing(migrations, 0).total
    {
      byNode, total := map[], 0;
      new;
      for i := 0 to |migrations|
        invariant byNode == CountListing(migrations[..i], 0).byNode
        invariant total == CountListing(migrations[..i], 0).total
      {
        var m := migrations[i];
        assert migrations[..i + 1][..|migrations[..i + 1]| - 1] == migrations[..i];
        if m.deleted || !Active(m.phase) { continue; }
        total := total + 1;
        if m.source != NoNode { byNode := byNode[m.source := At(byNode, m.source) + 1]; }
        if m.target != NoNode && m.target != m.source { byNode := byNode[m.target := At(byNode, m.target) + 1]; }
      }
      assert migrations[..|migrations|] == migrations;
      ListingCounts(migrations, 0, Cluster);
      forall n | n != NoNode ensures At(byNode, n) == Recount(migrations, On(n)) {
        ListingCounts(migrations, 0, On(n));
      }
    }

    method Admit(source: Node, target: Node)
      modifies this
      ensures total == old(total) + 1
      ensures byNode == BumpRoute(old(byNode), source, target)
    {
      total := total + 1;
      if source != NoNode { byNode := byNode[source := At(byNode, source) + 1]; }
      if target != NoNode && target != source { byNode := byNode[target := At(byNode, target) + 1]; }
    }
  }

  /** Spends one place of every policy that selects the Machine, or of none. */
  method AdmitMigrationPolicy(active: array<nat>, maxima: seq<int>, matches: seq<bool>) returns (blocked: bool)
    requires active.Length == |maxima| == |matches|
    modifies active
    ensures blocked == !PolicyRoom(old(active[..]), maxima, matches)
    ensures active[..] == if blocked then old(active[..]) else Spend(old(active[..]), matches)
  {
    ghost var before := active[..];
    for k := 0 to active.Length
      invariant active[..] == before
      invariant forall j :: 0 <= j < k && matches[j] && maxima[j] > 0 ==> before[j] < maxima[j]
    {
      if matches[k] && maxima[k] > 0 && active[k] >= maxima[k] {
        return true;
      }
    }
    for k := 0 to active.Length
      invariant forall j :: 0 <= j < k ==> active[j] == Spend(before, matches)[j]
      invariant forall j :: k <= j < active.Length ==> active[j] == before[j]
    {
      if matches[k] { active[k] := active[k] + 1; }
    }
    blocked := false;
  }

  /** An admitted migration leaves every policy that selects it within its maximum. */
  lemma PolicyWithinMaximum(active: seq<nat>, maxima: seq<int>, matches: seq<bool>, k: nat)
    requires |active| == |maxima| == |matches| && k < |active|
    requires PolicyRoom(active, maxima, matches)
    ensures maxima[k] > 0 && matches[k] ==> Spend(active, matches)[k] <= maxima[k]
    ensures !matches[k] ==> Spend(active, matches)[k] == active[k]
  {
  }

  // ---------------------------------------------- agreement with the protocol

  function SlotOf(mig: Record, matches: seq<bool>): (x: Slot) {
    Slot(mig.phase, mig.source, mig.target, matches, false)
  }

  predicate SameRoute(s: State, r: State) {
    r.mig.source == s.mig.source && r.mig.target == s.mig.target
  }

  lemma CommitRoute(s: State, rec: Record, e: SourceEnv)
    requires rec.source == s.mig.source && rec.target == s.mig.target
    ensures SameRoute(s, Finish(s, rec, e))
  {
    var s1 := SendCommit(s, NoOrder, e);
    PatchRoute(s1, rec.(phase := Cutover), e);
    PatchRoute(s1, rec.(phase := NeedsRecovery), e);
  }

  lemma PatchRoute(s: State, rec: Record, e: SourceEnv)
    requires rec.source == s.mig.source && rec.target == s.mig.target
    ensures SameRoute(s, PatchStatus(s, rec, e.statusLands, e.failedLands))
  {
  }

  lemma BackOutRoute(s: State, rec: Record, p: Phase, e: SourceEnv)
    requires rec.source == s.mig.source && rec.target == s.mig.target
    ensures SameRoute(s, BackOutTo(s, rec, p, e))
  {
  }

  lemma FinishRoute(s: State, rec: Record, t: Transfer, e: SourceEnv)
    requires rec.source == s.mig.source && rec.target == s.mig.target
    ensures SameRoute(s, Project(s, rec, t, e))
  {
    match t
    case Completed =>
      assert Project(s, rec, t, e) == Finish(s, rec, e);
      CommitRoute(s, rec, e);
    case Stopped =>
      assert Project(s, rec, t, e) == BackOutTo(s, rec, Failed, e);
      BackOutRoute(s, rec, Failed, e);
    case _ =>
  }

  lemma LaunchRoute(s: State, rec: Record, e: SourceEnv)
    requires rec.source == s.mig.source && rec.target == s.mig.target
    ensures SameRoute(s, Launch(s, rec, e))
  {
    if e.modeOk && e.started.Started? { FinishRoute(s, rec.(transfer := true), e.started.t, e); }
  }

  lemma PrepareRoute(s: State, e: SourceEnv)
    ensures SameRoute(s, PrepareAndStart(s, e))
  {
    var s0 := s.(quiesced := s.quiesced || e.quiesceOk);
    var s1 := s0.(peer := PeerPrepare(s.peer, e.supported));
    var rec := s.mig.(session := true, runtimeID := true);
    if !e.prepareOk {
    } else if s1.peer == Unsupported {
      assert PrepareAndStart(s, e) == Refuse(s1, rec, e);
    } else {
      LaunchRoute(s1, rec, e);
    }
  }

  lemma DriveRoute(s: State, e: SourceEnv)
    ensures SameRoute(s, Drive(s, e))
  {
    PrepareRoute(s, e);
    FinishRoute(s, s.mig, e.polled, e);
  }

  lemma ConfirmCommittedRoute(s: State, e: SourceEnv)
    ensures SameRoute(s, ApplyConfirmCommitted(s, e))
  {
  }

  lemma ConfirmNotCommittedRoute(s: State, e: SourceEnv)
    ensures SameRoute(s, ApplyConfirmNotCommitted(s, e))
  {
  }

  lemma RecoverRoute(s: State, e: SourceEnv)
    ensures SameRoute(s, Recover(s, e))
  {
    if e.peerReady && e.urlOk && s.mig.recovery.Order? && !s.mig.recovery.reasonBlank {
      match s.mig.recovery.action
      case ConfirmCommitted => ConfirmCommittedRoute(s, e);
      case ConfirmNotCommitted => ConfirmNotCommittedRoute(s, e);
      case ForceAbort =>
      case UnknownAction =>
    }
  }

  /** Whatever a node agent does to a migration, it never gives it a place it did not
      already hold. */
  lemma AgentStepMoves(s: State, e: SourceEnv, matches: seq<bool>)
    ensures AgentMove(SlotOf(s.mig, matches), SlotOf(SourceStep(s, e).mig, matches))
    ensures Active(SourceStep(s, e).mig.phase) ==> Active(s.mig.phase)
  {
    if s.mig.phase == NeedsRecovery {
      assert SourceStep(s, e) == Recover(s, e);
      RecoverRoute(s, e);
    } else if (s.mig.phase != Starting && s.mig.phase != Running) || s.mig.strategy != Live {
      assert SourceStep(s, e) == s;
    } else if s.mig.cancel {
      assert SourceStep(s, e) == CancelLive(s, e);
      CancelRoute(s, e);
    } else {
      assert SourceStep(s, e) == Drive(s, e);
      DriveRoute(s, e);
    }
  }

  lemma CancelRoute(s: State, e: SourceEnv)
    ensures SameRoute(s, CancelLive(s, e))
  {
  }

  lemma MachineStepMoves(s: State, n: Node, e: AgentEnv, matches: seq<bool>)
    ensures SlotOf(AgentStep(s, n, e).mig, matches) == SlotOf(s.mig, matches)
  {
    if s.m.gone || s.m.node != n || s.m.deleting {
    } else {
      match s.m.power
      case PowerStopped => assert AgentStep(s, n, e) == EnsureStopped(s, n, e);
      case PowerPaused => assert AgentStep(s, n, e) == EnsurePaused(s, n, e);
      case PowerHalted => assert AgentStep(s, n, e) == EnsureHalted(s, n, e);
      case _ =>
        assert AgentStep(s, n, e) == EnsureRunning(s, n, e);
    }
  }

  /** The surroundings of a controller step, as the capped cluster sees them. */
  function EnvOf(s: State, e: ControllerEnv): (h: HandleEnv) {
    HandleEnv(!s.m.gone && !s.m.deleting, s.m.node, s.mig.wanted, e.liveEligible, e.choice,
              s.mig.strategy == Live, s.m.phase == MachineStopped, ReportsRunningOn(s.m, s.mig.target),
              e.machineLands, e.statusLands, e.failedLands)
  }

  /** The room a controller step finds is the room the counters leave. */
  predicate RoomAgrees(s: State, e: ControllerEnv, load: Load, caps: Caps, matches: seq<bool>) {
    && e.room == (Room(load, caps, Cluster) && Room(load, caps, On(s.m.node)))
    && e.policyAdmits == PolicyRoom(load.active, caps.policy, matches)
    && e.targetRoom == Room(load, caps, On(MigrationTarget(s.m.node, e.choice)))
  }

  lemma BeginAgrees(s: State, e: ControllerEnv, x: Slot, rec: Record)
    requires x == SlotOf(s.mig, x.matches) && (rec.strategy == Live || rec.strategy == Cold)
    ensures var v := Admitted(if rec.strategy == Live then Starting else Stopping, rec.source, rec.target);
            SlotOf(Begin(s, rec, e).mig, x.matches) == Written(x, x, v, EnvOf(s, e))
  {
  }

  lemma BlockAgrees(s: State, e: ControllerEnv, x: Slot)
    requires x == SlotOf(s.mig, x.matches)
    ensures SlotOf(Block(s, e).mig, x.matches) == Written(x, x, Refused, EnvOf(s, e))
  {
  }

  predicate Refusal(s: State, e: ControllerEnv) {
    || s.m.node == NoNode || !e.room || !e.policyAdmits
    || EffectiveStrategy(s.mig.wanted, e.liveEligible) == NoStrategy
    || MigrationTarget(s.m.node, e.choice) == NoNode || !e.targetRoom
  }

  function Granted(s: State, e: ControllerEnv): (rec: Record) {
    s.mig.(source := s.m.node, target := MigrationTarget(s.m.node, e.choice),
           strategy := EffectiveStrategy(s.mig.wanted, e.liveEligible))
  }

  lemma AdmitIs(s: State, e: ControllerEnv)
    ensures Admit(s, e) == if Refusal(s, e) then Block(s, e) else Begin(s, Granted(s, e), e)
  {
  }

  lemma AdmissionIs(s: State, e: ControllerEnv, load: Load, caps: Caps, matches: seq<bool>)
    requires RoomAgrees(s, e, load, caps, matches)
    ensures Admission(load, caps, matches, EnvOf(s, e))
         == if Refusal(s, e) then Refused
            else Admitted(if Granted(s, e).strategy == Live then Starting else Stopping, s.m.node, Granted(s, e).target)
  {
  }

  lemma AdmissionAgrees(s: State, e: ControllerEnv, load: Load, caps: Caps, x: Slot)
    requires x == SlotOf(s.mig, x.matches)
    requires RoomAgrees(s, e, load, caps, x.matches)
    ensures SlotOf(Admit(s, e).mig, x.matches)
         == Written(x, x, Admission(load, caps, x.matches, EnvOf(s, e)), EnvOf(s, e))
  {
    AdmitIs(s, e);
    AdmissionIs(s, e, load, caps, x.matches);
    if Refusal(s, e) { BlockAgrees(s, e, x); } else { BeginAgrees(s, e, x, Granted(s, e)); }
  }

  lemma CutOverAgrees(s: State, e: ControllerEnv, load: Load, caps: Caps, x: Slot)
    requires x == SlotOf(s.mig, x.matches) && !s.m.gone && !s.m.deleting && x.phase == Cutover
    ensures SlotOf(CutOver(s, e).mig, x.matches) == Written(x, x, Decide(load, caps, x, EnvOf(s, e)), EnvOf(s, e))
  {
  }

  lemma AdoptAgrees(s: State, e: ControllerEnv, load: Load, caps: Caps, x: Slot)
    requires x == SlotOf(s.mig, x.matches) && !s.m.gone && !s.m.deleting && x.phase == Adopting
    ensures SlotOf(Adopt(s, e).mig, x.matches) == Written(x, x, Decide(load, caps, x, EnvOf(s, e)), EnvOf(s, e))
  {
  }

  lemma ReassignAgrees(s: State, e: ControllerEnv, load: Load, caps: Caps, x: Slot)
    requires x == SlotOf(s.mig, x.matches) && !s.m.gone && !s.m.deleting && x.phase == Stopping
    ensures SlotOf(Reassign(s, e).mig, x.matches) == Written(x, x, Decide(load, caps, x, EnvOf(s, e)), EnvOf(s, e))
  {
  }

  lemma SettleAgrees(s: State, e: ControllerEnv, load: Load, caps: Caps, x: Slot)
    requires x == SlotOf(s.mig, x.matches) && !s.m.gone && !s.m.deleting && x.phase == Restarting
    ensures SlotOf(Settle(s, e).mig, x.matches) == Written(x, x, Decide(load, caps, x, EnvOf(s, e)), EnvOf(s, e))
  {
  }

  lemma AdvanceAgrees(s: State, e: ControllerEnv, load: Load, caps: Caps, x: Slot)
    requires x == SlotOf(s.mig, x.matches) && !s.m.gone && !s.m.deleting
    requires x.phase.Cutover? || x.phase.Adopting? || x.phase.Stopping? || x.phase.Restarting?
    ensures SlotOf(Advance(s, e).mig, x.matches) == Written(x, x, Decide(load, caps, x, EnvOf(s, e)), EnvOf(s, e))
  {
    if x.phase.Cutover? {
      assert Advance(s, e) == CutOver(s, e);
      CutOverAgrees(s, e, load, caps, x);
    } else if x.phase.Adopting? {
      assert Advance(s, e) == Adopt(s, e);
      AdoptAgrees(s, e, load, caps, x);
    } else if x.phase.Stopping? {
      assert Advance(s, e) == Reassign(s, e);
      ReassignAgrees(s, e, load, caps, x);
    } else {
      assert Advance(s, e) == Settle(s, e);
      SettleAgrees(s, e, load, caps, x);
    }
  }

  lemma FailAgrees(s: State, e: ControllerEnv, x: Slot)
    requires x == SlotOf(s.mig, x.matches)
    ensures SlotOf(Fail(s, e.failedLands).mig, x.matches) == Written(x, x, Erred, EnvOf(s, e))
  {
  }

  /** Handling a listed copy that is still current is the protocol's controller step. */
  lemma HandlingAgrees(s: State, e: ControllerEnv, load: Load, caps: Caps, x: Slot)
    requires x == SlotOf(s.mig, x.matches)
    requires RoomAgrees(s, e, load, caps, x.matches)
    ensures SlotOf(ControllerStep(s, e).mig, x.matches)
         == Written(x, x, Decide(load, caps, x, EnvOf(s, e)), EnvOf(s, e))
  {
    var r, v := ControllerStep(s, e), Decide(load, caps, x, EnvOf(s, e));
    if Settled(x.phase) {
      assert r == s && v == Quiet;
    } else if s.m.gone || s.m.deleting {
      assert r == Fail(s, e.failedLands) && v == Erred;
      FailAgrees(s, e, x);
    } else if x.phase.Unset? || x.phase.Pending? {
      assert r == Admit(s, e) && v == Admission(load, caps, x.matches, EnvOf(s, e));
      AdmissionAgrees(s, e, load, caps, x);
    } else if x.phase.Starting? || x.phase.Running? {
      assert r == s && v == Quiet;
    } else if x.phase.Unrecognised? {
      assert r == Fail(s, e.failedLands) && v == Erred;
      FailAgrees(s, e, x);
    } else {
      assert r == Advance(s, e);
      AdvanceAgrees(s, e, load, caps, x);
    }
  }
}
