/** The snapshot reconciler and the agent's quiesce step, as they change the Machine's
    annotations and the snapshots call by call. */
module SnapshotControllers {

  import opened Quiesce

  class Protocol {
    var agentOn: bool
    var active: bool
    var gone: bool
    var request: Id
    var status: Id
    var frozen: bool
    var snaps: map<Id, Snap>
    var ledger: Ledger

    ghost function View(): (s: State)
      reads this
    {
      State(agentOn, active, gone, request, status, frozen, snaps, ledger)
    }

    constructor (agentOn: bool)
      ensures Start(View()) && View().snaps == map[] && this.agentOn == agentOn
    {
      this.agentOn := agentOn;
      active, gone, request, status, frozen, snaps := true, false, NoId, NoId, false, map[];
      ledger := Ledger(false, false, false);
    }

    /** The loop over the volumes. */
    method TakeEach(volumes: seq<Volume>) returns (t: Taking)
      ensures t == Take(volumes)
    {
      var created, allReady, refs := false, true, [];
      t := Taking(false, false, false, true, []);
      for i := 0 to |volumes|
        invariant t == Take(volumes[..i]) == Taking(false, false, created, allReady, refs)
      {
        assert volumes[..i + 1][..|volumes[..i + 1]| - 1] == volumes[..i];
        var v := volumes[i];
        match v {
          case Unusable => t := t.(stopped := true);
          case LookupFailed => t := t.(stopped := true);
          case CreateFailed => t := t.(stopped := true);
          case Existing(errored, ready) =>
            if errored { t := t.(stopped := true); }
            else { allReady, refs := allReady && ready, refs + [ready]; }
          case Fresh(errored, ready) =>
            created := true;
            if errored { t := t.(created := true, stopped := true); }
            else { allReady, refs := allReady && ready, refs + [ready]; }
          case AtlasStep(made, ready) =>
            created, allReady, refs := created || made, allReady && ready, refs + [ready];
          case AtlasError(made) =>
            created := created || made;
            t := t.(created := created, stopped := true, viaAtlas := true);
        }
        if t.stopped {
          TakeStopped(volumes, i + 1);
          return;
        }
        t := Taking(false, false, created, allReady, refs);
      }
      assert volumes[..|volumes|] == volumes;
    }

    lemma {:induction false} TakeStopped(volumes: seq<Volume>, i: nat)
      requires i <= |volumes| && Take(volumes[..i]).stopped
      ensures Take(volumes) == Take(volumes[..i])
      decreases |volumes| - i
    {
      if i < |volumes| {
        assert volumes[..i + 1][..|volumes[..i + 1]| - 1] == volumes[..i];
        TakeStopped(volumes, i + 1);
      } else {
        assert volumes[..i] == volumes;
      }
    }

    // Each reconcile returns whether it ended in an error, which its caller then records.

    method PatchSnapshotStatus(x: Id, p: Phase, e: Env) returns (err: bool)
      requires x in snaps
      modifies this
      ensures x in snaps
      ensures (if err then Fail(View(), x, e) else View()) == SetPhase(old(View()), x, p, e)
    {
      if !e.statusLands { return true; }
      ledger := Noted(ledger, snaps[x].phase == Thawing && p != Thawing && frozen);
      snaps := snaps[x := snaps[x].(phase := p)];
      err := false;
    }

    method RequestGuestFreeze(x: Id, e: Env) returns (err: bool)
      requires x in snaps
      modifies this
      ensures x in snaps
      ensures (if err then Fail(View(), x, e) else View()) == RequestFreeze(old(View()), x, e)
    {
      if !snaps[x].finalizer && !e.finalizerLands { return true; }
      snaps := snaps[x := snaps[x].(finalizer := true)];
      if !e.requestLands { return true; }
      request := x;
      err := PatchSnapshotStatus(x, Freezing, e);
    }

    method RequestGuestThaw(x: Id, e: Env) returns (err: bool)
      requires x in snaps
      modifies this
      ensures x in snaps
      ensures (if err then Fail(View(), x, e) else View()) == RequestThaw(old(View()), x, e)
    {
      if !e.thawLands { return true; }
      request := NoId;
      err := PatchSnapshotStatus(x, Thawing, e);
    }

    method FailSnapshot(x: Id, e: Env) returns (err: bool)
      requires x in snaps
      modifies this
      ensures x in snaps
      ensures (if err then Fail(View(), x, e) else View()) == FailTaking(old(View()), x, e)
    {
      if snaps[x].phase == Freezing {
        if !e.thawLands { return true; }
        request := NoId;
      }
      err := PatchSnapshotStatus(x, Failed, e);
    }

    method ConcludeVolumes(x: Id, t: Taking, e: Env) returns (err: bool)
      requires x in snaps
      modifies this
      ensures x in snaps
      ensures (if err then Fail(View(), x, e) else View()) == Conclude(old(View()), x, t, e)
    {
      if t.stopped {
        if !t.viaAtlas { return true; }
        err := FailSnapshot(x, e);
      } else if t.created && agentOn && snaps[x].phase == Freezing {
        err := RequestGuestThaw(x, e);
      } else {
        err := PatchSnapshotStatus(x, if t.allReady then Succeeded else Pending, e);
      }
    }

    method ReconcileVolumeSnapshots(x: Id, confirmed: bool, e: Env) returns (err: bool)
      requires x in snaps
      modifies this
      ensures x in snaps
      ensures (if err then Fail(View(), x, e) else View()) == TakeVolumes(old(View()), x, confirmed, e)
    {
      var t := TakeEach(e.volumes);
      ledger := ledger.(tookUnfrozen := ledger.tookUnfrozen || (t.created && confirmed && !frozen));
      err := ConcludeVolumes(x, t, e);
    }

    method AwaitGuestFreeze(x: Id, e: Env) returns (err: bool)
      requires x in snaps
      modifies this
      ensures x in snaps
      ensures (if err then Fail(View(), x, e) else View()) == AwaitFreeze(old(View()), x, e)
    {
      if request != x {
        err := RequestGuestFreeze(x, e);
      } else if status == x {
        err := ReconcileVolumeSnapshots(x, true, e);
      } else if !e.timedOut {
        err := false;
      } else {
        if !e.clearLands { return true; }
        request := NoId;
        if !e.messageLands { return true; }
        err := ReconcileVolumeSnapshots(x, false, e);
      }
    }

    method ReconcileSnapshotDeletion(x: Id, e: Env) returns (err: bool)
      requires x in snaps
      modifies this
      ensures err ==> x in snaps
      ensures (if err then Fail(View(), x, e) else View()) == Deletion(old(View()), x, e)
    {
      if !snaps[x].finalizer {
        snaps := snaps - {x};
        return false;
      }
      if !gone {
        if request == x {
          if !e.clearLands { return true; }
          request := NoId;
          return false;
        }
        if status == x { return false; }
      }
      if !e.finalizerLands { return true; }
      snaps := snaps - {x};
      err := false;
    }

    method ReconcileSnapshot(x: Id, e: Env) returns (err: bool)
      requires x in snaps
      modifies this
      ensures err ==> x in snaps
      ensures (if err then Fail(View(), x, e) else View()) == Reconcile(old(View()), x, e)
    {
      if snaps[x].deleting {
        err := ReconcileSnapshotDeletion(x, e);
        return;
      }
      if snaps[x].phase == Succeeded || snaps[x].phase == Failed { return false; }
      if gone || !e.specOk { return true; }
      if agentOn && snaps[x].phase == Unset {
        err := RequestGuestFreeze(x, e);
      } else if agentOn && snaps[x].phase == Freezing {
        err := AwaitGuestFreeze(x, e);
      } else if agentOn && snaps[x].phase == Thawing && status != NoId {
        err := false;
      } else {
        err := ReconcileVolumeSnapshots(x, false, e);
      }
    }

    /** kairon-node's half. */
    method ReconcileGuestQuiesce(ok: bool)
      modifies this
      ensures View() == AgentStep(old(View()), ok)
    {
      if !agentOn || !active || gone { return; }
      if request != NoId && status != request {
        if !ok { return; }
        frozen := true;
        status := request;
      } else if request == NoId && status != NoId {
        if !ok { return; }
        frozen := false;
        status := NoId;
      }
    }
  }
}
