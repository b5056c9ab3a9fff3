/** The MachineSet reconciler, as it partitions the listing and creates or deletes
    replicas one call at a time. */
module MachineSetControllers {

  import opened Options
  import opened MachineSet

  class Api {
    var machines: seq<Machine>

    method Partition(ms: Set) returns (current: seq<Machine>, outdated: seq<Machine>, ready: nat)
      ensures current == Currents(ms, machines) && outdated == Outdateds(ms, machines)
      ensures Count(ms, machines) == Tally(|current|, ready, |outdated|)
    {
      current, outdated, ready := [], [], 0;
      for i := 0 to |machines|
        invariant current == Currents(ms, machines[..i]) && outdated == Outdateds(ms, machines[..i])
        invariant Count(ms, machines[..i]) == Tally(|current|, ready, |outdated|)
      {
        var m := machines[i];
        assert machines[..i + 1][..|machines[..i + 1]| - 1] == machines[..i];
        if m.ns != ms.ns || m.owner != ms.name || m.deleting { continue; }
        if m.hash == ms.hash {
          current := current + [m];
          if m.running { ready := ready + 1; }
        } else {
          outdated := outdated + [m];
        }
      }
      assert machines[..|machines|] == machines;
    }

    method DeleteMachines(batch: seq<Machine>, e: Env) returns (ok: bool)
      modifies this
      ensures Outcome(machines, ok) == DeleteBatch(old(machines), batch, e)
    {
      for i := 0 to |batch|
        invariant i <= e.calls
        invariant machines == DeleteFirst(old(machines), batch, i)
      {
        if i == e.calls { return false; }
        machines := Mark(machines, batch[i].ns, batch[i].name);
      }
      ok := true;
    }

    method CreateReplicas(ms: Set, e: Env, n: nat) returns (ok: bool)
      modifies this
      ensures Outcome(machines, ok) == CreateBatch(ms, old(machines), e, n)
    {
      for i := 0 to n
        invariant i <= |e.names| && Creates(ms, old(machines), e, i) == i
        invariant machines == CreateFirst(ms, old(machines), e.names, i)
      {
        if i >= e.calls || i >= |e.names| || Taken(machines, ms.ns, e.names[i]) {
          CreatesStuck(ms, old(machines), e, i, n);
          return false;
        }
        machines := machines + [Replica(ms, e.names[i])];
      }
      ok := true;
    }

    lemma {:induction false} CreatesStuck(ms: Set, list: seq<Machine>, e: Env, i: nat, n: nat)
      requires i < n && i <= |e.names| && Creates(ms, list, e, i) == i
      requires i >= e.calls || i >= |e.names| || Taken(CreateFirst(ms, list, e.names, i), ms.ns, e.names[i])
      ensures Creates(ms, list, e, n) == i
      decreases n
    {
      if n > i + 1 { CreatesStuck(ms, list, e, i, n - 1); }
    }

    method StepMachineSet(ms: Set, e: Env) returns (ok: bool)
      modifies this
      ensures Outcome(machines, ok) == StepToward(ms, old(machines), e)
    {
      var current, outdated, ready := Partition(ms);
      var desired := if ms.replicas < 0 then 0 else ms.replicas;
      var total := |current| + |outdated|;
      if total < desired {
        ok := CreateReplicas(ms, e, desired - total);
        return;
      }
      if ms.recreate {
        if |outdated| > 0 {
          ok := DeleteMachines(outdated, e);
        } else if |current| > desired {
          ok := DeleteMachines(current[..|current| - desired], e);
        } else {
          ok := true;
        }
        return;
      }
      if |outdated| > 0 {
        var maxUnavailable := ResolveMaxUnavailable(ms.maxUnavailable);
        if maxUnavailable.None? { return false; }
        var minAvailable := desired - maxUnavailable.value;
        var available := ready + |outdated|;
        var canDelete := available - minAvailable;
        if canDelete <= 0 {
          assert DeleteBatch(old(machines), outdated[..0], e) == Outcome(old(machines), true);
          return true;
        }
        if canDelete > |outdated| { canDelete := |outdated|; }
        ok := DeleteMachines(outdated[..canDelete], e);
        return;
      }
      if |current| > desired {
        ok := DeleteMachines(current[..|current| - desired], e);
        return;
      }
      ok := true;
    }

    method ReconcileMachineSet(ms: Set, e: Env) returns (ok: bool)
      modifies this
      ensures Outcome(machines, ok) == Reconcile(ms, old(machines), e)
    {
      if !e.finalizerLands { return false; }
      ok := StepMachineSet(ms, e);
    }
  }
}
