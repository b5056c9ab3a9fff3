/** Hotplug as the agent runs it, against the VM FluxVM holds. */
module HotplugAgents {

  import opened Options
  import opened Hotplug

  class Vm {
    var live: Size
    var spec: Spec

    /** FluxVM's hotplug calls report the new total. */
    method HotplugCPU(delta: nat, ok: bool) returns (total: nat, err: bool)
      modifies this`live
      ensures err == !ok
      ensures live == if ok then old(live).(cpu := old(live).cpu + delta) else old(live)
      ensures total == live.cpu
    {
      if ok { live := live.(cpu := live.cpu + delta); }
      total, err := live.cpu, !ok;
    }

    method HotplugMemory(delta: nat, ok: bool) returns (total: nat, err: bool)
      modifies this`live
      ensures err == !ok
      ensures live == if ok then old(live).(mem := old(live).mem + delta) else old(live)
      ensures total == live.mem
    {
      if ok { live := live.(mem := live.mem + delta); }
      total, err := live.mem, !ok;
    }

    method PersistSpec(s: Spec, applied: Size, e: Env) returns (err: bool)
      modifies this`spec
      ensures var r := Finish(s, applied, live, e);
              err == !r.ok && spec == if r.spec == s then old(spec) else r.spec
    {
      var patch := Persist(s, applied);
      if patch == s { return false; }
      if !e.patchOk { return true; }
      spec := patch;
      err := false;
    }

    /** reconcileHotplug for a Machine whose spec reads `s` and whose status reads `status`. */
    method ReconcileHotplug(s: Spec, status: Size, created: bool, e: Env) returns (applied: Size, err: bool)
      modifies this
      ensures var r := Reconcile(s, status, old(live), created, e);
              applied == r.applied && live == r.live && err == !r.ok
              && spec == if r.spec == s then old(spec) else r.spec
    {
      if s.cpu.None? || s.mem.None? { return status, true; }
      var targetCPU, targetMem := s.cpu.value, s.mem.value;
      if created {
        var size := Boot(s, status);
        if size.None? { return Size(targetCPU, targetMem), false; }
        return size.value, false;
      }
      applied := status;
      if applied.cpu == 0 && applied.mem == 0 { return Size(targetCPU, targetMem), false; }
      var growingCPU, growingMem := targetCPU > applied.cpu, targetMem > applied.mem;
      if (growingCPU || growingMem) && e.blocked {
        if growingCPU { targetCPU, growingCPU := applied.cpu, false; }
        if growingMem { targetMem, growingMem := applied.mem, false; }
      }
      if growingCPU {
        var total, failed := HotplugCPU(targetCPU - applied.cpu, e.cpuOk);
        if failed { return applied, true; }
        applied := applied.(cpu := total);
      }
      if growingMem {
        var total, failed := HotplugMemory(targetMem - applied.mem, e.memOk);
        if failed { return applied, true; }
        applied := applied.(mem := total);
      }
      err := PersistSpec(s, applied, e);
    }

    /** reconcileHotplugAfterRestart; `boot` is the size of the kept create request. */
    method ReconcileAfterRestart(s: Spec, status: Size, boot: Size, e: Env) returns (applied: Size, err: bool)
      modifies this
      ensures var r := AfterRestart(s, status, boot, old(live), e);
              && applied == r.applied && live == r.live && err == !r.ok
              && (old(spec) == s ==> spec == r.spec)
    {
      if boot.cpu == 0 || boot.mem == 0 {
        applied, err := ReconcileHotplug(s, status, false, e);
        return;
      }
      var size := Boot(s, status);
      if size.None? {
        applied, err := ReconcileHotplug(s, status, false, e);
        return;
      }
      if boot.cpu >= size.value.cpu && boot.mem >= size.value.mem { return boot, false; }
      applied, err := ReconcileHotplug(s.(cpu := Some(size.value.cpu), mem := Some(size.value.mem)), boot, false, e);
    }
  }
}
