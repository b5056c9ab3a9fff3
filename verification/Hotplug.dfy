/**
 Growing a running Machine's CPU and memory. FluxVM cannot be asked for a VM's live
 size, so status is the only record of it; the theorems compare what is returned for
 status with the size the VM really has.
 */
module Hotplug {

  import opened Options

  datatype Size = Size(cpu: nat, mem: nat)

  /** spec.resources.maxCpu or maxMemory. */
  datatype Limit = NoLimit | Malformed | AtMost(n: nat)

  /** spec.resources as it parses, and whether realized sizes are written back to it. */
  datatype Spec = Spec(cpu: Option<nat>, mem: Option<nat>, maxCpu: Limit, maxMem: Limit, persist: bool)

  /** Whether a quota blocks the growth, and which calls succeed. */
  datatype Env = Env(blocked: bool, cpuOk: bool, memOk: bool, patchOk: bool)

  /** What goes into status, what the VM has, what the spec says, and success. */
  datatype Outcome = Outcome(applied: Size, live: Size, spec: Spec, ok: bool)

  function Most(a: nat, b: nat): (r: nat) { if a < b then b else a }

  predicate AtLeast(a: Size, b: Size) { a.cpu >= b.cpu && a.mem >= b.mem }

  // ----------------------------------------------------------------- boot size

  function Clamp(n: nat, l: Limit): (r: nat) { if l.AtMost? && n > l.n then l.n else n }

  /** hotplugpersist.Boot: the larger of spec and applied, within the maxima. */
  function Boot(s: Spec, applied: Size): (r: Option<Size>) {
    if s.cpu.None? || s.mem.None? || s.maxCpu.Malformed? || s.maxMem.Malformed? then None
    else Some(Size(Clamp(Most(s.cpu.value, applied.cpu), s.maxCpu), Clamp(Most(s.mem.value, applied.mem), s.maxMem)))
  }

  /** SpecPatch: the realized size, where it is above the spec. */
  function Persist(s: Spec, applied: Size): (r: Spec) {
    var size := Boot(s, applied);
    if !s.persist || size.None? then s
    else s.(cpu := Some(Most(s.cpu.value, size.value.cpu)), mem := Some(Most(s.mem.value, size.value.mem)))
  }

  // ---------------------------------------------------------------- reconciling

  /** The two hotplug calls; the second is not made when the first fails. */
  function Grow(s: Spec, target: Size, applied: Size, live: Size, e: Env): (r: Outcome) {
    if target.cpu > applied.cpu && !e.cpuOk then Outcome(applied, live, s, false)
    else
      var live1 := if target.cpu > applied.cpu then live.(cpu := live.cpu + (target.cpu - applied.cpu)) else live;
      var applied1 := if target.cpu > applied.cpu then applied.(cpu := live1.cpu) else applied;
      if target.mem > applied.mem && !e.memOk then Outcome(applied1, live1, s, false)
      else
        var live2 := if target.mem > applied.mem then live1.(mem := live1.mem + (target.mem - applied.mem)) else live1;
        var applied2 := if target.mem > applied.mem then applied1.(mem := live2.mem) else applied1;
        Finish(s, applied2, live2, e)
  }

  function Finish(s: Spec, applied: Size, live: Size, e: Env): (r: Outcome) {
    if Persist(s, applied) == s then Outcome(applied, live, s, true)
    else if e.patchOk then Outcome(applied, live, Persist(s, applied), true)
    else Outcome(applied, live, s, false)
  }

  /** A quota that blocks leaves the targets at what is applied, where they grew. */
  function Target(s: Size, applied: Size, blocked: bool): (r: Size) {
    if blocked && (s.cpu > applied.cpu || s.mem > applied.mem)
    then Size(if s.cpu > applied.cpu then applied.cpu else s.cpu, if s.mem > applied.mem then applied.mem else s.mem)
    else s
  }

  function Reconcile(s: Spec, status: Size, live: Size, created: bool, e: Env): (r: Outcome) {
    if s.cpu.None? || s.mem.None? then Outcome(status, live, s, false)
    else
      var wanted := Size(s.cpu.value, s.mem.value);
      if created then Outcome(if Boot(s, status).Some? then Boot(s, status).value else wanted, live, s, true)
      else if status == Size(0, 0) then Outcome(wanted, live, s, true)
      else Grow(s, Target(wanted, status, e.blocked), status, live, e)
  }

  /** A restarted runtime is back at the size it was created with, if that is known. */
  function AfterRestart(s: Spec, status: Size, boot: Size, live: Size, e: Env): (r: Outcome) {
    if boot.cpu == 0 || boot.mem == 0 || Boot(s, status).None? then Reconcile(s, status, live, false, e)
    else
      var size := Boot(s, status).value;
      if AtLeast(boot, size) then Outcome(boot, live, s, true)
      else
        var r := Reconcile(s.(cpu := Some(size.cpu), mem := Some(size.mem)), boot, live, false, e);
        r.(spec := if r.spec == s.(cpu := Some(size.cpu), mem := Some(size.mem)) then s else r.spec)
  }
}
