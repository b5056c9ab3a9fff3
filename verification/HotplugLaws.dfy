/** How the size in status relates to the size the VM has, on every path. */
module HotplugLaws {

  import opened Options
  import opened Hotplug

  // ------------------------------------------------------------------ theorems

  /** Whichever calls fail, the VM never gets smaller, and each returned dimension is the
      live one exactly when it was before or when that dimension was hotplugged. */
  lemma GrowTruth(s: Spec, target: Size, applied: Size, live: Size, e: Env)
    ensures var r := Grow(s, target, applied, live, e);
            && AtLeast(r.live, live)
            && (r.applied.cpu == r.live.cpu <==> applied.cpu == live.cpu || r.live.cpu > live.cpu)
            && (r.applied.mem == r.live.mem <==> applied.mem == live.mem || r.live.mem > live.mem)
  {
  }

  /** On every path but the unrecorded baseline, a status that told the truth still does,
      and the VM has not shrunk; with no baseline the spec is taken at its word. */
  lemma HotplugTruthful(s: Spec, status: Size, live: Size, e: Env)
    requires status == live || status == Size(0, 0)
    ensures var r := Reconcile(s, status, live, false, e);
            && AtLeast(r.live, live)
            && (status == live && status != Size(0, 0) ==> r.applied == r.live)
            && (status == Size(0, 0) && s.cpu.Some? && s.mem.Some? ==>
                  (r.applied == r.live <==> live == Size(s.cpu.value, s.mem.value)))
  {
    if s.cpu.Some? && s.mem.Some? {
      GrowTruth(s, Target(Size(s.cpu.value, s.mem.value), status, e.blocked), status, live, e);
    }
  }

  /** After a restart with a known boot size and a spec that parses, status tells the live
      size on every path and the VM is never below its boot size. */
  lemma RestartTruthful(s: Spec, status: Size, boot: Size, e: Env)
    requires boot.cpu > 0 && boot.mem > 0 && Boot(s, status).Some?
    ensures var r := AfterRestart(s, status, boot, boot, e);
            r.applied == r.live && AtLeast(r.live, boot)
  {
    var size := Boot(s, status).value;
    HotplugTruthful(s.(cpu := Some(size.cpu), mem := Some(size.mem)), boot, boot, e);
  }

  /** Otherwise status keeps the size from before the halt, so it is true afterwards in a
      dimension exactly when the boot size already was, or when the dimension was grown. */
  lemma RestartUnknown(s: Spec, status: Size, boot: Size, live: Size, e: Env)
    requires (boot.cpu == 0 || boot.mem == 0 || Boot(s, status).None?) && status != Size(0, 0)
    ensures var r := AfterRestart(s, status, boot, live, e);
            && (r.applied.cpu == r.live.cpu <==> status.cpu == live.cpu || r.live.cpu > live.cpu)
            && (r.applied.mem == r.live.mem <==> status.mem == live.mem || r.live.mem > live.mem)
  {
    if s.cpu.Some? && s.mem.Some? {
      GrowTruth(s, Target(Size(s.cpu.value, s.mem.value), status, e.blocked), status, live, e);
    }
  }

  /** An unblocked success after a restart ends at the larger of the boot size and the
      clamped target, in each dimension. */
  lemma RestartReaches(s: Spec, status: Size, boot: Size, e: Env)
    requires boot.cpu > 0 && boot.mem > 0 && Boot(s, status).Some? && !e.blocked
    requires AfterRestart(s, status, boot, boot, e).ok
    ensures var r, size := AfterRestart(s, status, boot, boot, e), Boot(s, status).value;
            r.live == Size(Most(boot.cpu, size.cpu), Most(boot.mem, size.mem))
  {
  }

  predicate Fits(n: nat, l: Limit) { l.AtMost? ==> n <= l.n }

  /** So it reaches the larger of spec and prior applied exactly when no maximum is below
      that, or the runtime booted that large anyway. */
  lemma RestartReachesTargetIff(s: Spec, status: Size, boot: Size, e: Env)
    requires boot.cpu > 0 && boot.mem > 0 && Boot(s, status).Some? && !e.blocked
    requires AfterRestart(s, status, boot, boot, e).ok
    ensures var r := AfterRestart(s, status, boot, boot, e);
            var cpu, mem := Most(s.cpu.value, status.cpu), Most(s.mem.value, status.mem);
            && (r.live.cpu >= cpu <==> Fits(cpu, s.maxCpu) || boot.cpu >= cpu)
            && (r.live.mem >= mem <==> Fits(mem, s.maxMem) || boot.mem >= mem)
  {
    RestartReaches(s, status, boot, e);
  }

  /** A Machine that had grown to four cores before its maximum was lowered to two comes
      back at two. */
  lemma RestartClampedExample()
    ensures var s := Spec(Some(1), Some(1), AtMost(2), NoLimit, false);
            var r := AfterRestart(s, Size(4, 1), Size(1, 1), Size(1, 1), Env(false, true, true, true));
            r.ok && r.live == Size(2, 1)
  {
  }

  /** Writing back never lowers the spec, and only raises it up to what was realized. */
  lemma PersistRaises(s: Spec, applied: Size)
    requires s.cpu.Some? && s.mem.Some?
    ensures var p := Persist(s, applied);
            && p.cpu.Some? && p.mem.Some?
            && s.cpu.value <= p.cpu.value <= Most(s.cpu.value, applied.cpu)
            && s.mem.value <= p.mem.value <= Most(s.mem.value, applied.mem)
  {
  }
}
