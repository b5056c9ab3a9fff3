/**
 A Machine's size over whole runs: spec edits, reconciles that create, grow or restart the
 VM, halts, removals and runtimes taken over from elsewhere.
 */
module HotplugRuns {

  import opened Options
  import opened Hotplug
  import opened HotplugLaws

  /** `boot` is the size a halted VM comes back at; `known` says its record tells it. */
  datatype Vm = NoVm | Vm(live: Size, boot: Size, known: bool, on: bool)

  /** spec.resources, status.applied and the VM. */
  datatype Plant = Plant(spec: Spec, status: Size, vm: Vm)

  /** `ok` says that creating or starting the VM succeeds, `lands` that status is written. */
  datatype Op =
    | Edit(spec: Spec)
    | Tick(e: Env, ok: bool, lands: bool)
    | Halt
    | Remove
    | TakeOver(live: Size, boot: Size, known: bool)

  /** A zero is omitted from the merge patch and so keeps the stored number. */
  function Merge(stored: Size, sent: Size): (r: Size) {
    Size(if sent.cpu == 0 then stored.cpu else sent.cpu, if sent.mem == 0 then stored.mem else sent.mem)
  }

  predicate Parses(s: Spec) { s.cpu.Some? && s.mem.Some? }

  /** What the create request asks for. */
  function CreateSize(s: Spec, status: Size): (r: Size)
    requires Parses(s)
  {
    if Boot(s, status).Some? then Boot(s, status).value else Size(s.cpu.value, s.mem.value)
  }

  /** The outcome of a reconcile, with the VM it was about. */
  function Report(p: Plant, vm: Vm, r: Outcome, lands: bool): (q: Plant)
    requires vm.Vm?
  {
    Plant(r.spec, if lands then Merge(p.status, r.applied) else p.status, vm.(live := r.live, on := true))
  }

  function Reconciles(p: Plant, e: Env, ok: bool, lands: bool): (q: Plant) {
    match p.vm
    case NoVm =>
      if !ok || !Parses(p.spec) then p
      else
        var size := CreateSize(p.spec, p.status);
        Report(p, Vm(size, size, true, true), Reconcile(p.spec, p.status, size, true, e), lands)
    case Vm(live, boot, known, on) =>
      if on then Report(p, p.vm, Reconcile(p.spec, p.status, live, false, e), lands)
      else if !ok then p
      else Report(p, p.vm, AfterRestart(p.spec, p.status, if known then boot else Size(0, 0), boot, e), lands)
  }

  function Step(p: Plant, op: Op): (q: Plant) {
    match op
    case Edit(spec) => p.(spec := spec)
    case Tick(e, ok, lands) => Reconciles(p, e, ok, lands)
    case Halt => if p.vm.Vm? then p.(vm := p.vm.(on := false)) else p
    case Remove => p.(vm := NoVm)
    case TakeOver(live, boot, known) => p.(vm := Vm(live, boot, known, true))
  }

  function Run(p: Plant, ops: seq<Op>): (q: Plant) {
    if ops == [] then p else Step(Run(p, ops[..|ops| - 1]), ops[|ops| - 1])
  }

  // ------------------------------------------------------------------ sound runs

  predicate Positive(s: Size) { s.cpu > 0 && s.mem > 0 }

  /** A quantity that parses is at least one. */
  predicate Sized(s: Spec) {
    && (s.cpu.Some? ==> s.cpu.value > 0) && (s.mem.Some? ==> s.mem.value > 0)
    && (s.maxCpu.AtMost? ==> s.maxCpu.n > 0) && (s.maxMem.AtMost? ==> s.maxMem.n > 0)
  }

  predicate SoundOp(op: Op) {
    match op
    case Edit(spec) => Sized(spec)
    case Tick(_, _, lands) => lands
    case TakeOver(live, boot, _) => Positive(live) && Positive(boot)
    case _ => true
  }

  /** Sizes are positive and every status write lands. */
  predicate SoundRun(ops: seq<Op>) { forall i :: 0 <= i < |ops| ==> SoundOp(ops[i]) }

  predicate Sane(p: Plant) {
    Sized(p.spec) && (p.vm.Vm? ==> Positive(p.vm.live) && Positive(p.vm.boot))
  }

  lemma {:induction false} SoundFront(ops: seq<Op>)
    requires ops != [] && SoundRun(ops)
    ensures SoundRun(ops[..|ops| - 1]) && SoundOp(ops[|ops| - 1])
  {
  }

  lemma {:induction false} PersistSized(s: Spec, applied: Size)
    requires Sized(s)
    ensures Sized(Persist(s, applied))
  {
  }

  lemma {:induction false} GrowSane(s: Spec, target: Size, applied: Size, live: Size, e: Env)
    requires Sized(s) && Positive(live)
    ensures var r := Grow(s, target, applied, live, e); Sized(r.spec) && Positive(r.live)
  {
    var r := Grow(s, target, applied, live, e);
    PersistSized(s, r.applied);
  }

  lemma {:induction false} ReconcileSane(s: Spec, status: Size, live: Size, created: bool, e: Env)
    requires Sized(s) && Positive(live)
    ensures var r := Reconcile(s, status, live, created, e); Sized(r.spec) && Positive(r.live)
  {
    if Parses(s) {
      GrowSane(s, Target(Size(s.cpu.value, s.mem.value), status, e.blocked), status, live, e);
    }
  }

  lemma {:induction false} RestartSane(s: Spec, status: Size, boot: Size, live: Size, e: Env)
    requires Sized(s) && Positive(live)
    ensures var r := AfterRestart(s, status, boot, live, e); Sized(r.spec) && Positive(r.live)
  {
    ReconcileSane(s, status, live, false, e);
    if Boot(s, status).Some? {
      var size := Boot(s, status).value;
      ReconcileSane(s.(cpu := Some(size.cpu), mem := Some(size.mem)), boot, live, false, e);
    }
  }

  lemma {:induction false} StepSane(p: Plant, op: Op)
    requires Sane(p) && SoundOp(op)
    ensures Sane(Step(p, op))
  {
    if op.Tick? {
      match p.vm
      case NoVm =>
        if Parses(p.spec) { ReconcileSane(p.spec, p.status, CreateSize(p.spec, p.status), true, op.e); }
      case Vm(live, boot, known, on) =>
        ReconcileSane(p.spec, p.status, live, false, op.e);
        RestartSane(p.spec, p.status, if known then boot else Size(0, 0), boot, op.e);
    }
  }

  // ------------------------------------------------------- when status is right

  /** Whether status gives the live number, per dimension. */
  datatype Right = Right(cpu: bool, mem: bool)

  function Equal(a: Size, b: Size): (r: Right) { Right(a.cpu == b.cpu, a.mem == b.mem) }

  /** The dimensions a reconcile from the baseline `base` grows. */
  function Grown(s: Spec, base: Size, e: Env): (r: Right)
    requires Parses(s)
  {
    var t := Target(Size(s.cpu.value, s.mem.value), base, e.blocked);
    Right(t.cpu > base.cpu && e.cpuOk, t.mem > base.mem && e.memOk && (t.cpu > base.cpu ==> e.cpuOk))
  }

  /** A reconcile of a running VM: a status without a size takes the spec's, any other is
      put right where the VM grows and nowhere else. */
  function Ticked(s: Spec, status: Size, live: Size, right: Right, e: Env): (r: Right) {
    if !Parses(s) then right
    else if status == Size(0, 0) then Equal(Size(s.cpu.value, s.mem.value), live)
    else Right(right.cpu || Grown(s, status, e).cpu, right.mem || Grown(s, status, e).mem)
  }

  /** The restart cannot tell what the VM boots with. */
  predicate Unreadable(p: Plant) { p.vm.Vm? && (!p.vm.known || Boot(p.spec, p.status).None?) }

  /** What one operation does to the rightness of status, told without the VM's size but
      for runtimes made elsewhere and restarts that cannot be read. */
  function Track(p: Plant, right: Right, op: Op): (r: Right) {
    match op
    case TakeOver(live, _, _) => Equal(p.status, live)
    case Tick(e, ok, _) =>
      if p.vm.Vm? && p.vm.on then Ticked(p.spec, p.status, p.vm.live, right, e)
      else if !ok then right
      else if Unreadable(p) then Ticked(p.spec, p.status, p.vm.boot, Equal(p.status, p.vm.boot), e)
      else Right(true, true)
    case _ => right
  }

  function TrackRun(p: Plant, ops: seq<Op>): (r: Right) {
    if ops == [] then Right(true, true)
    else Track(Run(p, ops[..|ops| - 1]), TrackRun(p, ops[..|ops| - 1]), ops[|ops| - 1])
  }

  predicate Running(p: Plant) { p.vm.Vm? && p.vm.on }

  predicate Tells(p: Plant, right: Right) { Running(p) ==> Equal(p.status, p.vm.live) == right }

  lemma {:induction false} GrowTells(s: Spec, base: Size, live: Size, e: Env)
    requires Parses(s) && Positive(live)
    ensures var r := Grow(s, Target(Size(s.cpu.value, s.mem.value), base, e.blocked), base, live, e);
            && Equal(Merge(base, r.applied), r.live)
            == Right(base.cpu == live.cpu || Grown(s, base, e).cpu, base.mem == live.mem || Grown(s, base, e).mem)
  {
    GrowTruth(s, Target(Size(s.cpu.value, s.mem.value), base, e.blocked), base, live, e);
  }

  lemma {:induction false} TickTells(s: Spec, status: Size, live: Size, e: Env)
    requires Sized(s) && Positive(live)
    ensures var r := Reconcile(s, status, live, false, e);
            Equal(Merge(status, r.applied), r.live) == Ticked(s, status, live, Equal(status, live), e)
  {
    if Parses(s) && status != Size(0, 0) { GrowTells(s, status, live, e); }
  }

  lemma {:induction false} RestartTells(s: Spec, status: Size, boot: Size, known: bool, e: Env)
    requires Sized(s) && Positive(boot)
    ensures var r := AfterRestart(s, status, if known then boot else Size(0, 0), boot, e);
            Equal(Merge(status, r.applied), r.live)
            == if known && Boot(s, status).Some? then Right(true, true)
               else Ticked(s, status, boot, Equal(status, boot), e)
  {
    if known && Boot(s, status).Some? {
      RestartTruthful(s, status, boot, e);
    } else {
      TickTells(s, status, boot, e);
    }
  }

  lemma {:induction false} StepTells(p: Plant, right: Right, op: Op)
    requires Sane(p) && SoundOp(op) && Tells(p, right)
    ensures Tells(Step(p, op), Track(p, right, op))
  {
    if op.Tick? {
      match p.vm
      case NoVm =>
      case Vm(live, boot, known, on) =>
        if on {
          TickTells(p.spec, p.status, live, op.e);
        } else {
          RestartTells(p.spec, p.status, boot, known, op.e);
        }
    }
  }

  lemma {:induction false} RunTells(p: Plant, ops: seq<Op>)
    requires Sane(p) && !Running(p) && SoundRun(ops)
    ensures Sane(Run(p, ops)) && Tells(Run(p, ops), TrackRun(p, ops))
  {
    if ops != [] {
      var front := ops[..|ops| - 1];
      SoundFront(ops);
      RunTells(p, front);
      StepSane(Run(p, front), ops[|ops| - 1]);
      StepTells(Run(p, front), TrackRun(p, front), ops[|ops| - 1]);
    }
  }

  // ------------------------------------------------------------------- theorems

  /** Over any mix of edits, reconciles, halts, removals and takeovers whose status writes
      land, and in each dimension: status gives the running VM's size if and only if it did
      when the VM was created, taken over or last restarted, or the dimension has grown
      since. A created VM, and one restarted from a readable boot size, always count; a
      status without any size is given the spec's, right or wrong. */
  lemma {:induction false} StatusTellsSize(p: Plant, ops: seq<Op>)
    requires Sane(p) && !Running(p) && SoundRun(ops) && Running(Run(p, ops))
    ensures var r, right := Run(p, ops), TrackRun(p, ops);
            && (r.status.cpu == r.vm.live.cpu <==> right.cpu)
            && (r.status.mem == r.vm.live.mem <==> right.mem)
  {
    RunTells(p, ops);
  }

  /** Nothing is taken over, and no halted VM is restarted while it cannot be read. */
  predicate Readable(p: Plant, ops: seq<Op>) {
    ops == [] ||
    var front, last := ops[..|ops| - 1], ops[|ops| - 1];
    && Readable(p, front) && !last.TakeOver?
    && !(last.Tick? && last.ok && !Running(Run(p, front)) && Unreadable(Run(p, front)))
  }

  /** Then status is exactly the running VM's size, and positive. */
  lemma {:induction false} ReadableRunTells(p: Plant, ops: seq<Op>)
    requires Sane(p) && p.vm.NoVm? && SoundRun(ops) && Readable(p, ops)
    ensures Running(Run(p, ops)) ==> Run(p, ops).status == Run(p, ops).vm.live && Positive(Run(p, ops).status)
  {
    if ops != [] {
      SoundFront(ops);
      ReadableRunTells(p, ops[..|ops| - 1]);
    }
    RunTells(p, ops);
    if Running(Run(p, ops)) { ReadableTracks(p, ops); }
  }

  lemma {:induction false} ReadableTracks(p: Plant, ops: seq<Op>)
    requires Sane(p) && p.vm.NoVm? && SoundRun(ops) && Readable(p, ops)
    ensures TrackRun(p, ops) == Right(true, true)
    ensures Running(Run(p, ops)) ==> Run(p, ops).status != Size(0, 0)
  {
    if ops != [] {
      var front := ops[..|ops| - 1];
      SoundFront(ops);
      ReadableTracks(p, front);
      RunTells(p, front);
      RunTells(p, ops);
    }
  }

  // ------------------------------------------------------------- growing twice

  predicate Within(a: Size, b: Size) { AtLeast(b, a) }

  /** The size a reconcile starts from: a halted VM comes back at its boot size. */
  function Was(p: Plant): (r: Size) {
    if p.vm.NoVm? then Size(0, 0) else if p.vm.on then p.vm.live else p.vm.boot
  }

  /** The largest size that spec and status give. */
  function Asked(p: Plant): (r: Size) {
    Size(Most(if p.spec.cpu.Some? then p.spec.cpu.value else 0, p.status.cpu),
         Most(if p.spec.mem.Some? then p.spec.mem.value else 0, p.status.mem))
  }

  /** The dimensions a reconcile grows although status is below the VM already. */
  function Doubled(p: Plant, e: Env): (r: Right) {
    if !Parses(p.spec) || p.vm.NoVm? || p.status == Size(0, 0) || (!p.vm.on && !Unreadable(p)) then Right(false, false)
    else
      var grown := Grown(p.spec, p.status, e);
      Right(grown.cpu && p.status.cpu < Was(p).cpu, grown.mem && p.status.mem < Was(p).mem)
  }

  /** What one reconcile does to the VM, against what it was and what was asked. */
  predicate Exceeds(after: Size, was: Size, asked: Size, doubled: Right) {
    && (after.cpu > Most(was.cpu, asked.cpu) <==> doubled.cpu)
    && (after.mem > Most(was.mem, asked.mem) <==> doubled.mem)
  }

  lemma {:induction false} TickExceeds(s: Spec, status: Size, live: Size, e: Env, asked: Size)
    requires Parses(s) && asked == Size(Most(s.cpu.value, status.cpu), Most(s.mem.value, status.mem))
    ensures var r, grown := Reconcile(s, status, live, false, e), Grown(s, status, e);
            Exceeds(r.live, live, asked,
                    if status == Size(0, 0) then Right(false, false)
                    else Right(grown.cpu && status.cpu < live.cpu, grown.mem && status.mem < live.mem))
  {
  }

  lemma {:induction false} ReadableExceeds(s: Spec, status: Size, boot: Size, e: Env)
    requires Positive(boot) && Boot(s, status).Some?
    ensures var r := AfterRestart(s, status, boot, boot, e);
            Exceeds(r.live, boot, Size(Most(s.cpu.value, status.cpu), Most(s.mem.value, status.mem)),
                    Right(false, false))
  {
    var size := Boot(s, status).value;
    var sized := s.(cpu := Some(size.cpu), mem := Some(size.mem));
    TickExceeds(sized, boot, boot, e, Size(Most(size.cpu, boot.cpu), Most(size.mem, boot.mem)));
  }

  /** A reconcile leaves the VM larger than it was and than anything asked for if and only if
      it grows it while status is below it, in each dimension and whatever fails. */
  lemma {:induction false} OvershootsIff(p: Plant, e: Env, ok: bool, lands: bool)
    requires Sane(p)
    ensures var q := Step(p, Tick(e, ok, lands));
            Running(q) ==> Exceeds(q.vm.live, Was(p), Asked(p), Doubled(p, e))
  {
    match p.vm
    case NoVm =>
    case Vm(live, boot, known, on) => if Parses(p.spec) { ParsedOvershoots(p, e, ok, lands); }
  }

  lemma {:induction false} ParsedOvershoots(p: Plant, e: Env, ok: bool, lands: bool)
    requires Sane(p) && p.vm.Vm? && Parses(p.spec)
    ensures var q := Step(p, Tick(e, ok, lands));
            Running(q) ==> Exceeds(q.vm.live, Was(p), Asked(p), Doubled(p, e))
  {
    if p.vm.on {
      TickExceeds(p.spec, p.status, p.vm.live, e, Asked(p));
    } else if Unreadable(p) {
      TickExceeds(p.spec, p.status, p.vm.boot, e, Asked(p));
    } else {
      ReadableExceeds(p.spec, p.status, p.vm.boot, e);
    }
  }

  /** For a running VM and calls that succeed: past spec and VM exactly when status is below
      both. */
  lemma {:induction false} SecondGrowthIff(p: Plant, lands: bool)
    requires Sane(p) && Running(p) && Parses(p.spec) && p.status != Size(0, 0)
    ensures var q, s := Step(p, Tick(Good, true, lands)), Size(p.spec.cpu.value, p.spec.mem.value);
            && (q.vm.live.cpu > Most(p.vm.live.cpu, s.cpu) <==> p.status.cpu < p.vm.live.cpu && p.status.cpu < s.cpu)
            && (q.vm.live.mem > Most(p.vm.live.mem, s.mem) <==> p.status.mem < p.vm.live.mem && p.status.mem < s.mem)
  {
  }

  // ---------------------------------------------------------- never past what was asked

  predicate SpecWithin(s: Spec, top: Size) {
    (s.cpu.Some? ==> s.cpu.value <= top.cpu) && (s.mem.Some? ==> s.mem.value <= top.mem)
  }

  /** Every size an operation brings in is positive and at most `top`. */
  predicate OpWithin(op: Op, top: Size) {
    match op
    case Edit(spec) => Sized(spec) && SpecWithin(spec, top)
    case TakeOver(live, boot, _) => Positive(live) && Positive(boot) && Within(live, top) && Within(boot, top)
    case _ => true
  }

  predicate RunWithin(ops: seq<Op>, top: Size) { forall i :: 0 <= i < |ops| ==> OpWithin(ops[i], top) }

  predicate AllWithin(p: Plant, top: Size) {
    && SpecWithin(p.spec, top) && Within(p.status, top)
    && (p.vm.Vm? ==> Within(p.vm.live, top) && Within(p.vm.boot, top))
  }

  /** No reconcile of the run grows a VM that status is below already. */
  predicate NeverDoubled(p: Plant, ops: seq<Op>) {
    ops == [] ||
    var front, last := ops[..|ops| - 1], ops[|ops| - 1];
    NeverDoubled(p, front) && (last.Tick? ==> Doubled(Run(p, front), last.e) == Right(false, false))
  }

  lemma {:induction false} BootWithin(s: Spec, status: Size, top: Size)
    requires SpecWithin(s, top) && Within(status, top) && Boot(s, status).Some?
    ensures Within(Boot(s, status).value, top)
  {
  }

  lemma {:induction false} PersistWithin(s: Spec, applied: Size, top: Size)
    requires SpecWithin(s, top) && Within(applied, top)
    ensures SpecWithin(Persist(s, applied), top)
  {
    if Boot(s, applied).Some? { BootWithin(s, applied, top); }
  }

  lemma {:induction false} GrowReports(s: Spec, target: Size, base: Size, live: Size, e: Env, top: Size)
    requires SpecWithin(s, top) && Within(base, top)
    requires Within(Grow(s, target, base, live, e).live, top)
    ensures var r := Grow(s, target, base, live, e); SpecWithin(r.spec, top) && Within(r.applied, top)
  {
    var r := Grow(s, target, base, live, e);
    assert Within(r.applied, top);
    PersistWithin(s, r.applied, top);
  }

  lemma {:induction false} TickReports(s: Spec, status: Size, live: Size, e: Env, top: Size)
    requires SpecWithin(s, top) && Within(status, top) && Within(Reconcile(s, status, live, false, e).live, top)
    ensures var r := Reconcile(s, status, live, false, e); SpecWithin(r.spec, top) && Within(r.applied, top)
  {
    if Parses(s) && status != Size(0, 0) {
      GrowReports(s, Target(Size(s.cpu.value, s.mem.value), status, e.blocked), status, live, e, top);
    }
  }

  lemma {:induction false} RestartReports(s: Spec, status: Size, boot: Size, live: Size, e: Env, top: Size)
    requires SpecWithin(s, top) && Within(status, top) && Within(boot, top)
    requires Within(AfterRestart(s, status, boot, live, e).live, top)
    ensures var r := AfterRestart(s, status, boot, live, e); SpecWithin(r.spec, top) && Within(r.applied, top)
  {
    if boot.cpu == 0 || boot.mem == 0 || Boot(s, status).None? {
      TickReports(s, status, live, e, top);
    } else {
      var size := Boot(s, status).value;
      BootWithin(s, status, top);
      if !AtLeast(boot, size) {
        TickReports(s.(cpu := Some(size.cpu), mem := Some(size.mem)), boot, live, e, top);
      }
    }
  }

  lemma {:induction false} StepWithin(p: Plant, op: Op, top: Size)
    requires Sane(p) && OpWithin(op, top) && AllWithin(p, top)
    requires op.Tick? ==> Doubled(p, op.e) == Right(false, false)
    ensures AllWithin(Step(p, op), top)
  {
    if op.Tick? {
      OvershootsIff(p, op.e, op.ok, op.lands);
      match p.vm
      case NoVm =>
        if Parses(p.spec) && Boot(p.spec, p.status).Some? { BootWithin(p.spec, p.status, top); }
      case Vm(live, boot, known, on) =>
        if on {
          TickReports(p.spec, p.status, live, op.e, top);
        } else if op.ok {
          RestartReports(p.spec, p.status, if known then boot else Size(0, 0), boot, op.e, top);
        }
    }
  }

  lemma {:induction false} StepSaneAny(p: Plant, op: Op, top: Size)
    requires Sane(p) && OpWithin(op, top)
    ensures Sane(Step(p, op))
  {
    StepSane(p, if op.Tick? then op.(lands := true) else op);
  }

  /** Over any run, lost status writes and takeovers included, in which no reconcile grows a
      VM that status is below already, the VM is never larger than the largest size a spec,
      the first status or a takeover ever gave. */
  lemma {:induction false} WithinUnlessDoubled(p: Plant, ops: seq<Op>, top: Size)
    requires Sane(p) && AllWithin(p, top) && RunWithin(ops, top) && NeverDoubled(p, ops)
    ensures Sane(Run(p, ops)) && AllWithin(Run(p, ops), top)
  {
    if ops != [] {
      var front := ops[..|ops| - 1];
      WithinUnlessDoubled(p, front, top);
      StepSaneAny(Run(p, front), ops[|ops| - 1], top);
      StepWithin(Run(p, front), ops[|ops| - 1], top);
    }
  }

  /** Status is at least the VM's size, and its boot size. */
  predicate Ahead(p: Plant) {
    && (p.vm.Vm? ==> p.vm.known && Within(p.vm.boot, p.status))
    && (Running(p) ==> Within(p.vm.boot, p.vm.live) && Within(p.vm.live, p.status))
  }

  lemma {:induction false} TickAhead(s: Spec, status: Size, live: Size, e: Env)
    requires Within(live, status) && Positive(live)
    ensures var r := Reconcile(s, status, live, false, e); Within(r.live, r.applied) && Within(live, r.live)
  {
    if Parses(s) {
      GrowTruth(s, Target(Size(s.cpu.value, s.mem.value), status, e.blocked), status, live, e);
    }
  }

  lemma {:induction false} RestartAhead(s: Spec, status: Size, boot: Size, e: Env)
    requires Within(boot, status) && Positive(boot)
    ensures var r := AfterRestart(s, status, boot, boot, e); Within(r.live, r.applied) && Within(boot, r.live)
  {
    TickAhead(s, status, boot, e);
    if Boot(s, status).Some? {
      var size := Boot(s, status).value;
      TickAhead(s.(cpu := Some(size.cpu), mem := Some(size.mem)), boot, boot, e);
    }
  }

  lemma {:induction false} StepAhead(p: Plant, op: Op)
    requires Sane(p) && SoundOp(op) && Ahead(p) && !op.TakeOver?
    ensures Ahead(Step(p, op))
  {
    if op.Tick? {
      match p.vm
      case NoVm =>
      case Vm(live, boot, known, on) =>
        if on {
          TickAhead(p.spec, p.status, live, op.e);
        } else {
          RestartAhead(p.spec, p.status, boot, op.e);
        }
    }
  }

  /** Where every status write lands and nothing is taken over, no VM is grown twice. */
  lemma {:induction false} LandedNeverDoubles(p: Plant, ops: seq<Op>)
    requires Sane(p) && p.vm.NoVm? && SoundRun(ops) && forall i :: 0 <= i < |ops| ==> !ops[i].TakeOver?
    ensures Ahead(Run(p, ops)) && NeverDoubled(p, ops)
  {
    if ops != [] {
      var front := ops[..|ops| - 1];
      SoundFront(ops);
      LandedNeverDoubles(p, front);
      RunTells(p, front);
      StepAhead(Run(p, front), ops[|ops| - 1]);
    }
  }

  /** So over any such run the VM is never larger than the largest size a spec or the first
      status ever gave. */
  lemma {:induction false} NeverPastAsked(p: Plant, ops: seq<Op>, top: Size)
    requires Sane(p) && p.vm.NoVm? && SoundRun(ops) && RunWithin(ops, top)
    requires forall i :: 0 <= i < |ops| ==> !ops[i].TakeOver?
    requires SpecWithin(p.spec, top) && Within(p.status, top)
    ensures Running(Run(p, ops)) ==> Within(Run(p, ops).vm.live, top)
  {
    LandedNeverDoubles(p, ops);
    WithinUnlessDoubled(p, ops, top);
  }

  // ------------------------------------------------------------- blocked by quota

  predicate OnlyBlocked(ops: seq<Op>) {
    forall i :: 0 <= i < |ops| ==> ops[i].Edit? || (ops[i].Tick? && ops[i].e.blocked)
  }

  /** However the spec is edited, a running VM with a recorded size keeps it, and status
      keeps telling what it told, for as long as the quota blocks. */
  lemma {:induction false} BlockedNeverGrows(p: Plant, ops: seq<Op>)
    requires Running(p) && p.status != Size(0, 0) && OnlyBlocked(ops)
    ensures Run(p, ops).vm == p.vm && Run(p, ops).status == p.status
  {
    if ops != [] {
      var front := ops[..|ops| - 1];
      assert forall i :: 0 <= i < |front| ==> front[i] == ops[i];
      BlockedNeverGrows(p, front);
    }
  }

  // ----------------------------------------------------------- concrete inputs

  function Cores(n: nat): (s: Spec) { Spec(Some(n), Some(1), NoLimit, NoLimit, false) }

  const Good := Env(false, true, true, true)
  const Fine := Tick(Good, true, true)

  lemma {:induction false} RunSnoc(p: Plant, ops: seq<Op>, op: Op)
    ensures Run(p, ops + [op]) == Step(Run(p, ops), op)
  {
    assert (ops + [op])[..|ops|] == ops;
  }

  /** Created at two cores, grown to four. */
  const ToFour := [Fine, Edit(Cores(4)), Fine]

  lemma {:induction false} FourRun()
    ensures Run(Plant(Cores(2), Size(0, 0), NoVm), ToFour)
         == Plant(Cores(4), Size(4, 1), Vm(Size(4, 1), Size(2, 1), true, true))
  {
    var p := Plant(Cores(2), Size(0, 0), NoVm);
    CreatedAtTwo();
    GrownToFour();
    RunThree(p, Fine, Edit(Cores(4)), Fine);
  }

  lemma {:induction false} RunThree(p: Plant, a: Op, b: Op, c: Op)
    ensures Run(p, [a, b, c]) == Step(Step(Step(p, a), b), c)
  {
    RunSnoc(p, [], a);
    RunSnoc(p, [a], b);
    RunSnoc(p, [a, b], c);
    assert [] + [a] == [a] && [a] + [b] == [a, b] && [a, b] + [c] == [a, b, c];
  }

  lemma {:induction false} CreatedAtTwo()
    ensures Step(Plant(Cores(2), Size(0, 0), NoVm), Fine)
         == Plant(Cores(2), Size(2, 1), Vm(Size(2, 1), Size(2, 1), true, true))
  {
  }

  lemma {:induction false} GrownToFour()
    ensures Step(Plant(Cores(4), Size(2, 1), Vm(Size(2, 1), Size(2, 1), true, true)), Fine)
         == Plant(Cores(4), Size(4, 1), Vm(Size(4, 1), Size(2, 1), true, true))
  {
  }

  /** Grown, halted, given a maximum that does not parse and restarted: two cores run, and
      status says four. */
  lemma {:induction false} UnreadableRestart()
    ensures var p := Run(Plant(Cores(2), Size(0, 0), NoVm), ToFour);
            var r := Step(Step(Step(p, Halt), Edit(Cores(4).(maxCpu := Malformed))), Fine);
            Running(r) && r.status == Size(4, 1) && r.vm.live == Size(2, 1)
  {
    FourRun();
  }

  /** Created at two cores and asked for four; the growth is made and its status write lost.
      The next reconcile grows again, to six. */
  lemma {:induction false} LostWriteOvershoots()
    ensures var created := Step(Plant(Cores(2), Size(0, 0), NoVm), Fine);
            var lost := Step(Step(created, Edit(Cores(4))), Tick(Good, true, false));
            var r := Step(lost, Fine);
            && lost.status == Size(2, 1) && lost.vm == Vm(Size(4, 1), Size(2, 1), true, true)
            && r.vm == Vm(Size(6, 1), Size(2, 1), true, true) && r.status == Size(6, 1)
  {
  }
}
