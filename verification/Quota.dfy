/**
 MachineQuota accounting. CPU is summed in 32 bits and memory in 64, both wrapping; the
 theorems relate the running totals to plain sums over the Machine list.
 */
module Quota {

  import opened Options

  const Max32 := 0x1_0000_0000
  const Max64 := 0x1_0000_0000_0000_0000

  type U32 = n: nat | n < Max32
  type U64 = n: nat | n < Max64

  datatype Power = PowerOn | PowerStopped | PowerHalted

  datatype Machine = Machine(ns: nat, node: nat, power: Power, deleting: bool, cpu: U32, mem: U64)

  /** A limit string: absent, unparsable, or a number. */
  datatype Limit = NoLimit | Malformed | Max(n: nat)

  datatype QuotaSpec = QuotaSpec(ns: nat, maxMachines: Option<int>, maxCpu: Limit, maxMem: Limit)

  datatype Used = Used(machines: nat, cpu: U32, mem: U64)

  function Add32(a: U32, b: U32): (r: U32) { (a + b) % Max32 }
  function Sub32(a: U32, b: U32): (r: U32) { (a - b) % Max32 }
  function Add64(a: U64, b: U64): (r: U64) { (a + b) % Max64 }
  function Sub64(a: U64, b: U64): (r: U64) { (a - b) % Max64 }

  /** Scheduled, not being deleted, and not asked to be off. */
  predicate Counts(m: Machine) {
    !m.deleting && m.power != PowerStopped && m.power != PowerHalted && m.node != 0
  }

  // ------------------------------------------------------------------- seeding

  function Charge(u: Used, m: Machine): (r: Used) {
    Used(u.machines + 1, Add32(u.cpu, m.cpu), Add64(u.mem, m.mem))
  }

  /** One quota's usage after the listing. */
  function Seed(q: QuotaSpec, machines: seq<Machine>): (r: Used) {
    if machines == [] then Used(0, 0, 0)
    else
      var u, m := Seed(q, machines[..|machines| - 1]), machines[|machines| - 1];
      if Counts(m) && m.ns == q.ns then Charge(u, m) else u
  }

  predicate WellFormed(q: QuotaSpec) { !q.maxCpu.Malformed? && !q.maxMem.Malformed? }

  predicate AllWellFormed(qs: seq<QuotaSpec>) { forall k :: 0 <= k < |qs| ==> WellFormed(qs[k]) }

  function SeedAll(qs: seq<QuotaSpec>, machines: seq<Machine>): (r: seq<Used>)
    ensures |r| == |qs|
  {
    seq(|qs|, k requires 0 <= k < |qs| => Seed(qs[k], machines))
  }

  // ----------------------------------------------------------------- decisions

  predicate Exceeds(l: Limit, n: nat) { l.Max? && n > l.n }

  predicate BlocksNew(q: QuotaSpec, u: Used, m: Machine) {
    || (q.maxMachines.Some? && u.machines + 1 > q.maxMachines.value)
    || Exceeds(q.maxCpu, Add32(u.cpu, m.cpu))
    || Exceeds(q.maxMem, Add64(u.mem, m.mem))
  }

  predicate BlocksResize(q: QuotaSpec, u: Used, oldCpu: U32, newCpu: U32, oldMem: U64, newMem: U64) {
    || Exceeds(q.maxCpu, Add32(Sub32(u.cpu, oldCpu), newCpu))
    || Exceeds(q.maxMem, Add64(Sub64(u.mem, oldMem), newMem))
  }

  /** admitQuota's check over every quota of the Machine's namespace. */
  predicate Admits(qs: seq<QuotaSpec>, us: seq<Used>, m: Machine)
    requires |us| == |qs|
  {
    forall k :: 0 <= k < |qs| && qs[k].ns == m.ns ==> !BlocksNew(qs[k], us[k], m)
  }

  function Spend(qs: seq<QuotaSpec>, us: seq<Used>, m: Machine): (r: seq<Used>)
    requires |us| == |qs|
    ensures |r| == |us|
  {
    seq(|us|, k requires 0 <= k < |us| => if qs[k].ns == m.ns then Charge(us[k], m) else us[k])
  }

  function AdmitNew(qs: seq<QuotaSpec>, us: seq<Used>, m: Machine): (r: seq<Used>)
    requires |us| == |qs|
    ensures |r| == |us|
  {
    if Admits(qs, us, m) then Spend(qs, us, m) else us
  }

  /** AdmitQuotaResize. */
  predicate ResizeAllowed(qs: seq<QuotaSpec>, us: seq<Used>, ns: nat, oldCpu: U32, newCpu: U32, oldMem: U64,
                          newMem: U64)
    requires |us| == |qs|
  {
    forall k :: 0 <= k < |qs| && qs[k].ns == ns ==> !BlocksResize(qs[k], us[k], oldCpu, newCpu, oldMem, newMem)
  }

  /** The webhook, which sees the list before the update. */
  predicate WebhookAllows(qs: seq<QuotaSpec>, before: seq<Machine>, was: Machine, now: Machine) {
    || !Counts(was)
    || (now.cpu <= was.cpu && now.mem <= was.mem)
    || qs == []
    || (AllWellFormed(qs) && ResizeAllowed(qs, SeedAll(qs, before), now.ns, was.cpu, now.cpu, was.mem, now.mem))
  }

  /** The agent, which sees the list after it and passes its target twice; it lets the
      resize through when it cannot look. */
  predicate AgentBlocks(qs: seq<QuotaSpec>, after: seq<Machine>, now: Machine, targetCpu: U32, targetMem: U64) {
    && Counts(now) && qs != [] && AllWellFormed(qs)
    && !ResizeAllowed(qs, SeedAll(qs, after), now.ns, targetCpu, targetCpu, targetMem, targetMem)
  }

  // ---------------------------------------------------------------- plain sums

  function CpuSum(q: QuotaSpec, machines: seq<Machine>): (r: nat) {
    if machines == [] then 0
    else
      var m := machines[|machines| - 1];
      CpuSum(q, machines[..|machines| - 1]) + if Counts(m) && m.ns == q.ns then m.cpu else 0
  }

  function MemSum(q: QuotaSpec, machines: seq<Machine>): (r: nat) {
    if machines == [] then 0
    else
      var m := machines[|machines| - 1];
      MemSum(q, machines[..|machines| - 1]) + if Counts(m) && m.ns == q.ns then m.mem else 0
  }

  function Number(q: QuotaSpec, machines: seq<Machine>): (r: nat) {
    if machines == [] then 0
    else
      var m := machines[|machines| - 1];
      Number(q, machines[..|machines| - 1]) + if Counts(m) && m.ns == q.ns then 1 else 0
  }

  lemma {:induction false} ModAdd(x: int, y: int, m: int)
    requires m > 0
    ensures (x % m + y) % m == (x + y) % m
  {
    ModShift(x + y, -(x / m), m);
    assert x + y + -(x / m) * m == x % m + y;
  }

  lemma {:induction false} ModShift(x: int, k: int, m: int)
    requires m > 0
    ensures (x + k * m) % m == x % m
    decreases if k < 0 then -k else k
  {
    if k > 0 {
      ModShift(x, k - 1, m);
      ModOnce(x + (k - 1) * m, m);
      assert x + (k - 1) * m + m == x + k * m;
    } else if k < 0 {
      ModShift(x, k + 1, m);
      ModOnce(x + k * m, m);
      assert x + k * m + m == x + (k + 1) * m;
    }
  }

  lemma {:induction false} ModOnce(y: int, m: int)
    requires m > 0
    ensures (y + m) % m == y % m
  {
    assert y == (y / m) * m + y % m;
    assert y + m == (y / m + 1) * m + y % m;
    DivUnique(y + m, y / m + 1, y % m, m);
  }

  lemma {:induction false} DivUnique(a: int, q: int, r: int, m: int)
    requires m > 0 && a == q * m + r && 0 <= r < m
    ensures a % m == r
  {
    var d := a / m - q;
    MulBound(d, m);
    assert d * m == r - a % m;
  }

  lemma {:induction false} MulBound(d: int, m: int)
    requires m > 0
    ensures d >= 1 ==> d * m >= m
    ensures d <= -1 ==> d * m <= -m
  {
  }

  lemma {:induction false} ModReplace(x: int, a: int, b: int, m: int)
    requires m > 0
    ensures ((x % m - a) % m + b) % m == (x - a + b) % m
  {
    var y := x % m;
    calc {
      ((y - a) % m + b) % m;
      { ModAdd(y - a, b, m); }
      (y - a + b) % m;
      { assert y - a + b == y + (b - a); }
      (y + (b - a)) % m;
      { ModAdd(x, b - a, m); }
      (x + (b - a)) % m;
    }
  }

  /** The running totals are the plain sums, taken modulo the word size. */
  lemma {:induction false} SeedIsSum(q: QuotaSpec, machines: seq<Machine>)
    ensures Seed(q, machines) == Used(Number(q, machines), CpuSum(q, machines) % Max32, MemSum(q, machines) % Max64)
  {
    if machines != [] {
      var front, m := machines[..|machines| - 1], machines[|machines| - 1];
      SeedIsSum(q, front);
      ModAdd(CpuSum(q, front), m.cpu, Max32);
      ModAdd(MemSum(q, front), m.mem, Max64);
    }
  }

  lemma {:induction false} SumReplaced(q: QuotaSpec, machines: seq<Machine>, i: nat, now: Machine)
    requires i < |machines| && machines[i].ns == q.ns == now.ns && Counts(machines[i]) && Counts(now)
    ensures CpuSum(q, machines[i := now]) == CpuSum(q, machines) - machines[i].cpu + now.cpu
    ensures MemSum(q, machines[i := now]) == MemSum(q, machines) - machines[i].mem + now.mem
  {
    var front := machines[..|machines| - 1];
    if i == |machines| - 1 {
      assert machines[i := now][..|machines| - 1] == front;
    } else {
      SumReplaced(q, front, i, now);
      assert machines[i := now][..|machines| - 1] == front[i := now];
    }
  }

  // ------------------------------------------------------------------ theorems

  lemma {:induction false} ReplaceTotals(q: QuotaSpec, machines: seq<Machine>, i: nat, now: Machine)
    requires i < |machines| && machines[i].ns == q.ns == now.ns && Counts(machines[i]) && Counts(now)
    ensures var was, before, after := machines[i], Seed(q, machines), Seed(q, machines[i := now]);
            && Add32(Sub32(before.cpu, was.cpu), now.cpu) == after.cpu
            && Add64(Sub64(before.mem, was.mem), now.mem) == after.mem
  {
    var was := machines[i];
    SeedIsSum(q, machines);
    SeedIsSum(q, machines[i := now]);
    SumReplaced(q, machines, i, now);
    ModReplace(CpuSum(q, machines), was.cpu, now.cpu, Max32);
    ModReplace(MemSum(q, machines), was.mem, now.mem, Max64);
  }

  predicate OverLimit(q: QuotaSpec, u: Used) { Exceeds(q.maxCpu, u.cpu) || Exceeds(q.maxMem, u.mem) }

  predicate NoneOver(qs: seq<QuotaSpec>, us: seq<Used>, ns: nat)
    requires |us| == |qs|
  {
    forall k :: 0 <= k < |qs| && qs[k].ns == ns ==> !OverLimit(qs[k], us[k])
  }

  /** The incremental resize check is the check of trackers rebuilt with the Machine
      replaced, wrap-around included. */
  lemma {:induction false} ResizeIsRebuild(qs: seq<QuotaSpec>, machines: seq<Machine>, i: nat, now: Machine)
    requires i < |machines| && machines[i].ns == now.ns && Counts(machines[i]) && Counts(now)
    ensures var was := machines[i];
            ResizeAllowed(qs, SeedAll(qs, machines), now.ns, was.cpu, now.cpu, was.mem, now.mem)
            <==> NoneOver(qs, SeedAll(qs, machines[i := now]), now.ns)
  {
    var was := machines[i];
    forall k | 0 <= k < |qs| && qs[k].ns == now.ns
      ensures BlocksResize(qs[k], SeedAll(qs, machines)[k], was.cpu, now.cpu, was.mem, now.mem)
         <==> OverLimit(qs[k], SeedAll(qs, machines[i := now])[k])
    {
      ReplaceTotals(qs[k], machines, i, now);
    }
  }

  lemma {:induction false} SubAdd32(a: U32, t: U32)
    ensures Add32(Sub32(a, t), t) == a
  {
    ModAdd(a - t, t, Max32);
  }

  lemma {:induction false} SubAdd64(a: U64, t: U64)
    ensures Add64(Sub64(a, t), t) == a
  {
    ModAdd(a - t, t, Max64);
  }

  /** The agent's (target, target) question asks about the totals themselves, whatever the
      target is. */
  lemma {:induction false} TargetCancels(qs: seq<QuotaSpec>, us: seq<Used>, ns: nat, cpu: U32, mem: U64)
    requires |us| == |qs|
    ensures ResizeAllowed(qs, us, ns, cpu, cpu, mem, mem) <==> NoneOver(qs, us, ns)
  {
    forall k | 0 <= k < |qs| && qs[k].ns == ns
      ensures BlocksResize(qs[k], us[k], cpu, cpu, mem, mem) <==> OverLimit(qs[k], us[k])
    {
      SubAdd32(us[k].cpu, cpu);
      SubAdd64(us[k].mem, mem);
    }
  }

  predicate OnlyResources(was: Machine, now: Machine) { now.(cpu := was.cpu, mem := was.mem) == was }

  /** On a resize that grows something, the agent blocks after the update exactly what the
      webhook would have denied before it, if and only if every quota parses or the Machine
      does not count: over a quota that does not parse the webhook denies and the agent
      does not look. */
  lemma {:induction false} AgentAgreesWithWebhook(qs: seq<QuotaSpec>, machines: seq<Machine>, i: nat, now: Machine,
                                                  cpu: U32, mem: U64)
    requires i < |machines| && OnlyResources(machines[i], now)
    requires now.cpu > machines[i].cpu || now.mem > machines[i].mem
    ensures (AgentBlocks(qs, machines[i := now], now, cpu, mem) <==> !WebhookAllows(qs, machines, machines[i], now))
       <==> AllWellFormed(qs) || !Counts(now)
  {
    if Counts(now) {
      ResizeIsRebuild(qs, machines, i, now);
      TargetCancels(qs, SeedAll(qs, machines[i := now]), now.ns, cpu, mem);
    }
  }

  /** The resize check alone denies a shrink exactly when usage stays over a limit after
      it; the webhook lets every shrink through before asking. */
  lemma {:induction false} ShrinkStillDenied(qs: seq<QuotaSpec>, machines: seq<Machine>, i: nat, now: Machine)
    requires i < |machines| && OnlyResources(machines[i], now) && Counts(now)
    requires now.cpu <= machines[i].cpu && now.mem <= machines[i].mem
    ensures var was := machines[i];
            && WebhookAllows(qs, machines, was, now)
            && (ResizeAllowed(qs, SeedAll(qs, machines), now.ns, was.cpu, now.cpu, was.mem, now.mem)
                <==> NoneOver(qs, SeedAll(qs, machines[i := now]), now.ns))
  {
    ResizeIsRebuild(qs, machines, i, now);
  }

  /** One scheduled Machine of two cores, a quota lowered to zero: shrinking it to one core
      is still denied by the resize check. */
  lemma {:induction false} ShrinkDeniedExample()
    ensures var q := QuotaSpec(1, None, Max(0), NoLimit);
            var m := Machine(1, 1, PowerOn, false, 2, 0);
            !ResizeAllowed([q], SeedAll([q], [m]), 1, 2, 1, 0, 0)
  {
    var q := QuotaSpec(1, None, Max(0), NoLimit);
    var m := Machine(1, 1, PowerOn, false, 2, 0);
    assert [m][..0] == [];
    assert Seed(q, [m]) == Used(1, 2, 0);
    assert BlocksResize(q, SeedAll([q], [m])[0], 2, 1, 0, 0);
    assert [q][0].ns == 1;
  }

  // ---------------------------------------------------------- scheduling pass

  /** The pass: each pending Machine is admitted and charged, or refused. */
  function Schedule(qs: seq<QuotaSpec>, us: seq<Used>, pending: seq<Machine>): (r: seq<Used>)
    requires |us| == |qs|
    ensures |r| == |us|
    decreases |pending|
  {
    if pending == [] then us
    else AdmitNew(qs, Schedule(qs, us, pending[..|pending| - 1]), pending[|pending| - 1])
  }

  /** The admitted ones, as the Machines they become once assigned. */
  function Admitted(qs: seq<QuotaSpec>, us: seq<Used>, pending: seq<Machine>): (r: seq<Machine>)
    requires |us| == |qs|
    decreases |pending|
  {
    if pending == [] then []
    else
      var front, m := pending[..|pending| - 1], pending[|pending| - 1];
      Admitted(qs, us, front) + if Admits(qs, Schedule(qs, us, front), m) then [m.(node := 1)] else []
  }

  /** Pending Machines are those waiting to be scheduled and meant to run. */
  predicate Pending(m: Machine) { !m.deleting && m.power == PowerOn }

  lemma {:induction false} SeedConcat(q: QuotaSpec, machines: seq<Machine>, m: Machine)
    ensures Seed(q, machines + [m]) ==
                if Counts(m) && m.ns == q.ns then Charge(Seed(q, machines), m) else Seed(q, machines)
  {
    assert (machines + [m])[..|machines|] == machines;
  }

  /** After the pass every tracker reads what a rebuild from the list with the admitted
      Machines assigned would read: the seed plus the admitted footprints. */
  lemma {:induction false} PassIsRebuild(qs: seq<QuotaSpec>, machines: seq<Machine>, pending: seq<Machine>)
    requires forall m :: m in pending ==> Pending(m)
    ensures var us := SeedAll(qs, machines);
            Schedule(qs, us, pending) == SeedAll(qs, machines + Admitted(qs, us, pending))
    decreases |pending|
  {
    var us := SeedAll(qs, machines);
    if pending == [] {
      assert machines + [] == machines;
    } else {
      var front, m := pending[..|pending| - 1], pending[|pending| - 1];
      assert m in pending;
      PassIsRebuild(qs, machines, front);
      var got := Admitted(qs, us, front);
      if Admits(qs, Schedule(qs, us, front), m) {
        assert machines + (got + [m.(node := 1)]) == (machines + got) + [m.(node := 1)];
        forall k | 0 <= k < |qs|
          ensures Schedule(qs, us, pending)[k] == Seed(qs[k], machines + Admitted(qs, us, pending))
        {
          SeedConcat(qs[k], machines + got, m.(node := 1));
          assert Schedule(qs, us, pending) == Spend(qs, Schedule(qs, us, front), m);
          assert Counts(m.(node := 1));
        }
      } else {
        assert got + [] == got;
      }
    }
  }

  // ------------------------------------------------------- admitted or assigned

  /** The admitted ones that are also given a node: `pinned[k]` says that pending Machine k
      gets its CPU set, if it asks for one, and that its patch lands. */
  function Assigned(qs: seq<QuotaSpec>, us: seq<Used>, pending: seq<Machine>, pinned: seq<bool>): (r: seq<Machine>)
    requires |us| == |qs| && |pinned| == |pending|
    decreases |pending|
  {
    if pending == [] then []
    else
      var front, m := pending[..|pending| - 1], pending[|pending| - 1];
      Assigned(qs, us, front, pinned[..|front|])
        + if Admits(qs, Schedule(qs, us, front), m) && pinned[|front|] then [m.(node := 1)] else []
  }

  /** Some Machine of the namespace was admitted, and charged, but not assigned. */
  predicate ChargedInVain(qs: seq<QuotaSpec>, us: seq<Used>, pending: seq<Machine>, pinned: seq<bool>, ns: nat)
    requires |us| == |qs| && |pinned| == |pending|
    decreases |pending|
  {
    && pending != []
    && var front, m := pending[..|pending| - 1], pending[|pending| - 1];
       || ChargedInVain(qs, us, front, pinned[..|front|], ns)
       || (Admits(qs, Schedule(qs, us, front), m) && !pinned[|front|] && m.ns == ns)
  }

  /** What the assigned Machines and the list before them come to, against the admitted. */
  predicate Matches(q: QuotaSpec, all: seq<Machine>, given: seq<Machine>, vain: bool) {
    && Number(q, given) <= Number(q, all)
    && (vain ==> Number(q, given) < Number(q, all))
    && (!vain ==> Seed(q, given) == Seed(q, all) && Number(q, given) == Number(q, all))
  }

  lemma {:induction false} MatchesOn(q: QuotaSpec, all: seq<Machine>, given: seq<Machine>, vain: bool,
                                     m: Machine, kept: bool)
    requires Matches(q, all, given, vain) && Counts(m)
    ensures Matches(q, all + [m], if kept then given + [m] else given, vain || (!kept && m.ns == q.ns))
  {
    SumConcat(q, all, m);
    SumConcat(q, given, m);
    SeedConcat(q, all, m);
    SeedConcat(q, given, m);
  }

  lemma {:induction false} PassSnoc(qs: seq<QuotaSpec>, us: seq<Used>, pending: seq<Machine>, pinned: seq<bool>,
                                    machines: seq<Machine>, ns: nat)
    requires |us| == |qs| && |pinned| == |pending| && pending != []
    ensures var front, m := pending[..|pending| - 1], pending[|pending| - 1];
            var ok, pin, m' := Admits(qs, Schedule(qs, us, front), m), pinned[|front|], m.(node := 1);
            var all, given := machines + Admitted(qs, us, front), machines + Assigned(qs, us, front, pinned[..|front|]);
            && machines + Admitted(qs, us, pending) == (if ok then all + [m'] else all)
            && machines + Assigned(qs, us, pending, pinned) == (if ok && pin then given + [m'] else given)
            && (ChargedInVain(qs, us, pending, pinned, ns)
                <==> ChargedInVain(qs, us, front, pinned[..|front|], ns) || (ok && !pin && m.ns == ns))
  {
    var front, m := pending[..|pending| - 1], pending[|pending| - 1];
    var a, b := Admitted(qs, us, front), Assigned(qs, us, front, pinned[..|front|]);
    Regroup(machines, a, m.(node := 1));
    Regroup(machines, b, m.(node := 1));
  }

  lemma {:induction false} Regroup(a: seq<Machine>, b: seq<Machine>, m: Machine)
    ensures a + (b + [m]) == (a + b) + [m] && b + [] == b
  {
  }

  lemma {:induction false} AssignedMatches(qs: seq<QuotaSpec>, machines: seq<Machine>, pending: seq<Machine>,
                                           pinned: seq<bool>, k: nat)
    requires |pinned| == |pending| && k < |qs| && forall m :: m in pending ==> Pending(m)
    ensures var us := SeedAll(qs, machines);
            Matches(qs[k], machines + Admitted(qs, us, pending), machines + Assigned(qs, us, pending, pinned),
                    ChargedInVain(qs, us, pending, pinned, qs[k].ns))
    decreases |pending|
  {
    var us := SeedAll(qs, machines);
    if pending != [] {
      var front, m := pending[..|pending| - 1], pending[|pending| - 1];
      var pins, ns := pinned[..|front|], qs[k].ns;
      assert m in pending;
      AssignedMatches(qs, machines, front, pins, k);
      PassSnoc(qs, us, pending, pinned, machines, ns);
      if Admits(qs, Schedule(qs, us, front), m) {
        MatchesOn(qs[k], machines + Admitted(qs, us, front), machines + Assigned(qs, us, front, pins),
                  ChargedInVain(qs, us, front, pins, ns), m.(node := 1), pinned[|front|]);
      }
    }
  }

  /** After the pass a tracker reads what a rebuild from the list with the assigned Machines
      would read if and only if no Machine of its namespace was charged and then refused a
      CPU set. */
  lemma {:induction false} PassIsRebuildIff(qs: seq<QuotaSpec>, machines: seq<Machine>, pending: seq<Machine>,
                                            pinned: seq<bool>, k: nat)
    requires |pinned| == |pending| && k < |qs| && forall m :: m in pending ==> Pending(m)
    ensures var us := SeedAll(qs, machines);
            Schedule(qs, us, pending)[k] == Seed(qs[k], machines + Assigned(qs, us, pending, pinned))
            <==> !ChargedInVain(qs, us, pending, pinned, qs[k].ns)
  {
    var us := SeedAll(qs, machines);
    PassIsRebuild(qs, machines, pending);
    AssignedMatches(qs, machines, pending, pinned, k);
    SeedIsSum(qs[k], machines + Admitted(qs, us, pending));
    SeedIsSum(qs[k], machines + Assigned(qs, us, pending, pinned));
  }

  /** A quota of one Machine and two that wait: the first is charged and refused its CPU set,
      so the second is refused too and none is assigned. */
  lemma {:induction false} RefusedPinStaysCharged()
    ensures var q := QuotaSpec(1, Some(1), NoLimit, NoLimit);
            var m := Machine(1, 0, PowerOn, false, 1, 1);
            Assigned([q], SeedAll([q], []), [m, m], [false, true]) == []
            && Assigned([q], SeedAll([q], []), [m], [true]) == [m.(node := 1)]
  {
    var q, m := QuotaSpec(1, Some(1), NoLimit, NoLimit), Machine(1, 0, PowerOn, false, 1, 1);
    var us := SeedAll([q], []);
    assert [m, m][..1] == [m] && [m][..0] == [] && [false, true][..1] == [false];
    assert us == [Used(0, 0, 0)];
    assert Admits([q], us, m) by { assert !BlocksNew(q, us[0], m); }
    assert Schedule([q], us, [m]) == AdmitNew([q], us, m) == [Used(1, 1, 1)];
    assert [false][..0] == [] && Assigned([q], us, [m], [false]) == [];
    assert !Admits([q], [Used(1, 1, 1)], m) by { assert BlocksNew([q][0], [Used(1, 1, 1)][0], m); }
  }

  // -------------------------------------------------------------- within limits

  predicate Within(q: QuotaSpec, machines: seq<Machine>) {
    && (q.maxMachines.Some? ==> Number(q, machines) <= q.maxMachines.value)
    && !Exceeds(q.maxCpu, CpuSum(q, machines))
    && !Exceeds(q.maxMem, MemSum(q, machines))
  }

  /** A limit that parses fits the word it is compared in. */
  predicate FitsWord(q: QuotaSpec) {
    (q.maxCpu.Max? ==> q.maxCpu.n < Max32) && (q.maxMem.Max? ==> q.maxMem.n < Max64)
  }

  /** No total that a limit bounds is past its word. */
  predicate Unwrapped(q: QuotaSpec, machines: seq<Machine>) {
    && (q.maxCpu.Max? ==> CpuSum(q, machines) < Max32)
    && (q.maxMem.Max? ==> MemSum(q, machines) < Max64)
  }

  lemma {:induction false} SumConcat(q: QuotaSpec, machines: seq<Machine>, m: Machine)
    ensures CpuSum(q, machines + [m]) == CpuSum(q, machines) + if Counts(m) && m.ns == q.ns then m.cpu else 0
    ensures MemSum(q, machines + [m]) == MemSum(q, machines) + if Counts(m) && m.ns == q.ns then m.mem else 0
    ensures Number(q, machines + [m]) == Number(q, machines) + if Counts(m) && m.ns == q.ns then 1 else 0
  {
    assert (machines + [m])[..|machines|] == machines;
  }

  lemma {:induction false} SmallMod(x: nat, m: nat)
    requires x < m
    ensures x % m == x
  {
    DivUnique(x, 0, x, m);
  }

  /** An admission leaves a quota that was within its limits within them if and only if no
      total that is limited passes its word. */
  lemma {:induction false} AdmissionStaysWithin(qs: seq<QuotaSpec>, machines: seq<Machine>, m: Machine, k: nat)
    requires Pending(m) && k < |qs| && Admits(qs, SeedAll(qs, machines), m)
    requires FitsWord(qs[k]) && Within(qs[k], machines)
    ensures Within(qs[k], machines + [m.(node := 1)]) <==> Unwrapped(qs[k], machines + [m.(node := 1)])
  {
    var q := qs[k];
    SeedIsSum(q, machines);
    SumConcat(q, machines, m.(node := 1));
    if q.ns == m.ns && Unwrapped(q, machines + [m.(node := 1)]) {
      assert !BlocksNew(q, SeedAll(qs, machines)[k], m);
      if q.maxCpu.Max? {
        SmallMod(CpuSum(q, machines), Max32);
        SmallMod(CpuSum(q, machines) + m.cpu, Max32);
      }
      if q.maxMem.Max? {
        SmallMod(MemSum(q, machines), Max64);
        SmallMod(MemSum(q, machines) + m.mem, Max64);
      }
    }
  }

  /** Over a whole pass a quota that starts within its limits ends within them if and only if
      no total that is limited passes its word. */
  lemma {:induction false} PassStaysWithin(qs: seq<QuotaSpec>, machines: seq<Machine>, pending: seq<Machine>, k: nat)
    requires (forall m :: m in pending ==> Pending(m)) && k < |qs| && FitsWord(qs[k]) && Within(qs[k], machines)
    ensures var all := machines + Admitted(qs, SeedAll(qs, machines), pending);
            Within(qs[k], all) <==> Unwrapped(qs[k], all)
    decreases |pending|
  {
    var us := SeedAll(qs, machines);
    if pending == [] {
      assert machines + [] == machines;
    } else {
      var front, m := pending[..|pending| - 1], pending[|pending| - 1];
      assert m in pending;
      PassStaysWithin(qs, machines, front, k);
      PassIsRebuild(qs, machines, front);
      var got := Admitted(qs, us, front);
      if Admits(qs, Schedule(qs, us, front), m) {
        assert machines + (got + [m.(node := 1)]) == (machines + got) + [m.(node := 1)];
        SumConcat(qs[k], machines + got, m.(node := 1));
        if Within(qs[k], machines + got) { AdmissionStaysWithin(qs, machines + got, m, k); }
      } else {
        assert got + [] == got;
      }
    }
  }

  /** Without that proviso the check can be passed by wrapping: a quota of all but one of
      the 32-bit range admits one core too many. */
  lemma {:induction false} OverflowAdmits()
    ensures var q := QuotaSpec(1, None, Max(Max32 - 1), NoLimit);
            var m := Machine(1, 1, PowerOn, false, Max32 - 1, 0);
            var n := Machine(1, 0, PowerOn, false, 1, 0);
            Within(q, [m]) && Admits([q], SeedAll([q], [m]), n) && !Within(q, [m, n.(node := 1)])
  {
    var q := QuotaSpec(1, None, Max(Max32 - 1), NoLimit);
    var m := Machine(1, 1, PowerOn, false, Max32 - 1, 0);
    var n := Machine(1, 0, PowerOn, false, 1, 0);
    assert [m][..0] == [];
    assert CpuSum(q, [m]) == Max32 - 1 && MemSum(q, [m]) == 0;
    assert Seed(q, [m]) == Used(1, Max32 - 1, 0);
    assert [m] + [n.(node := 1)] == [m, n.(node := 1)];
    SumConcat(q, [m], n.(node := 1));
  }
}
