/** The quota trackers as they are seeded and spent in place. */
module QuotaControllers {

  import opened Options
  import opened Quota

  /** BuildQuotaTrackers: one usage record per quota, or an error for a bad limit. */
  method BuildQuotaTrackers(qs: seq<QuotaSpec>, machines: seq<Machine>) returns (ok: bool, used: array<Used>)
    ensures fresh(used) && used.Length == |qs|
    ensures ok == AllWellFormed(qs)
    ensures used[..] == SeedAll(qs, machines)
  {
    used := new Used[|qs|](k => Used(0, 0, 0));
    for i := 0 to |machines|
      invariant used[..] == SeedAll(qs, machines[..i])
    {
      var m := machines[i];
      assert machines[..i + 1][..|machines[..i + 1]| - 1] == machines[..i];
      if !Counts(m) {
        assert SeedAll(qs, machines[..i + 1]) == SeedAll(qs, machines[..i]);
        continue;
      }
      ghost var before := used[..];
      for k := 0 to |qs|
        invariant forall j :: 0 <= j < k ==> used[j] == Seed(qs[j], machines[..i + 1])
        invariant forall j :: k <= j < |qs| ==> used[j] == before[j]
      {
        if qs[k].ns == m.ns {
          used[k] := Used(used[k].machines + 1, Add32(used[k].cpu, m.cpu), Add64(used[k].mem, m.mem));
        }
      }
    }
    assert machines[..|machines|] == machines;
    for k := 0 to |qs|
      invariant forall j :: 0 <= j < k ==> WellFormed(qs[j])
      invariant used[..] == SeedAll(qs, machines)
    {
      if qs[k].maxCpu.Malformed? || qs[k].maxMem.Malformed? { return false, used; }
    }
    ok := true;
  }

  /** admitQuota: spends every tracker of the namespace, or none. */
  method AdmitQuota(qs: seq<QuotaSpec>, used: array<Used>, m: Machine) returns (blocked: bool)
    requires used.Length == |qs|
    modifies used
    ensures blocked == !Admits(qs, old(used[..]), m)
    ensures used[..] == AdmitNew(qs, old(used[..]), m)
  {
    ghost var before := used[..];
    for k := 0 to |qs|
      invariant used[..] == before
      invariant forall j :: 0 <= j < k && qs[j].ns == m.ns ==> !BlocksNew(qs[j], before[j], m)
    {
      if qs[k].ns != m.ns { continue; }
      var q, u := qs[k], used[k];
      if q.maxMachines.Some? && u.machines + 1 > q.maxMachines.value { return true; }
      if q.maxCpu.Max? && Add32(u.cpu, m.cpu) > q.maxCpu.n { return true; }
      if q.maxMem.Max? && Add64(u.mem, m.mem) > q.maxMem.n { return true; }
    }
    for k := 0 to |qs|
      invariant forall j :: 0 <= j < k ==> used[j] == Spend(qs, before, m)[j]
      invariant forall j :: k <= j < |qs| ==> used[j] == before[j]
    {
      if qs[k].ns == m.ns {
        used[k] := Used(used[k].machines + 1, Add32(used[k].cpu, m.cpu), Add64(used[k].mem, m.mem));
      }
    }
    blocked := false;
  }

  /** AdmitQuotaResize, which changes nothing. */
  method AdmitQuotaResize(qs: seq<QuotaSpec>, us: seq<Used>, ns: nat, oldCpu: U32, newCpu: U32, oldMem: U64,
                          newMem: U64)
    returns (blocked: bool)
    requires |us| == |qs|
    ensures blocked == !ResizeAllowed(qs, us, ns, oldCpu, newCpu, oldMem, newMem)
  {
    for k := 0 to |qs|
      invariant forall j :: 0 <= j < k && qs[j].ns == ns ==> !BlocksResize(qs[j], us[j], oldCpu, newCpu, oldMem, newMem)
    {
      if qs[k].ns != ns { continue; }
      if qs[k].maxCpu.Max? && Add32(Sub32(us[k].cpu, oldCpu), newCpu) > qs[k].maxCpu.n { return true; }
      if qs[k].maxMem.Max? && Add64(Sub64(us[k].mem, oldMem), newMem) > qs[k].maxMem.n { return true; }
    }
    blocked := false;
  }
}
