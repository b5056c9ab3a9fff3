/** The budget states as they are loaded and spent in place. */
module DisruptionControllers {

  import opened Options
  import opened Disruption

  datatype BudgetState = BudgetState(total: nat, healthy: nat, desired: int, allowed: int)

  method CountBudget(b: Budget, machines: seq<Machine>) returns (total: nat, healthy: nat)
    ensures total == Total(b, machines) && healthy == HealthyCount(b, machines)
  {
    total, healthy := 0, 0;
    for i := 0 to |machines|
      invariant total == Total(b, machines[..i]) && healthy == HealthyCount(b, machines[..i])
    {
      var m := machines[i];
      assert machines[..i + 1][..|machines[..i + 1]| - 1] == machines[..i];
      if !Matches(b, m) { continue; }
      total := total + 1;
      if m.running && !m.inFlight { healthy := healthy + 1; }
    }
    assert machines[..|machines|] == machines;
  }

  /** LoadBudgetStates, up to the first budget whose spec does not parse. */
  method LoadBudgetStates(budgets: seq<Budget>, machines: seq<Machine>) returns (ok: bool, states: seq<BudgetState>)
    ensures ok <==> forall k :: 0 <= k < |budgets| ==> Allowance(budgets[k], machines).Some?
    ensures ok ==> |states| == |budgets|
    ensures ok ==> forall k :: 0 <= k < |budgets| ==>
              && states[k].total == Total(budgets[k], machines)
              && states[k].healthy == HealthyCount(budgets[k], machines)
              && Some(states[k].desired) == budgets[k].want(states[k].total)
              && Some(states[k].allowed) == Allowance(budgets[k], machines)
  {
    states := [];
    for k := 0 to |budgets|
      invariant |states| == k
      invariant forall j :: 0 <= j < k ==>
                  && states[j].total == Total(budgets[j], machines)
                  && states[j].healthy == HealthyCount(budgets[j], machines)
                  && Some(states[j].desired) == budgets[j].want(states[j].total)
                  && Some(states[j].allowed) == Allowance(budgets[j], machines)
    {
      var total, healthy := CountBudget(budgets[k], machines);
      var desired := budgets[k].want(total);
      if desired.None? { return false, states; }
      var allowed := healthy - desired.value;
      if allowed < 0 { allowed := 0; }
      states := states + [BudgetState(total, healthy, desired.value, allowed)];
    }
    ok := true;
  }

  /** AdmitDisruption. */
  method AdmitDisruption(bs: seq<Budget>, allowed: array<int>, m: Machine) returns (blocked: bool)
    requires allowed.Length == |bs|
    modifies allowed
    ensures blocked == !MayDisrupt(bs, old(allowed[..]), m)
    ensures allowed[..] == Disrupt(bs, old(allowed[..]), m)
  {
    ghost var before := allowed[..];
    for k := 0 to |bs|
      invariant allowed[..] == before
      invariant forall j :: 0 <= j < k && Matches(bs[j], m) ==> before[j] > 0
    {
      if Matches(bs[k], m) && allowed[k] <= 0 { return true; }
    }
    for k := 0 to |bs|
      invariant forall j :: 0 <= j < k ==> allowed[j] == SpendOne(bs, before, m)[j]
      invariant forall j :: k <= j < |bs| ==> allowed[j] == before[j]
    {
      if Matches(bs[k], m) { allowed[k] := allowed[k] - 1; }
    }
    blocked := false;
  }

  method CountMatched(b: Budget, targets: seq<Machine>) returns (matched: nat)
    ensures matched == Matched(b, targets)
  {
    matched := 0;
    for i := 0 to |targets|
      invariant matched == Matched(b, targets[..i])
    {
      assert targets[..i + 1][..|targets[..i + 1]| - 1] == targets[..i];
      if targets[i].ns == b.ns && Matches(b, targets[i]) { matched := matched + 1; }
    }
    assert targets[..|targets|] == targets;
  }

  /** AdmitScaleDown: checks every budget first, then reserves from every budget. */
  method AdmitScaleDown(bs: seq<Budget>, allowed: array<int>, targets: seq<Machine>, count: int) returns (blocked: bool)
    requires allowed.Length == |bs|
    modifies allowed
    ensures blocked == !MayScaleDown(bs, old(allowed[..]), targets, count)
    ensures allowed[..] == ScaleDown(bs, old(allowed[..]), targets, count)
  {
    ghost var before := allowed[..];
    for k := 0 to |bs|
      invariant allowed[..] == before
      invariant forall j :: 0 <= j < k ==> before[j] >= Reserve(bs[j], targets, count)
    {
      var matched := CountMatched(bs[k], targets);
      var spend := count;
      if spend > matched { spend := matched; }
      if allowed[k] < spend { return true; }
    }
    for k := 0 to |bs|
      invariant forall j :: 0 <= j < k ==> allowed[j] == SpendAll(bs, before, targets, count)[j]
      invariant forall j :: k <= j < |bs| ==> allowed[j] == before[j]
    {
      var matched := CountMatched(bs[k], targets);
      var spend := count;
      if spend > matched { spend := matched; }
      allowed[k] := allowed[k] - spend;
    }
    blocked := false;
  }
}
