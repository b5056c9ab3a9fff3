/** What every budget keeps, whoever is disrupted. */
module DisruptionLaws {

  import opened Options
  import opened Disruption

  // --------------------------------------------------------------- what is lost

  lemma {:induction false} LeftNone(b: Budget, ms: seq<Machine>)
    ensures Left(b, ms, {}) == HealthyCount(b, ms)
  {
    if ms != [] { LeftNone(b, ms[..|ms| - 1]); }
  }

  /** One more Machine gone costs at most itself. */
  lemma {:induction false} LeftOneMore(b: Budget, ms: seq<Machine>, gone: set<nat>, i: nat)
    ensures Left(b, ms, gone + {i}) + (if i < |ms| then Bit(Guards(b, ms[i])) else 0) >= Left(b, ms, gone)
  {
    if ms != [] { LeftOneMore(b, ms[..|ms| - 1], gone, i); }
  }

  // ----------------------------------------------------------------- invariant

  lemma {:induction false} HealthySnoc(b: Budget, xs: seq<Machine>, m: Machine)
    ensures HealthyCount(b, xs + [m]) == HealthyCount(b, xs) + Bit(Guards(b, m))
  {
    assert (xs + [m])[..|xs|] == xs;
  }

  lemma {:induction false} PickSnoc(ms: seq<Machine>, names: seq<nat>, n: nat)
    requires Known(ms, names) && n < |ms|
    ensures Pick(ms, names + [n]) == Pick(ms, names) + [ms[n]]
  {
  }

  lemma {:induction false} ConfinedMatched(b: Budget, ms: seq<Machine>, targets: seq<nat>)
    requires Known(ms, targets) && Confined(b, ms)
    ensures HealthyCount(b, Pick(ms, targets)) <= Matched(b, Pick(ms, targets))
  {
    if targets != [] {
      var front := targets[..|targets| - 1];
      ConfinedMatched(b, ms, front);
      assert Pick(ms, targets)[..|front|] == Pick(ms, front);
    }
  }

  lemma {:induction false} VictimsLoss(b: Budget, ms: seq<Machine>, targets: seq<nat>, pick: seq<bool>)
    requires Known(ms, targets) && |pick| == |targets|
    ensures Known(ms, Victims(targets, pick))
    ensures Loss(b, Pick(ms, Victims(targets, pick))) <= |Victims(targets, pick)|
    ensures Loss(b, Pick(ms, Victims(targets, pick))) <= HealthyCount(b, Pick(ms, targets))
  {
    if targets != [] {
      var front, last := targets[..|targets| - 1], targets[|targets| - 1];
      var chosen := Victims(front, pick[..|pick| - 1]);
      VictimsLoss(b, ms, front, pick[..|pick| - 1]);
      assert targets == front + [last];
      PickSnoc(ms, front, last);
      PickSnoc(ms, chosen, last);
      HealthySnoc(b, Pick(ms, front), ms[last]);
      HealthySnoc(b, Pick(ms, chosen), ms[last]);
      assert chosen + [] == chosen;
    }
  }

  lemma {:induction false} LeftManyMore(b: Budget, ms: seq<Machine>, gone: set<nat>, names: seq<nat>)
    requires Known(ms, names)
    ensures Left(b, ms, GoneWith(gone, names)) + Loss(b, Pick(ms, names)) >= Left(b, ms, gone)
    decreases |names|
  {
    if names == [] {
      assert GoneWith(gone, names) == gone;
    } else {
      var front, last := names[..|names| - 1], names[|names| - 1];
      LeftManyMore(b, ms, gone, front);
      LeftOneMore(b, ms, GoneWith(gone, front), last);
      assert GoneWith(gone, names) == GoneWith(gone, front) + {last} by {
        assert names == front + [last];
      }
      assert Pick(ms, names)[..|front|] == Pick(ms, front);
    }
  }

  lemma {:induction false} ApplyCovers(bs: seq<Budget>, ms: seq<Machine>, p: Pass, op: Op, k: nat, start: int)
    requires |p.allowed| == |bs| && ProperOp(ms, op) && k < |bs|
    requires Covered(bs[k], ms, start, p.allowed[k], p.gone)
    requires op.Several? ==> Confined(bs[k], ms)
    ensures var r := Apply(bs, ms, p, op); Covered(bs[k], ms, start, r.allowed[k], r.gone)
  {
    var b := bs[k];
    match op
    case One(i) =>
      if MayDisrupt(bs, p.allowed, ms[i]) { LeftOneMore(b, ms, p.gone, i); }
    case Several(targets, count, pick) =>
      if MayScaleDown(bs, p.allowed, Pick(ms, targets), count) {
        VictimsLoss(b, ms, targets, pick);
        ConfinedMatched(b, ms, targets);
        LeftManyMore(b, ms, p.gone, Victims(targets, pick));
      }
  }

  lemma {:induction false} RunCovers(bs: seq<Budget>, ms: seq<Machine>, start: seq<int>, ops: seq<Op>, k: nat)
    requires |start| == |bs| && ProperRun(ms, ops) && k < |bs| && start[k] >= 0
    requires (exists op :: op in ops && op.Several?) ==> Confined(bs[k], ms)
    ensures var r := Run(bs, ms, start, ops); Covered(bs[k], ms, start[k], r.allowed[k], r.gone)
  {
    if ops == [] {
      LeftNone(bs[k], ms);
    } else {
      var front, last := ops[..|ops| - 1], ops[|ops| - 1];
      assert last in ops;
      assert forall op :: op in front ==> op in ops;
      RunCovers(bs, ms, start, front, k);
      ApplyCovers(bs, ms, Run(bs, ms, start, front), last, k, start[k]);
    }
  }

  // ------------------------------------------------------------------ theorems

  /** After any mix of admitted disruptions and scale-downs, and whichever victims the
      scale-downs then pick, every budget keeps at least the smaller of its healthy and its
      desired count. Scale-downs ask that what the budget selects lives in its namespace. */
  lemma {:induction false} BudgetsHold(bs: seq<Budget>, ms: seq<Machine>, start: seq<int>, ops: seq<Op>, k: nat)
    requires |start| == |bs| && ProperRun(ms, ops) && k < |bs|
    requires Allowance(bs[k], ms).Some? && start[k] == Allowance(bs[k], ms).value
    requires (exists op :: op in ops && op.Several?) ==> Confined(bs[k], ms)
    ensures Left(bs[k], ms, Run(bs, ms, start, ops).gone)
         >= Least(HealthyCount(bs[k], ms), bs[k].want(Total(bs[k], ms)).value)
  {
    RunCovers(bs, ms, start, ops, k);
  }

  /** Spending is all or nothing: one matching budget without allowance leaves every
      allowance as it was, otherwise exactly one is taken from every budget that matches and
      none from the others. */
  lemma {:induction false} AllOrNothing(bs: seq<Budget>, allowed: seq<int>, m: Machine, k: nat)
    requires |allowed| == |bs| && k < |bs|
    ensures if exists j :: 0 <= j < |bs| && Matches(bs[j], m) && allowed[j] <= 0
            then Disrupt(bs, allowed, m) == allowed
            else Disrupt(bs, allowed, m)[k] == allowed[k] - Bit(Matches(bs[k], m))
    ensures MayDisrupt(bs, allowed, m) ==> Disrupt(bs, allowed, m)[k] == allowed[k] - Bit(Matches(bs[k], m))
    ensures !MayDisrupt(bs, allowed, m) ==> Disrupt(bs, allowed, m) == allowed
  {
    if !MayDisrupt(bs, allowed, m) {
      var j :| 0 <= j < |bs| && Matches(bs[j], m) && allowed[j] <= 0;
    }
  }

  /** Over any run every allowance is accounted for and none is overdrawn. */
  lemma {:induction false} AllowanceConserved(bs: seq<Budget>, ms: seq<Machine>, start: seq<int>, ops: seq<Op>, k: nat)
    requires |start| == |bs| && ProperRun(ms, ops) && k < |bs| && start[k] >= 0
    ensures var left := Run(bs, ms, start, ops).allowed[k];
            0 <= left == start[k] - Taken(bs, ms, start, ops, k)
  {
    if ops != [] { AllowanceConserved(bs, ms, start, ops[..|ops| - 1], k); }
  }

  // ----------------------------------------------------- what a reserve covers

  lemma {:induction false} GreedyTakes(b: Budget, ms: seq<Machine>, targets: seq<nat>, count: nat)
    requires Known(ms, targets)
    ensures var v := Victims(targets, Greedy(b, ms, targets, count));
            && Known(ms, v)
            && |v| == Least(count, HealthyCount(b, Pick(ms, targets))) == Loss(b, Pick(ms, v))
  {
    if targets != [] {
      var front, last := targets[..|targets| - 1], targets[|targets| - 1];
      var r := Greedy(b, ms, front, count);
      var chosen := Victims(front, r);
      GreedyTakes(b, ms, front, count);
      assert Greedy(b, ms, targets, count)[..|front|] == r;
      assert targets == front + [last];
      PickSnoc(ms, front, last);
      PickSnoc(ms, chosen, last);
      HealthySnoc(b, Pick(ms, front), ms[last]);
      HealthySnoc(b, Pick(ms, chosen), ms[last]);
      assert chosen + [] == chosen;
    }
  }

  /** The reserve covers every choice exactly when the targets it counts, those in the
      budget's own namespace, are as many as the scale-down could take healthy ones. */
  lemma {:induction false} ReserveCoversIff(b: Budget, ms: seq<Machine>, targets: seq<nat>, count: nat)
    requires Known(ms, targets)
    ensures CoversEveryChoice(b, ms, targets, count)
       <==> Least(count, HealthyCount(b, Pick(ms, targets))) <= Matched(b, Pick(ms, targets))
  {
    GreedyTakes(b, ms, targets, count);
    if CoversEveryChoice(b, ms, targets, count) {
      var pick := Greedy(b, ms, targets, count);
      assert |pick| == |targets| && |Victims(targets, pick)| <= count;
    }
    forall pick: seq<bool> | |pick| == |targets| && |Victims(targets, pick)| <= count
      ensures Known(ms, Victims(targets, pick))
      ensures Loss(b, Pick(ms, Victims(targets, pick))) <= Least(count, HealthyCount(b, Pick(ms, targets)))
    {
      VictimsLoss(b, ms, targets, pick);
    }
  }

  /** A Machine of another namespace that carries the budget's labels counts as healthy for
      it, but scaling it down reserves nothing. */
  lemma {:induction false} ForeignMachineUncovered()
    ensures var b := Budget(1, {7}, (n: nat) => Some(1));
            var ms := [Machine(2, 7, true, false)];
            && HealthyCount(b, ms) == 1 && Allowance(b, ms) == Some(0)
            && MayScaleDown([b], [0], Pick(ms, [0]), 1)
            && Left(b, ms, {0}) == 0
  {
    var b := Budget(1, {7}, (n: nat) => Some(1));
    var ms := [Machine(2, 7, true, false)];
    assert ms[..0] == [];
    assert HealthyCount(b, ms) == 1 && Total(b, ms) == 1;
    assert Pick(ms, [0]) == ms;
    assert Matched(b, ms) == 0;
  }
}
