/**
 Disruption budgets within one caller's pass: allowances are computed once from a
 listing and then spent, by single disruptions and by scale-downs whose victims somebody
 else will pick.
 */
module Disruption {

  import opened Options

  /** `inFlight` says a migration of this Machine has not finished. */
  datatype Machine = Machine(ns: nat, labels: nat, running: bool, inFlight: bool)

  /** `want` gives the healthy count to keep for a total, or None for a bad spec. */
  datatype Budget = Budget(ns: nat, selector: set<nat>, want: nat -> Option<int>)

  predicate Matches(b: Budget, m: Machine) { m.labels in b.selector }
  predicate Healthy(m: Machine) { m.running && !m.inFlight }
  predicate Guards(b: Budget, m: Machine) { Matches(b, m) && Healthy(m) }

  function Bit(x: bool): (r: nat) { if x then 1 else 0 }
  function Least(a: int, b: int): (r: int) { if a < b then a else b }

  function Total(b: Budget, ms: seq<Machine>): (n: nat) {
    if ms == [] then 0 else Total(b, ms[..|ms| - 1]) + Bit(Matches(b, ms[|ms| - 1]))
  }

  function HealthyCount(b: Budget, ms: seq<Machine>): (n: nat) {
    if ms == [] then 0 else HealthyCount(b, ms[..|ms| - 1]) + Bit(Guards(b, ms[|ms| - 1]))
  }

  /** The allowance a budget starts with. */
  function Allowance(b: Budget, ms: seq<Machine>): (r: Option<nat>) {
    var desired := b.want(Total(b, ms));
    if desired.None? then None
    else
      var spare := HealthyCount(b, ms) - desired.value;
      Some(if spare < 0 then 0 else spare)
  }

  // ------------------------------------------------------------------ spending

  /** AdmitDisruption: every budget that matches has an allowance left. */
  predicate MayDisrupt(bs: seq<Budget>, allowed: seq<int>, m: Machine)
    requires |allowed| == |bs|
  {
    forall k :: 0 <= k < |bs| && Matches(bs[k], m) ==> allowed[k] > 0
  }

  function SpendOne(bs: seq<Budget>, allowed: seq<int>, m: Machine): (r: seq<int>)
    requires |allowed| == |bs|
    ensures |r| == |bs|
  {
    seq(|bs|, k requires 0 <= k < |bs| => allowed[k] - Bit(Matches(bs[k], m)))
  }

  function Disrupt(bs: seq<Budget>, allowed: seq<int>, m: Machine): (r: seq<int>)
    requires |allowed| == |bs|
    ensures |r| == |bs|
  {
    if MayDisrupt(bs, allowed, m) then SpendOne(bs, allowed, m) else allowed
  }

  /** Targets in the budget's namespace that it matches. */
  function Matched(b: Budget, targets: seq<Machine>): (n: nat) {
    if targets == [] then 0
    else
      var m := targets[|targets| - 1];
      Matched(b, targets[..|targets| - 1]) + Bit(m.ns == b.ns && Matches(b, m))
  }

  /** The worst case a scale-down by `count` reserves. */
  function Reserve(b: Budget, targets: seq<Machine>, count: int): (n: int) { Least(count, Matched(b, targets)) }

  predicate MayScaleDown(bs: seq<Budget>, allowed: seq<int>, targets: seq<Machine>, count: int)
    requires |allowed| == |bs|
  {
    forall k :: 0 <= k < |bs| ==> allowed[k] >= Reserve(bs[k], targets, count)
  }

  function SpendAll(bs: seq<Budget>, allowed: seq<int>, targets: seq<Machine>, count: int): (r: seq<int>)
    requires |allowed| == |bs|
    ensures |r| == |bs|
  {
    seq(|bs|, k requires 0 <= k < |bs| => allowed[k] - Reserve(bs[k], targets, count))
  }

  function ScaleDown(bs: seq<Budget>, allowed: seq<int>, targets: seq<Machine>, count: int): (r: seq<int>)
    requires |allowed| == |bs|
    ensures |r| == |bs|
  {
    if MayScaleDown(bs, allowed, targets, count) then SpendAll(bs, allowed, targets, count) else allowed
  }

  // --------------------------------------------------------------- what is lost

  /** Machines are named by their position in the listing. */
  predicate Known(ms: seq<Machine>, names: seq<nat>) { forall k :: 0 <= k < |names| ==> names[k] < |ms| }

  function Pick(ms: seq<Machine>, names: seq<nat>): (r: seq<Machine>)
    requires Known(ms, names)
    ensures |r| == |names|
  {
    seq(|names|, k requires 0 <= k < |names| => ms[names[k]])
  }

  /** Healthy Machines the budget still has once the named ones are gone. */
  function Left(b: Budget, ms: seq<Machine>, gone: set<nat>): (n: nat) {
    if ms == [] then 0
    else Left(b, ms[..|ms| - 1], gone) + Bit(Guards(b, ms[|ms| - 1]) && |ms| - 1 !in gone)
  }

  /** How many of a list the budget counts as healthy. */
  function Loss(b: Budget, lost: seq<Machine>): (n: nat) { HealthyCount(b, lost) }

  // ---------------------------------------------------------------------- runs

  /** A scale-down's victims are picked later: `pick[k]` says target k is one. */
  datatype Op = One(i: nat) | Several(targets: seq<nat>, count: nat, pick: seq<bool>)

  function Victims(targets: seq<nat>, pick: seq<bool>): (r: seq<nat>)
    requires |pick| == |targets|
  {
    if targets == [] then []
    else Victims(targets[..|targets| - 1], pick[..|pick| - 1])
         + if pick[|pick| - 1] then [targets[|targets| - 1]] else []
  }

  predicate ProperOp(ms: seq<Machine>, op: Op) {
    match op
    case One(i) => i < |ms|
    case Several(targets, count, pick) =>
      Known(ms, targets) && |pick| == |targets| && |Victims(targets, pick)| <= count
  }

  datatype Pass = Pass(allowed: seq<int>, gone: set<nat>)

  function GoneWith(gone: set<nat>, names: seq<nat>): (r: set<nat>) { gone + set n | n in names }

  function Apply(bs: seq<Budget>, ms: seq<Machine>, p: Pass, op: Op): (r: Pass)
    requires |p.allowed| == |bs| && ProperOp(ms, op)
    ensures |r.allowed| == |bs|
  {
    match op
    case One(i) =>
      if MayDisrupt(bs, p.allowed, ms[i]) then Pass(SpendOne(bs, p.allowed, ms[i]), p.gone + {i}) else p
    case Several(targets, count, pick) =>
      if MayScaleDown(bs, p.allowed, Pick(ms, targets), count)
      then Pass(SpendAll(bs, p.allowed, Pick(ms, targets), count), GoneWith(p.gone, Victims(targets, pick)))
      else p
  }

  predicate ProperRun(ms: seq<Machine>, ops: seq<Op>) { forall op :: op in ops ==> ProperOp(ms, op) }

  function Run(bs: seq<Budget>, ms: seq<Machine>, start: seq<int>, ops: seq<Op>): (r: Pass)
    requires |start| == |bs| && ProperRun(ms, ops)
    ensures |r.allowed| == |bs|
  {
    if ops == [] then Pass(start, {})
    else
      assert ops[|ops| - 1] in ops;
      Apply(bs, ms, Run(bs, ms, start, ops[..|ops| - 1]), ops[|ops| - 1])
  }

  // ----------------------------------------------------------------- invariant

  /** What was spent covers what was lost. */
  predicate Covered(b: Budget, ms: seq<Machine>, start: int, allowed: int, gone: set<nat>) {
    0 <= allowed && Left(b, ms, gone) + (start - allowed) >= HealthyCount(b, ms)
  }

  /** Everything the budget selects lives in its namespace. */
  predicate Confined(b: Budget, ms: seq<Machine>) {
    forall i :: 0 <= i < |ms| && Matches(b, ms[i]) ==> ms[i].ns == b.ns
  }

  // ------------------------------------------------------------ accounting

  /** What the operations of a run that were admitted have taken from budget k: one for each
      single disruption it matches, the reserve of each scale-down. */
  function Taken(bs: seq<Budget>, ms: seq<Machine>, start: seq<int>, ops: seq<Op>, k: nat): (n: int)
    requires |start| == |bs| && ProperRun(ms, ops) && k < |bs|
  {
    if ops == [] then 0
    else
      var front, last := ops[..|ops| - 1], ops[|ops| - 1];
      assert last in ops;
      Taken(bs, ms, start, front, k)
        + match last
          case One(i) => Bit(MayDisrupt(bs, Run(bs, ms, start, front).allowed, ms[i]) && Matches(bs[k], ms[i]))
          case Several(targets, count, _) =>
            if MayScaleDown(bs, Run(bs, ms, start, front).allowed, Pick(ms, targets), count)
            then Reserve(bs[k], Pick(ms, targets), count) else 0
  }

  // ----------------------------------------------------- what a reserve covers

  /** Takes the first `count` healthy members the budget selects. */
  function Greedy(b: Budget, ms: seq<Machine>, targets: seq<nat>, count: nat): (r: seq<bool>)
    requires Known(ms, targets)
    ensures |r| == |targets|
  {
    if targets == [] then []
    else
      var front := targets[..|targets| - 1];
      var r := Greedy(b, ms, front, count);
      r + [Guards(b, ms[targets[|targets| - 1]]) && |Victims(front, r)| < count]
  }

  /** Whatever victims are picked, they cost the budget no more than what was reserved. */
  ghost predicate CoversEveryChoice(b: Budget, ms: seq<Machine>, targets: seq<nat>, count: nat)
    requires Known(ms, targets)
  {
    forall pick: seq<bool> :: |pick| == |targets| && |Victims(targets, pick)| <= count ==>
      Known(ms, Victims(targets, pick))
      && Loss(b, Pick(ms, Victims(targets, pick))) <= Reserve(b, Pick(ms, targets), count)
  }
}
