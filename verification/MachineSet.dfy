/**
 MachineSet rollout: one create or delete batch per tick, each call of which may fail
 and end the batch.
 */
module MachineSet {

  import opened Options

  type Id = nat

  /** `owner` is the MachineSet label, `hash` the template-hash label. */
  datatype Machine = Machine(ns: Id, name: Id, owner: Id, hash: nat, running: bool, deleting: bool)

  /** `maxUnavailable` is the parsed spec.maxUnavailable; None when it does not parse. */
  datatype Set = Set(ns: Id, name: Id, replicas: int, recreate: bool, hash: nat, maxUnavailable: Option<int>)

  /** `calls` API calls succeed before one fails; `names` are the generated names. */
  datatype Env = Env(finalizerLands: bool, calls: nat, names: seq<Id>)

  datatype Outcome = Outcome(machines: seq<Machine>, ok: bool)

  function Desired(ms: Set): (d: nat) { if ms.replicas < 0 then 0 else ms.replicas }

  predicate Owned(ms: Set, m: Machine) { m.ns == ms.ns && m.owner == ms.name && !m.deleting }
  predicate IsCurrent(ms: Set, m: Machine) { Owned(ms, m) && m.hash == ms.hash }
  predicate IsOutdated(ms: Set, m: Machine) { Owned(ms, m) && m.hash != ms.hash }

  function Currents(ms: Set, list: seq<Machine>): (r: seq<Machine>)
    ensures forall m :: m in r ==> m in list && IsCurrent(ms, m)
    ensures |r| <= |list|
  {
    if list == [] then []
    else Currents(ms, list[..|list| - 1]) + if IsCurrent(ms, list[|list| - 1]) then [list[|list| - 1]] else []
  }

  function Outdateds(ms: Set, list: seq<Machine>): (r: seq<Machine>)
    ensures forall m :: m in r ==> m in list && IsOutdated(ms, m)
    ensures |r| <= |list|
  {
    if list == [] then []
    else Outdateds(ms, list[..|list| - 1]) + if IsOutdated(ms, list[|list| - 1]) then [list[|list| - 1]] else []
  }

  datatype Tally = Tally(current: nat, ready: nat, outdated: nat)

  /** How many replicas of each kind the listing holds. */
  function Count(ms: Set, list: seq<Machine>): (t: Tally)
    ensures t.ready <= t.current
  {
    if list == [] then Tally(0, 0, 0)
    else
      var t, m := Count(ms, list[..|list| - 1]), list[|list| - 1];
      Tally(t.current + Bit(IsCurrent(ms, m)), t.ready + Bit(IsCurrent(ms, m) && m.running),
            t.outdated + Bit(IsOutdated(ms, m)))
  }

  function Bit(b: bool): (r: nat) { if b then 1 else 0 }

  // ------------------------------------------------------------- API calls

  /** A deleted Machine stays listed, with a deletion timestamp. */
  function Mark(list: seq<Machine>, ns: Id, name: Id): (r: seq<Machine>)
    ensures |r| == |list|
  {
    seq(|list|, i requires 0 <= i < |list| =>
      if list[i].ns == ns && list[i].name == name then list[i].(deleting := true) else list[i])
  }

  /** The first k of a batch are deleted. */
  function DeleteFirst(list: seq<Machine>, batch: seq<Machine>, k: nat): (r: seq<Machine>)
    requires k <= |batch|
    decreases k
  {
    if k == 0 then list
    else Mark(DeleteFirst(list, batch, k - 1), batch[k - 1].ns, batch[k - 1].name)
  }

  predicate Taken(list: seq<Machine>, ns: Id, name: Id) {
    exists i :: 0 <= i < |list| && list[i].ns == ns && list[i].name == name
  }

  function Replica(ms: Set, name: Id): (m: Machine) { Machine(ms.ns, name, ms.name, ms.hash, false, false) }

  function CreateFirst(ms: Set, list: seq<Machine>, names: seq<Id>, k: nat): (r: seq<Machine>)
    requires k <= |names|
    decreases k
  {
    if k == 0 then list else CreateFirst(ms, list, names, k - 1) + [Replica(ms, names[k - 1])]
  }

  /** How many of n creations go through: calls may run out or a name may be taken. */
  function Creates(ms: Set, list: seq<Machine>, e: Env, n: nat): (k: nat)
    ensures k <= n && k <= |e.names| && k <= e.calls
    decreases n
  {
    if n == 0 then 0
    else
      var k := Creates(ms, list, e, n - 1);
      if k == n - 1 && n <= e.calls && n <= |e.names|
         && !Taken(CreateFirst(ms, list, e.names, n - 1), ms.ns, e.names[n - 1])
      then n else k
  }

  function DeleteBatch(list: seq<Machine>, batch: seq<Machine>, e: Env): (r: Outcome) {
    var k := if e.calls < |batch| then e.calls else |batch|;
    Outcome(DeleteFirst(list, batch, k), k == |batch|)
  }

  function CreateBatch(ms: Set, list: seq<Machine>, e: Env, n: nat): (r: Outcome) {
    var k := Creates(ms, list, e, n);
    Outcome(CreateFirst(ms, list, e.names, k), k == n)
  }

  // ----------------------------------------------------------------- one tick

  function ResolveMaxUnavailable(parsed: Option<int>): (r: Option<int>)
    ensures r.Some? ==> r.value >= 1
  {
    if parsed.None? then None else Some(if parsed.value < 1 then 1 else parsed.value)
  }

  /** How many outdated replicas a rolling update may take now. */
  function CanDelete(ms: Set, t: Tally, maxUnavailable: int): (n: nat)
    ensures n <= t.outdated
  {
    var can := t.ready + t.outdated - (Desired(ms) - maxUnavailable);
    if can <= 0 then 0 else if can > t.outdated then t.outdated else can
  }

  function StepToward(ms: Set, list: seq<Machine>, e: Env): (r: Outcome) {
    var t := Count(ms, list);
    var desired := Desired(ms);
    if t.current + t.outdated < desired then CreateBatch(ms, list, e, desired - (t.current + t.outdated))
    else if t.outdated > 0 then Replace(ms, list, t, e)
    else Trim(ms, list, e)
  }

  function Replace(ms: Set, list: seq<Machine>, t: Tally, e: Env): (r: Outcome)
    requires t == Count(ms, list)
  {
    var outdated := Outdateds(ms, list);
    if ms.recreate then DeleteBatch(list, outdated, e)
    else
      var maxUnavailable := ResolveMaxUnavailable(ms.maxUnavailable);
      if maxUnavailable.None? then Outcome(list, false)
      else
        CountLists(ms, list);
        DeleteBatch(list, outdated[..CanDelete(ms, t, maxUnavailable.value)], e)
  }

  function Trim(ms: Set, list: seq<Machine>, e: Env): (r: Outcome) {
    var current := Currents(ms, list);
    if |current| > Desired(ms) then DeleteBatch(list, current[..|current| - Desired(ms)], e) else Outcome(list, true)
  }

  function Reconcile(ms: Set, list: seq<Machine>, e: Env): (r: Outcome) {
    if !e.finalizerLands then Outcome(list, false) else StepToward(ms, list, e)
  }

  // ---------------------------------------------------------- counting lemmas

  lemma {:induction false} CountLists(ms: Set, list: seq<Machine>)
    ensures |Currents(ms, list)| == Count(ms, list).current
    ensures |Outdateds(ms, list)| == Count(ms, list).outdated
  {
    if list != [] { CountLists(ms, list[..|list| - 1]); }
  }

  predicate SameName(a: Machine, b: Machine) { a.ns == b.ns && a.name == b.name }

  predicate UniqueNames(list: seq<Machine>) {
    forall i, j :: 0 <= i < |list| && 0 <= j < |list| && SameName(list[i], list[j]) ==> i == j
  }

  function Minus(ms: Set, t: Tally, m: Machine): (r: Tally)
    requires Bit(IsCurrent(ms, m)) <= t.current && Bit(IsCurrent(ms, m) && m.running) <= t.ready
    requires Bit(IsOutdated(ms, m)) <= t.outdated
  {
    Tally(t.current - Bit(IsCurrent(ms, m)), t.ready - Bit(IsCurrent(ms, m) && m.running),
          t.outdated - Bit(IsOutdated(ms, m)))
  }

  lemma {:induction false} CountMember(ms: Set, list: seq<Machine>, i: nat)
    requires i < |list|
    ensures Bit(IsCurrent(ms, list[i])) <= Count(ms, list).current
    ensures Bit(IsCurrent(ms, list[i]) && list[i].running) <= Count(ms, list).ready
    ensures Bit(IsOutdated(ms, list[i])) <= Count(ms, list).outdated
  {
    if i < |list| - 1 { CountMember(ms, list[..|list| - 1], i); }
  }

  /** Deleting a live replica takes exactly it out of the count. */
  lemma {:induction false} MarkCounts(ms: Set, list: seq<Machine>, i: nat)
    requires i < |list| && UniqueNames(list)
    ensures Bit(IsCurrent(ms, list[i])) <= Count(ms, list).current
    ensures Bit(IsCurrent(ms, list[i]) && list[i].running) <= Count(ms, list).ready
    ensures Bit(IsOutdated(ms, list[i])) <= Count(ms, list).outdated
    ensures Count(ms, Mark(list, list[i].ns, list[i].name)) == Minus(ms, Count(ms, list), list[i])
  {
    CountMember(ms, list, i);
    var front := list[..|list| - 1];
    var marked := Mark(list, list[i].ns, list[i].name);
    if i == |list| - 1 {
      assert marked[..|list| - 1] == front;
    } else {
      MarkCounts(ms, front, i);
      assert marked[..|list| - 1] == Mark(front, list[i].ns, list[i].name);
    }
  }

  lemma {:induction false} MarkUnique(list: seq<Machine>, ns: Id, name: Id)
    requires UniqueNames(list)
    ensures UniqueNames(Mark(list, ns, name))
  {
  }

  predicate DistinctNames(batch: seq<Machine>) {
    forall i, j :: 0 <= i < j < |batch| ==> !SameName(batch[i], batch[j])
  }

  lemma {:induction false} DeleteSpares(list: seq<Machine>, batch: seq<Machine>, k: nat, i: nat)
    requires k <= |batch| && i < |list|
    requires forall j :: 0 <= j < k ==> !SameName(batch[j], list[i])
    ensures |DeleteFirst(list, batch, k)| == |list| && DeleteFirst(list, batch, k)[i] == list[i]
    decreases k
  {
    if k > 0 {
      DeleteSpares(list, batch, k - 1, i);
      assert !SameName(batch[k - 1], list[i]);
    }
  }

  lemma {:induction false} DeleteUnique(list: seq<Machine>, batch: seq<Machine>, k: nat)
    requires k <= |batch| && UniqueNames(list)
    ensures UniqueNames(DeleteFirst(list, batch, k))
    decreases k
  {
    if k > 0 {
      DeleteUnique(list, batch, k - 1);
      MarkUnique(DeleteFirst(list, batch, k - 1), batch[k - 1].ns, batch[k - 1].name);
    }
  }

  /** The k-th deletion of a batch takes exactly the k-th Machine out of the count. */
  lemma {:induction false} DeleteNext(ms: Set, list: seq<Machine>, batch: seq<Machine>, k: nat)
    requires 0 < k <= |batch| && UniqueNames(list) && DistinctNames(batch) && batch[k - 1] in list
    ensures var m, mid := batch[k - 1], Count(ms, DeleteFirst(list, batch, k - 1));
            && Bit(IsCurrent(ms, m)) <= mid.current && Bit(IsCurrent(ms, m) && m.running) <= mid.ready
            && Bit(IsOutdated(ms, m)) <= mid.outdated
            && Count(ms, DeleteFirst(list, batch, k)) == Minus(ms, mid, m)
  {
    var m := batch[k - 1];
    var i :| 0 <= i < |list| && list[i] == m;
    DeleteSpares(list, batch, k - 1, i);
    DeleteUnique(list, batch, k - 1);
    MarkCounts(ms, DeleteFirst(list, batch, k - 1), i);
  }

  /** A batch of outdated replicas leaves the current ones alone. */
  lemma {:induction false} DeleteOutdated(ms: Set, list: seq<Machine>, batch: seq<Machine>, k: nat)
    requires k <= |batch| && UniqueNames(list) && DistinctNames(batch)
    requires forall j :: 0 <= j < |batch| ==> batch[j] in list && IsOutdated(ms, batch[j])
    ensures var before, after := Count(ms, list), Count(ms, DeleteFirst(list, batch, k));
            after.current == before.current && after.ready == before.ready && after.outdated + k == before.outdated
    decreases k
  {
    if k > 0 {
      DeleteOutdated(ms, list, batch, k - 1);
      DeleteNext(ms, list, batch, k);
    }
  }

  lemma {:induction false} DeleteCurrent(ms: Set, list: seq<Machine>, batch: seq<Machine>, k: nat)
    requires k <= |batch| && UniqueNames(list) && DistinctNames(batch)
    requires forall j :: 0 <= j < |batch| ==> batch[j] in list && IsCurrent(ms, batch[j])
    ensures var before, after := Count(ms, list), Count(ms, DeleteFirst(list, batch, k));
            after.current + k == before.current && after.outdated == before.outdated
    decreases k
  {
    if k > 0 {
      DeleteCurrent(ms, list, batch, k - 1);
      DeleteNext(ms, list, batch, k);
    }
  }

  lemma {:induction false} CreateCounts(ms: Set, list: seq<Machine>, names: seq<Id>, k: nat)
    requires k <= |names|
    ensures var before, after := Count(ms, list), Count(ms, CreateFirst(ms, list, names, k));
            after.current == before.current + k && after.ready == before.ready && after.outdated == before.outdated
    decreases k
  {
    if k > 0 {
      CreateCounts(ms, list, names, k - 1);
      var mid := CreateFirst(ms, list, names, k - 1);
      assert (mid + [Replica(ms, names[k - 1])])[..|mid|] == mid;
    }
  }

  lemma {:induction false} OutdatedsDistinct(ms: Set, list: seq<Machine>)
    requires UniqueNames(list)
    ensures DistinctNames(Outdateds(ms, list)) && DistinctNames(Currents(ms, list))
  {
    if list != [] {
      OutdatedsDistinct(ms, list[..|list| - 1]);
      var last := list[|list| - 1];
      forall m | m in Outdateds(ms, list[..|list| - 1]) || m in Currents(ms, list[..|list| - 1])
        ensures !SameName(m, last)
      {
        var i :| 0 <= i < |list| - 1 && list[i] == m;
        assert !SameName(list[i], list[|list| - 1]);
      }
    }
  }

  // ------------------------------------------------------------ what a tick does

  function Least(a: nat, b: nat): (r: nat) { if a < b then a else b }

  /** A tick on the counts alone; `done` says how many calls of its batch went through. */
  function StepCounts(ms: Set, t: Tally, done: nat): (r: Tally) {
    var desired := Desired(ms);
    if t.current + t.outdated < desired then t.(current := t.current + Least(done, desired - (t.current + t.outdated)))
    else if t.outdated > 0 then t.(outdated := t.outdated - Least(done, Batch(ms, t)))
    else t.(current := t.current - Least(done, if t.current > desired then t.current - desired else 0))
  }

  /** The size of the batch of outdated replicas to delete. */
  function Batch(ms: Set, t: Tally): (n: nat)
    ensures n <= t.outdated
  {
    if ms.recreate then t.outdated
    else
      var maxUnavailable := ResolveMaxUnavailable(ms.maxUnavailable);
      if maxUnavailable.None? then 0 else CanDelete(ms, t, maxUnavailable.value)
  }

  lemma {:induction false} OutdatedPrefix(ms: Set, list: seq<Machine>, n: nat, k: nat)
    requires UniqueNames(list) && n <= |Outdateds(ms, list)| && k <= n
    ensures var before, after := Count(ms, list), Count(ms, DeleteFirst(list, Outdateds(ms, list)[..n], k));
            after.current == before.current && after.ready == before.ready && after.outdated + k == before.outdated
  {
    OutdatedsDistinct(ms, list);
    DeleteOutdated(ms, list, Outdateds(ms, list)[..n], k);
  }

  lemma {:induction false} CurrentPrefix(ms: Set, list: seq<Machine>, n: nat, k: nat)
    requires UniqueNames(list) && n <= |Currents(ms, list)| && k <= n
    ensures var before, after := Count(ms, list), Count(ms, DeleteFirst(list, Currents(ms, list)[..n], k));
            after.current + k == before.current && after.outdated == before.outdated
  {
    OutdatedsDistinct(ms, list);
    DeleteCurrent(ms, list, Currents(ms, list)[..n], k);
  }

  lemma {:induction false} ReplaceCounts(ms: Set, list: seq<Machine>, e: Env)
    requires UniqueNames(list) && Count(ms, list).outdated > 0
    ensures var t := Count(ms, list);
            Count(ms, Replace(ms, list, t, e).machines) == t.(outdated := t.outdated - Least(e.calls, Batch(ms, t)))
  {
    var t, all := Count(ms, list), Outdateds(ms, list);
    CountLists(ms, list);
    assert all[..|all|] == all;
    OutdatedPrefix(ms, list, Batch(ms, t), Least(e.calls, Batch(ms, t)));
  }

  lemma {:induction false} TrimCounts(ms: Set, list: seq<Machine>, e: Env)
    requires UniqueNames(list) && Count(ms, list).outdated == 0 && Count(ms, list).current >= Desired(ms)
    ensures var t, after := Count(ms, list), Count(ms, Trim(ms, list, e).machines);
            && after.current == t.current - Least(e.calls, t.current - Desired(ms))
            && after.outdated == 0
  {
    var n := |Currents(ms, list)| - Desired(ms);
    CountLists(ms, list);
    if n > 0 { CurrentPrefix(ms, list, n, Least(e.calls, n)); }
  }

  // ------------------------------------------------------------------ theorems

  /** A rolling tick never takes the ready current and the outdated replicas below the
      desired count less maxUnavailable, wherever its batch stopped; it never adds
      replicas beyond the desired count, and never takes a current one while an outdated
      one is left. */
  lemma {:induction false} TickSafety(ms: Set, list: seq<Machine>, e: Env)
    requires UniqueNames(list)
    ensures var before, after := Count(ms, list), Count(ms, Reconcile(ms, list, e).machines);
            && (!ms.recreate && after.outdated < before.outdated ==>
                  && ms.maxUnavailable.Some?
                  && after.ready + after.outdated
                     >= Desired(ms) - ResolveMaxUnavailable(ms.maxUnavailable).value)
            && (after.current + after.outdated <= before.current + before.outdated
                || after.current + after.outdated <= Desired(ms))
            && (before.outdated > 0 ==> after.current >= before.current && after.ready == before.ready)
            && after.outdated <= before.outdated
  {
    var t := Count(ms, list);
    var gap := Desired(ms) - (t.current + t.outdated);
    if !e.finalizerLands {
    } else if gap > 0 {
      assert Reconcile(ms, list, e) == CreateBatch(ms, list, e, gap);
      CreateCounts(ms, list, e.names, Creates(ms, list, e, gap));
    } else if t.outdated > 0 {
      assert Reconcile(ms, list, e) == Replace(ms, list, t, e);
      ReplaceCounts(ms, list, e);
    } else {
      assert Reconcile(ms, list, e) == Trim(ms, list, e);
      TrimCounts(ms, list, e);
    }
  }

  /** Every Machine that is not a replica being replaced or trimmed is left exactly as it
      was: other sets' Machines, and current ones while an outdated one remains. */
  lemma {:induction false} OthersUntouched(ms: Set, list: seq<Machine>, e: Env, i: nat)
    requires UniqueNames(list) && i < |list|
    requires !Owned(ms, list[i]) || (IsCurrent(ms, list[i]) && Count(ms, list).outdated > 0)
    ensures |Reconcile(ms, list, e).machines| >= |list| && Reconcile(ms, list, e).machines[i] == list[i]
  {
    var t := Count(ms, list);
    var gap := Desired(ms) - (t.current + t.outdated);
    if !e.finalizerLands {
    } else if gap > 0 {
      assert Reconcile(ms, list, e) == CreateBatch(ms, list, e, gap);
      CreateAppends(ms, list, e.names, Creates(ms, list, e, gap));
    } else if t.outdated > 0 {
      assert Reconcile(ms, list, e) == Replace(ms, list, t, e);
      ReplaceSpares(ms, list, e, i);
    } else {
      assert Reconcile(ms, list, e) == Trim(ms, list, e);
      TrimSpares(ms, list, e, i);
    }
  }

  lemma {:induction false} TrimSpares(ms: Set, list: seq<Machine>, e: Env, i: nat)
    requires UniqueNames(list) && i < |list| && !IsCurrent(ms, list[i])
    ensures var r := Trim(ms, list, e).machines; |r| == |list| && r[i] == list[i]
  {
    var all := Currents(ms, list);
    if |all| > Desired(ms) { BatchSpares(list, all, |all| - Desired(ms), e, i); }
  }

  lemma {:induction false} ReplaceSpares(ms: Set, list: seq<Machine>, e: Env, i: nat)
    requires UniqueNames(list) && i < |list| && !IsOutdated(ms, list[i])
    ensures var r := Replace(ms, list, Count(ms, list), e).machines; |r| == |list| && r[i] == list[i]
  {
    var t, all := Count(ms, list), Outdateds(ms, list);
    CountLists(ms, list);
    assert all[..|all|] == all;
    BatchSpares(list, all, Batch(ms, t), e, i);
  }

  lemma {:induction false} CreateAppends(ms: Set, list: seq<Machine>, names: seq<Id>, k: nat)
    requires k <= |names|
    ensures list <= CreateFirst(ms, list, names, k)
    decreases k
  {
    if k > 0 { CreateAppends(ms, list, names, k - 1); }
  }

  lemma {:induction false} BatchSpares(list: seq<Machine>, all: seq<Machine>, n: nat, e: Env, i: nat)
    requires UniqueNames(list) && i < |list| && n <= |all| && list[i] !in all
    requires forall m :: m in all ==> m in list
    ensures var r := DeleteBatch(list, all[..n], e).machines; |r| == |list| && r[i] == list[i]
  {
    var k := Least(e.calls, n);
    forall j | 0 <= j < k ensures !SameName(all[..n][j], list[i]) {
      assert all[j] in list;
      var p :| 0 <= p < |list| && list[p] == all[j];
      assert p != i;
    }
    DeleteSpares(list, all[..n], k, i);
  }

  // --------------------------------------------------------------- convergence

  /** Between ticks every current replica has come up. */
  function Settle(ms: Set, list: seq<Machine>): (r: seq<Machine>) {
    seq(|list|, i requires 0 <= i < |list| =>
      if IsCurrent(ms, list[i]) then list[i].(running := true) else list[i])
  }

  lemma {:induction false} SettleCounts(ms: Set, list: seq<Machine>)
    ensures var t := Count(ms, list); Count(ms, Settle(ms, list)) == Tally(t.current, t.current, t.outdated)
    ensures UniqueNames(list) ==> UniqueNames(Settle(ms, list))
  {
    if list != [] {
      SettleCounts(ms, list[..|list| - 1]);
      assert Settle(ms, list)[..|list| - 1] == Settle(ms, list[..|list| - 1]);
    }
  }

  /** Every call of the tick succeeds and every generated name is new. */
  predicate Smooth(ms: Set, list: seq<Machine>, e: Env) {
    && e.finalizerLands && e.calls >= |list| + Desired(ms)
    && Creates(ms, list, e, Desired(ms)) == Desired(ms)
  }

  lemma {:induction false} CreatesFewer(ms: Set, list: seq<Machine>, e: Env, n: nat, k: nat)
    requires k <= n && Creates(ms, list, e, n) == n
    ensures Creates(ms, list, e, k) == k
    decreases n
  {
    if k < n { CreatesFewer(ms, list, e, n - 1, k); }
  }

  lemma {:induction false} CreatesUnique(ms: Set, list: seq<Machine>, e: Env, k: nat)
    requires UniqueNames(list) && Creates(ms, list, e, k) == k
    ensures UniqueNames(CreateFirst(ms, list, e.names, k))
    decreases k
  {
    if k > 0 {
      CreatesUnique(ms, list, e, k - 1);
      var mid := CreateFirst(ms, list, e.names, k - 1);
      assert forall i :: 0 <= i < |mid| ==> !SameName(mid[i], Replica(ms, e.names[k - 1]));
    }
  }

  lemma {:induction false} BatchUnique(list: seq<Machine>, batch: seq<Machine>, e: Env)
    requires UniqueNames(list)
    ensures UniqueNames(DeleteBatch(list, batch, e).machines)
  {
    DeleteUnique(list, batch, Least(e.calls, |batch|));
  }

  lemma {:induction false} CreatesStops(ms: Set, list: seq<Machine>, e: Env, n: nat)
    ensures Creates(ms, list, e, Creates(ms, list, e, n)) == Creates(ms, list, e, n)
    decreases n
  {
    if n > 0 { CreatesStops(ms, list, e, n - 1); }
  }

  lemma {:induction false} ReconcileUnique(ms: Set, list: seq<Machine>, e: Env)
    requires UniqueNames(list)
    ensures UniqueNames(Reconcile(ms, list, e).machines)
  {
    var t := Count(ms, list);
    var gap := Desired(ms) - (t.current + t.outdated);
    if !e.finalizerLands {
    } else if gap > 0 {
      assert Reconcile(ms, list, e) == CreateBatch(ms, list, e, gap);
      CreatesStops(ms, list, e, gap);
      CreatesUnique(ms, list, e, Creates(ms, list, e, gap));
    } else if t.outdated > 0 {
      assert Reconcile(ms, list, e) == Replace(ms, list, t, e);
      CountLists(ms, list);
      BatchUnique(list, Outdateds(ms, list), e);
      BatchUnique(list, Outdateds(ms, list)[..Batch(ms, t)], e);
    } else if |Currents(ms, list)| > Desired(ms) {
      BatchUnique(list, Currents(ms, list)[..|Currents(ms, list)| - Desired(ms)], e);
    }
  }

  lemma {:induction false} SmoothCounts(ms: Set, list: seq<Machine>, e: Env)
    requires UniqueNames(list) && Smooth(ms, list, e)
    ensures var t, after := Count(ms, list), Count(ms, Reconcile(ms, list, e).machines);
            && after.current == StepCounts(ms, t, e.calls).current
            && after.outdated == StepCounts(ms, t, e.calls).outdated
  {
    var t := Count(ms, list);
    var gap := Desired(ms) - (t.current + t.outdated);
    if gap > 0 {
      assert Reconcile(ms, list, e) == CreateBatch(ms, list, e, gap);
      CreatesFewer(ms, list, e, Desired(ms), gap);
      CreateCounts(ms, list, e.names, gap);
    } else if t.outdated > 0 {
      assert Reconcile(ms, list, e) == Replace(ms, list, t, e);
      ReplaceCounts(ms, list, e);
    } else {
      assert Reconcile(ms, list, e) == Trim(ms, list, e);
      TrimCounts(ms, list, e);
    }
  }

  function Rollout(ms: Set, list: seq<Machine>, es: seq<Env>): (r: seq<Machine>)
    decreases |es|
  {
    if es == [] then list else Rollout(ms, Settle(ms, Reconcile(ms, list, es[0]).machines), es[1..])
  }

  /** Over any number of ticks, whatever fails, the set never grows beyond the larger of
      its desired and its first count, and no outdated replica is ever added. */
  lemma {:induction false} RolloutNeverSurges(ms: Set, list: seq<Machine>, es: seq<Env>)
    requires UniqueNames(list)
    ensures var before, after := Count(ms, list), Count(ms, Rollout(ms, list, es));
            && (after.current + after.outdated <= before.current + before.outdated
                || after.current + after.outdated <= Desired(ms))
            && after.outdated <= before.outdated
    decreases |es|
  {
    if es != [] {
      TickSafety(ms, list, es[0]);
      ReconcileUnique(ms, list, es[0]);
      SettleCounts(ms, Reconcile(ms, list, es[0]).machines);
      RolloutNeverSurges(ms, Settle(ms, Reconcile(ms, list, es[0]).machines), es[1..]);
    }
  }

  predicate SmoothRollout(ms: Set, list: seq<Machine>, es: seq<Env>)
    decreases |es|
  {
    es == [] || (Smooth(ms, list, es[0])
                 && SmoothRollout(ms, Settle(ms, Reconcile(ms, list, es[0]).machines), es[1..]))
  }

  predicate Arrived(ms: Set, t: Tally) { t.outdated == 0 && t.current == Desired(ms) }

  /** Ticks still needed: two for every outdated replica, one to fill or trim. */
  function Remaining(ms: Set, t: Tally): (n: nat) {
    if Arrived(ms, t) then 0
    else 2 * t.outdated + if t.outdated > 0 && t.current + t.outdated == Desired(ms) then 0 else 1
  }

  lemma {:induction false} CountProgress(ms: Set, t: Tally, done: nat)
    requires ms.recreate || ms.maxUnavailable.Some?
    requires t.ready == t.current && done >= t.current + t.outdated + Desired(ms)
    ensures Remaining(ms, t) > 0 ==> Remaining(ms, StepCounts(ms, t, done)) < Remaining(ms, t)
    ensures Arrived(ms, t) ==> Arrived(ms, StepCounts(ms, t, done))
  {
  }

  lemma {:induction false} RemainingFrom(ms: Set, t: Tally, u: Tally)
    requires t.current == u.current && t.outdated == u.outdated
    ensures Remaining(ms, t) == Remaining(ms, u) && (Arrived(ms, t) <==> Arrived(ms, u))
  {
  }

  lemma {:induction false} CountFits(ms: Set, list: seq<Machine>)
    ensures Count(ms, list).current + Count(ms, list).outdated <= |list|
  {
    if list != [] { CountFits(ms, list[..|list| - 1]); }
  }

  /** One good tick on a set whose current replicas are all up brings it closer. */
  lemma {:induction false} TickProgress(ms: Set, list: seq<Machine>, e: Env)
    requires UniqueNames(list) && Smooth(ms, list, e)
    requires ms.recreate || ms.maxUnavailable.Some?
    requires Count(ms, list).ready == Count(ms, list).current
    ensures var t, after := Count(ms, list), Count(ms, Reconcile(ms, list, e).machines);
            Remaining(ms, t) > 0 ==> Remaining(ms, after) < Remaining(ms, t)
    ensures Arrived(ms, Count(ms, list)) ==> Arrived(ms, Count(ms, Reconcile(ms, list, e).machines))
  {
    var t, after := Count(ms, list), Count(ms, Reconcile(ms, list, e).machines);
    SmoothCounts(ms, list, e);
    CountFits(ms, list);
    CountProgress(ms, t, e.calls);
    RemainingFrom(ms, after, StepCounts(ms, t, e.calls));
  }

  lemma {:induction false} RolloutArrives(ms: Set, list: seq<Machine>, es: seq<Env>)
    requires UniqueNames(list) && SmoothRollout(ms, list, es)
    requires ms.recreate || ms.maxUnavailable.Some?
    requires Count(ms, list).ready == Count(ms, list).current
    requires |es| >= Remaining(ms, Count(ms, list))
    ensures Arrived(ms, Count(ms, Rollout(ms, list, es)))
    decreases |es|
  {
    if es != [] {
      TickProgress(ms, list, es[0]);
      ReconcileUnique(ms, list, es[0]);
      SettleCounts(ms, Reconcile(ms, list, es[0]).machines);
      RolloutArrives(ms, Settle(ms, Reconcile(ms, list, es[0]).machines), es[1..]);
    }
  }

  /** From any list, with either strategy, if calls succeed and replicas come up between
      ticks, at most two ticks per outdated replica and two more bring the set to exactly
      the desired number of current replicas and no outdated one. */
  lemma {:induction false} RolloutConverges(ms: Set, list: seq<Machine>, es: seq<Env>)
    requires UniqueNames(list) && SmoothRollout(ms, list, es)
    requires ms.recreate || ms.maxUnavailable.Some?
    requires |es| >= 2 * Count(ms, list).outdated + 2
    ensures Arrived(ms, Count(ms, Rollout(ms, list, es)))
  {
    var t := Count(ms, list);
    TickSafety(ms, list, es[0]);
    ReconcileUnique(ms, list, es[0]);
    var next := Settle(ms, Reconcile(ms, list, es[0]).machines);
    SettleCounts(ms, Reconcile(ms, list, es[0]).machines);
    RolloutArrives(ms, next, es[1..]);
  }
}
