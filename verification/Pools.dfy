/**
 One controller tick over claims and pools. Both passes work from the same Machine
 listing; the claim pass hands the pool pass the set of Machines it has just bound.
 */
module Pools {

  import opened Options
  import opened Claims
  import opened ClaimStore
  import opened Sorting

  // --------------------------------------------------------------- claim pass

  /** API calls on Machines in `broken` fail; `finalizerLands` and `released` are the
      outcomes of the other calls made for one claim. */
  datatype ClaimEnv = ClaimEnv(finalizerLands: bool, broken: set<nat>, released: bool)

  function BornOf(m: Machine): (b: int) { m.born }
  function ArrivalOf(c: (Claim, ClaimEnv)): (b: int) { c.0.born }

  predicate WarmReady(c: Claim, m: Machine, bound: set<nat>) {
    m.ns == c.ns && m.pool == c.pool && m.state == Warm && !m.deleting && m.name !in bound && m.phase == PhaseRunning
  }

  function Ready(c: Claim, listing: seq<Machine>, bound: set<nat>): (r: seq<Machine>) {
    if listing == [] then []
    else
      var m := listing[|listing| - 1];
      Ready(c, listing[..|listing| - 1], bound) + if WarmReady(c, m, bound) then [m] else []
  }

  function Eligible(c: Claim, ms: seq<Machine>): (r: seq<Machine>) {
    if ms == [] then []
    else
      var m := ms[|ms| - 1];
      Eligible(c, ms[..|ms| - 1]) + if EligibleWarm(c, m) then [m] else []
  }

  /** The members to try, oldest first. */
  function Candidates(c: Claim, listing: seq<Machine>, bound: set<nat>): (r: seq<Machine>) {
    Eligible(c, SortBy(Ready(c, listing, bound), BornOf))
  }

  datatype Picked = Picked(store: Store, got: Option<nat>, ok: bool)

  /** Tries the members in turn; one that changed since the listing is passed over. */
  function BindFirst(s: Store, cands: seq<Machine>, c: Claim, broken: set<nat>): (r: Picked)
    ensures |r.store.objs| == |s.objs|
  {
    if cands == [] then Picked(s, None, true)
    else
      var (after, outcome) := TryBind(s, cands[0], c, broken);
      match outcome
      case Bound => Picked(after, Some(cands[0].name), true)
      case Conflict => BindFirst(s, cands[1..], c, broken)
      case Refused => Picked(s, None, false)
  }

  function ReconcileClaim(s: Store, listing: seq<Machine>, bound: set<nat>, c: Claim, e: ClaimEnv): (r: Picked)
    ensures |r.store.objs| == |s.objs|
  {
    if c.machine.Some? then Picked(s, None, true)
    else if c.pool == NoId || (!c.finalizer && !e.finalizerLands) then Picked(s, None, false)
    else BindFirst(s, Candidates(c, listing, bound), c, e.broken)
  }

  /** A deleted claim gives its Machine up: unlabelled for Retain, deleted otherwise. */
  function ReleaseClaim(s: Store, listing: seq<Machine>, c: Claim, e: ClaimEnv): (r: Store)
    ensures |r.objs| == |s.objs|
  {
    if !c.finalizer || !e.released || c.machine.None? || c.machine.value >= |listing|
       || c.machine.value >= |s.objs| then s
    else
      var i := c.machine.value;
      if listing[i].claim != c.name || c.name == NoId || i in e.broken then s
      else if c.reclaim == Retain then Write(s, i, s.objs[i].(claim := NoId, state := NoState, pool := NoId))
      else if !listing[i].deleting then Write(s, i, s.objs[i].(deleting := true))
      else s
  }

  datatype Pass = Pass(store: Store, bound: set<nat>, got: seq<Option<nat>>)

  function ClaimStep(p: Pass, listing: seq<Machine>, c: Claim, e: ClaimEnv): (r: Pass)
    ensures |r.store.objs| == |p.store.objs| && |r.got| == |p.got| + 1
  {
    if c.deleting then p.(store := ReleaseClaim(p.store, listing, c, e), got := p.got + [None])
    else
      var k := ReconcileClaim(p.store, listing, p.bound, c, e);
      Pass(k.store, if k.got.Some? then p.bound + {k.got.value} else p.bound, p.got + [k.got])
  }

  function ClaimPass(s: Store, listing: seq<Machine>, claims: seq<(Claim, ClaimEnv)>): (r: Pass)
    ensures |r.store.objs| == |s.objs| && |r.got| == |claims|
    decreases |claims|
  {
    if claims == [] then Pass(s, {}, [])
    else
      var c := claims[|claims| - 1];
      ClaimStep(ClaimPass(s, listing, claims[..|claims| - 1]), listing, c.0, c.1)
  }

  /** Oldest claim first. */
  function ReconcileClaims(s: Store, listing: seq<Machine>, claims: seq<(Claim, ClaimEnv)>): (r: Pass) {
    ClaimPass(s, listing, SortBy(claims, ArrivalOf))
  }

  // ---------------------------------------------------------------- pool pass

  datatype Pool = Pool(ns: Id, name: Id, replicas: int, hash: nat, finalizer: bool)

  /** `calls` API calls succeed before one fails. */
  datatype PoolEnv = PoolEnv(finalizerLands: bool, calls: nat)

  function Desired(p: Pool): (d: nat) { if p.replicas < 0 then 0 else p.replicas }

  predicate WarmIn(p: Pool, m: Machine) { m.ns == p.ns && m.pool == p.name && !m.deleting && m.state == Warm }

  function CurrentOf(p: Pool, listing: seq<Machine>, bound: set<nat>): (r: seq<Machine>) {
    if listing == [] then []
    else
      var m := listing[|listing| - 1];
      CurrentOf(p, listing[..|listing| - 1], bound)
        + if WarmIn(p, m) && m.name !in bound && m.hash == p.hash then [m] else []
  }

  function OutdatedOf(p: Pool, listing: seq<Machine>, bound: set<nat>): (r: seq<Machine>) {
    if listing == [] then []
    else
      var m := listing[|listing| - 1];
      OutdatedOf(p, listing[..|listing| - 1], bound)
        + if WarmIn(p, m) && m.name !in bound && m.hash != p.hash then [m] else []
  }

  function Keep(ms: seq<Machine>, running: bool): (r: seq<Machine>) {
    if ms == [] then []
    else
      var m := ms[|ms| - 1];
      Keep(ms[..|ms| - 1], running) + if (m.phase == PhaseRunning) == running then [m] else []
  }

  /** The stable order the trim uses: booting members, then running ones. */
  function BootingFirst(ms: seq<Machine>): (r: seq<Machine>) { Keep(ms, false) + Keep(ms, true) }

  function DeleteFirst(s: Store, batch: seq<Machine>, k: nat): (r: Store)
    requires k <= |batch|
    ensures |r.objs| == |s.objs|
    decreases k
  {
    if k == 0 then s
    else
      var t := DeleteFirst(s, batch, k - 1);
      var i := batch[k - 1].name;
      if i < |t.objs| then Write(t, i, t.objs[i].(deleting := true)) else t
  }

  function Member(p: Pool, name: nat, rv: nat): (m: Machine) {
    Machine(p.ns, name, rv, p.name, Warm, NoId, p.hash, NoPhase, false, 0, NoId, NoId)
  }

  function CreateFirst(s: Store, p: Pool, k: nat): (r: Store)
    ensures |r.objs| == |s.objs| + k
  {
    if k == 0 then s
    else
      var t := CreateFirst(s, p, k - 1);
      Store(t.objs + [Member(p, |t.objs|, t.clock + 1)], t.clock + 1)
  }

  datatype Done = Done(store: Store, ok: bool)

  function Least(a: nat, b: nat): (r: nat) { if a < b then a else b }

  function DeleteBatch(s: Store, batch: seq<Machine>, calls: nat): (r: Done) {
    var k := Least(calls, |batch|);
    Done(DeleteFirst(s, batch, k), k == |batch|)
  }

  /** Fills the pool, or trims it. */
  function Level(s: Store, p: Pool, current: seq<Machine>, calls: nat): (r: Done) {
    if |current| < Desired(p) then
      var k := Least(calls, Desired(p) - |current|);
      Done(CreateFirst(s, p, k), k == Desired(p) - |current|)
    else DeleteBatch(s, Surplus(p, current), calls)
  }

  function Surplus(p: Pool, current: seq<Machine>): (r: seq<Machine>)
    requires |current| >= Desired(p)
  {
    KeepLengths(current);
    BootingFirst(current)[..|current| - Desired(p)]
  }

  lemma {:induction false} KeepLengths(ms: seq<Machine>)
    ensures |Keep(ms, false)| + |Keep(ms, true)| == |ms|
  {
    if ms != [] { KeepLengths(ms[..|ms| - 1]); }
  }

  function ReconcilePool(s: Store, listing: seq<Machine>, bound: set<nat>, p: Pool, e: PoolEnv): (r: Done) {
    if !p.finalizer && !e.finalizerLands then Done(s, false)
    else
      var outdated := OutdatedOf(p, listing, bound);
      var d := DeleteBatch(s, outdated, e.calls);
      if !d.ok then d else Level(d.store, p, CurrentOf(p, listing, bound), e.calls - |outdated|)
  }

  // ----------------------------------------------------------------- counting

  datatype Kind = WarmCurrent | WarmRunning | WarmOutdated

  predicate Is(p: Pool, k: Kind, m: Machine) {
    && WarmIn(p, m)
    && match k
       case WarmCurrent => m.hash == p.hash
       case WarmRunning => m.hash == p.hash && m.phase == PhaseRunning
       case WarmOutdated => m.hash != p.hash
  }

  function Bit(b: bool): (r: nat) { if b then 1 else 0 }

  /** How many stored Machines are of the kind. */
  function Count(p: Pool, k: Kind, objs: seq<Machine>): (n: nat) {
    if objs == [] then 0 else Count(p, k, objs[..|objs| - 1]) + Bit(Is(p, k, objs[|objs| - 1]))
  }

  lemma {:induction false} CountUpdate(p: Pool, k: Kind, objs: seq<Machine>, i: nat, m: Machine)
    requires i < |objs|
    ensures Count(p, k, objs[i := m]) == Count(p, k, objs) - Bit(Is(p, k, objs[i])) + Bit(Is(p, k, m))
  {
    var front := objs[..|objs| - 1];
    if i == |objs| - 1 {
      assert objs[i := m][..|objs| - 1] == front;
    } else {
      CountUpdate(p, k, front, i, m);
      assert objs[i := m][..|objs| - 1] == front[i := m];
    }
  }

  lemma {:induction false} CreateCounts(s: Store, p: Pool, k: nat, kind: Kind)
    ensures Count(p, kind, CreateFirst(s, p, k).objs) == Count(p, kind, s.objs) + if kind == WarmCurrent then k else 0
  {
    if k > 0 {
      CreateCounts(s, p, k - 1, kind);
      var t := CreateFirst(s, p, k - 1);
      assert (t.objs + [Member(p, |t.objs|, t.clock + 1)])[..|t.objs|] == t.objs;
    }
  }

  predicate Distinct(ms: seq<Machine>) {
    forall i, j :: 0 <= i < j < |ms| ==> ms[i].name != ms[j].name
  }

  /** Every member of the batch is stored as it was listed. */
  predicate Stored(s: Store, batch: seq<Machine>) {
    forall m :: m in batch ==> m.name < |s.objs| && s.objs[m.name] == m
  }

  lemma {:induction false} DeleteElsewhere(s: Store, batch: seq<Machine>, k: nat, i: nat)
    requires k <= |batch| && i < |s.objs|
    requires forall j :: 0 <= j < k ==> batch[j].name != i
    ensures DeleteFirst(s, batch, k).objs[i] == s.objs[i]
    decreases k
  {
    if k > 0 { DeleteElsewhere(s, batch, k - 1, i); }
  }

  lemma {:induction false} DeleteOneCounts(t: Store, p: Pool, kind: Kind, m: Machine)
    requires m.name < |t.objs| && t.objs[m.name] == m
    ensures Count(p, kind, Write(t, m.name, m.(deleting := true)).objs) + Bit(Is(p, kind, m)) == Count(p, kind, t.objs)
  {
    CountUpdate(p, kind, t.objs, m.name, m.(deleting := true, rv := t.clock + 1));
  }

  lemma {:induction false} CountSnoc(p: Pool, kind: Kind, ms: seq<Machine>, k: nat)
    requires 0 < k <= |ms|
    ensures Count(p, kind, ms[..k]) == Count(p, kind, ms[..k - 1]) + Bit(Is(p, kind, ms[k - 1]))
  {
    assert ms[..k][..k - 1] == ms[..k - 1];
  }

  lemma {:induction false} DeleteCounts(s: Store, p: Pool, kind: Kind, batch: seq<Machine>, k: nat)
    requires k <= |batch| && Distinct(batch) && Stored(s, batch)
    ensures Count(p, kind, DeleteFirst(s, batch, k).objs) + Count(p, kind, batch[..k]) == Count(p, kind, s.objs)
    decreases k
  {
    if k > 0 {
      var m := batch[k - 1];
      assert m in batch;
      DeleteCounts(s, p, kind, batch, k - 1);
      DeleteElsewhere(s, batch, k - 1, m.name);
      DeleteOneCounts(DeleteFirst(s, batch, k - 1), p, kind, m);
      CountSnoc(p, kind, batch, k);
    }
  }

  // ------------------------------------------------- the listing and the store

  predicate Named(listing: seq<Machine>) { forall i :: 0 <= i < |listing| ==> listing[i].name == i }

  /** What the claim pass may have done to a listed Machine. */
  predicate Handed(m: Machine, now: Machine, bound: set<nat>) {
    if m.name in bound then m.state == Warm && now.state != Warm
    else now == m || (m.state != Warm && now.state != Warm)
  }

  predicate Agrees(listing: seq<Machine>, s: Store, bound: set<nat>) {
    && Named(listing) && |listing| <= |s.objs|
    && forall i :: 0 <= i < |listing| ==> Handed(listing[i], s.objs[i], bound)
  }

  /** No member of the pool was added since the listing. */
  predicate NoneAdded(p: Pool, listing: seq<Machine>, s: Store) {
    forall i :: |listing| <= i < |s.objs| ==> !WarmIn(p, s.objs[i])
  }

  lemma {:induction false} ListsAre(p: Pool, listing: seq<Machine>, bound: set<nat>, n: nat)
    requires Named(listing) && n <= |listing|
    ensures var current, outdated := CurrentOf(p, listing[..n], bound), OutdatedOf(p, listing[..n], bound);
            && Distinct(current) && Distinct(outdated)
            && (forall m :: m in current ==> m.name < n && listing[m.name] == m && m.name !in bound
                                             && WarmIn(p, m) && m.hash == p.hash)
            && (forall m :: m in outdated ==> m.name < n && listing[m.name] == m && m.name !in bound
                                              && WarmIn(p, m) && m.hash != p.hash)
  {
    if n > 0 {
      ListsAre(p, listing, bound, n - 1);
      assert listing[..n][..n - 1] == listing[..n - 1];
    }
  }

  lemma {:induction false} ListSnoc(p: Pool, listing: seq<Machine>, bound: set<nat>, n: nat)
    requires 0 < n <= |listing|
    ensures var before, m := CurrentOf(p, listing[..n - 1], bound), listing[n - 1];
            var fits := WarmIn(p, m) && m.name !in bound && m.hash == p.hash;
            && CurrentOf(p, listing[..n], bound) == before + (if fits then [m] else [])
            && |Keep(CurrentOf(p, listing[..n], bound), true)|
               == |Keep(before, true)| + Bit(fits && m.phase == PhaseRunning)
  {
    assert listing[..n][..n - 1] == listing[..n - 1];
    var before, m := CurrentOf(p, listing[..n - 1], bound), listing[n - 1];
    assert (before + [m])[..|before|] == before;
    assert before + [] == before;
  }

  lemma {:induction false} ListsCount(p: Pool, listing: seq<Machine>, s: Store, bound: set<nat>, n: nat)
    requires Agrees(listing, s, bound) && n <= |listing|
    ensures |CurrentOf(p, listing[..n], bound)| == Count(p, WarmCurrent, s.objs[..n])
    ensures |Keep(CurrentOf(p, listing[..n], bound), true)| == Count(p, WarmRunning, s.objs[..n])
  {
    if n > 0 {
      ListsCount(p, listing, s, bound, n - 1);
      ListSnoc(p, listing, bound, n);
      CountSnoc(p, WarmCurrent, s.objs, n);
      CountSnoc(p, WarmRunning, s.objs, n);
      assert Handed(listing[n - 1], s.objs[n - 1], bound);
    }
  }

  lemma {:induction false} OutdatedCount(p: Pool, listing: seq<Machine>, s: Store, bound: set<nat>, n: nat)
    requires Agrees(listing, s, bound) && n <= |listing|
    ensures |OutdatedOf(p, listing[..n], bound)| == Count(p, WarmOutdated, s.objs[..n])
  {
    if n > 0 {
      OutdatedCount(p, listing, s, bound, n - 1);
      assert listing[..n][..n - 1] == listing[..n - 1];
      CountSnoc(p, WarmOutdated, s.objs, n);
      assert Handed(listing[n - 1], s.objs[n - 1], bound);
    }
  }

  lemma {:induction false} CountTail(p: Pool, kind: Kind, objs: seq<Machine>, n: nat)
    requires n <= |objs| && forall i :: n <= i < |objs| ==> !WarmIn(p, objs[i])
    ensures Count(p, kind, objs) == Count(p, kind, objs[..n])
    decreases |objs|
  {
    if n == |objs| {
      assert objs[..n] == objs;
    } else {
      CountTail(p, kind, objs[..|objs| - 1], n);
      assert objs[..|objs| - 1][..n] == objs[..n];
    }
  }

  lemma {:induction false} ListsCountAll(p: Pool, listing: seq<Machine>, s: Store, bound: set<nat>)
    requires Agrees(listing, s, bound) && NoneAdded(p, listing, s)
    ensures |CurrentOf(p, listing, bound)| == Count(p, WarmCurrent, s.objs)
    ensures |OutdatedOf(p, listing, bound)| == Count(p, WarmOutdated, s.objs)
    ensures |Keep(CurrentOf(p, listing, bound), true)| == Count(p, WarmRunning, s.objs)
  {
    assert listing[..|listing|] == listing;
    ListsCount(p, listing, s, bound, |listing|);
    OutdatedCount(p, listing, s, bound, |listing|);
    CountTail(p, WarmCurrent, s.objs, |listing|);
    CountTail(p, WarmOutdated, s.objs, |listing|);
    CountTail(p, WarmRunning, s.objs, |listing|);
  }

  lemma {:induction false} ListsStored(p: Pool, listing: seq<Machine>, s: Store, bound: set<nat>)
    requires Agrees(listing, s, bound)
    ensures Stored(s, CurrentOf(p, listing, bound)) && Stored(s, OutdatedOf(p, listing, bound))
    ensures Distinct(CurrentOf(p, listing, bound)) && Distinct(OutdatedOf(p, listing, bound))
  {
    assert listing[..|listing|] == listing;
    ListsAre(p, listing, bound, |listing|);
    forall m | m in CurrentOf(p, listing, bound) || m in OutdatedOf(p, listing, bound)
      ensures m.name < |s.objs| && s.objs[m.name] == m
    {
      assert Handed(listing[m.name], s.objs[m.name], bound);
    }
  }

  // ------------------------------------------------------------ the trim order

  lemma {:induction false} KeepMembers(ms: seq<Machine>, running: bool)
    ensures forall m :: m in Keep(ms, running) ==> m in ms && (m.phase == PhaseRunning) == running
  {
    if ms != [] { KeepMembers(ms[..|ms| - 1], running); }
  }

  lemma {:induction false} KeepDistinct(ms: seq<Machine>, running: bool)
    requires Distinct(ms)
    ensures Distinct(Keep(ms, running))
  {
    if ms != [] {
      KeepDistinct(ms[..|ms| - 1], running);
      KeepMembers(ms[..|ms| - 1], running);
    }
  }

  lemma {:induction false} InPositions(ms: seq<Machine>, m: Machine) returns (i: nat)
    requires m in ms
    ensures i < |ms| && ms[i] == m
  {
    i :| 0 <= i < |ms| && ms[i] == m;
  }

  lemma {:induction false} BootingFirstDistinct(ms: seq<Machine>)
    requires Distinct(ms)
    ensures Distinct(BootingFirst(ms)) && |BootingFirst(ms)| == |ms|
    ensures forall m :: m in BootingFirst(ms) ==> m in ms
  {
    KeepLengths(ms);
    KeepDistinct(ms, false);
    KeepDistinct(ms, true);
    KeepMembers(ms, false);
    KeepMembers(ms, true);
    var a, b := Keep(ms, false), Keep(ms, true);
    forall i, j | 0 <= i < |a| && 0 <= j < |b| ensures a[i].name != b[j].name {
      assert a[i] in ms && b[j] in ms && a[i] != b[j];
      var x := InPositions(ms, a[i]);
      var y := InPositions(ms, b[j]);
    }
  }

  predicate AllAre(p: Pool, kind: Kind, ms: seq<Machine>) { forall i :: 0 <= i < |ms| ==> Is(p, kind, ms[i]) }
  predicate NoneIs(p: Pool, kind: Kind, ms: seq<Machine>) { forall i :: 0 <= i < |ms| ==> !Is(p, kind, ms[i]) }

  lemma {:induction false} CountAll(p: Pool, kind: Kind, ms: seq<Machine>)
    requires AllAre(p, kind, ms)
    ensures Count(p, kind, ms) == |ms|
  {
    if ms != [] { CountAll(p, kind, ms[..|ms| - 1]); }
  }

  lemma {:induction false} CountNone(p: Pool, kind: Kind, ms: seq<Machine>)
    requires NoneIs(p, kind, ms)
    ensures Count(p, kind, ms) == 0
  {
    if ms != [] { CountNone(p, kind, ms[..|ms| - 1]); }
  }

  lemma {:induction false} CountConcat(p: Pool, kind: Kind, a: seq<Machine>, b: seq<Machine>)
    ensures Count(p, kind, a + b) == Count(p, kind, a) + Count(p, kind, b)
  {
    if b == [] {
      assert a + b == a;
    } else {
      CountConcat(p, kind, a, b[..|b| - 1]);
      assert (a + b)[..|a + b| - 1] == a + b[..|b| - 1];
    }
  }

  /** Taking n from the front of the trim order takes a running member only when no
      booting one is left. */
  lemma {:induction false} RunningInFront(p: Pool, ms: seq<Machine>, n: nat)
    requires AllAre(p, WarmCurrent, ms) && n <= |BootingFirst(ms)|
    ensures Count(p, WarmRunning, BootingFirst(ms)[..n])
         == if n <= |Keep(ms, false)| then 0 else n - |Keep(ms, false)|
  {
    var a, b := Keep(ms, false), Keep(ms, true);
    KeepMembers(ms, false);
    KeepMembers(ms, true);
    if n <= |a| {
      assert (a + b)[..n] == a[..n];
      CountNone(p, WarmRunning, a[..n]);
    } else {
      assert (a + b)[..n] == a + b[..n - |a|];
      CountConcat(p, WarmRunning, a, b[..n - |a|]);
      CountNone(p, WarmRunning, a);
      CountAll(p, WarmRunning, b[..n - |a|]);
    }
  }

  // ------------------------------------------------------------------ theorems

  lemma {:induction false} OutdatedGone(s: Store, listing: seq<Machine>, bound: set<nat>, p: Pool, kind: Kind, k: nat)
    requires Agrees(listing, s, bound) && k <= |OutdatedOf(p, listing, bound)|
    ensures var r := DeleteFirst(s, OutdatedOf(p, listing, bound), k);
            Count(p, kind, r.objs) == Count(p, kind, s.objs) - if kind == WarmOutdated then k else 0
  {
    var batch := OutdatedOf(p, listing, bound);
    ListsStored(p, listing, s, bound);
    assert listing[..|listing|] == listing;
    ListsAre(p, listing, bound, |listing|);
    DeleteCounts(s, p, kind, batch, k);
    if kind == WarmOutdated { CountAll(p, kind, batch[..k]); } else { CountNone(p, kind, batch[..k]); }
  }

  /** Deleting the outdated leaves the store agreeing about the current ones. */
  lemma {:induction false} CurrentStillStored(s: Store, listing: seq<Machine>, bound: set<nat>, p: Pool, k: nat)
    requires Agrees(listing, s, bound) && k <= |OutdatedOf(p, listing, bound)|
    ensures Stored(DeleteFirst(s, OutdatedOf(p, listing, bound), k), CurrentOf(p, listing, bound))
  {
    var batch := OutdatedOf(p, listing, bound);
    ListsStored(p, listing, s, bound);
    assert listing[..|listing|] == listing;
    ListsAre(p, listing, bound, |listing|);
    forall m | m in CurrentOf(p, listing, bound)
      ensures m.name < |s.objs| && DeleteFirst(s, batch, k).objs[m.name] == m
    {
      forall j | 0 <= j < k ensures batch[j].name != m.name {
        assert batch[j] in batch;
      }
      DeleteElsewhere(s, batch, k, m.name);
    }
  }

  lemma {:induction false} LevelCounts(s: Store, p: Pool, current: seq<Machine>, calls: nat)
    requires AllAre(p, WarmCurrent, current) && Distinct(current) && Stored(s, current)
    requires Count(p, WarmCurrent, s.objs) == |current| && Count(p, WarmRunning, s.objs) == |Keep(current, true)|
    requires calls >= |current| + Desired(p)
    ensures var r := Level(s, p, current, calls);
            && r.ok
            && Count(p, WarmCurrent, r.store.objs) == Desired(p)
            && Count(p, WarmRunning, r.store.objs) == Least(Desired(p), Count(p, WarmRunning, s.objs))
            && Count(p, WarmOutdated, r.store.objs) == Count(p, WarmOutdated, s.objs)
  {
    KeepLengths(current);
    if |current| < Desired(p) {
      var n := Desired(p) - |current|;
      assert Level(s, p, current, calls) == Done(CreateFirst(s, p, n), true);
      CreateCounts(s, p, n, WarmCurrent);
      CreateCounts(s, p, n, WarmRunning);
      CreateCounts(s, p, n, WarmOutdated);
    } else {
      var batch := Surplus(p, current);
      assert Level(s, p, current, calls) == Done(DeleteFirst(s, batch, |batch|), true);
      TrimCounts(s, p, current);
    }
  }

  lemma {:induction false} TrimCounts(s: Store, p: Pool, current: seq<Machine>)
    requires AllAre(p, WarmCurrent, current) && Distinct(current) && Stored(s, current)
    requires |current| >= Desired(p)
    ensures var batch := Surplus(p, current);
            var r := DeleteFirst(s, batch, |batch|);
            && Count(p, WarmCurrent, r.objs) + |batch| == Count(p, WarmCurrent, s.objs)
            && Count(p, WarmRunning, r.objs) + (if |Keep(current, true)| > Desired(p)
                                                then |Keep(current, true)| - Desired(p) else 0)
               == Count(p, WarmRunning, s.objs)
            && Count(p, WarmOutdated, r.objs) == Count(p, WarmOutdated, s.objs)
  {
    var batch := Surplus(p, current);
    SurplusIs(s, p, current);
    assert batch[..|batch|] == batch;
    DeleteCounts(s, p, WarmCurrent, batch, |batch|);
    DeleteCounts(s, p, WarmRunning, batch, |batch|);
    DeleteCounts(s, p, WarmOutdated, batch, |batch|);
    CountAll(p, WarmCurrent, batch);
    CountNone(p, WarmOutdated, batch);
  }

  lemma {:induction false} SurplusIs(s: Store, p: Pool, current: seq<Machine>)
    requires AllAre(p, WarmCurrent, current) && Distinct(current) && Stored(s, current)
    requires |current| >= Desired(p)
    ensures var batch := Surplus(p, current);
            && |batch| == |current| - Desired(p)
            && Distinct(batch) && Stored(s, batch) && AllAre(p, WarmCurrent, batch) && NoneIs(p, WarmOutdated, batch)
            && Count(p, WarmRunning, batch)
               == if |Keep(current, true)| > Desired(p) then |Keep(current, true)| - Desired(p) else 0
  {
    var batch := Surplus(p, current);
    KeepLengths(current);
    BootingFirstDistinct(current);
    forall m | m in batch ensures m in current { assert m in BootingFirst(current); }
    assert AllAre(p, WarmCurrent, batch);
    forall i | 0 <= i < |batch| ensures !Is(p, WarmOutdated, batch[i]) { assert Is(p, WarmCurrent, batch[i]); }
    RunningInFront(p, current, |batch|);
  }

  /** A pool pass whose calls succeed leaves exactly the desired number of warm members
      built from the current template and none from an older one, with as many of the
      running members as fit. */
  lemma {:induction false} PoolLevels(s: Store, listing: seq<Machine>, bound: set<nat>, p: Pool, e: PoolEnv)
    requires Agrees(listing, s, bound) && NoneAdded(p, listing, s)
    requires (p.finalizer || e.finalizerLands) && e.calls >= 2 * |listing| + Desired(p)
    ensures var r := ReconcilePool(s, listing, bound, p, e);
            && r.ok
            && Count(p, WarmCurrent, r.store.objs) == Desired(p)
            && Count(p, WarmOutdated, r.store.objs) == 0
            && Count(p, WarmRunning, r.store.objs) == Least(Desired(p), Count(p, WarmRunning, s.objs))
  {
    var outdated, current := OutdatedOf(p, listing, bound), CurrentOf(p, listing, bound);
    var rest := DeleteFirst(s, outdated, |outdated|);
    ListsFit(p, listing, bound);
    assert ReconcilePool(s, listing, bound, p, e) == Level(rest, p, current, e.calls - |outdated|);
    OutdatedCleared(s, listing, bound, p);
    LevelCounts(rest, p, current, e.calls - |outdated|);
  }

  /** With the outdated gone, the current members are as listed and all that is warm. */
  lemma {:induction false} OutdatedCleared(s: Store, listing: seq<Machine>, bound: set<nat>, p: Pool)
    requires Agrees(listing, s, bound) && NoneAdded(p, listing, s)
    ensures var outdated, current := OutdatedOf(p, listing, bound), CurrentOf(p, listing, bound);
            var rest := DeleteFirst(s, outdated, |outdated|);
            && AllAre(p, WarmCurrent, current) && Distinct(current) && Stored(rest, current)
            && Count(p, WarmCurrent, rest.objs) == |current|
            && Count(p, WarmRunning, rest.objs) == |Keep(current, true)| == Count(p, WarmRunning, s.objs)
            && Count(p, WarmOutdated, rest.objs) == 0
  {
    var n := |OutdatedOf(p, listing, bound)|;
    ListsCountAll(p, listing, s, bound);
    OutdatedGone(s, listing, bound, p, WarmCurrent, n);
    OutdatedGone(s, listing, bound, p, WarmOutdated, n);
    OutdatedGone(s, listing, bound, p, WarmRunning, n);
    CurrentStillStored(s, listing, bound, p, n);
    ListsStored(p, listing, s, bound);
    CurrentAre(p, listing, bound);
  }

  lemma {:induction false} CurrentAre(p: Pool, listing: seq<Machine>, bound: set<nat>)
    requires Named(listing)
    ensures AllAre(p, WarmCurrent, CurrentOf(p, listing, bound))
  {
    assert listing[..|listing|] == listing;
    ListsAre(p, listing, bound, |listing|);
  }

  lemma {:induction false} ListsFit(p: Pool, listing: seq<Machine>, bound: set<nat>)
    ensures |CurrentOf(p, listing, bound)| + |OutdatedOf(p, listing, bound)| <= |listing|
  {
    if listing != [] { ListsFit(p, listing[..|listing| - 1], bound); }
  }

  /** Whatever fails, the pool pass leaves alone every Machine bound this tick and every
      listed one that is not a warm member of the pool. */
  lemma {:induction false} PoolSpares(s: Store, listing: seq<Machine>, bound: set<nat>, p: Pool, e: PoolEnv, i: nat)
    requires Named(listing) && i < |listing| <= |s.objs|
    requires i in bound || !WarmIn(p, listing[i])
    ensures var r := ReconcilePool(s, listing, bound, p, e); i < |r.store.objs| && r.store.objs[i] == s.objs[i]
  {
    var outdated, current := OutdatedOf(p, listing, bound), CurrentOf(p, listing, bound);
    NotInLists(p, listing, bound, i);
    var k := Least(e.calls, |outdated|);
    forall j | 0 <= j < k ensures outdated[j].name != i { assert outdated[j] in outdated; }
    DeleteElsewhere(s, outdated, k, i);
    if !p.finalizer && !e.finalizerLands {
    } else if k < |outdated| {
      assert ReconcilePool(s, listing, bound, p, e) == Done(DeleteFirst(s, outdated, k), false);
    } else {
      assert ReconcilePool(s, listing, bound, p, e) == Level(DeleteFirst(s, outdated, k), p, current, e.calls - k);
      LevelSpares(DeleteFirst(s, outdated, k), p, current, e.calls - k, i);
    }
  }

  lemma {:induction false} NotInLists(p: Pool, listing: seq<Machine>, bound: set<nat>, i: nat)
    requires Named(listing) && i < |listing| && (i in bound || !WarmIn(p, listing[i]))
    ensures Distinct(CurrentOf(p, listing, bound))
    ensures forall m :: m in CurrentOf(p, listing, bound) ==> m.name != i
    ensures forall m :: m in OutdatedOf(p, listing, bound) ==> m.name != i
  {
    assert listing[..|listing|] == listing;
    ListsAre(p, listing, bound, |listing|);
  }

  lemma {:induction false} LevelSpares(s: Store, p: Pool, current: seq<Machine>, calls: nat, i: nat)
    requires i < |s.objs| && Distinct(current) && forall m :: m in current ==> m.name != i
    ensures var r := Level(s, p, current, calls); i < |r.store.objs| && r.store.objs[i] == s.objs[i]
  {
    if |current| < Desired(p) {
      CreateAppends(s, p, Least(calls, Desired(p) - |current|));
    } else {
      BootingFirstDistinct(current);
      var batch := Surplus(p, current);
      var k := Least(calls, |batch|);
      forall j | 0 <= j < k ensures batch[j].name != i { assert batch[j] in BootingFirst(current); }
      DeleteElsewhere(s, batch, k, i);
    }
  }

  lemma {:induction false} CreateAppends(s: Store, p: Pool, k: nat)
    ensures s.objs <= CreateFirst(s, p, k).objs
  {
    if k > 0 { CreateAppends(s, p, k - 1); }
  }
}
