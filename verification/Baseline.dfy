/**
 The traffic baseline: an exponentially weighted mean and variance per metric, over the
 reals. A square root never appears: a value lies more than k standard deviations above
 the mean when its squared distance exceeds k squared times the variance.
 */
module Baseline {

  type Vec = seq<real>

  /** `floor` holds the smallest standard deviation per metric. */
  datatype Config = Config(alpha: real, k: real, warmup: int, floor: Vec)

  predicate Valid(c: Config) {
    && 0.0 < c.alpha <= 1.0 && c.k >= 0.0
    && forall i :: 0 <= i < |c.floor| ==> c.floor[i] > 0.0
  }

  datatype Stat = Stat(n: nat, mean: Vec, vari: Vec, seen: int)

  predicate Shaped(c: Config, s: Stat) { |s.mean| == |s.vari| == |c.floor| }

  /** More than k standard deviations above the mean. */
  predicate Flags(d: real, vari: real, k: real, floor: real) {
    d > k * floor && d > 0.0 && d * d > k * k * vari
  }

  // ------------------------------------------------------------------ one sample

  predicate FlagsAt(c: Config, s: Stat, x: Vec, i: nat)
    requires Shaped(c, s) && |x| == |c.floor| && i < |x|
  {
    Flags(x[i] - s.mean[i], s.vari[i], c.k, c.floor[i])
  }

  /** The metrics a sample is flagged for. */
  function Found(c: Config, s: Stat, x: Vec): (r: seq<nat>)
    requires Shaped(c, s) && |x| == |c.floor|
    ensures forall i :: i in r ==> i < |x|
  {
    if s.n < c.warmup then [] else FoundUpTo(c, s, x, |x|)
  }

  function FoundUpTo(c: Config, s: Stat, x: Vec, n: nat): (r: seq<nat>)
    requires Shaped(c, s) && |x| == |c.floor| && n <= |x|
    ensures forall i :: i in r ==> i < n
  {
    if n == 0 then [] else FoundUpTo(c, s, x, n - 1) + if FlagsAt(c, s, x, n - 1) then [n - 1] else []
  }

  /** A deviating sample counts for a quarter. */
  function Weight(c: Config, s: Stat, x: Vec): (a: real)
    requires Shaped(c, s) && |x| == |c.floor|
  {
    if Found(c, s, x) == [] then c.alpha else c.alpha / 4.0
  }

  function NextMean(a: real, mean: real, v: real): (r: real) { mean + a * (v - mean) }

  function NextVar(a: real, mean: real, vari: real, v: real): (r: real) {
    (1.0 - a) * (vari + a * (v - mean) * (v - mean))
  }

  function First(c: Config, x: Vec, now: int): (s: Stat)
    requires |x| == |c.floor|
    ensures Shaped(c, s)
  {
    Stat(1, x, seq(|x|, i => 0.0), now)
  }

  function Fold(c: Config, s: Stat, x: Vec, now: int): (r: Stat)
    requires Shaped(c, s) && |x| == |c.floor|
    ensures Shaped(c, r)
  {
    var a := Weight(c, s, x);
    Stat(s.n + 1,
         seq(|x|, i requires 0 <= i < |x| => NextMean(a, s.mean[i], x[i])),
         seq(|x|, i requires 0 <= i < |x| => NextVar(a, s.mean[i], s.vari[i], x[i])),
         now)
  }

  // ---------------------------------------------------------------- one history

  datatype Sample = Sample(x: Vec, now: int)

  predicate Fits(c: Config, hs: seq<Sample>) { forall i :: 0 <= i < |hs| ==> |hs[i].x| == |c.floor| }

  /** The state a non-empty history leads to. */
  function After(c: Config, hs: seq<Sample>): (s: Stat)
    requires hs != [] && Fits(c, hs)
    ensures Shaped(c, s)
  {
    var h := hs[|hs| - 1];
    if |hs| == 1 then First(c, h.x, h.now) else Fold(c, After(c, hs[..|hs| - 1]), h.x, h.now)
  }

  // ----------------------------------------------------------------- many keys

  type Key = nat

  datatype Observation = Observation(key: Key, sample: Sample)

  function Observe(c: Config, stats: map<Key, Stat>, o: Observation): (r: map<Key, Stat>)
    requires |o.sample.x| == |c.floor| && forall k :: k in stats ==> Shaped(c, stats[k])
    ensures forall k :: k in r ==> Shaped(c, r[k])
  {
    if o.key in stats then stats[o.key := Fold(c, stats[o.key], o.sample.x, o.sample.now)]
    else stats[o.key := First(c, o.sample.x, o.sample.now)]
  }

  predicate AllFit(c: Config, os: seq<Observation>) { forall i :: 0 <= i < |os| ==> |os[i].sample.x| == |c.floor| }

  function ObserveAll(c: Config, os: seq<Observation>): (r: map<Key, Stat>)
    requires AllFit(c, os)
    ensures forall k :: k in r ==> Shaped(c, r[k])
  {
    if os == [] then map[] else Observe(c, ObserveAll(c, os[..|os| - 1]), os[|os| - 1])
  }

  function HistoryOf(os: seq<Observation>, k: Key): (hs: seq<Sample>) {
    if os == [] then []
    else HistoryOf(os[..|os| - 1], k) + if os[|os| - 1].key == k then [os[|os| - 1].sample] else []
  }

  function Prune(stats: map<Key, Stat>, before: int): (r: map<Key, Stat>) {
    map k | k in stats && stats[k].seen >= before :: stats[k]
  }
}
