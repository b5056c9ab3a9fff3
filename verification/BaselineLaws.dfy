/** What the baseline's running mean and variance are, after any history. */
module BaselineLaws {

  import opened Baseline

  // ------------------------------------------------------------------ the test

  /** The test as it is computed, for the standard deviation `root`. */
  lemma {:induction false} FlagsIsZScore(d: real, vari: real, k: real, floor: real, root: real)
    requires k >= 0.0 && floor > 0.0 && root >= 0.0 && root * root == vari
    ensures var std := if root > floor then root else floor;
            Flags(d, vari, k, floor) <==> d / std > k
  {
    var std := if root > floor then root else floor;
    DivIsMul(d, std, k);
    MulMono(k, floor, std);
    MulMono(k, root, std);
    SquareRoot(d, k, root);
  }

  lemma {:induction false} DivIsMul(d: real, s: real, k: real)
    requires s > 0.0
    ensures d / s > k <==> d > k * s
  {
    var q := d / s;
    assert d == s * q;
    if q > k { MulStrict(s, k, q); } else { MulMono(s, q, k); }
  }

  lemma {:induction false} MulMono(k: real, a: real, b: real)
    requires k >= 0.0 && a <= b
    ensures k * a <= k * b
  {
  }

  lemma {:induction false} MulStrict(k: real, a: real, b: real)
    requires k > 0.0 && a < b
    ensures k * a < k * b
  {
  }

  /** For a non-negative bound, exceeding it and exceeding its square are the same. */
  lemma {:induction false} SquareRoot(d: real, k: real, root: real)
    requires k >= 0.0 && root >= 0.0
    ensures (d > 0.0 && d * d > k * k * (root * root)) <==> d > k * root
  {
    MulMono(k, 0.0, root);
    SquareOfProduct(k, root);
    SquareOrder(d, k * root);
  }

  lemma {:induction false} SquareOfProduct(k: real, root: real)
    ensures (k * root) * (k * root) == k * k * (root * root)
  {
    calc {
      (k * root) * (k * root);
      k * (root * (k * root));
      k * (k * (root * root));
      k * k * (root * root);
    }
  }

  lemma {:induction false} SquareOrder(d: real, b: real)
    requires b >= 0.0
    ensures (d > 0.0 && d * d > b * b) <==> d > b
  {
    if d > b { SquareGrows(b, d); } else if d > 0.0 { SquareGrows(d, b); }
  }

  lemma {:induction false} SquareGrows(a: real, b: real)
    requires 0.0 <= a <= b
    ensures a * a <= b * b
    ensures a < b ==> a * a < b * b
  {
    if a < b {
      calc {
        a * a;
      <= { MulMono(a, a, b); }
        a * b;
      < { MulStrict(b, a, b); }
        b * b;
      }
    }
  }

  // -------------------------------------------------------- mean and variance

  function NextSquare(a: real, q: real, v: real): (r: real) { (1.0 - a) * q + a * (v * v) }

  function FoldSquares(a: real, q: Vec, x: Vec): (r: Vec)
    requires |q| == |x|
    ensures |r| == |x|
  {
    seq(|x|, i requires 0 <= i < |x| => NextSquare(a, q[i], x[i]))
  }

  /** The mean of squares under the same weights: an independent reference for the variance. */
  function MeanSquares(c: Config, hs: seq<Sample>): (q: Vec)
    requires hs != [] && Fits(c, hs)
    ensures |q| == |c.floor|
  {
    var x := hs[|hs| - 1].x;
    if |hs| == 1 then seq(|x|, i requires 0 <= i < |x| => x[i] * x[i])
    else FoldSquares(Weight(c, After(c, hs[..|hs| - 1]), x), MeanSquares(c, hs[..|hs| - 1]), x)
  }

  lemma {:induction false} WeightRange(c: Config, s: Stat, x: Vec)
    requires Valid(c) && Shaped(c, s) && |x| == |c.floor|
    ensures 0.0 < Weight(c, s, x) <= 1.0
  {
  }

  /** Variance plus squared mean is the mean of squares, in every metric. */
  predicate Spread(s: Stat, q: Vec) {
    |s.mean| == |s.vari| == |q| && forall i :: 0 <= i < |q| ==> SpreadAt(s.vari[i], s.mean[i], q[i])
  }

  predicate SpreadAt(vari: real, mean: real, q: real) { vari + mean * mean == q }

  lemma {:induction false} VarianceStep(a: real, mean: real, vari: real, v: real, q: real)
    requires SpreadAt(vari, mean, q)
    ensures SpreadAt(NextVar(a, mean, vari, v), NextMean(a, mean, v), NextSquare(a, q, v))
  {
    var d := v - mean;
    var e := a * d;
    SquareSum(mean, e);
    SquareSum(mean, d);
    assert v == mean + d;
    assert NextVar(a, mean, vari, v) == (1.0 - a) * (vari + e * d);
    calc {
      (1.0 - a) * (vari + e * d) + (mean + e) * (mean + e);
      (1.0 - a) * vari + e * d - a * (e * d) + mean * mean + 2.0 * (mean * e) + e * e;
      { assert a * (e * d) == e * e; }
      (1.0 - a) * vari + e * d + mean * mean + 2.0 * (mean * e);
      { assert (1.0 - a) * vari + mean * mean == (1.0 - a) * (vari + mean * mean) + a * (mean * mean); }
      (1.0 - a) * q + a * (mean * mean) + 2.0 * (mean * e) + e * d;
      { assert mean * e == a * (mean * d) && e * d == a * (d * d); }
      (1.0 - a) * q + a * (mean * mean + 2.0 * (mean * d) + d * d);
    }
  }

  lemma {:induction false} SquareSum(m: real, d: real)
    ensures (m + d) * (m + d) == m * m + 2.0 * (m * d) + d * d
  {
  }

  lemma {:induction false} SpreadStep(c: Config, s: Stat, q: Vec, x: Vec, now: int)
    requires Shaped(c, s) && |x| == |c.floor| && Spread(s, q)
    ensures Spread(Fold(c, s, x, now), FoldSquares(Weight(c, s, x), q, x))
  {
    var a := Weight(c, s, x);
    var r, p := Fold(c, s, x, now), FoldSquares(a, q, x);
    forall i | 0 <= i < |p| ensures SpreadAt(r.vari[i], r.mean[i], p[i]) {
      VarianceStep(a, s.mean[i], s.vari[i], x[i], q[i]);
    }
  }

  /** After any history, in every metric, variance plus squared mean is the weighted mean of
      squares. */
  lemma {:induction false} VarianceIsSpread(c: Config, hs: seq<Sample>)
    requires hs != [] && Fits(c, hs)
    ensures Spread(After(c, hs), MeanSquares(c, hs))
  {
    if |hs| > 1 {
      var front, h := hs[..|hs| - 1], hs[|hs| - 1];
      VarianceIsSpread(c, front);
      SpreadStep(c, After(c, front), MeanSquares(c, front), h.x, h.now);
    }
  }

  /** Every sample of metric i lies between a and b. */
  predicate Within(hs: seq<Sample>, i: nat, a: real, b: real)
    requires forall j :: 0 <= j < |hs| ==> i < |hs[j].x|
  {
    forall j :: 0 <= j < |hs| ==> a <= hs[j].x[i] <= b
  }

  predicate Between(m: real, a: real, b: real) { a <= m <= b }

  lemma {:induction false} MixIs(w: real, m: real, v: real)
    ensures NextMean(w, m, v) == (1.0 - w) * m + w * v
  {
    calc {
      m + w * (v - m);
      m + (w * v - w * m);
      (1.0 - w) * m + w * v;
    }
  }

  lemma {:induction false} MixSame(u: real, w: real, a: real)
    requires u + w == 1.0
    ensures u * a + w * a == a
  {
    assert u * a + w * a == (u + w) * a;
  }

  lemma {:induction false} MixBelow(u: real, w: real, m: real, v: real, b: real)
    requires 0.0 <= u && 0.0 <= w && u + w == 1.0 && m <= b && v <= b
    ensures u * m + w * v <= b
  {
    calc {
      u * m + w * v;
    <= { MulMono(u, m, b); }
      u * b + w * v;
    <= { MulMono(w, v, b); }
      u * b + w * b;
      { MixSame(u, w, b); }
      b;
    }
  }

  lemma {:induction false} MixAbove(u: real, w: real, m: real, v: real, a: real)
    requires 0.0 <= u && 0.0 <= w && u + w == 1.0 && a <= m && a <= v
    ensures a <= u * m + w * v
  {
    calc {
      a;
      { MixSame(u, w, a); }
      u * a + w * a;
    <= { MulMono(u, a, m); }
      u * m + w * a;
    <= { MulMono(w, a, v); }
      u * m + w * v;
    }
  }

  lemma {:induction false} MixBetween(w: real, m: real, v: real, a: real, b: real)
    requires 0.0 <= w <= 1.0 && Between(m, a, b) && Between(v, a, b)
    ensures Between(NextMean(w, m, v), a, b)
  {
    MixIs(w, m, v);
    MixBelow(1.0 - w, w, m, v, b);
    MixAbove(1.0 - w, w, m, v, a);
  }

  /** The mean stays within the range of the samples. */
  lemma {:induction false} MeanWithin(c: Config, hs: seq<Sample>, i: nat, a: real, b: real)
    requires Valid(c) && hs != [] && Fits(c, hs) && i < |c.floor| && Within(hs, i, a, b)
    ensures Between(After(c, hs).mean[i], a, b)
  {
    if |hs| > 1 {
      var front, x := hs[..|hs| - 1], hs[|hs| - 1].x;
      MeanWithin(c, front, i, a, b);
      WeightRange(c, After(c, front), x);
      MixBetween(Weight(c, After(c, front), x), After(c, front).mean[i], x[i], a, b);
    }
  }

  /** On or below the chord of the parabola between a and b. */
  predicate BelowChord(q: real, m: real, a: real, b: real) { q <= (a + b) * m - a * b }

  lemma {:induction false} Chord(v: real, a: real, b: real)
    requires a <= v <= b
    ensures BelowChord(v * v, v, a, b)
  {
    MulMono(b - v, 0.0, v - a);
    calc {
      (b - v) * (v - a);
      b * v - b * a - v * v + v * a;
      (a + b) * v - a * b - v * v;
    }
  }

  lemma {:induction false} LineMix(u: real, w: real, m: real, v: real, slope: real, drop: real)
    requires u + w == 1.0
    ensures u * (slope * m - drop) + w * (slope * v - drop) == slope * (u * m + w * v) - drop
  {
    var p, q := slope * m, slope * v;
    calc {
      u * (p - drop) + w * (q - drop);
      u * p + w * q - (u * drop + w * drop);
      { MixSame(u, w, drop); }
      u * p + w * q - drop;
    }
    calc {
      slope * (u * m + w * v);
      slope * (u * m) + slope * (w * v);
      u * p + w * q;
    }
  }

  lemma {:induction false} PointMix(u: real, w: real, q: real, m: real, t: real, v: real, slope: real, drop: real)
    requires 0.0 <= u && 0.0 <= w && u + w == 1.0 && q <= slope * m - drop && t <= slope * v - drop
    ensures u * q + w * t <= slope * (u * m + w * v) - drop
  {
    calc {
      u * q + w * t;
    <= { MulMono(u, q, slope * m - drop); }
      u * (slope * m - drop) + w * t;
    <= { MulMono(w, t, slope * v - drop); }
      u * (slope * m - drop) + w * (slope * v - drop);
      { LineMix(u, w, m, v, slope, drop); }
      slope * (u * m + w * v) - drop;
    }
  }

  /** A weighted mean of points below a line is below the line. */
  lemma {:induction false} ChordMix(w: real, q: real, m: real, v: real, a: real, b: real)
    requires 0.0 <= w <= 1.0 && BelowChord(q, m, a, b) && BelowChord(v * v, v, a, b)
    ensures BelowChord(NextSquare(w, q, v), NextMean(w, m, v), a, b)
  {
    MixIs(w, m, v);
    PointMix(1.0 - w, w, q, m, v * v, v, a + b, a * b);
  }

  /** Metric i of a state and its mean of squares. */
  predicate ChordAt(s: Stat, q: Vec, i: nat, a: real, b: real) {
    i < |s.mean| && i < |q| && BelowChord(q[i], s.mean[i], a, b)
  }

  lemma {:induction false} ChordStep(c: Config, s: Stat, q: Vec, h: Sample, i: nat, a: real, b: real)
    requires Valid(c) && Shaped(c, s) && |h.x| == |c.floor| == |q| && i < |q|
    requires ChordAt(s, q, i, a, b) && Between(h.x[i], a, b)
    ensures ChordAt(Fold(c, s, h.x, h.now), FoldSquares(Weight(c, s, h.x), q, h.x), i, a, b)
  {
    Chord(h.x[i], a, b);
    WeightRange(c, s, h.x);
    ChordMix(Weight(c, s, h.x), q[i], s.mean[i], h.x[i], a, b);
  }

  lemma {:induction false} SpreadBounded(c: Config, hs: seq<Sample>, i: nat, a: real, b: real)
    requires Valid(c) && hs != [] && Fits(c, hs) && i < |c.floor| && Within(hs, i, a, b)
    ensures ChordAt(After(c, hs), MeanSquares(c, hs), i, a, b)
  {
    var h := hs[|hs| - 1];
    assert Between(h.x[i], a, b);
    if |hs| == 1 {
      Chord(h.x[i], a, b);
    } else {
      var front := hs[..|hs| - 1];
      SpreadBounded(c, front, i, a, b);
      ChordStep(c, After(c, front), MeanSquares(c, front), h, i, a, b);
    }
  }

  lemma {:induction false} VarStepNonNegative(a: real, mean: real, vari: real, v: real)
    requires 0.0 <= a <= 1.0 && vari >= 0.0
    ensures NextVar(a, mean, vari, v) >= 0.0
  {
    var d := v - mean;
    SquareNonNegative(d);
    MulMono(a, 0.0, d * d);
    assert a * (v - mean) * (v - mean) == a * (d * d);
    MulMono(1.0 - a, 0.0, vari + a * (d * d));
  }

  lemma {:induction false} SquareNonNegative(d: real)
    ensures d * d >= 0.0
  {
    if d >= 0.0 {
      MulMono(d, 0.0, d);
    } else {
      MulMono(-d, 0.0, -d);
      assert (-d) * (-d) == d * d;
    }
  }

  predicate NonNegative(xs: Vec) { forall i :: 0 <= i < |xs| ==> xs[i] >= 0.0 }

  lemma {:induction false} VarianceNonNegative(c: Config, hs: seq<Sample>)
    requires Valid(c) && hs != [] && Fits(c, hs)
    ensures NonNegative(After(c, hs).vari)
  {
    if |hs| > 1 {
      var front, h := hs[..|hs| - 1], hs[|hs| - 1];
      var s := After(c, front);
      VarianceNonNegative(c, front);
      WeightRange(c, s, h.x);
      forall i | 0 <= i < |s.vari| ensures Fold(c, s, h.x, h.now).vari[i] >= 0.0 {
        VarStepNonNegative(Weight(c, s, h.x), s.mean[i], s.vari[i], h.x[i]);
      }
    }
  }

  predicate BelowArchAt(vari: real, m: real, a: real, b: real) { vari <= (b - m) * (m - a) }

  lemma {:induction false} BelowArch(q: real, vari: real, m: real, a: real, b: real)
    requires SpreadAt(vari, m, q) && BelowChord(q, m, a, b)
    ensures BelowArchAt(vari, m, a, b)
  {
    calc {
      (b - m) * (m - a);
      b * m - b * a - m * m + m * a;
      (a + b) * m - a * b - m * m;
    }
  }

  /** The variance is never negative and never above what the range of the samples allows
      at that mean. */
  lemma {:induction false} VarianceBounded(c: Config, hs: seq<Sample>, i: nat, a: real, b: real)
    requires Valid(c) && hs != [] && Fits(c, hs) && i < |c.floor| && Within(hs, i, a, b)
    ensures var s := After(c, hs); s.vari[i] >= 0.0 && BelowArchAt(s.vari[i], s.mean[i], a, b)
  {
    var s, q := After(c, hs), MeanSquares(c, hs);
    VarianceNonNegative(c, hs);
    VarianceIsSpread(c, hs);
    SpreadBounded(c, hs, i, a, b);
    BelowArch(q[i], s.vari[i], s.mean[i], a, b);
  }

  /** Of the samples after the first, those within the warm-up are never flagged. */
  lemma {:induction false} WarmupNeverFlags(c: Config, hs: seq<Sample>, x: Vec)
    requires hs != [] && Fits(c, hs) && |x| == |c.floor| && |hs| < c.warmup
    ensures Found(c, After(c, hs), x) == []
  {
    CountIsLength(c, hs);
  }

  lemma {:induction false} CountIsLength(c: Config, hs: seq<Sample>)
    requires hs != [] && Fits(c, hs)
    ensures After(c, hs).n == |hs|
  {
    if |hs| > 1 { CountIsLength(c, hs[..|hs| - 1]); }
  }

  // ------------------------------------------------------- a sustained deviation

  function Pow(b: real, k: nat): (r: real) { if k == 0 then 1.0 else b * Pow(b, k - 1) }

  /** k samples of the same value, each of them flagged. */
  function Repeat(c: Config, s: Stat, x: Vec, now: int, k: nat): (r: Stat)
    requires Shaped(c, s) && |x| == |c.floor|
    ensures Shaped(c, r)
  {
    if k == 0 then s else Fold(c, Repeat(c, s, x, now, k - 1), x, now)
  }

  predicate FlaggedThroughout(c: Config, s: Stat, x: Vec, now: int, k: nat)
    requires Shaped(c, s) && |x| == |c.floor|
  {
    k == 0 || (FlaggedThroughout(c, s, x, now, k - 1) && Found(c, Repeat(c, s, x, now, k - 1), x) != [])
  }

  /** The gap to x in every metric is `factor` times what it was. */
  predicate GapTimes(was: Stat, now: Stat, x: Vec, factor: real) {
    && |was.mean| == |now.mean| == |x|
    && forall i :: 0 <= i < |x| ==> GapAt(was.mean[i], now.mean[i], x[i], factor)
  }

  predicate GapAt(was: real, now: real, v: real, factor: real) { v - now == factor * (v - was) }

  /** Each flagged repetition closes exactly a quarter of the weight of the gap, so k of
      them leave the gap times (1 - alpha/4) to the k, in every metric. */
  lemma {:induction false} FlaggedGapShrinks(c: Config, s: Stat, x: Vec, now: int, k: nat)
    requires Shaped(c, s) && |x| == |c.floor| && FlaggedThroughout(c, s, x, now, k)
    ensures GapTimes(s, Repeat(c, s, x, now, k), x, Pow(1.0 - c.alpha / 4.0, k))
  {
    var factor := RepeatShrinks(c, s, x, now, k, 1.0 - c.alpha / 4.0);
  }

  lemma {:induction false} RepeatShrinks(c: Config, s: Stat, x: Vec, now: int, k: nat, b: real) returns (factor: real)
    requires Shaped(c, s) && |x| == |c.floor| && FlaggedThroughout(c, s, x, now, k) && b == 1.0 - c.alpha / 4.0
    ensures factor == Pow(b, k)
    ensures GapTimes(s, Repeat(c, s, x, now, k), x, factor)
  {
    if k == 0 {
      GapNone(s, x);
      factor := 1.0;
    } else {
      var before := RepeatShrinks(c, s, x, now, k - 1, b);
      factor := GapFold(c, s, Repeat(c, s, x, now, k - 1), x, now, before, b);
    }
  }

  lemma {:induction false} GapNone(s: Stat, x: Vec)
    requires |s.mean| == |x|
    ensures GapTimes(s, s, x, 1.0)
  {
  }

  lemma {:induction false} GapFold(c: Config, was: Stat, s: Stat, x: Vec, now: int, factor: real, b: real)
    returns (r: real)
    requires Shaped(c, s) && |x| == |c.floor| && Found(c, s, x) != [] && GapTimes(was, s, x, factor)
    requires b == 1.0 - c.alpha / 4.0
    ensures r == b * factor
    ensures GapTimes(was, Fold(c, s, x, now), x, r)
  {
    r := b * factor;
    forall i | 0 <= i < |x| ensures GapAt(was.mean[i], Fold(c, s, x, now).mean[i], x[i], r) {
      GapStep(c.alpha / 4.0, was.mean[i], s.mean[i], x[i], factor);
    }
  }

  lemma {:induction false} GapStep(a: real, was: real, mean: real, v: real, factor: real)
    requires GapAt(was, mean, v, factor)
    ensures GapAt(was, NextMean(a, mean, v), v, (1.0 - a) * factor)
  {
    var gap := v - was;
    calc {
      v - (mean + a * (v - mean));
      (1.0 - a) * (v - mean);
      (1.0 - a) * (factor * gap);
      ((1.0 - a) * factor) * gap;
    }
  }

  // ----------------------------------------------------------------- many keys

  /** However observations of different Machines are interleaved, a key's state is what its
      own samples alone lead to. */
  lemma {:induction false} KeysAreIndependent(c: Config, os: seq<Observation>, k: Key)
    requires AllFit(c, os)
    ensures Fits(c, HistoryOf(os, k))
    ensures k in ObserveAll(c, os) <==> HistoryOf(os, k) != []
    ensures k in ObserveAll(c, os) ==> ObserveAll(c, os)[k] == After(c, HistoryOf(os, k))
  {
    if os != [] {
      KeysAreIndependent(c, os[..|os| - 1], k);
      var hs, o := HistoryOf(os[..|os| - 1], k), os[|os| - 1];
      assert (hs + [o.sample])[..|hs|] == hs;
      assert hs + [] == hs;
    }
  }
}
