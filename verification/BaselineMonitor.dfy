/** The baseline as it is kept in memory: one entry per key, updated metric by metric. */
module BaselineMonitors {

  import opened Baseline

  class Monitor {
    const c: Config
    var stats: map<Key, Stat>

    ghost predicate Well()
      reads this
    {
      forall k :: k in stats ==> Shaped(c, stats[k])
    }

    constructor (c: Config)
      ensures this.c == c && stats == map[] && Well()
    {
      this.c := c;
      stats := map[];
    }

    /** The metrics of x that deviate from s. */
    method Deviations(s: Stat, x: Vec) returns (out: seq<nat>)
      requires Shaped(c, s) && |x| == |c.floor|
      ensures out == Found(c, s, x)
    {
      out := [];
      if s.n < c.warmup { return; }
      for i := 0 to |x|
        invariant out == FoundUpTo(c, s, x, i)
      {
        if Flags(x[i] - s.mean[i], s.vari[i], c.k, c.floor[i]) { out := out + [i]; }
      }
    }

    /** Scores a sample against its key's baseline, then folds it in. */
    method ObserveSample(key: Key, x: Vec, now: int) returns (out: seq<nat>)
      requires Well() && |x| == |c.floor|
      modifies this
      ensures Well() && stats == Observe(c, old(stats), Observation(key, Sample(x, now)))
      ensures out == if key in old(stats) then Found(c, old(stats)[key], x) else []
    {
      if key !in stats {
        stats := stats[key := Stat(1, x, seq(|x|, i => 0.0), now)];
        return [];
      }
      var s := stats[key];
      out := Deviations(s, x);
      var alpha := c.alpha;
      if |out| > 0 { alpha := alpha / 4.0; }
      var mean, vari := s.mean, s.vari;
      for i := 0 to |x|
        invariant |mean| == |vari| == |x|
        invariant forall j :: 0 <= j < i ==> mean[j] == Fold(c, s, x, now).mean[j]
        invariant forall j :: 0 <= j < i ==> vari[j] == Fold(c, s, x, now).vari[j]
        invariant forall j :: i <= j < |x| ==> mean[j] == s.mean[j] && vari[j] == s.vari[j]
      {
        mean, vari := mean[i := NextMean(alpha, mean[i], x[i])], vari[i := NextVar(alpha, mean[i], vari[i], x[i])];
      }
      assert mean == Fold(c, s, x, now).mean && vari == Fold(c, s, x, now).vari;
      stats := stats[key := Stat(s.n + 1, mean, vari, now)];
    }

    /** Drops keys not observed since `before` and leaves the others as they are. */
    method PruneOld(before: int)
      requires Well()
      modifies this
      ensures Well() && stats == Prune(old(stats), before)
    {
      var todo := stats.Keys;
      var kept := stats;
      while todo != {}
        invariant todo <= stats.Keys && kept.Keys <= stats.Keys && stats == old(stats)
        invariant forall k :: k in kept ==> kept[k] == stats[k]
        invariant forall k :: k in stats ==> (k in kept <==> k in todo || stats[k].seen >= before)
        decreases todo
      {
        var k :| k in todo;
        todo := todo - {k};
        if stats[k].seen < before { kept := kept - {k}; }
      }
      stats := kept;
    }
  }
}
