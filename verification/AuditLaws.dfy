/** When the audit log verifies, what it replays and what tampering it shows. */
module AuditLaws {

  import opened Options
  import opened AuditLog

  // ------------------------------------------------------------------- appends

  lemma {:induction false} ChainSnoc(c: Codec, seen: seq<Line>, line: Line)
    ensures Chain(c, seen + [line])
         == var front := Chain(c, seen);
            if front.Some? && Links(c, front.value, line) then Some(line.record.hash) else None
  {
    assert (seen + [line])[..|seen|] == seen;
  }

  lemma {:induction false} SelectSnoc(seen: seq<Line>, line: Line, claim: Id)
    requires line.Whole?
    ensures Select(seen + [line], claim)
         == Select(seen, claim)
            + if claim == NoClaim || line.record.event.claim == claim then [line.record.event] else []
  {
    assert (seen + [line])[..|seen|] == seen;
  }

  lemma {:induction false} AllReadableSnoc(c: Codec, es: seq<Event>)
    requires es != []
    ensures AllReadable(c, es)
       <==> AllReadable(c, es[..|es| - 1]) && Readable(c, es[|es| - 1], |es| == 1)
  {
    var front := es[..|es| - 1];
    assert forall i :: 0 <= i < |front| ==> front[i] == es[i];
  }

  /** A record written where the chain holds keeps it exactly when it is readable. */
  lemma {:induction false} LinksIffReadable(c: Codec, last: Hash, e: Event)
    requires Sound(c)
    ensures Links(c, last, LineFor(c, last, e)) <==> Readable(c, e, last == NoHash)
  {
    if c.hash(last, c.again(e)) == c.hash(last, e) { assert c.again(e) == e; }
  }

  lemma {:induction false} AppendsChain(c: Codec, es: seq<Event>)
    requires Sound(c)
    ensures Appended(c, Run(c, Empty, Events(es)), es)
  {
    if es != [] {
      var front, e := es[..|es| - 1], es[|es| - 1];
      assert Events(es)[..|es| - 1] == Events(front);
      AppendsChain(c, front);
      var l := Run(c, Empty, Events(front));
      ChainSnoc(c, l.file.lines, LineFor(c, l.last, e));
      LinksIffReadable(c, l.last, e);
      AllReadableSnoc(c, es);
    }
  }

  lemma {:induction false} AppendsSelect(c: Codec, es: seq<Event>, claim: Id)
    requires Sound(c) && AllReadable(c, es)
    ensures Select(Run(c, Empty, Events(es)).file.lines, claim) == Filter(es, claim)
  {
    if es != [] {
      var front, e := es[..|es| - 1], es[|es| - 1];
      assert Events(es)[..|es| - 1] == Events(front);
      AllReadableSnoc(c, es);
      AppendsSelect(c, front, claim);
      AppendsChain(c, front);
      var l := Run(c, Empty, Events(front));
      SelectSnoc(l.file.lines, LineFor(c, l.last, e), claim);
    }
  }

  /** Appends that all succeed verify if and only if every record is readable; replaying a
      claim then gives exactly its events, in order, and an empty claim gives them all.
      Otherwise nothing is ever replayed again. */
  lemma {:induction false} AppendsReplay(c: Codec, es: seq<Event>, claim: Id)
    requires Sound(c)
    ensures var l := Run(c, Empty, Events(es));
            && l.open
            && (Verifies(c, Seen(l.file)) <==> AllReadable(c, es))
            && Replay(c, Seen(l.file), claim) == if AllReadable(c, es) then Some(Filter(es, claim)) else None
  {
    AppendsChain(c, es);
    if AllReadable(c, es) { AppendsSelect(c, es, claim); }
  }

  lemma {:induction false} OneAppend(c: Codec, e: Event)
    requires Sound(c)
    ensures var l := Run(c, Empty, [Append(e, Done)]);
            && l == Step(c, Empty, Append(e, Done)) && l.open && l.last == c.hash(NoHash, e)
            && (Verifies(c, Seen(l.file)) <==> Readable(c, e, true))
  {
    assert Events([e]) == [Append(e, Done)];
    assert [Append(e, Done)][..0] == [];
    AppendsReplay(c, [e], NoClaim);
  }

  /** An append one byte too long succeeds; then nothing replays and the log cannot be
      opened. */
  lemma {:induction false} OversizedAppend(c: Codec, e: Event, claim: Id)
    requires Sound(c) && c.size(e, true) == MaxLine
    ensures var l := Run(c, Empty, [Append(e, Done)]);
            l.last == c.hash(NoHash, e) && Replay(c, Seen(l.file), claim) == None && !Step(c, l, Reopen).open
  {
    OneAppend(c, e);
  }

  /** So does an append of a record that does not come back as it was. */
  lemma {:induction false} GarbledAppend(c: Codec, e: Event, claim: Id)
    requires Sound(c) && c.again(e) != e
    ensures var l := Run(c, Empty, [Append(e, Done)]);
            l.last == c.hash(NoHash, e) && Replay(c, Seen(l.file), claim) == None && !Step(c, l, Reopen).open
  {
    OneAppend(c, e);
  }

  // ------------------------------------------------------------ tamper evidence

  lemma {:induction false} LastNotEmpty(c: Codec, seen: seq<Line>)
    requires Sound(c) && Verifies(c, seen)
    ensures Chain(c, seen).value == NoHash <==> seen == []
  {
  }

  /** Two logs that verify and end in the same hash hold the same records. */
  lemma {:induction false} SameLastSameLog(c: Codec, a: seq<Line>, b: seq<Line>)
    requires Sound(c) && Verifies(c, a) && Verifies(c, b) && Chain(c, a) == Chain(c, b)
    ensures Records(a) == Records(b)
  {
    LastNotEmpty(c, a);
    LastNotEmpty(c, b);
    if a != [] && b != [] {
      var x, y := a[|a| - 1].record, b[|b| - 1].record;
      assert c.hash(x.prev, x.event) == c.hash(y.prev, y.event);
      SameLastSameLog(c, a[..|a| - 1], b[..|b| - 1]);
      assert Records(a) == Records(a[..|a| - 1]) + [Some(x)];
      assert Records(b) == Records(b[..|b| - 1]) + [Some(y)];
    }
  }

  /** Whatever is edited, moved, inserted or removed ahead of the last record, the result no
      longer verifies. */
  lemma {:induction false} TamperingDetected(c: Codec, log: seq<Line>, changed: seq<Line>)
    requires Sound(c) && Verifies(c, log) && log != [] && changed != []
    requires Records(changed) != Records(log)
    requires Records(changed)[|changed| - 1] == Records(log)[|log| - 1]
    ensures !Verifies(c, changed)
  {
    if Verifies(c, changed) {
      assert Chain(c, changed) == Chain(c, log);
      SameLastSameLog(c, log, changed);
    }
  }

  /** Which logs verify, changed or not: those whose every line follows on from the one
      before it. Nothing in a log says that it was written by this program. */
  lemma {:induction false} VerifiesIff(c: Codec, seen: seq<Line>)
    ensures Verifies(c, seen) <==> forall i :: 0 <= i < |seen| ==> FollowsOn(c, seen, i)
    ensures Verifies(c, seen) && seen != [] ==>
              seen[|seen| - 1].Whole? && Chain(c, seen) == Some(seen[|seen| - 1].record.hash)
  {
    if seen != [] {
      var front := seen[..|seen| - 1];
      VerifiesIff(c, front);
      forall i | 0 <= i < |front| ensures FollowsOn(c, front, i) <==> FollowsOn(c, seen, i) {}
      if forall i :: 0 <= i < |seen| ==> FollowsOn(c, seen, i) {
        assert forall i :: 0 <= i < |front| ==> FollowsOn(c, front, i);
        assert FollowsOn(c, seen, |seen| - 1);
      }
      if Verifies(c, seen) {
        forall i | 0 <= i < |seen| ensures FollowsOn(c, seen, i) {
          if i < |front| { assert FollowsOn(c, front, i); }
        }
      }
    }
  }

  /** So whatever follows a point of a log can be replaced by any other events, their hashes
      computed anew. */
  lemma {:induction false} RewrittenSuffixVerifies(c: Codec, log: seq<Line>, es: seq<Event>, size: nat)
    requires Verifies(c, log) && size < MaxLine
    ensures Verifies(c, log + Rechained(c, Chain(c, log).value, es, size))
    decreases |es|
  {
    var last := Chain(c, log).value;
    if es == [] {
      assert log + [] == log;
    } else {
      var line := Whole(Record(es[0], last, c.hash(last, es[0])), size);
      ChainSnoc(c, log, line);
      RewrittenSuffixVerifies(c, log + [line], es[1..], size);
      assert (log + [line]) + Rechained(c, c.hash(last, es[0]), es[1..], size)
          == log + Rechained(c, last, es, size);
    }
  }

  /** In particular records can be cut off the end. */
  lemma {:induction false} TruncationVerifies(c: Codec, log: seq<Line>, n: nat)
    requires Verifies(c, log) && n <= |log|
    ensures Verifies(c, log[..n])
    decreases |log|
  {
    if n == |log| {
      assert log[..n] == log;
    } else {
      TruncationVerifies(c, log[..|log| - 1], n);
      assert log[..|log| - 1][..n] == log[..n];
    }
  }

  // ----------------------------------------------------- failures while writing

  /** No record of a chain that holds chains to itself. */
  lemma {:induction false} NoSelfLink(c: Codec, seen: seq<Line>, e: Event)
    requires Sound(c) && Verifies(c, seen)
    ensures c.hash(Chain(c, seen).value, e) != Chain(c, seen).value
  {
    if seen != [] && c.hash(Chain(c, seen).value, e) == Chain(c, seen).value {
      NoSelfLink(c, seen[..|seen| - 1], seen[|seen| - 1].record.event);
    }
  }

  lemma {:induction false} TornNeverVerifies(c: Codec, seen: seq<Line>)
    ensures !Verifies(c, seen + [Torn])
  {
    ChainSnoc(c, seen, Torn);
  }

  /** Whatever is put at the end, a file that did not verify does not verify. */
  lemma {:induction false} DamageStays(c: Codec, f: File, line: Line, newline: bool)
    requires !Verifies(c, Seen(f))
    ensures !Verifies(c, Seen(Put(f, line, newline)))
  {
    ChainSnoc(c, f.lines, line);
    TornNeverVerifies(c, f.lines);
  }

  lemma {:induction false} WholeTracks(c: Codec, l: Log, s: Health, e: Event, newline: bool)
    requires Sound(c) && !s.damaged && Tracks(c, l, s)
    ensures var seen := Seen(Put(l.file, LineFor(c, l.last, e), newline));
            && (Verifies(c, seen) <==> !Hurts(c, s, e))
            && (!Hurts(c, s, e) ==>
                  && seen != [] && Chain(c, seen[..|seen| - 1]) == Some(l.last)
                  && Chain(c, seen) == Some(c.hash(l.last, e)))
  {
    var line := LineFor(c, l.last, e);
    var seen := Seen(Put(l.file, line, newline));
    if s.ragged {
      TornNeverVerifies(c, l.file.lines);
    } else {
      assert seen == Seen(l.file) + [line];
      assert seen[..|seen| - 1] == Seen(l.file);
      ChainSnoc(c, Seen(l.file), line);
      LinksIffReadable(c, l.last, e);
      if s.behind { BehindBreaks(c, l, s, e); }
    }
  }

  lemma {:induction false} BehindBreaks(c: Codec, l: Log, s: Health, e: Event)
    requires Sound(c) && Verifies(c, Seen(l.file)) && Stands(c, l, s) && s.behind
    ensures !Links(c, Chain(c, Seen(l.file)).value, LineFor(c, l.last, e))
  {
    var seen := Seen(l.file);
    NoSelfLink(c, seen[..|seen| - 1], seen[|seen| - 1].record.event);
  }

  lemma {:induction false} AppendTracks(c: Codec, l: Log, s: Health, e: Event, ending: Ending)
    requires Sound(c) && Tracks(c, l, s) && l.open
    ensures Tracks(c, Write(c, l, e, ending), After(c, s, Append(e, ending)))
  {
    var line := LineFor(c, l.last, e);
    if s.damaged {
      DamageStays(c, l.file, line, true);
      DamageStays(c, l.file, line, false);
      DamageStays(c, l.file, Torn, false);
    } else {
      WholeTracks(c, l, s, e, true);
      WholeTracks(c, l, s, e, false);
      TornNeverVerifies(c, l.file.lines);
    }
  }

  lemma {:induction false} StepTracks(c: Codec, l: Log, s: Health, op: Op)
    requires Sound(c) && Tracks(c, l, s)
    ensures Tracks(c, Step(c, l, op), After(c, s, op))
  {
    match op
    case Append(e, ending) => if l.open { AppendTracks(c, l, s, e, ending); }
    case Reopen => if !s.damaged { LastNotEmpty(c, Seen(l.file)); }
  }

  /** After any mix of appends and reopens the log verifies exactly when no write was cut,
      every record written is readable, none was written while the log was behind, and
      none was glued to a record whose newline is missing. */
  lemma {:induction false} VerifiesIffHealthy(c: Codec, ops: seq<Op>)
    requires Sound(c)
    ensures Tracks(c, Run(c, Empty, ops), HealthOf(c, ops))
    ensures Verifies(c, Seen(Run(c, Empty, ops).file)) <==> !HealthOf(c, ops).damaged
  {
    if ops != [] {
      VerifiesIffHealthy(c, ops[..|ops| - 1]);
      StepTracks(c, Run(c, Empty, ops[..|ops| - 1]), HealthOf(c, ops[..|ops| - 1]), ops[|ops| - 1]);
    }
  }

  lemma {:induction false} HealthSnoc(c: Codec, ops: seq<Op>, op: Op)
    ensures HealthOf(c, ops + [op]) == After(c, HealthOf(c, ops), op)
  {
    assert (ops + [op])[..|ops|] == ops;
  }

  /** One append whose sync failed after the line was written, then one that succeeds: the
      log no longer verifies. */
  lemma {:induction false} UnsyncedBreaksChain(c: Codec, a: Event, b: Event)
    requires Sound(c)
    ensures !Verifies(c, Seen(Run(c, Empty, [Append(a, Unsynced), Append(b, Done)]).file))
  {
    var first := [Append(a, Unsynced)];
    HealthSnoc(c, [], Append(a, Unsynced));
    assert [] + [Append(a, Unsynced)] == first;
    HealthSnoc(c, first, Append(b, Done));
    assert first + [Append(b, Done)] == [Append(a, Unsynced), Append(b, Done)];
    VerifiesIffHealthy(c, [Append(a, Unsynced), Append(b, Done)]);
  }

  /** A write that stops just before its newline leaves a log that verifies and opens, and
      that the next successful append damages for good. */
  lemma {:induction false} MissingNewline(c: Codec, a: Event, b: Event)
    requires Sound(c) && Readable(c, a, true)
    ensures var reopened := Run(c, Empty, [Append(a, NoNewline), Reopen]);
            && reopened.open && Verifies(c, Seen(reopened.file))
            && !Verifies(c, Seen(Step(c, reopened, Append(b, Done)).file))
  {
    var first, second := [Append(a, NoNewline)], [Append(a, NoNewline), Reopen];
    HealthSnoc(c, [], Append(a, NoNewline));
    assert [] + first == first;
    HealthSnoc(c, first, Reopen);
    assert first + [Reopen] == second;
    VerifiesIffHealthy(c, second);
    StepTracks(c, Run(c, Empty, second), HealthOf(c, second), Append(b, Done));
  }
}
