/**
 The hash-chained audit log, one JSON record per line. An event stands for its JSON text,
 and a line is what the scan decodes it to, with its length. Hash, encoding and length are
 parameters: the theorems ask only that the hash is never empty and tells inputs apart.
 */
module AuditLog {

  import opened Options

  type Hash = nat
  const NoHash: Hash := 0

  type Id = nat
  const NoClaim: Id := 0

  datatype Event = Event(claim: Id, body: nat)

  /** One record as it decodes. */
  datatype Record = Record(event: Event, prev: Hash, hash: Hash)

  /** One line of the file and its length without the newline; Torn does not decode. */
  datatype Line = Whole(record: Record, size: nat) | Torn

  /** The scanner's buffer: a line has to be shorter. */
  const MaxLine: nat := 0x40_0000

  /** `again` is an event decoded from its own text, which differs where a string was not
      valid UTF-8; `size` is the length of its line, the first record having no prevHash. */
  datatype Codec = Codec(hash: (Hash, Event) -> Hash, again: Event -> Event, size: (Event, bool) -> nat)

  ghost predicate Sound(c: Codec) {
    && (forall p: Hash, e: Event :: c.hash(p, e) != NoHash)
    && (forall p: Hash, e: Event, q: Hash, f: Event :: c.hash(p, e) == c.hash(q, f) ==> p == q && e == f)
  }

  /** The record comes back as it was and its line fits the scanner. */
  predicate Readable(c: Codec, e: Event, first: bool) { c.again(e) == e && c.size(e, first) < MaxLine }

  /** Complete lines, and what follows the last newline. */
  datatype File = File(lines: seq<Line>, tail: Option<Line>)

  /** What the scanner returns line by line: the text after the last newline counts too. */
  function Seen(f: File): (r: seq<Line>) { if f.tail.Some? then f.lines + [f.tail.value] else f.lines }

  /** Text added at the end; after an unfinished line it only makes that line longer. */
  function Put(f: File, line: Line, newline: bool): (r: File) {
    var x := if f.tail.Some? then Torn else line;
    if newline then File(f.lines + [x], None) else File(f.lines, Some(x))
  }

  // ------------------------------------------------------------------- scanning

  predicate Links(c: Codec, prev: Hash, line: Line) {
    && line.Whole? && line.size < MaxLine
    && line.record.prev == prev && c.hash(prev, line.record.event) == line.record.hash
  }

  /** scanChain: the last hash of a chain that holds, or None. */
  function Chain(c: Codec, seen: seq<Line>): (r: Option<Hash>) {
    if seen == [] then Some(NoHash)
    else
      var front, line := Chain(c, seen[..|seen| - 1]), seen[|seen| - 1];
      if front.Some? && Links(c, front.value, line) then Some(line.record.hash) else None
  }

  predicate Verifies(c: Codec, seen: seq<Line>) { Chain(c, seen).Some? }

  /** The records of one claim, or of all. */
  function Select(seen: seq<Line>, claim: Id): (r: seq<Event>) {
    if seen == [] then []
    else
      var line := seen[|seen| - 1];
      Select(seen[..|seen| - 1], claim)
        + if line.Whole? && (claim == NoClaim || line.record.event.claim == claim) then [line.record.event] else []
  }

  /** Replay: nothing is returned from a log that does not verify. */
  function Replay(c: Codec, seen: seq<Line>, claim: Id): (r: Option<seq<Event>>) {
    if Verifies(c, seen) then Some(Select(seen, claim)) else None
  }

  // ------------------------------------------------------------------ appending

  /** How an append ends: nothing written, stopped within the record, stopped just before
      the newline, written but not synced or closed, done but not mirrored, done. */
  datatype Ending = Refused | Cut | NoNewline | Unsynced | Unmirrored | Done

  datatype Op = Append(event: Event, ending: Ending) | Reopen

  /** `last` is what the open log chains the next record to; a log that does not verify
      cannot be opened. */
  datatype Log = Log(file: File, last: Hash, open: bool)

  function LineFor(c: Codec, last: Hash, e: Event): (r: Line) {
    Whole(Record(c.again(e), last, c.hash(last, e)), c.size(e, last == NoHash))
  }

  function Write(c: Codec, l: Log, e: Event, ending: Ending): (r: Log) {
    match ending
    case Refused => l
    case Cut => l.(file := Put(l.file, Torn, false))
    case NoNewline => l.(file := Put(l.file, LineFor(c, l.last, e), false))
    case Unsynced => l.(file := Put(l.file, LineFor(c, l.last, e), true))
    case _ => Log(Put(l.file, LineFor(c, l.last, e), true), c.hash(l.last, e), true)
  }

  function Step(c: Codec, l: Log, op: Op): (r: Log) {
    match op
    case Reopen =>
      if Verifies(c, Seen(l.file)) then Log(l.file, Chain(c, Seen(l.file)).value, true) else l.(open := false)
    case Append(e, ending) => if l.open then Write(c, l, e, ending) else l
  }

  function Run(c: Codec, l: Log, ops: seq<Op>): (r: Log) {
    if ops == [] then l else Step(c, Run(c, l, ops[..|ops| - 1]), ops[|ops| - 1])
  }

  const Empty := Log(File([], None), NoHash, true)

  // ------------------------------------------------------------------- appends

  function Events(es: seq<Event>): (ops: seq<Op>) { seq(|es|, i requires 0 <= i < |es| => Append(es[i], Done)) }

  function Filter(es: seq<Event>, claim: Id): (r: seq<Event>) {
    if es == [] then []
    else
      var e := es[|es| - 1];
      Filter(es[..|es| - 1], claim) + if claim == NoClaim || e.claim == claim then [e] else []
  }

  predicate AllReadable(c: Codec, es: seq<Event>) {
    forall i :: 0 <= i < |es| ==> Readable(c, es[i], i == 0)
  }

  predicate Appended(c: Codec, l: Log, es: seq<Event>) {
    && l.open && l.file.tail.None? && (l.last == NoHash <==> es == [])
    && (Verifies(c, l.file.lines) <==> AllReadable(c, es))
    && (AllReadable(c, es) ==> Chain(c, l.file.lines) == Some(l.last))
  }

  // ------------------------------------------------------------ tamper evidence

  function Records(seen: seq<Line>): (r: seq<Option<Record>>) {
    seq(|seen|, i requires 0 <= i < |seen| => if seen[i].Whole? then Some(seen[i].record) else None)
  }

  /** A line follows on from the one before it. */
  predicate FollowsOn(c: Codec, seen: seq<Line>, i: nat)
    requires i < |seen|
  {
    Links(c, if i == 0 || seen[i - 1].Torn? then NoHash else seen[i - 1].record.hash, seen[i])
  }

  /** Lines for `es` of a given length, chained on from `last`. */
  function Rechained(c: Codec, last: Hash, es: seq<Event>, size: nat): (r: seq<Line>)
    decreases |es|
  {
    if es == [] then []
    else [Whole(Record(es[0], last, c.hash(last, es[0])), size)] + Rechained(c, c.hash(last, es[0]), es[1..], size)
  }

  // ----------------------------------------------------- failures while writing

  /** `behind`: a record was written that the log does not chain to; `ragged`: the file
      does not end in a newline; `first`: the next record is written without a prevHash. */
  datatype Health = Health(damaged: bool, behind: bool, ragged: bool, first: bool, open: bool)

  /** A whole record damages the log when it does not read back, when the log is behind
      and when it is glued to an unfinished line. */
  predicate Hurts(c: Codec, s: Health, e: Event) { s.behind || s.ragged || !Readable(c, e, s.first) }

  /** What the operations alone say of a log, without its file. */
  function After(c: Codec, s: Health, op: Op): (r: Health) {
    match op
    case Reopen =>
      if s.damaged then s.(open := false) else s.(behind := false, first := s.first && !s.behind, open := true)
    case Append(e, ending) =>
      if !s.open then s
      else match ending
        case Refused => s
        case Cut => s.(damaged := true)
        case NoNewline => s.(damaged := s.damaged || Hurts(c, s, e), behind := true, ragged := true)
        case Unsynced => s.(damaged := s.damaged || Hurts(c, s, e), behind := true)
        case _ => s.(damaged := s.damaged || Hurts(c, s, e), first := false)
  }

  function HealthOf(c: Codec, ops: seq<Op>): (r: Health) {
    if ops == [] then Health(false, false, false, true, true)
    else After(c, HealthOf(c, ops[..|ops| - 1]), ops[|ops| - 1])
  }

  /** Where the open log stands in a file that verifies. */
  predicate Stands(c: Codec, l: Log, s: Health) {
    var seen := Seen(l.file);
    && (s.ragged <==> l.file.tail.Some?)
    && (s.first <==> l.last == NoHash)
    && (!s.behind ==> Chain(c, seen) == Some(l.last))
    && (s.behind ==> seen != [] && Chain(c, seen[..|seen| - 1]) == Some(l.last))
  }

  /** The log's file, its idea of the last hash, and its health. */
  predicate Tracks(c: Codec, l: Log, s: Health) {
    && s.open == l.open
    && (Verifies(c, Seen(l.file)) <==> !s.damaged)
    && (!s.damaged ==> s.open && Stands(c, l, s))
  }
}
