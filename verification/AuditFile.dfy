/** The log as the program writes and scans it. */
module AuditFiles {

  import opened Options
  import opened AuditLog
  import opened AuditLaws

  class FileLog {
    const c: Codec
    var file: File
    var last: Hash

    constructor (c: Codec)
      ensures this.c == c && Log(file, last, true) == Empty
    {
      this.c := c;
      file, last := File([], None), NoHash;
    }

    /** Append; its error is the caller's only sign of how it ended. */
    method AppendEvent(e: Event, ending: Ending) returns (err: bool)
      modifies this
      ensures Log(file, last, true) == Write(c, Log(old(file), old(last), true), e, ending)
      ensures err == (ending != Done)
    {
      var line := LineFor(c, last, e);
      match ending
      case Refused => return true;
      case Cut =>
        file := Put(file, Torn, false);
        return true;
      case NoNewline =>
        file := Put(file, line, false);
        return true;
      case Unsynced =>
        file := Put(file, line, true);
        return true;
      case Unmirrored =>
        file := Put(file, line, true);
        last := line.record.hash;
        return true;
      case Done =>
        file := Put(file, line, true);
        last := line.record.hash;
        err := false;
    }

    /** scanChain with Replay's visitor: keeps the previous hash and a count only. */
    method Scan(claim: Id) returns (ok: bool, count: nat, end: Hash, events: seq<Event>)
      ensures var seen := Seen(file);
              && ok == Verifies(c, seen)
              && (ok ==> count == |seen| && Some(end) == Chain(c, seen) && Some(events) == Replay(c, seen, claim))
    {
      var seen := Seen(file);
      count, end, events := 0, NoHash, [];
      for i := 0 to |seen|
        invariant count == i && Chain(c, seen[..i]) == Some(end) && events == Select(seen[..i], claim)
      {
        assert seen[..i + 1][..|seen[..i + 1]| - 1] == seen[..i];
        var line := seen[i];
        if line.Torn? || line.size >= MaxLine || line.record.prev != end
           || c.hash(end, line.record.event) != line.record.hash
        {
          if Verifies(c, seen) { TruncationVerifies(c, seen, i + 1); }
          return false, 0, NoHash, [];
        }
        end, count := line.record.hash, count + 1;
        if claim == NoClaim || line.record.event.claim == claim { events := events + [line.record.event]; }
      }
      assert seen[..|seen|] == seen;
      ok := true;
    }

    /** OpenFileLog over the file as it is. */
    method Open() returns (ok: bool)
      modifies this`last
      ensures ok == Verifies(c, Seen(file))
      ensures last == if ok then Chain(c, Seen(file)).value else old(last)
    {
      var count, end, events;
      ok, count, end, events := Scan(NoClaim);
      if ok { last := end; }
    }
  }
}
