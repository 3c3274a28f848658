/** The `tail -n` reader that feeds a followed file to the browser.

    `LineLimitReader.Read` gathers input until the search buffer is full, the input ends or
    nothing arrived for `timeLimit`; then it looks backwards for the last lines, hands out
    the buffer from there on, and finally passes its source through. */
module LineReader {
  import opened Wrappers
  import opened TextLines

  datatype ReadError = Eof | Failure(code: int)

  /** One thing the source will report: bytes, an error, both, or neither (an idle read). */
  datatype Chunk = Chunk(data: seq<byte>, err: Option<ReadError>)

  datatype Delivery = Delivery(data: seq<byte>, err: Option<ReadError>, rest: seq<Chunk>)

  /** What a source holding `script` answers to a read of at most `max` bytes. */
  function Deliver(script: seq<Chunk>, max: nat): (d: Delivery)
    ensures |d.data| <= max
  {
    if script == [] then Delivery([], Some(Eof), [])
    else
      var head := script[0];
      if |head.data| <= max then Delivery(head.data, head.err, script[1..])
      else Delivery(head.data[..max], None, [Chunk(head.data[max..], head.err)] + script[1..])
  }

  function AllBytes(script: seq<Chunk>): seq<byte> {
    if script == [] then [] else script[0].data + AllBytes(script[1..])
  }

  /** The fields of a reader, and what its source has left to say. */
  datatype State = State(
    lines: int, searchLimit: int, timeLimit: int, lastRead: Option<int>,
    buffer: seq<byte>, filled: bool, foundLines: bool, script: seq<Chunk>)

  /** Outcome of one `Read`: the bytes returned, and which bytes it took from the source
      into the search buffer (`gathered`) or straight through (`passed`). */
  datatype Reply = Reply(
    next: State, data: seq<byte>, err: Option<ReadError>, gathered: seq<byte>, passed: seq<byte>)

  function Fresh(lines: int, searchLimit: int, timeLimit: int, script: seq<Chunk>): State {
    State(lines, searchLimit, timeLimit, None, [], false, false, script)
  }

  /** Gathering: one source read into the search buffer; `filled` says when to stop. */
  function Fill(s: State, max: nat, now: int): State
    requires !s.filled
  {
    var d := Deliver(s.script, max);
    var s1 := s.(buffer := s.buffer + d.data, script := d.rest);
    if d.err.Some? then s1.(filled := d.err.value == Eof)
    else if |s1.buffer| >= s.searchLimit then s1.(filled := true)
    else if s.timeLimit <= 0 then s1
    else if s.lastRead.None? || d.data != [] then s1.(lastRead := Some(now))
    else s1.(filled := s.lastRead.value + s.timeLimit < now)
  }

  /** Handing out: from the buffer while it lasts, then from the source. */
  function Emit(s: State, max: nat, gathered: seq<byte>): Reply {
    if s.buffer != [] then
      var kept := if s.foundLines then s.buffer else Tail(s.buffer, s.lines);
      var n := if |kept| < max then |kept| else max;
      Reply(s.(buffer := kept[n..], foundLines := true), kept[..n], None, gathered, [])
    else
      var d := Deliver(s.script, max);
      Reply(s.(script := d.rest), d.data, d.err, gathered, d.data)
  }

  function ReadStep(s: State, max: nat, now: int): Reply {
    if s.filled then Emit(s, max, [])
    else
      var d, s1 := Deliver(s.script, max), Fill(s, max, now);
      if s1.filled then Emit(s1, max, d.data)
      else Reply(s1, [], d.err, d.data, [])
  }

  // ---------------------------------------------------------------- the reader in place

  class Source {
    var script: seq<Chunk>

    constructor (script: seq<Chunk>)
      ensures this.script == script
    {
      this.script := script;
    }

    method Read(p: array<byte>) returns (n: nat, err: Option<ReadError>)
      modifies this, p
      ensures n <= p.Length && err == old(Deliver(script, p.Length)).err
      ensures p[..n] == old(Deliver(script, p.Length)).data && p[n..] == old(p[..])[n..]
      ensures script == old(Deliver(script, p.Length)).rest
    {
      var d := Deliver(script, p.Length);
      n, err, script := |d.data|, d.err, d.rest;
      Copy(p, d.data);
    }
  }

  method Copy(p: array<byte>, data: seq<byte>)
    requires |data| <= p.Length
    modifies p
    ensures p[..|data|] == data && p[|data|..] == old(p[..])[|data|..]
  {
    for i := 0 to |data|
      invariant p[..i] == data[..i] && p[i..] == old(p[..])[i..]
    {
      p[i] := data[i];
    }
  }

  /** The backwards scan: how many leading bytes of `b` to drop. */
  method Scan(b: seq<byte>, lines: int) returns (drop: nat)
    requires b != []
    ensures drop <= |b| && b[drop..] == Tail(b, lines)
  {
    var found, i, lastIndex := 0, |b| - 1, |b| - 1;
    while found < lines && i >= 0
      invariant -1 <= i < |b| && 0 <= found && (lines >= 0 ==> found <= lines)
      invariant i < lastIndex || found == 0
      invariant found == Breaks(b[i + 1..])
      invariant found == 0 ==> lastIndex == |b| - 1
      invariant found > 0 ==> 0 <= lastIndex < |b| - 1 && b[lastIndex] == NEWLINE
      invariant found > 0 ==> Breaks(b[lastIndex + 1..]) == found - 1
    {
      assert b[i..][1..] == b[i + 1..];
      if b[i] == NEWLINE {
        lastIndex := i;
        if i != |b| - 1 {
          found := found + 1;
        }
      }
      i := i - 1;
    }
    if found != lines {
      assert lines >= 0 ==> b[i + 1..] == b;
      TooFewLines(b, lines);
      drop := 0;
    } else {
      drop := lastIndex + 1;
      EnoughLines(b, lines, lastIndex);
    }
  }

  lemma TooFewLines(b: seq<byte>, lines: int)
    requires lines < 0 || Breaks(b) < lines
    ensures Tail(b, lines) == b
  {
    LineCount(b);
  }

  lemma EnoughLines(b: seq<byte>, lines: nat, lastIndex: nat)
    requires b != [] && if lines == 0 then lastIndex == |b| - 1
                        else lastIndex < |b| - 1 && b[lastIndex] == NEWLINE && Breaks(b[lastIndex + 1..]) == lines - 1
    ensures Tail(b, lines) == b[lastIndex + 1..]
  {
    LineCount(b);
    if lines > 0 {
      LineCount(b[lastIndex + 1..]);
      CutIsTail(b, lastIndex, lines);
    }
  }

  class LineLimitReader {
    const source: Source
    const lines: int
    const searchLimit: int
    const timeLimit: int
    var lastRead: Option<int>
    var buffer: seq<byte>
    var filled: bool
    var foundLines: bool

    constructor (source: Source, lines: int, searchLimit: int, timeLimit: int)
      ensures this.source == source
      ensures Snapshot() == Fresh(lines, searchLimit, timeLimit, source.script)
    {
      this.source, this.lines, this.searchLimit, this.timeLimit := source, lines, searchLimit, timeLimit;
      lastRead, buffer, filled, foundLines := None, [], false, false;
    }

    function Snapshot(): State
      reads this, source
    {
      State(lines, searchLimit, timeLimit, lastRead, buffer, filled, foundLines, source.script)
    }

    /** The part of `Read` before its READ label. */
    method FillBuffer(max: nat, now: int) returns (err: Option<ReadError>)
      requires !filled
      modifies this, source
      ensures Snapshot() == old(Fill(Snapshot(), max, now))
      ensures !filled ==> err == old(Deliver(source.script, max)).err
    {
      var b := new byte[max];
      var n, e := source.Read(b);
      if n > 0 {
        buffer := buffer + b[..n];
      }
      if e.Some? {
        filled := e.value == Eof;
        return e;
      }
      if |buffer| >= searchLimit {
        filled := true;
      } else if timeLimit > 0 {
        if lastRead.None? {
          lastRead := Some(now);
        } else if n == 0 {
          filled := lastRead.value + timeLimit < now;
        } else {
          lastRead := Some(now);
        }
      }
      err := None;
    }

    /** The part of `Read` from its READ label on. */
    method HandOut(p: array<byte>) returns (n: nat, err: Option<ReadError>)
      modifies this, source, p
      ensures Snapshot() == old(Emit(Snapshot(), p.Length, [])).next
      ensures n <= p.Length && err == old(Emit(Snapshot(), p.Length, [])).err
      ensures p[..n] == old(Emit(Snapshot(), p.Length, [])).data
      ensures p[n..] == old(p[..])[n..]
    {
      if |buffer| == 0 {
        n, err := source.Read(p);
        return;
      }
      if !foundLines {
        var drop := Scan(buffer, lines);
        buffer := buffer[drop..];
        foundLines := true;
      }
      n, err := if |buffer| < p.Length then |buffer| else p.Length, None;
      Copy(p, buffer[..n]);
      buffer := buffer[n..];
    }

    /** One call of `Read` with the clock showing `now`. */
    method Read(p: array<byte>, now: int) returns (n: nat, err: Option<ReadError>)
      modifies this, source, p
      ensures Snapshot() == old(ReadStep(Snapshot(), p.Length, now)).next
      ensures n <= p.Length && err == old(ReadStep(Snapshot(), p.Length, now)).err
      ensures p[..n] == old(ReadStep(Snapshot(), p.Length, now)).data
      ensures p[n..] == old(p[..])[n..]
    {
      if !filled {
        var e := FillBuffer(p.Length, now);
        if !filled {
          return 0, e;
        }
      }
      n, err := HandOut(p);
    }
  }
}
