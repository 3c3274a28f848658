/** Following one file: the window of it that is fetched, read through the line reader. */
module FollowedFile {
  import opened TextLines
  import opened LineReader
  import opened LineReaderRuns

  const BYTES_TO_LINES := 120
  const DEFAULT_TAIL_LINES := 250
  const MAX_FILE_SIZE := DEFAULT_TAIL_LINES * BYTES_TO_LINES

  datatype Origin = Start | End

  /** What streaming a file of this content from an origin and offset starts with. */
  function Streamed(content: seq<byte>, origin: Origin, offset: nat): seq<byte>
    requires offset <= |content|
  {
    match origin
    case Start => content[offset..]
    case End => content[|content| - offset..]
  }

  /** Whole files up to the limit; otherwise the last `MAX_FILE_SIZE` bytes. */
  method ChooseWindow(size: nat) returns (origin: Origin, offset: nat, oversized: bool)
    ensures offset <= size
    ensures oversized <==> size > 30000
    ensures forall content: seq<byte> | |content| == size ::
      Streamed(content, origin, offset) == if size > 30000 then content[size - 30000..] else content
  {
    origin, offset, oversized := Start, 0, false;
    if size > MAX_FILE_SIZE {
      origin, offset, oversized := End, MAX_FILE_SIZE, true;
    }
  }

  /** Whatever was gathered: what is shown, waits in the buffer or is still to come is an end of
      all the source has to say, so nothing is skipped after the first byte shown; and once
      gathering is over, what is shown or waits is an end of what was read. */
  lemma ShownIsSuffix(lines: int, searchLimit: int, timeLimit: int, script: seq<Chunk>, calls: seq<Call>)
    ensures var r := Play(Fresh(lines, searchLimit, timeLimit, script), calls);
      && IsSuffix(r.returned + r.state.buffer + AllBytes(r.state.script), AllBytes(script))
      && IsSuffix(r.returned + r.state.buffer, r.gathered + r.passed)
  {
    var r := Play(Fresh(lines, searchLimit, timeLimit, script), calls);
    RunRefinesTail(lines, searchLimit, timeLimit, script, calls);
    var shown, read, rest := r.returned + r.state.buffer, r.gathered + r.passed, AllBytes(r.state.script);
    var kept := if r.state.filled then Tail(r.gathered, lines) else r.gathered;
    TailIsSuffix(r.gathered, lines);
    assert shown == kept + r.passed;
    EndsWith(kept, r.gathered, r.passed);
    EndsWith(shown, read, rest);
  }

  lemma EndsWith(a: seq<byte>, b: seq<byte>, c: seq<byte>)
    requires IsSuffix(a, b)
    ensures IsSuffix(a + c, b + c)
  {
    assert (b + c)[|b| - |a|..] == b[|b| - |a|..] + c;
  }

  /** If gathering captured exactly the chosen window, the user is shown the last 250 lines of
      the whole file, then everything appended to it, exactly when those lines fit in the window. */
  lemma ShownIsTailOfFile(content: seq<byte>, script: seq<Chunk>, calls: seq<Call>)
    requires var r := Play(Fresh(250, 30000, 1_000_000_000, script), calls);
      r.state.filled && r.gathered == LastBytes(content, 30000)
    ensures var r := Play(Fresh(250, 30000, 1_000_000_000, script), calls);
      && (r.returned + r.state.buffer == Tail(content, 250) + r.passed
          <==> |Tail(content, 250)| <= 30000)
      && exists shown ::
           IsSuffix(shown, content) && r.returned + r.state.buffer == shown + r.passed
  {
    var r := Play(Fresh(250, 30000, 1_000_000_000, script), calls);
    RunRefinesTail(250, 30000, 1_000_000_000, script, calls);
    WindowLocality(content, 30000, 250);
    CancelRight(Tail(LastBytes(content, 30000), 250),
                Tail(content, 250), r.passed);
  }

  lemma CancelRight(a: seq<byte>, b: seq<byte>, c: seq<byte>)
    ensures a + c == b + c <==> a == b
  {
    if a + c == b + c {
      assert |a + c| == |b + c|;
      assert (a + c)[..|a|] == a && (b + c)[..|b|] == b;
    }
  }
}
