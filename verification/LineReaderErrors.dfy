/** Which errors the calls of a run report, and when the end of input comes. */
module LineReaderErrors {
  import opened Wrappers
  import opened TextLines
  import opened LineReader
  import opened LineReaderRuns

  /** The errors that the calls of a run report, in order. */
  function Errors(s: State, calls: seq<Call>): (errors: seq<Option<ReadError>>)
    ensures |errors| == |calls|
  {
    if calls == [] then []
    else
      var front, c := calls[..|calls| - 1], calls[|calls| - 1];
      Errors(s, front) + [ReadStep(Play(s, front).state, c.max, c.now).err]
  }

  lemma {:induction false} ErrorAt(s: State, calls: seq<Call>, i: nat)
    requires i < |calls|
    ensures Errors(s, calls)[i] == ReadStep(Play(s, calls[..i]).state, calls[i].max, calls[i].now).err
    decreases |calls|
  {
    var front := calls[..|calls| - 1];
    if i < |front| {
      ErrorAt(s, front, i);
      assert front[..i] == calls[..i];
    } else {
      assert calls[..i] == front;
    }
  }

  lemma PlayAt(s: State, calls: seq<Call>, i: nat)
    requires i < |calls|
    ensures Play(s, calls[..i + 1]) == After(Play(s, calls[..i]), calls[i])
  {
    assert calls[..i + 1][..i] == calls[..i];
  }

  /** What a call reports, by what its source reports to a read of the same size. */
  ghost predicate Reports(s: State, max: nat, r: Option<ReadError>) {
    var d := Deliver(s.script, max);
    // handing out: silent while the buffer holds bytes, then whatever the source says
    && (s.filled && s.buffer != [] ==> r == None)
    && (s.filled && s.buffer == [] ==> r == d.err)
    // gathering: failures at once, the end only if there is nothing to hand out first
    && (!s.filled && d.err.Some? && d.err.value != Eof ==> r == d.err)
    && (!s.filled && d.err == Some(Eof) && s.buffer + d.data != [] ==> r == None)
    && (!s.filled && d.err == Some(Eof) && s.buffer + d.data == [] ==> r == Deliver(d.rest, max).err)
    && (!s.filled && d.err == None && s.buffer + d.data != [] ==> r == None)
  }

  lemma StepReports(s: State, c: Call)
    ensures Reports(s, c.max, ReadStep(s, c.max, c.now).err)
    ensures var reply, d := ReadStep(s, c.max, c.now), Deliver(s.script, c.max);
      && (s.filled && s.buffer == [] ==> reply.data == d.data)
      && (reply.err == Some(Eof) ==> reply.next.filled && reply.next.buffer == [])
      && (!s.filled && d.err.Some? && d.err.value != Eof ==> reply.data == [])
  {
    var d := Deliver(s.script, c.max);
    if !s.filled && s.buffer + d.data == [] {
      assert Fill(s, c.max, c.now).buffer == [];
    }
  }

  /** In every run: while gathering, a failure of the source is reported by the call that met it;
      the end of input is held back as long as the buffer holds bytes; and afterwards each call
      reports exactly the error its source reports, with exactly its bytes. */
  lemma {:induction false} ErrorsAreReported(s: State, calls: seq<Call>, i: nat)
    requires i < |calls|
    ensures var before := Play(s, calls[..i]);
      && Reports(before.state, calls[i].max, Errors(s, calls)[i])
      && (before.state.filled && before.state.buffer == [] ==>
            Play(s, calls[..i + 1]).returned
              == before.returned + Deliver(before.state.script, calls[i].max).data)
  {
    ErrorAt(s, calls, i);
    PlayAt(s, calls, i);
    StepReports(Play(s, calls[..i]).state, calls[i]);
  }

  /** The end of input is reported only after all that is to be shown has been returned. */
  lemma {:induction false} EndMeansAllReturned(
    lines: int, searchLimit: int, timeLimit: int, script: seq<Chunk>, calls: seq<Call>)
    requires calls != []
    requires Errors(Fresh(lines, searchLimit, timeLimit, script), calls)[|calls| - 1] == Some(Eof)
    ensures var r := Play(Fresh(lines, searchLimit, timeLimit, script), calls);
      r.state.filled && r.returned == Tail(r.gathered, lines) + r.passed
  {
    var s := Fresh(lines, searchLimit, timeLimit, script);
    var last := |calls| - 1;
    ErrorAt(s, calls, last);
    PlayAt(s, calls, last);
    StepReports(Play(s, calls[..last]).state, calls[last]);
    RunRefinesTail(lines, searchLimit, timeLimit, script, calls);
    assert calls[..last + 1] == calls;
    var r := Play(s, calls);
    assert r.returned + [] == r.returned;
  }

  // ------------------------------------------------------------- the end comes

  /** Calls that can still go by without the end of input. */
  function Weight(s: State): nat {
    2 * |AllBytes(s.script)| + |s.script| + |s.buffer|
  }

  lemma DeliveryShrinks(script: seq<Chunk>, max: nat)
    requires max > 0
    ensures var d := Deliver(script, max);
      && (script != [] ==> 2 * |AllBytes(d.rest)| + |d.rest| + |d.data| < 2 * |AllBytes(script)| + |script|)
      && (script == [] ==> d == Delivery([], Some(Eof), []))
  {
    DeliverConserves(script, max);
  }

  lemma EmitLightens(s: State, max: nat, gathered: seq<byte>)
    requires max > 0 && s.buffer != []
    ensures var reply := Emit(s, max, gathered);
      |reply.next.buffer| < |s.buffer| && reply.next.script == s.script
  {
    TailIsSuffix(s.buffer, s.lines);
  }

  lemma StepLightens(s: State, c: Call)
    requires c.max > 0
    ensures var reply := ReadStep(s, c.max, c.now);
      if Weight(s) == 0 then reply.err == Some(Eof) && Weight(reply.next) == 0 else Weight(reply.next) < Weight(s)
  {
    DeliveryShrinks(s.script, c.max);
    if s.filled {
      if s.buffer != [] {
        EmitLightens(s, c.max, []);
      }
    } else {
      var s1 := Fill(s, c.max, c.now);
      assert Weight(s1) <= Weight(s) && (s.script != [] ==> Weight(s1) < Weight(s));
      if s1.filled && s1.buffer != [] {
        EmitLightens(s1, c.max, Deliver(s.script, c.max).data);
      } else if s1.filled {
        DeliveryShrinks(s1.script, c.max);
      }
    }
  }

  lemma {:induction false} RunLightens(s: State, calls: seq<Call>)
    requires forall i | 0 <= i < |calls| :: calls[i].max > 0
    ensures Weight(Play(s, calls).state) == 0 || Weight(Play(s, calls).state) + |calls| <= Weight(s)
  {
    if calls != [] {
      var front := calls[..|calls| - 1];
      RunLightens(s, front);
      StepLightens(Play(s, front).state, calls[|calls| - 1]);
    }
  }

  /** Reads with room for at least one byte come to the end of every finite input: from some call
      on, each reports it. */
  lemma {:induction false} EndIsReported(
    lines: int, searchLimit: int, timeLimit: int, script: seq<Chunk>, calls: seq<Call>, i: nat)
    requires forall j | 0 <= j < |calls| :: calls[j].max > 0
    requires 2 * |AllBytes(script)| + |script| <= i < |calls|
    ensures Errors(Fresh(lines, searchLimit, timeLimit, script), calls)[i] == Some(Eof)
  {
    var s := Fresh(lines, searchLimit, timeLimit, script);
    ErrorAt(s, calls, i);
    RunLightens(s, calls[..i]);
    StepLightens(Play(s, calls[..i]).state, calls[i]);
  }
}
