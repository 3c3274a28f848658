/** Whole runs of the line reader: any sequence of `Read` calls, with any buffer sizes and
    clock readings, over a source that may report any chunks, idle reads and errors. */
module LineReaderRuns {
  import opened Wrappers
  import opened TextLines
  import opened LineReader

  datatype Call = Call(max: nat, now: int)

  /** Where a run has got to: the reader, all bytes returned to the caller, all bytes taken
      from the source while gathering, and all bytes taken after that. */
  datatype Run = Run(state: State, returned: seq<byte>, gathered: seq<byte>, passed: seq<byte>)

  function After(r: Run, c: Call): Run {
    var reply := ReadStep(r.state, c.max, c.now);
    Run(reply.next, r.returned + reply.data, r.gathered + reply.gathered, r.passed + reply.passed)
  }

  function Play(s: State, calls: seq<Call>): Run {
    if calls == [] then Run(s, [], [], [])
    else
      After(Play(s, calls[..|calls| - 1]), calls[|calls| - 1])
  }

  // ------------------------------------------------------------- nothing lost or reordered

  lemma DeliverConserves(script: seq<Chunk>, max: nat)
    ensures var d := Deliver(script, max); AllBytes(script) == d.data + AllBytes(d.rest)
  {
    if script != [] && |script[0].data| > max {
      var d := Deliver(script, max);
      assert d.rest[1..] == script[1..];
      assert script[0].data == d.data + d.rest[0].data;
    }
  }

  ghost predicate Faithful(r: Run, lines: int) {
    && r.state.lines == lines
    && (!r.state.filled ==>
          r.returned == [] && r.passed == [] && r.state.buffer == r.gathered && !r.state.foundLines)
    && (r.state.filled && !r.state.foundLines ==> r.state.buffer == [] && r.gathered == [])
    && (r.state.filled ==> r.returned + r.state.buffer == Tail(r.gathered, lines) + r.passed)
    && (r.state.buffer != [] ==> r.passed == [])
  }

  /** What is left in the buffer once the lines have been looked for. */
  function Kept(s: State): seq<byte> {
    if s.foundLines || s.buffer == [] then s.buffer else Tail(s.buffer, s.lines)
  }

  lemma EmitFacts(s: State, max: nat, gathered: seq<byte>)
    ensures var reply := Emit(s, max, gathered);
      && reply.gathered == gathered
      && reply.next.lines == s.lines && reply.next.filled == s.filled
      && reply.data + reply.next.buffer == Kept(s) + reply.passed
      && AllBytes(s.script) == reply.passed + AllBytes(reply.next.script)
      && (s.buffer != [] ==> reply.passed == [] && reply.next.foundLines)
      && (s.buffer == [] ==> reply.next.buffer == [] && reply.next.foundLines == s.foundLines)
  {
    DeliverConserves(s.script, max);
  }

  lemma FillFacts(s: State, max: nat, now: int)
    requires !s.filled
    ensures var s1, d := Fill(s, max, now), Deliver(s.script, max);
      && s1.lines == s.lines && s1.foundLines == s.foundLines && s1.buffer == s.buffer + d.data
      && AllBytes(s.script) == d.data + AllBytes(s1.script)
  {
    DeliverConserves(s.script, max);
  }

  lemma Regroup(a: seq<byte>, b: seq<byte>, c: seq<byte>, d: seq<byte>)
    ensures (a + b) + c + d == a + (b + c) + d == (a + b) + (c + d)
  {
  }

  lemma DrainingStepFaithful(r: Run, c: Call, lines: int)
    requires Faithful(r, lines) && r.state.filled
    ensures Faithful(After(r, c), lines)
  {
    var reply := ReadStep(r.state, c.max, c.now);
    var t := Tail(r.gathered, lines);
    EmitFacts(r.state, c.max, []);
    assert r.gathered + reply.gathered == r.gathered;
    assert Kept(r.state) == r.state.buffer;
    Regroup(r.returned, reply.data, reply.next.buffer, []);
    Regroup(t, r.passed, reply.passed, []);
    assert (r.returned + reply.data) + reply.next.buffer == t + (r.passed + reply.passed) by {
      Regroup(r.returned, r.state.buffer, reply.passed, []);
    }
  }

  lemma GatheringStepFaithful(r: Run, c: Call, lines: int)
    requires Faithful(r, lines) && !r.state.filled
    ensures Faithful(After(r, c), lines)
  {
    var s1, d := Fill(r.state, c.max, c.now), Deliver(r.state.script, c.max).data;
    var r' := After(r, c);
    FillFacts(r.state, c.max, c.now);
    assert s1.buffer == r.gathered + d && r'.gathered == r.gathered + d;
    if s1.filled {
      EmitFacts(s1, c.max, d);
      FirstEmission(s1, c.max, d);
      assert r'.returned == Emit(s1, c.max, d).data && r'.passed == Emit(s1, c.max, d).passed;
    } else {
      assert r' == Run(s1, r.returned + [], r.gathered + d, r.passed + []);
    }
  }

  /** The first time bytes are handed out, they and the buffer are the tail of what was gathered. */
  lemma FirstEmission(s: State, max: nat, gathered: seq<byte>)
    requires s.filled && !s.foundLines
    ensures var reply := Emit(s, max, gathered);
      && reply.data + reply.next.buffer == Tail(s.buffer, s.lines) + reply.passed
      && (reply.next.buffer != [] ==> reply.passed == [])
      && (!reply.next.foundLines ==> s.buffer == [] && reply.next.buffer == [])
  {
    EmitFacts(s, max, gathered);
    if s.buffer == [] {
      TailIsSuffix(s.buffer, s.lines);
    }
  }

  lemma GatheringStepConserves(s: State, c: Call)
    requires !s.filled
    ensures var reply := ReadStep(s, c.max, c.now);
      && AllBytes(s.script) == reply.gathered + reply.passed + AllBytes(reply.next.script)
      && (reply.gathered == [] || reply.passed == [])
  {
    var s1, d, reply := Fill(s, c.max, c.now), Deliver(s.script, c.max).data, ReadStep(s, c.max, c.now);
    FillFacts(s, c.max, c.now);
    assert reply.gathered == d;
    if s1.filled {
      EmitFacts(s1, c.max, d);
      if reply.passed == [] {
        assert d + [] == d && [] + AllBytes(reply.next.script) == AllBytes(reply.next.script);
      } else {
        assert d == [];
      }
    } else {
      assert reply.passed == [] && reply.next == s1 && d + [] == d;
    }
  }

  lemma StepConserves(s: State, c: Call)
    ensures var reply := ReadStep(s, c.max, c.now);
      && AllBytes(s.script) == reply.gathered + reply.passed + AllBytes(reply.next.script)
      && (reply.gathered == [] || reply.passed == [])
      && (s.filled ==> reply.next.filled && reply.gathered == [])
  {
    if s.filled {
      EmitFacts(s, c.max, []);
    } else {
      GatheringStepConserves(s, c);
    }
  }

  lemma ConserveAcross(r: Run, c: Call, all: seq<byte>)
    requires all == r.gathered + r.passed + AllBytes(r.state.script)
    requires !r.state.filled ==> r.passed == []
    ensures var r' := After(r, c); all == r'.gathered + r'.passed + AllBytes(r'.state.script)
  {
    var reply := ReadStep(r.state, c.max, c.now);
    StepConserves(r.state, c);
    Append(r.gathered, r.passed, reply.gathered, reply.passed, AllBytes(reply.next.script));
  }

  lemma Append(g: seq<byte>, p: seq<byte>, dg: seq<byte>, dp: seq<byte>, rest: seq<byte>)
    requires dg == [] || (p == [] && dp == [])
    ensures g + p + (dg + dp + rest) == (g + dg) + (p + dp) + rest
  {
    if dg == [] {
      assert g + dg == g && dg + dp == dp;
    } else {
      assert p + dp == [] && g + p == g && dg + dp == dg;
    }
  }

  /** The main result. Whatever the calls and the source do, the bytes returned so far are a
      prefix of the tail of what was gathered followed by what came afterwards; what is not
      yet returned is exactly the buffer; and gathered, passed and unread bytes are together
      what the source had to say, in order. */
  lemma {:induction false} RunRefinesTail(
    lines: int, searchLimit: int, timeLimit: int, script: seq<Chunk>, calls: seq<Call>)
    ensures var r := Play(Fresh(lines, searchLimit, timeLimit, script), calls);
      && AllBytes(script) == r.gathered + r.passed + AllBytes(r.state.script)
      && r.returned <= Tail(r.gathered, lines) + r.passed
      && (if r.state.filled then r.returned + r.state.buffer == Tail(r.gathered, lines) + r.passed
          else r.returned == [] && r.passed == [] && r.state.buffer == r.gathered)
      && Faithful(r, lines)
  {
    if calls != [] {
      var front, c := calls[..|calls| - 1], calls[|calls| - 1];
      RunRefinesTail(lines, searchLimit, timeLimit, script, front);
      var b := Play(Fresh(lines, searchLimit, timeLimit, script), front);
      if b.state.filled {
        DrainingStepFaithful(b, c, lines);
      } else {
        GatheringStepFaithful(b, c, lines);
      }
      ConserveAcross(b, c, AllBytes(script));
    }
  }

  /** What was gathered is settled the moment the buffer counts as filled. */
  lemma {:induction false} GatheredIsSettled(s: State, calls: seq<Call>, more: seq<Call>)
    requires Play(s, calls).state.filled
    ensures Play(s, calls + more).state.filled
    ensures Play(s, calls + more).gathered == Play(s, calls).gathered
    ensures Play(s, calls).returned <= Play(s, calls + more).returned
  {
    if more == [] {
      assert calls + more == calls;
    } else {
      var front := more[..|more| - 1];
      assert (calls + more)[..|calls + more| - 1] == calls + front;
      GatheredIsSettled(s, calls, front);
      StepConserves(Play(s, calls + front).state, more[|more| - 1]);
    }
  }

  // ------------------------------------------------------------- gathering comes to an end

  ghost predicate NoFailures(script: seq<Chunk>) {
    forall i | 0 <= i < |script| :: script[i].err.Some? ==> script[i].err.value == Eof
  }

  ghost predicate Ticking(calls: seq<Call>) {
    forall i | 0 < i < |calls| :: calls[i - 1].now < calls[i].now
  }

  /** `n * unit`, kept out of the solver's multiplication. */
  function Times(n: nat, unit: nat): nat {
    if n == 0 then 0 else unit + Times(n - 1, unit)
  }

  lemma {:induction false} TimesIsProduct(n: nat, unit: nat)
    ensures Times(n, unit) == n * unit
  {
    if n > 0 {
      TimesIsProduct(n - 1, unit);
    }
  }

  lemma {:induction false} TimesGrows(m: nat, n: nat, unit: nat)
    requires m < n
    ensures Times(m, unit) + unit <= Times(n, unit)
  {
    if m < n - 1 {
      TimesGrows(m, n - 1, unit);
    }
  }

  /** An unfilled reader after `n > 0` calls, the last of them at `now`: the calls made, the
      room left in the buffer and the time left since data arrived are worth a fixed sum. */
  ghost predicate StillGathering(s: State, now: int, n: nat)
    requires s.timeLimit > 0 && s.searchLimit > 0
  {
    var unit := s.timeLimit + 2;
    && !s.filled && NoFailures(s.script) && |s.buffer| < s.searchLimit
    && s.lastRead.Some? && s.lastRead.value <= now <= s.lastRead.value + s.timeLimit
    && n + Times(s.searchLimit - |s.buffer|, unit) + (s.lastRead.value + s.timeLimit + 1 - now)
         <= Times(s.searchLimit, unit) + unit
  }

  lemma GatherOnce(s: State, c: Call, before: int, n: nat)
    requires s.timeLimit > 0 && s.searchLimit > 0
    requires StillGathering(s, before, n) && before < c.now
    ensures var s1 := Fill(s, c.max, c.now); s1.filled || StillGathering(s1, c.now, n + 1)
  {
    var d, s1 := Deliver(s.script, c.max), Fill(s, c.max, c.now);
    if d.data == [] {
      assert s1.buffer == s.buffer;
    } else if !s1.filled {
      TimesGrows(s.searchLimit - |s1.buffer|, s.searchLimit - |s.buffer|, s.timeLimit + 2);
    }
  }

  lemma GatherFirst(s: State, c: Call)
    requires s.lastRead.None? && s.buffer == [] && !s.filled
    requires s.searchLimit > 0 && s.timeLimit > 0 && NoFailures(s.script)
    ensures var s1 := Fill(s, c.max, c.now); s1.filled || StillGathering(s1, c.now, 1)
  {
    var s1 := Fill(s, c.max, c.now);
    if !s1.filled && |s1.buffer| > 0 {
      TimesGrows(s.searchLimit - |s1.buffer|, s.searchLimit, s.timeLimit + 2);
    }
  }

  lemma StepGathers(s: State, c: Call)
    ensures var s' := ReadStep(s, c.max, c.now).next;
      && s'.searchLimit == s.searchLimit && s'.timeLimit == s.timeLimit
      && (if s.filled || Fill(s, c.max, c.now).filled then s'.filled else s' == Fill(s, c.max, c.now))
  {
  }

  lemma {:induction false} GatherProgress(
    lines: int, searchLimit: int, timeLimit: int, script: seq<Chunk>, calls: seq<Call>)
    requires searchLimit > 0 && timeLimit > 0 && NoFailures(script) && Ticking(calls) && calls != []
    ensures var s := Play(Fresh(lines, searchLimit, timeLimit, script), calls).state;
      && s.searchLimit == searchLimit && s.timeLimit == timeLimit
      && (s.filled || StillGathering(s, calls[|calls| - 1].now, |calls|))
  {
    var s0 := Fresh(lines, searchLimit, timeLimit, script);
    var front, c := calls[..|calls| - 1], calls[|calls| - 1];
    var s := Play(s0, front).state;
    StepGathers(s, c);
    if front == [] {
      assert s == s0;
      GatherFirst(s0, c);
    } else {
      GatherProgress(lines, searchLimit, timeLimit, script, front);
      var before := front[|front| - 1];
      assert before == calls[|calls| - 2];
      if !s.filled {
        GatherOnce(s, c, before.now, |front|);
      }
    }
  }

  /** Gathering lasts fewer than `searchLimit * (timeLimit + 2)` calls when the clock moves on
      with every call and the source reports no error but the end of its input. */
  lemma GatheringTerminates(
    lines: int, searchLimit: int, timeLimit: int, script: seq<Chunk>, calls: seq<Call>)
    requires searchLimit > 0 && timeLimit > 0 && NoFailures(script) && Ticking(calls)
    requires |calls| >= searchLimit * (timeLimit + 2)
    ensures Play(Fresh(lines, searchLimit, timeLimit, script), calls).state.filled
  {
    TimesIsProduct(searchLimit, timeLimit + 2);
    GatherProgress(lines, searchLimit, timeLimit, script, calls);
  }

  ghost predicate NoErrors(script: seq<Chunk>) {
    forall i | 0 <= i < |script| :: script[i].err == None
  }

  /** When gathering last heard from the source: at its first call, or at the last that brought
      data. */
  function LastHeard(s: State, calls: seq<Call>): Option<int> {
    if calls == [] then None
    else
      var front, c := calls[..|calls| - 1], calls[|calls| - 1];
      var before := LastHeard(s, front);
      if before.None? || Play(s, calls).gathered != Play(s, front).gathered then Some(c.now) else before
  }

  /** Some call brings nothing, later than the time limit after the source was last heard. */
  predicate TimesOut(s: State, calls: seq<Call>) {
    calls != [] &&
    var front, c := calls[..|calls| - 1], calls[|calls| - 1];
    var before := LastHeard(s, front);
    || TimesOut(s, front)
    || (s.timeLimit > 0 && before.Some? && Play(s, calls).gathered == Play(s, front).gathered
        && before.value + s.timeLimit < c.now)
  }

  /** A source with more to come that neither fails nor ends within what is asked of it. */
  ghost predicate KeepsQuiet(s: State, r: Run) {
    && r.state.searchLimit == s.searchLimit && r.state.timeLimit == s.timeLimit
    && NoErrors(r.state.script) && r.returned == []
    && |r.state.buffer| + |AllBytes(r.state.script)| < s.searchLimit
  }

  lemma QuietDelivery(script: seq<Chunk>, max: nat)
    requires script != [] && NoErrors(script)
    ensures var d := Deliver(script, max);
      d.err == None && NoErrors(d.rest) && |d.rest| >= |script| - 1
      && |d.data| + |AllBytes(d.rest)| == |AllBytes(script)|
  {
    DeliverConserves(script, max);
  }

  lemma QuietStep(s: State, c: Call)
    requires !s.filled && s.script != [] && NoErrors(s.script)
    requires |s.buffer| + |AllBytes(s.script)| < s.searchLimit
    ensures var s1, d := Fill(s, c.max, c.now), Deliver(s.script, c.max).data;
      && NoErrors(s1.script) && |s1.script| >= |s.script| - 1
      && |s1.buffer| + |AllBytes(s1.script)| == |s.buffer| + |AllBytes(s.script)|
      && (s1.filled <==> s.timeLimit > 0 && s.lastRead.Some? && d == [] && s.lastRead.value + s.timeLimit < c.now)
      && (!s1.filled && s.timeLimit > 0 ==>
            s1.lastRead == if s.lastRead.None? || d != [] then Some(c.now) else s.lastRead)
  {
    QuietDelivery(s.script, c.max);
  }

  lemma StayingFilled(s: State, calls: seq<Call>)
    requires calls != [] && Play(s, calls[..|calls| - 1]).state.filled
    ensures Play(s, calls).state.filled
  {
    var front := calls[..|calls| - 1];
    GatheredIsSettled(s, front, calls[|calls| - 1..]);
    assert front + calls[|calls| - 1..] == calls;
  }

  /** As long as the source neither fails nor ends and has less to say than the limit, gathering
      is over exactly when some call brought nothing and came later than the time limit after
      the last that did (or the first); until then nothing is handed out. */
  lemma {:induction false} GatheringIsPatient(
    lines: int, searchLimit: int, timeLimit: int, script: seq<Chunk>, calls: seq<Call>)
    requires NoErrors(script) && |script| >= |calls| && |AllBytes(script)| < searchLimit
    ensures var s0 := Fresh(lines, searchLimit, timeLimit, script);
      var r := Play(s0, calls);
      && (r.state.filled <==> TimesOut(s0, calls))
      && (!r.state.filled ==>
            && KeepsQuiet(s0, r) && |r.state.script| >= |script| - |calls|
            && (timeLimit > 0 ==> r.state.lastRead == LastHeard(s0, calls)))
  {
    if calls != [] {
      var s0 := Fresh(lines, searchLimit, timeLimit, script);
      var front, c := calls[..|calls| - 1], calls[|calls| - 1];
      var b, r := Play(s0, front), Play(s0, calls);
      GatheringIsPatient(lines, searchLimit, timeLimit, script, front);
      if b.state.filled {
        StayingFilled(s0, calls);
      } else {
        QuietStep(b.state, c);
        var d := Deliver(b.state.script, c.max).data;
        assert r.gathered == b.gathered + d;
        assert r.gathered == b.gathered <==> d == [] by {
          assert |r.gathered| == |b.gathered| + |d|;
        }
        StepGathers(b.state, c);
      }
    }
  }
}
