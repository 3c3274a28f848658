/** How large the search buffer of the line reader gets. */
module LineReaderBounds {
  import opened Wrappers
  import opened TextLines
  import opened LineReader
  import opened LineReaderRuns

  // ------------------------------------------------------------- a bound for every source

  /** Bytes that arrive together with an error other than the end of input. */
  function FailureBytes(script: seq<Chunk>): nat {
    if script == [] then 0
    else
      var head := script[0];
      (if head.err.Some? && head.err.value != Eof then |head.data| else 0) + FailureBytes(script[1..])
  }

  lemma DeliverFailureBytes(script: seq<Chunk>, max: nat)
    ensures var d := Deliver(script, max);
      FailureBytes(d.rest) + (if d.err.Some? && d.err.value != Eof then |d.data| else 0) <= FailureBytes(script)
  {
    if script != [] && |script[0].data| > max {
      assert Deliver(script, max).rest[1..] == script[1..];
    }
  }

  lemma FillBound(s: State, max: nat, now: int)
    requires !s.filled
    ensures var s1 := Fill(s, max, now);
      && |s1.buffer| <= |s.buffer| + max
      && FailureBytes(s1.script) <= FailureBytes(s.script)
      && (!s1.filled ==> || |s1.buffer| + FailureBytes(s1.script) <= |s.buffer| + FailureBytes(s.script)
                         || |s1.buffer| < s.searchLimit)
  {
    DeliverFailureBytes(s.script, max);
  }

  lemma EmitBound(s: State, max: nat, gathered: seq<byte>)
    ensures var reply := Emit(s, max, gathered);
      && |reply.next.buffer| <= |s.buffer|
      && FailureBytes(reply.next.script) <= FailureBytes(s.script)
  {
    TailIsSuffix(s.buffer, s.lines);
    DeliverFailureBytes(s.script, max);
  }

  /** Never more than the limit, plus one read, plus what came with failures. */
  lemma {:induction false} BufferBound(
    lines: int, searchLimit: int, timeLimit: int, script: seq<Chunk>, calls: seq<Call>, maxRead: nat)
    requires searchLimit >= 1
    requires forall i | 0 <= i < |calls| :: calls[i].max <= maxRead
    ensures var s := Play(Fresh(lines, searchLimit, timeLimit, script), calls).state;
      && s.searchLimit == searchLimit && FailureBytes(s.script) <= FailureBytes(script)
      && |s.buffer| < searchLimit + maxRead + FailureBytes(script)
      && (!s.filled ==> |s.buffer| + FailureBytes(s.script) < searchLimit + FailureBytes(script))
  {
    if calls != [] {
      var front, c := calls[..|calls| - 1], calls[|calls| - 1];
      var s := Play(Fresh(lines, searchLimit, timeLimit, script), front).state;
      BufferBound(lines, searchLimit, timeLimit, script, front, maxRead);
      StepBound(s, c, searchLimit + maxRead + FailureBytes(script));
    }
  }

  lemma StepBound(s: State, c: Call, bound: int)
    requires |s.buffer| < bound && (!s.filled ==> |s.buffer| + c.max < bound)
    ensures var s' := ReadStep(s, c.max, c.now).next;
      && s'.searchLimit == s.searchLimit && FailureBytes(s'.script) <= FailureBytes(s.script)
      && |s'.buffer| < bound
      && (!s'.filled ==> || |s'.buffer| + FailureBytes(s'.script) <= |s.buffer| + FailureBytes(s.script)
                         || |s'.buffer| < s.searchLimit)
      && (s.filled ==> s'.filled)
  {
    if s.filled {
      EmitBound(s, c.max, []);
    } else {
      FillBound(s, c.max, c.now);
      EmitBound(Fill(s, c.max, c.now), c.max, Deliver(s.script, c.max).data);
    }
  }

  /** Without the failure term the bound is false: data that comes with errors is buffered
      without ever looking at the limit. */
  lemma {:induction false} FailuresOverrunTheLimit(lines: int, timeLimit: int, k: nat)
    ensures var script := seq(k, i => Chunk([0], Some(Failure(0))));
      var r := Play(Fresh(lines, 1, timeLimit, script), seq(k, i => Call(1, i)));
      !r.state.filled && |r.state.buffer| == k
  {
    OverrunAfter(lines, timeLimit, k, k);
  }

  lemma {:induction false} OverrunAfter(lines: int, timeLimit: int, k: nat, done: nat)
    requires done <= k
    ensures var script := seq(k, i => Chunk([0], Some(Failure(0))));
      var r := Play(Fresh(lines, 1, timeLimit, script), seq(done, i => Call(1, i)));
      && !r.state.filled && |r.state.buffer| == done
      && r.state.script == script[done..]
  {
    if done > 0 {
      OverrunAfter(lines, timeLimit, k, done - 1);
      var calls := seq(done, i => Call(1, i));
      assert calls[..done - 1] == seq(done - 1, i => Call(1, i));
    }
  }
  // ------------------------------------------------------------- for which sources the limit holds

  predicate Failing(c: Chunk) {
    c.err.Some? && c.err.value != Eof
  }

  /** The input has not ended before chunk `i`, and the chunks from `i` up to `j` all fail. */
  ghost predicate Stretch(script: seq<Chunk>, i: nat, j: nat)
    requires i <= j <= |script|
  {
    (forall k | 0 <= k < i :: script[k].err != Some(Eof)) && (forall k | i <= k < j :: Failing(script[k]))
  }

  /** No two chunks with bytes lie in one unbroken stretch of failing chunks; with `strict` set,
      nor does one follow such a stretch. */
  ghost predicate Apart(script: seq<Chunk>, strict: bool) {
    forall i, j | 0 <= i < j < |script| && Stretch(script, i, j) && (strict || Failing(script[j])) ::
      script[i].data == [] || script[j].data == []
  }

  /** The leading stretch of failing chunks carries no bytes; nor, if strict, does what follows. */
  ghost predicate Quiet(script: seq<Chunk>, strict: bool) {
    forall j | 0 <= j < |script| && Stretch(script, 0, j) && (strict || Failing(script[j])) :: script[j].data == []
  }

  ghost predicate AtMost(calls: seq<Call>, maxRead: nat) {
    forall i | 0 <= i < |calls| :: calls[i].max <= maxRead
  }

  /** The size of the buffer during a call, before anything is handed out. */
  function Peak(s: State, c: Call): nat {
    if s.filled then |s.buffer| else |Fill(s, c.max, c.now).buffer|
  }

  /** Between calls the buffer stays below the limit plus the largest read, whatever the limits. */
  ghost predicate BoundedBetweenCalls(script: seq<Chunk>) {
    forall lines, limit, time, calls, maxRead: nat | limit >= 1 && AtMost(calls, maxRead) ::
      |Play(Fresh(lines, limit, time, script), calls).state.buffer| < limit + maxRead
  }

  /** It stays below that at all times. */
  ghost predicate BoundedDuringCalls(script: seq<Chunk>) {
    forall lines, limit, time, calls, c: Call, maxRead: nat
      | limit >= 1 && AtMost(calls, maxRead) && c.max <= maxRead ::
      Peak(Play(Fresh(lines, limit, time, script), calls).state, c) < limit + maxRead
  }

  // ------------------------------------------------------------- sources that keep the bound

  lemma ShiftStretch(head: Chunk, tail: seq<Chunk>, i: nat, j: nat)
    requires i <= j <= |tail|
    ensures head.err != Some(Eof) && Stretch(tail, i, j) ==> Stretch([head] + tail, i + 1, j + 1)
    ensures Failing(head) && Stretch(tail, 0, j) ==> Stretch([head] + tail, 0, j + 1)
  {
    var script := [head] + tail;
    assert forall k | 0 <= k < |tail| :: script[k + 1] == tail[k];
    assert forall k | 0 < k <= |tail| :: script[k] == tail[k - 1];
  }

  lemma ApartTail(script: seq<Chunk>, strict: bool)
    requires script != [] && Apart(script, strict) && script[0].err != Some(Eof)
    ensures Apart(script[1..], strict)
    ensures Failing(script[0]) && script[0].data != [] ==> Quiet(script[1..], strict)
    ensures Failing(script[0]) && Quiet(script, strict) ==> Quiet(script[1..], strict)
  {
    var tail := script[1..];
    assert script == [script[0]] + tail;
    forall i, j | 0 <= i < j < |tail| && Stretch(tail, i, j) && (strict || Failing(tail[j]))
      ensures tail[i].data == [] || tail[j].data == []
    {
      ShiftStretch(script[0], tail, i, j);
      assert Stretch(script, i + 1, j + 1) && script[j + 1] == tail[j];
    }
    if Failing(script[0]) {
      forall j | 0 <= j < |tail| && Stretch(tail, 0, j) && (strict || Failing(tail[j]))
        ensures script[0].data != [] || Quiet(script, strict) ==> tail[j].data == []
      {
        ShiftStretch(script[0], tail, 0, j);
        assert Stretch(script, 0, j + 1) && script[j + 1] == tail[j];
      }
    }
  }

  /** Part of a chunk with bytes leaves a chunk with bytes. */
  lemma ApartPart(script: seq<Chunk>, head: Chunk, strict: bool)
    requires script != [] && Apart(script, strict)
    requires head.err == script[0].err && head.data != [] && script[0].data != []
    ensures Apart([head] + script[1..], strict)
  {
    var script' := [head] + script[1..];
    forall i, j | 0 <= i < j < |script'| && Stretch(script', i, j) && (strict || Failing(script'[j]))
      ensures script'[i].data == [] || script'[j].data == []
    {
      assert forall k | 0 <= k < |script| :: script'[k].err == script[k].err;
      assert Stretch(script, i, j);
    }
  }

  /** What gathering keeps: once at the limit, no more bytes arrive without a look at it. */
  ghost predicate InBounds(s: State, maxRead: nat, strict: bool) {
    && |s.buffer| < s.searchLimit + maxRead
    && (!s.filled ==> Apart(s.script, strict) && (|s.buffer| < s.searchLimit || Quiet(s.script, strict)))
  }

  lemma FillInBounds(s: State, c: Call, maxRead: nat, strict: bool)
    requires !s.filled && InBounds(s, maxRead, strict) && c.max <= maxRead
    ensures var s1 := Fill(s, c.max, c.now);
      && (!s1.filled ==> InBounds(s1, maxRead, strict))
      && (strict ==> |s1.buffer| < s.searchLimit + maxRead)
  {
    var s1 := Fill(s, c.max, c.now);
    if s.script != [] {
      var head := s.script[0];
      assert Stretch(s.script, 0, 0);
      if |head.data| > c.max {
        ApartPart(s.script, Chunk(head.data[c.max..], head.err), strict);
      } else if head.err != Some(Eof) {
        ApartTail(s.script, strict);
      }
    }
  }

  lemma EmitShrinks(s: State, max: nat, gathered: seq<byte>)
    ensures var reply := Emit(s, max, gathered);
      |reply.next.buffer| <= |s.buffer| && (|s.buffer| >= max ==> |reply.next.buffer| <= |s.buffer| - max)
      && (|s.buffer| <= max ==> reply.next.buffer == [])
      && reply.next.filled == s.filled && reply.next.searchLimit == s.searchLimit
  {
    TailIsSuffix(s.buffer, s.lines);
  }

  lemma StepInBounds(s: State, c: Call, maxRead: nat, strict: bool)
    requires InBounds(s, maxRead, strict) && c.max <= maxRead && s.searchLimit >= 1
    ensures InBounds(ReadStep(s, c.max, c.now).next, maxRead, strict)
    ensures ReadStep(s, c.max, c.now).next.searchLimit == s.searchLimit
    ensures strict ==> Peak(s, c) < s.searchLimit + maxRead
  {
    if s.filled {
      EmitShrinks(s, c.max, []);
    } else {
      var s1, d := Fill(s, c.max, c.now), Deliver(s.script, c.max).data;
      FillInBounds(s, c, maxRead, strict);
      if s1.filled {
        EmitShrinks(s1, c.max, d);
      }
    }
  }

  lemma {:induction false} RunInBounds(s: State, calls: seq<Call>, maxRead: nat, strict: bool)
    requires InBounds(s, maxRead, strict) && AtMost(calls, maxRead) && s.searchLimit >= 1
    ensures InBounds(Play(s, calls).state, maxRead, strict)
    ensures Play(s, calls).state.searchLimit == s.searchLimit
  {
    if calls != [] {
      var front := calls[..|calls| - 1];
      RunInBounds(s, front, maxRead, strict);
      StepInBounds(Play(s, front).state, calls[|calls| - 1], maxRead, strict);
    }
  }

  // ------------------------------------------------------------- sources that do not

  lemma {:induction false} PlayJoin(s: State, a: seq<Call>, b: seq<Call>)
    ensures Play(s, a + b).state == Play(Play(s, a).state, b).state
  {
    if b == [] {
      assert a + b == a;
    } else {
      assert (a + b)[..|a + b| - 1] == a + b[..|b| - 1];
      PlayJoin(s, a, b[..|b| - 1]);
    }
  }

  /** A call that is not told the time. */
  function Untimed(max: nat): Call {
    Call(max, 0)
  }

  lemma OneCall(s: State, c: Call)
    ensures Play(s, [c]).state == ReadStep(s, c.max, c.now).next
  {
    assert [c][..0] == [];
  }

  /** The reader when its source has got to `rest`, having delivered `more`. */
  function Later(s: State, more: seq<byte>, rest: seq<Chunk>): State {
    s.(buffer := s.buffer + more, script := rest)
  }

  lemma FirstByte(s: State)
    requires !s.filled && s.timeLimit <= 0 && s.script != [] && |s.script[0].data| > 1
    requires |s.buffer| + 1 < s.searchLimit
    ensures var head := s.script[0];
      ReadStep(s, 1, 0).next == Later(s, head.data[..1], [Chunk(head.data[1..], head.err)] + s.script[1..])
  {
  }

  /** There is room for the whole chunk below the limit; one that fails may reach it. */
  predicate RoomForFirst(s: State) {
    s.script != [] && s.script[0].err != Some(Eof)
    && (|s.buffer| + |s.script[0].data| < s.searchLimit + (if Failing(s.script[0]) then 1 else 0)
        || (Failing(s.script[0]) && s.script[0].data == []))
  }

  lemma LastByte(s: State)
    requires !s.filled && s.timeLimit <= 0 && RoomForFirst(s) && |s.script[0].data| <= 1
    ensures ReadStep(s, 1, 0).next == Later(s, s.script[0].data, s.script[1..])
  {
  }

  lemma {:induction false} ThroughChunk(s: State) returns (calls: seq<Call>)
    requires !s.filled && s.timeLimit <= 0 && RoomForFirst(s)
    ensures AtMost(calls, 1) && Play(s, calls).state == Later(s, s.script[0].data, s.script[1..])
    decreases |s.script[0].data|
  {
    var head, tail := s.script[0], s.script[1..];
    calls := [Untimed(1)];
    OneCall(s, Untimed(1));
    if |head.data| <= 1 {
      LastByte(s);
    } else {
      FirstByte(s);
      var rest := Chunk(head.data[1..], head.err);
      var s1 := Later(s, head.data[..1], [rest] + tail);
      assert s1.script[0] == rest && s1.script[1..] == tail;
      var more := ThroughChunk(s1);
      PlayJoin(s, calls, more);
      calls := calls + more;
      LaterTwice(s, head.data[..1], head.data[1..], [rest] + tail, tail);
      assert head.data[..1] + head.data[1..] == head.data;
    }
  }

  /** Byte by byte up to chunk `n`. */
  lemma {:induction false} Through(s: State, n: nat) returns (calls: seq<Call>)
    requires !s.filled && s.timeLimit <= 0 && n <= |s.script|
    requires forall k | 0 <= k < n :: s.script[k].err != Some(Eof)
    requires |s.buffer| + |AllBytes(s.script[..n])| < s.searchLimit
    ensures AtMost(calls, 1) && Play(s, calls).state == Later(s, AllBytes(s.script[..n]), s.script[n..])
    decreases n
  {
    calls := [];
    if n == 0 {
      assert s.script[..0] == [] && s.script[0..] == s.script && s.buffer + [] == s.buffer;
    } else {
      var head, tail := s.script[0], s.script[1..];
      FirstBytes(s.script, n);
      calls := ThroughChunk(s);
      var s1 := Later(s, head.data, tail);
      var more := Through(s1, n - 1);
      PlayJoin(s, calls, more);
      calls := calls + more;
      assert tail[n - 1..] == s.script[n..];
      LaterTwice(s, head.data, AllBytes(tail[..n - 1]), tail, tail[n - 1..]);
    }
  }

  lemma FirstBytes(script: seq<Chunk>, n: nat)
    requires 0 < n <= |script|
    ensures AllBytes(script[..n]) == script[0].data + AllBytes(script[1..][..n - 1])
  {
    assert script[..n][1..] == script[1..][..n - 1];
  }

  lemma LaterTwice(s: State, a: seq<byte>, b: seq<byte>, rest: seq<Chunk>, rest': seq<Chunk>)
    ensures Later(Later(s, a, rest), b, rest') == Later(s, a + b, rest')
  {
    assert s.buffer + a + b == s.buffer + (a + b);
  }

  /** Past `n` failing chunks without bytes, however full the buffer is. */
  lemma {:induction false} ThroughFailures(s: State, n: nat) returns (calls: seq<Call>)
    requires !s.filled && s.timeLimit <= 0 && n <= |s.script|
    requires forall k | 0 <= k < n :: Failing(s.script[k]) && s.script[k].data == []
    ensures AtMost(calls, 1) && Play(s, calls).state == Later(s, [], s.script[n..])
    decreases n
  {
    calls := [];
    if n == 0 {
      assert s.script[0..] == s.script && s.buffer + [] == s.buffer;
    } else {
      calls := ThroughChunk(s);
      var s1 := Later(s, [], s.script[1..]);
      var more := ThroughFailures(s1, n - 1);
      PlayJoin(s, calls, more);
      calls := calls + more;
      LaterTwice(s, [], [], s.script[1..], s.script[1..][n - 1..]);
    }
  }

  /** Of two chunks with bytes in one stretch, two with none between them. */
  lemma {:induction false} Neighbours(script: seq<Chunk>, i: nat, j: nat) returns (k: nat)
    requires i < j < |script| && Stretch(script, i, j) && script[i].data != []
    ensures i <= k < j && Stretch(script, k, j) && script[k].data != []
    ensures forall l | k < l < j :: script[l].data == []
    decreases j - i
  {
    k := i;
    if l :| i < l < j && script[l].data != [] {
      k := Neighbours(script, l, j);
    }
  }

  /** A search limit that is reached with chunk `i`. */
  function LimitAt(script: seq<Chunk>, i: nat): nat
    requires i < |script|
  {
    |AllBytes(script[..i])| + |script[i].data|
  }

  lemma UpToLimit(script: seq<Chunk>, i: nat) returns (calls: seq<Call>)
    requires i < |script| && (forall k | 0 <= k < i :: script[k].err != Some(Eof))
    requires Failing(script[i]) && script[i].data != []
    ensures AtMost(calls, 1)
    ensures var s0 := Fresh(0, LimitAt(script, i), 0, script);
      Play(s0, calls).state == Later(s0, AllBytes(script[..i]) + script[i].data, script[i + 1..])
  {
    var s0 := Fresh(0, LimitAt(script, i), 0, script);
    calls := Through(s0, i);
    var s1 := Later(s0, AllBytes(script[..i]), script[i..]);
    assert script[i..][0] == script[i] && script[i..][1..] == script[i + 1..];
    var more := ThroughChunk(s1);
    PlayJoin(s0, calls, more);
    calls := calls + more;
    LaterTwice(s0, AllBytes(script[..i]), script[i].data, script[i..], script[i + 1..]);
  }

  /** Chunk `i` fills the buffer to the limit unnoticed, and nobody looks before chunk `j`. */
  lemma Unnoticed(script: seq<Chunk>, i: nat, j: nat) returns (calls: seq<Call>)
    requires i < j < |script| && Stretch(script, i, j) && script[i].data != []
    requires forall k | i < k < j :: script[k].data == []
    ensures AtMost(calls, 1)
    ensures var s := Play(Fresh(0, LimitAt(script, i), 0, script), calls).state;
      !s.filled && |s.buffer| == s.searchLimit == LimitAt(script, i) && s.timeLimit == 0 && s.script == script[j..]
  {
    var s0 := Fresh(0, LimitAt(script, i), 0, script);
    calls := UpToLimit(script, i);
    var s := Play(s0, calls).state;
    var last := ThroughFailures(s, j - i - 1);
    PlayJoin(s0, calls, last);
    calls := calls + last;
    assert script[i + 1..][j - i - 1..] == script[j..];
  }

  lemma OverrunBetween(script: seq<Chunk>, i: nat, j: nat)
    requires i < j < |script| && Stretch(script, i, j) && Failing(script[j])
    requires script[i].data != [] && script[j].data != []
    ensures !BoundedBetweenCalls(script)
  {
    var k := Neighbours(script, i, j);
    var limit, maxRead := LimitAt(script, k), |script[j].data|;
    var s0 := Fresh(0, limit, 0, script);
    var calls := Unnoticed(script, k, j);
    var s := Play(s0, calls).state;
    PlayJoin(s0, calls, [Untimed(maxRead)]);
    OneCall(s, Untimed(maxRead));
    assert s.script[0] == script[j];
    var all := calls + [Untimed(maxRead)];
    assert AtMost(all, maxRead) && |Play(s0, all).state.buffer| == limit + maxRead;
  }

  lemma OverrunDuring(script: seq<Chunk>, i: nat, j: nat)
    requires i < j < |script| && Stretch(script, i, j)
    requires script[i].data != [] && script[j].data != []
    ensures !BoundedDuringCalls(script)
  {
    var k := Neighbours(script, i, j);
    var limit := LimitAt(script, k);
    var s0 := Fresh(0, limit, 0, script);
    var calls := Unnoticed(script, k, j);
    var s := Play(s0, calls).state;
    assert s.script[0] == script[j];
    assert AtMost(calls, 1) && Peak(s, Untimed(1)) == limit + 1;
  }

  /** Between calls the buffer stays below the limit plus the largest read, for all lines, limits
      and calls, exactly for those sources in which no two chunks with bytes lie in one unbroken
      stretch of failing chunks before the end of input. */
  lemma BoundBetweenCallsIff(script: seq<Chunk>)
    ensures BoundedBetweenCalls(script) <==> Apart(script, false)
  {
    if Apart(script, false) {
      forall lines, limit, time, calls, maxRead: nat | limit >= 1 && AtMost(calls, maxRead)
        ensures |Play(Fresh(lines, limit, time, script), calls).state.buffer| < limit + maxRead
      {
        RunInBounds(Fresh(lines, limit, time, script), calls, maxRead, false);
      }
    } else {
      var i, j :| 0 <= i < j < |script| && Stretch(script, i, j) && Failing(script[j])
        && script[i].data != [] && script[j].data != [];
      OverrunBetween(script, i, j);
    }
  }

  /** At all times exactly for those in which, besides, no chunk with bytes directly follows a
      stretch of failing chunks that has some. */
  lemma BoundDuringCallsIff(script: seq<Chunk>)
    ensures BoundedDuringCalls(script) <==> Apart(script, true)
  {
    if Apart(script, true) {
      forall lines, limit, time, calls, c: Call, maxRead: nat | limit >= 1 && AtMost(calls, maxRead) && c.max <= maxRead
        ensures Peak(Play(Fresh(lines, limit, time, script), calls).state, c) < limit + maxRead
      {
        var s0 := Fresh(lines, limit, time, script);
        RunInBounds(s0, calls, maxRead, true);
        StepInBounds(Play(s0, calls).state, c, maxRead, true);
      }
    } else {
      var i, j :| 0 <= i < j < |script| && Stretch(script, i, j) && script[i].data != [] && script[j].data != [];
      OverrunDuring(script, i, j);
    }
  }
}
