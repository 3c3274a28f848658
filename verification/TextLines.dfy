/** Lines of a byte sequence and the meaning of `tail -n`.

    A line runs up to and including its newline; only the last line may lack one.
    Nothing here mentions how the reader searches its buffer. */
module TextLines {
  newtype byte = x: int | 0 <= x < 256

  const NEWLINE: byte := 10

  function SplitLines(b: seq<byte>): seq<seq<byte>> {
    if b == [] then []
    else
      var rest := SplitLines(b[1..]);
      if b[0] == NEWLINE || rest == [] then [[b[0]]] + rest
      else [[b[0]] + rest[0]] + rest[1..]
  }

  function Flatten(lines: seq<seq<byte>>): seq<byte> {
    if lines == [] then [] else lines[0] + Flatten(lines[1..])
  }

  /** The last `n` lines of `b`. A negative `n` asks for no limit. */
  function Tail(b: seq<byte>, n: int): seq<byte> {
    var lines := SplitLines(b);
    if n < 0 || |lines| <= n then b else Flatten(lines[|lines| - n..])
  }

  /** Newlines of `b` that have a byte after them: a final newline is not counted. */
  function Breaks(b: seq<byte>): nat {
    if |b| <= 1 then 0 else (if b[0] == NEWLINE then 1 else 0) + Breaks(b[1..])
  }

  ghost predicate IsSuffix(s: seq<byte>, b: seq<byte>) {
    |s| <= |b| && s == b[|b| - |s|..]
  }

  lemma {:induction false} LineCount(b: seq<byte>)
    ensures |SplitLines(b)| == if b == [] then 0 else Breaks(b) + 1
  {
    if b != [] {
      LineCount(b[1..]);
    }
  }

  lemma FlattenCons(line: seq<byte>, lines: seq<seq<byte>>)
    ensures Flatten([line] + lines) == line + Flatten(lines)
  {
    assert ([line] + lines)[1..] == lines;
  }

  lemma {:induction false} FlattenSplit(b: seq<byte>)
    ensures Flatten(SplitLines(b)) == b
  {
    if b != [] {
      FlattenSplit(b[1..]);
      var rest := SplitLines(b[1..]);
      if b[0] == NEWLINE || rest == [] {
        FlattenCons([b[0]], rest);
      } else {
        FlattenCons([b[0]] + rest[0], rest[1..]);
        assert [b[0]] + rest[0] + Flatten(rest[1..]) == [b[0]] + Flatten(rest);
      }
      assert b == [b[0]] + b[1..];
    }
  }

  lemma {:induction false} SplitAfterNewline(x: seq<byte>, y: seq<byte>)
    requires x != [] && x[|x| - 1] == NEWLINE
    ensures SplitLines(x + y) == SplitLines(x) + SplitLines(y)
  {
    assert (x + y)[1..] == x[1..] + y;
    if |x| > 1 {
      SplitAfterNewline(x[1..], y);
      LineCount(x[1..]);
    } else {
      assert x[1..] + y == y;
    }
  }

  /** The first line of a non-empty text, and what is left after it. */
  lemma {:induction false} FirstLine(b: seq<byte>)
    requires b != []
    ensures var lines := SplitLines(b);
      && lines != [] && lines[0] != [] && lines[0] <= b
      && SplitLines(b[|lines[0]|..]) == lines[1..]
      && (|lines| > 1 ==> lines[0][|lines[0]| - 1] == NEWLINE)
  {
    var lines, rest := SplitLines(b), SplitLines(b[1..]);
    if b[0] == NEWLINE || rest == [] {
      assert lines[1..] == rest;
    } else {
      FirstLine(b[1..]);
      assert b[1..][|rest[0]|..] == b[|lines[0]|..];
      assert lines[1..] == rest[1..];
    }
  }

  /** Cutting `b` at `c` drops the first `k` of its lines. */
  ghost predicate Drops(b: seq<byte>, lines: seq<seq<byte>>, k: nat, c: nat)
    requires k <= |lines|
  {
    c <= |b| && b[c..] == Flatten(lines[k..]) && SplitLines(b[c..]) == lines[k..]
  }

  /** The cut is at the start, drops everything, or follows a newline. */
  ghost predicate AtBreak(b: seq<byte>, lines: seq<seq<byte>>, k: nat, c: nat)
    requires c <= |b|
  {
    c == 0 || k == |lines| || b[c - 1] == NEWLINE
  }

  lemma DropsBehind(b: seq<byte>, first: nat, lines: seq<seq<byte>>, k: nat, d: nat)
    requires first <= |b| && 0 < k <= |lines| && Drops(b[first..], lines[1..], k - 1, d)
    ensures Drops(b, lines, k, first + d)
  {
    assert lines[1..][k - 1..] == lines[k..];
    assert b[first..][d..] == b[first + d..];
  }

  lemma BreakBehind(b: seq<byte>, first: nat, lines: seq<seq<byte>>, k: nat, d: nat)
    requires 0 < first <= first + d <= |b| && 0 < k <= |lines|
    requires |lines| > 1 ==> b[first - 1] == NEWLINE
    requires AtBreak(b[first..], lines[1..], k - 1, d)
    ensures AtBreak(b, lines, k, first + d)
  {
    if d > 0 {
      assert b[first..][d - 1] == b[first + d - 1];
    }
  }

  /** Dropping the first `k` lines leaves a suffix that splits into the remaining ones
      and that starts the text or follows a newline. */
  lemma {:induction false} DropLines(b: seq<byte>, k: nat) returns (c: nat)
    requires k <= |SplitLines(b)|
    ensures Drops(b, SplitLines(b), k, c) && AtBreak(b, SplitLines(b), k, c)
    decreases |b|
  {
    var lines := SplitLines(b);
    if k == 0 {
      FlattenSplit(b);
      c := 0;
      assert b[0..] == b && lines[0..] == lines;
    } else {
      FirstLine(b);
      var first := |lines[0]|;
      var d := DropLines(b[first..], k - 1);
      DropsBehind(b, first, lines, k, d);
      BreakBehind(b, first, lines, k, d);
      c := first + d;
    }
  }

  /** `Tail` returns a suffix made of exactly the last `n` lines. */
  lemma TailMeaning(b: seq<byte>, n: int)
    ensures IsSuffix(Tail(b, n), b)
    ensures n >= 0 ==> |SplitLines(Tail(b, n))| == if |SplitLines(b)| <= n then |SplitLines(b)| else n
    ensures n >= 0 && |SplitLines(b)| > n ==> SplitLines(Tail(b, n)) == SplitLines(b)[|SplitLines(b)| - n..]
  {
    var lines := SplitLines(b);
    if 0 <= n < |lines| {
      var c := TailAsCut(b, n);
      assert |lines[|lines| - n..]| == n;
    }
  }

  lemma TailAsCut(b: seq<byte>, n: nat) returns (c: nat)
    requires n < |SplitLines(b)|
    ensures c <= |b| && Tail(b, n) == b[c..]
    ensures SplitLines(b[c..]) == SplitLines(b)[|SplitLines(b)| - n..]
  {
    c := DropLines(b, |SplitLines(b)| - n);
  }

  /** Something is dropped exactly when at least `n` newlines precede the last byte; then, for
      positive `n`, what is dropped ends in a newline and `n - 1` such newlines are kept. */
  lemma TailDrops(b: seq<byte>, n: nat)
    requires b != []
    ensures Tail(b, n) != b <==> Breaks(b) >= n
    ensures n > 0 && Breaks(b) >= n ==>
      && 0 < |Tail(b, n)| < |b| && b[|b| - |Tail(b, n)| - 1] == NEWLINE
      && Breaks(Tail(b, n)) == n - 1
  {
    LineCount(b);
    if Breaks(b) >= n {
      TailAfterNewline(b, n);
    }
  }

  lemma TailAfterNewline(b: seq<byte>, n: nat)
    requires b != [] && Breaks(b) >= n
    ensures |Tail(b, n)| < |b|
    ensures n > 0 ==> 0 < |Tail(b, n)| && b[|b| - |Tail(b, n)| - 1] == NEWLINE && Breaks(Tail(b, n)) == n - 1
  {
    LineCount(b);
    var lines := SplitLines(b);
    var c := DropLines(b, |lines| - n);
    var t := b[c..];
    assert t == Tail(b, n) && |SplitLines(t)| == n;
    LineCount(t);
    assert b[0..] == b;
  }

  /** A cut just after a newline that leaves `n` lines is exactly `Tail(b, n)`. */
  lemma CutIsTail(b: seq<byte>, c: nat, n: nat)
    requires c < |b| && b[c] == NEWLINE
    requires |SplitLines(b[c + 1..])| == n
    ensures Tail(b, n) == b[c + 1..]
  {
    var x, y := b[..c + 1], b[c + 1..];
    assert b == x + y;
    SplitAfterNewline(x, y);
    LineCount(x);
    FlattenSplit(y);
    var lines := SplitLines(b);
    assert lines[|lines| - n..] == SplitLines(y);
  }

  /** The last `size` bytes of a text, or all of it when it is not longer than that. */
  function LastBytes(b: seq<byte>, size: nat): seq<byte> {
    if |b| > size then b[|b| - size..] else b
  }

  /** Looking only at the last `size` bytes finds the right tail exactly when that tail fits in them. */
  lemma WindowLocality(b: seq<byte>, size: nat, n: nat)
    ensures Tail(LastBytes(b, size), n) == Tail(b, n) <==> |Tail(b, n)| <= size
    ensures IsSuffix(Tail(LastBytes(b, size), n), b)
  {
    var w := LastBytes(b, size);
    TailIsSuffix(w, n);
    TailIsSuffix(b, n);
    SuffixOfSuffix(Tail(w, n), w, b);
    if |b| > size && |Tail(b, n)| <= size {
      TailInWindow(b, size, n);
    }
  }

  lemma TailIsSuffix(b: seq<byte>, n: int)
    ensures IsSuffix(Tail(b, n), b)
  {
    TailMeaning(b, n);
  }

  lemma SuffixOfSuffix(s: seq<byte>, m: seq<byte>, b: seq<byte>)
    requires IsSuffix(s, m) && IsSuffix(m, b)
    ensures IsSuffix(s, b)
  {
    assert b[|b| - |m|..][|m| - |s|..] == b[|b| - |s|..];
  }

  lemma TailInWindow(b: seq<byte>, size: nat, n: nat)
    requires |b| > size && |Tail(b, n)| <= size
    ensures Tail(b[|b| - size..], n) == Tail(b, n)
  {
    var w, t, lines := b[|b| - size..], Tail(b, n), SplitLines(b);
    LineCount(b);
    LineCount(w);
    if n == 0 {
      assert lines[|lines|..] == [];
    } else {
      var c := DropLines(b, |lines| - n);
      assert b[c..] == t && |SplitLines(t)| == n;
      if |t| == size {
        assert w == t;
      } else {
        var cut := size - |t| - 1;
        assert w[cut + 1..] == t && w[cut] == b[c - 1];
        CutIsTail(w, cut, n);
      }
    }
  }
}
