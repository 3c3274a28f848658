/** The header part of the text a check's hash is computed from. Go visits a map's keys in any
    order, so the header entries are sorted first. */
module CheckHeaders {
  /** Strings in dictionary order. */
  predicate LessEqual(a: string, b: string) {
    a == [] || (b != [] && (a[0] < b[0] || (a[0] == b[0] && LessEqual(a[1..], b[1..]))))
  }

  /** Dictionary order: the beginning of a text comes before it, and otherwise the first
      character in which two texts differ decides. */
  lemma {:induction false} LessEqualMeans(a: string, b: string)
    ensures LessEqual(a, b) <==>
      a <= b || exists i :: 0 <= i < |a| && i < |b| && a[..i] == b[..i] && a[i] < b[i]
  {
    if a != [] && b != [] {
      LessEqualMeans(a[1..], b[1..]);
      if a[0] == b[0] {
        assert a == [a[0]] + a[1..] && b == [a[0]] + b[1..];
        if i :| 0 <= i < |a[1..]| && i < |b[1..]| && a[1..][..i] == b[1..][..i] && a[1..][i] < b[1..][i] {
          assert a[..i + 1] == [a[0]] + a[1..][..i] && b[..i + 1] == [a[0]] + b[1..][..i];
          assert a[i + 1] < b[i + 1];
        }
        if i :| 0 <= i < |a| && i < |b| && a[..i] == b[..i] && a[i] < b[i] {
          assert a[1..][..i - 1] == a[..i][1..] && b[1..][..i - 1] == b[..i][1..];
          assert a[1..][i - 1] < b[1..][i - 1];
        }
      } else {
        if a[0] < b[0] {
          assert a[..0] == b[..0];
        }
        assert forall i | 0 < i <= |a| && i <= |b| :: a[..i][0] == a[0] && b[..i][0] == b[0];
      }
    }
  }

  lemma {:induction false} Antisymmetric(a: string, b: string)
    requires LessEqual(a, b) && LessEqual(b, a)
    ensures a == b
  {
    if a != [] {
      Antisymmetric(a[1..], b[1..]);
      assert a == [a[0]] + a[1..] && b == [b[0]] + b[1..];
    }
  }

  lemma {:induction false} Transitive(a: string, b: string, c: string)
    requires LessEqual(a, b) && LessEqual(b, c)
    ensures LessEqual(a, c)
  {
    if a != [] && a[0] == b[0] && b[0] == c[0] {
      Transitive(a[1..], b[1..], c[1..]);
    }
  }

  lemma {:induction false} Connected(a: string, b: string)
    ensures LessEqual(a, b) || LessEqual(b, a)
  {
    if a != [] && b != [] && a[0] == b[0] {
      Connected(a[1..], b[1..]);
    }
  }

  predicate Sorted(s: seq<string>) {
    s == [] || ((forall x | x in s[1..] :: LessEqual(s[0], x)) && Sorted(s[1..]))
  }

  function Insert(x: string, s: seq<string>): seq<string> {
    if s == [] || LessEqual(x, s[0]) then [x] + s else [s[0]] + Insert(x, s[1..])
  }

  /** The sorting library call. */
  function Sort(s: seq<string>): seq<string> {
    if s == [] then [] else Insert(s[0], Sort(s[1..]))
  }

  lemma {:induction false} InsertSorts(x: string, s: seq<string>)
    requires Sorted(s)
    ensures Sorted(Insert(x, s)) && multiset(Insert(x, s)) == multiset{x} + multiset(s)
  {
    if s != [] {
      assert s == [s[0]] + s[1..];
      if LessEqual(x, s[0]) {
        assert ([x] + s)[1..] == s;
        forall y | y in s ensures LessEqual(x, y) {
          if y != s[0] {
            assert y in s[1..];
            Transitive(x, s[0], y);
          }
        }
      } else {
        Connected(x, s[0]);
        InsertSorts(x, s[1..]);
        var rest := Insert(x, s[1..]);
        assert ([s[0]] + rest)[1..] == rest;
        forall y | y in rest ensures LessEqual(s[0], y) {
          assert y in multiset(rest);
        }
      }
    }
  }

  lemma {:induction false} SortSorts(s: seq<string>)
    ensures Sorted(Sort(s)) && multiset(Sort(s)) == multiset(s)
  {
    if s != [] {
      assert s == [s[0]] + s[1..];
      SortSorts(s[1..]);
      InsertSorts(s[0], Sort(s[1..]));
    }
  }

  lemma LeastFirst(a: seq<string>, x: string)
    requires Sorted(a) && x in multiset(a)
    ensures a != [] && LessEqual(a[0], x)
  {
    Connected(x, x);
    if x != a[0] {
      assert x in a[1..];
    }
  }

  lemma RestOf(a: seq<string>)
    requires a != []
    ensures multiset(a[1..]) == multiset(a) - multiset{a[0]}
  {
    assert a == [a[0]] + a[1..];
  }

  /** Two sorted sequences with the same members are the same. */
  lemma {:induction false} SortedUnique(a: seq<string>, b: seq<string>)
    requires Sorted(a) && Sorted(b) && multiset(a) == multiset(b)
    ensures a == b
  {
    if a == [] {
      assert |multiset(b)| == 0;
    } else {
      assert a[0] in multiset(a);
      LeastFirst(b, a[0]);
      assert b[0] in multiset(b);
      LeastFirst(a, b[0]);
      Antisymmetric(a[0], b[0]);
      RestOf(a);
      RestOf(b);
      SortedUnique(a[1..], b[1..]);
      assert a == [a[0]] + a[1..] && b == [b[0]] + b[1..];
    }
  }

  // ------------------------------------------------------------- the header text

  function Concat(s: seq<string>): string {
    if s == [] then "" else s[0] + Concat(s[1..])
  }

  /** `Concat` writes its parts one after another: nothing for none, one part as it is, and two
      lists one after the other. */
  lemma {:induction false} ConcatMeans(a: seq<string>, x: string, b: seq<string>)
    ensures Concat([]) == "" && Concat([x]) == x && Concat(a + b) == Concat(a) + Concat(b)
  {
    assert [x][1..] == [] && Concat([x]) == x + Concat([]);
    if a == [] {
      assert a + b == b && "" + Concat(b) == Concat(b);
    } else {
      assert (a + b)[1..] == a[1..] + b;
      ConcatMeans(a[1..], x, b);
      assert a[0] + (Concat(a[1..]) + Concat(b)) == a[0] + Concat(a[1..]) + Concat(b);
    }
  }

  /** The entries in the order the keys are visited. */
  function Entries(header: map<string, seq<string>>, order: seq<string>): seq<string>
    requires forall k | k in order :: k in header
  {
    seq(|order|, i requires 0 <= i < |order| => order[i] + Concat(header[order[i]]))
  }

  function HeaderText(header: map<string, seq<string>>, order: seq<string>): string
    requires forall k | k in order :: k in header
  {
    Concat(Sort(Entries(header, order)))
  }

  ghost predicate IsOrder(order: seq<string>, header: map<string, seq<string>>) {
    (forall k | k in order :: k in header) && multiset(order) == multiset(header.Keys)
  }

  lemma {:induction false} EntriesPermute(header: map<string, seq<string>>, a: seq<string>, b: seq<string>)
    requires forall k | k in a :: k in header
    requires forall k | k in b :: k in header
    requires multiset(a) == multiset(b)
    ensures multiset(Entries(header, a)) == multiset(Entries(header, b))
  {
    if a == [] {
      assert |multiset(b)| == 0;
    } else {
      assert a[0] in multiset(a);
      assert a[0] in multiset(b);
      var j :| 0 <= j < |b| && b[j] == a[0];
      var b' := b[..j] + b[j + 1..];
      RestOf(a);
      TakeOut(b, j);
      EntriesPermute(header, a[1..], b');
      EntriesTakeOut(header, a, 0);
      EntriesTakeOut(header, b, j);
      assert a[..0] + a[1..] == a[1..];
    }
  }

  lemma TakeOut(b: seq<string>, j: nat)
    requires j < |b|
    ensures multiset(b) == multiset{b[j]} + multiset(b[..j] + b[j + 1..])
  {
    assert b == b[..j] + [b[j]] + b[j + 1..];
  }

  lemma EntriesTakeOut(header: map<string, seq<string>>, b: seq<string>, j: nat)
    requires j < |b| && forall k | k in b :: k in header
    ensures multiset(Entries(header, b))
         == multiset{b[j] + Concat(header[b[j]])} + multiset(Entries(header, b[..j] + b[j + 1..]))
  {
    var e := Entries(header, b);
    TakeOut(e, j);
    assert Entries(header, b[..j] + b[j + 1..]) == e[..j] + e[j + 1..];
  }

  predicate IsPermutation(a: seq<string>, b: seq<string>) {
    multiset(a) == multiset(b)
  }

  /** The header text is the same for every order in which the map is visited. */
  lemma HeaderTextIsCanonical(header: map<string, seq<string>>, a: seq<string>, b: seq<string>)
    requires IsOrder(a, header) && IsOrder(b, header)
    ensures HeaderText(header, a) == HeaderText(header, b)
  {
    EntriesPermute(header, a, b);
    SortSorts(Entries(header, a));
    SortSorts(Entries(header, b));
    SortedUnique(Sort(Entries(header, a)), Sort(Entries(header, b)));
  }

  /** The parts of the header text: an entry for every key, each with its values, and no more. */
  ghost predicate Writes(text: string, header: map<string, seq<string>>, entries: seq<string>, sorted: seq<string>) {
    && IsPermutation(sorted, entries) && Sorted(sorted) && text == Concat(sorted)
    && |entries| == |header|
    && (forall k | k in header :: k + Concat(header[k]) in entries)
  }

  lemma AllWritten(header: map<string, seq<string>>, order: seq<string>)
    requires IsOrder(order, header)
    ensures Writes(HeaderText(header, order), header, Entries(header, order), Sort(Entries(header, order)))
  {
    var entries := Entries(header, order);
    SortSorts(entries);
    assert |order| == |multiset(order)| == |multiset(header.Keys)| == |header.Keys|;
    forall k | k in header ensures k + Concat(header[k]) in entries {
      assert k in multiset(header.Keys) && k in multiset(order);
      var i :| 0 <= i < |order| && order[i] == k;
      assert entries[i] == k + Concat(header[k]);
    }
  }

  /** The header part of `checkHash`: what it writes, whichever order it visits the map in. */
  method WriteHeader(header: map<string, seq<string>>) returns (text: string)
    ensures forall order | IsOrder(order, header) ::
      text == HeaderText(header, order)
    ensures exists entries, sorted :: Writes(text, header, entries, sorted)
  {
    text := "";
    var headers: seq<string> := [];
    ghost var visited: seq<string> := [];
    if |header| > 0 {
      var left := header.Keys;
      while left != {}
        invariant left <= header.Keys && multiset(visited) + multiset(left) == multiset(header.Keys)
        invariant forall k | k in visited :: k in header
        invariant headers == Entries(header, visited)
        decreases left
      {
        var k :| k in left;
        headers := headers + [k + Concat(header[k])];
        visited := visited + [k];
        left := left - {k};
      }
      text := Concat(Sort(headers));
    }
    AllWritten(header, visited);
    forall order | IsOrder(order, header)
      ensures text == HeaderText(header, order)
    {
      HeaderTextIsCanonical(header, visited, order);
    }
  }
}
