/** `${NAME}` interpolation in service and check names: one replace after another, in whatever
    order the map hands out its keys. */
module Interpolation {
  /** `strings.Replace(s, pattern, value, -1)`: all non-overlapping occurrences, left to right. */
  function Replace(s: string, pattern: string, value: string): string
    requires pattern != []
    decreases |s|
  {
    if s == [] then []
    else if pattern <= s then value + Replace(s[|pattern|..], pattern, value)
    else [s[0]] + Replace(s[1..], pattern, value)
  }

  function Placeholder(name: string): string {
    "${" + name + "}"
  }

  /** A piece of a template: literal text or a placeholder. */
  datatype Piece = Text(text: string) | Var(name: string)

  function Show(p: Piece): string {
    match p
    case Text(t) => t
    case Var(name) => Placeholder(name)
  }

  function Render(t: seq<Piece>): string {
    if t == [] then [] else Show(t[0]) + Render(t[1..])
  }

  predicate PlainText(s: string) {
    '$' !in s
  }

  predicate PlainName(s: string) {
    '$' !in s && '}' !in s
  }

  predicate WellFormed(t: seq<Piece>) {
    forall i | 0 <= i < |t| :: if t[i].Text? then PlainText(t[i].text) else PlainName(t[i].name)
  }

  predicate PlainNames(values: map<string, string>) {
    forall k | k in values :: PlainName(k)
  }

  /** No end of `text` is the beginning of the placeholder, or begins with it: whatever follows
      `text`, no occurrence of the placeholder starts inside it. */
  predicate Inert(text: string, name: string) {
    forall i | 0 <= i < |text| :: !(text[i..] <= Placeholder(name)) && !(Placeholder(name) <= text[i..])
  }

  /** Literal text that no replace of `name` touches. */
  predicate InertFor(t: seq<Piece>, name: string) {
    forall i | 0 <= i < |t| :: if t[i].Text? then Inert(t[i].text, name) else PlainName(t[i].name)
  }

  function Fill(p: Piece, values: map<string, string>): Piece {
    if p.Var? && p.name in values then Text(values[p.name]) else p
  }

  /** All placeholders that have a value replaced at once. */
  function Substitute(t: seq<Piece>, values: map<string, string>): seq<Piece> {
    if t == [] then [] else [Fill(t[0], values)] + Substitute(t[1..], values)
  }

  // ------------------------------------------------------------- one replace

  lemma PlainIsInert(text: string, name: string)
    requires PlainText(text)
    ensures Inert(text, name)
  {
    forall i | 0 <= i < |text| ensures !(text[i..] <= Placeholder(name)) && !(Placeholder(name) <= text[i..]) {
      assert text[i..][0] == text[i] && text[i] in text && Placeholder(name)[0] == '$';
    }
  }

  lemma NotAPrefix(pattern: string, text: string, rest: string)
    requires !(text <= pattern) && !(pattern <= text)
    ensures !(pattern <= text + rest)
  {
    if |pattern| <= |text| {
      assert (text + rest)[..|pattern|] == text[..|pattern|];
    } else {
      assert (text + rest)[..|text|] == text;
    }
  }

  lemma InertTail(text: string, name: string)
    requires Inert(text, name) && text != []
    ensures Inert(text[1..], name)
  {
    assert forall i | 0 <= i < |text[1..]| :: text[1..][i..] == text[i + 1..];
  }

  lemma {:induction false} ReplaceSkips(text: string, rest: string, name: string, value: string)
    requires Inert(text, name)
    ensures Replace(text + rest, Placeholder(name), value) == text + Replace(rest, Placeholder(name), value)
  {
    var pattern, s := Placeholder(name), text + rest;
    if text == [] {
      assert s == rest;
    } else {
      assert text[0..] == text;
      NotAPrefix(pattern, text, rest);
      assert s[1..] == text[1..] + rest;
      InertTail(text, name);
      ReplaceSkips(text[1..], rest, name, value);
      assert [text[0]] + (text[1..] + Replace(rest, pattern, value)) == text + Replace(rest, pattern, value);
    }
  }

  /** Two placeholders differ no later than at the first closing brace. */
  lemma FirstDifference(name: string, other: string, rest: string) returns (i: nat)
    requires PlainName(name) && PlainName(other) && name != other
    ensures i < |Placeholder(name)| && i < |Placeholder(other) + rest|
    ensures Placeholder(name)[i] != (Placeholder(other) + rest)[i]
  {
    if |name| == |other| {
      var j :| 0 <= j < |name| && name[j] != other[j];
      i := j + 2;
    } else if |name| < |other| {
      i := |name| + 2;
      assert other[|name|] in other;
    } else {
      i := |other| + 2;
      assert name[|other|] in name;
    }
  }

  lemma NotThisName(name: string, other: string, rest: string)
    requires PlainName(name) && PlainName(other) && name != other
    ensures !(Placeholder(name) <= Placeholder(other) + rest)
  {
    var i := FirstDifference(name, other, rest);
  }

  /** The part of a placeholder behind its `$`. */
  function Braced(name: string): string {
    "{" + name + "}"
  }

  lemma BracedIsPlain(other: string, name: string)
    requires PlainName(other)
    ensures Placeholder(other) == ['$'] + Braced(other) && Inert(Braced(other), name)
  {
    PlainIsInert(Braced(other), name);
  }

  lemma ReplaceOther(other: string, rest: string, name: string, value: string)
    requires PlainName(name) && PlainName(other) && name != other
    ensures Replace(Placeholder(other) + rest, Placeholder(name), value)
         == Placeholder(other) + Replace(rest, Placeholder(name), value)
  {
    var tail, replaced := Braced(other), Replace(rest, Placeholder(name), value);
    NotThisName(name, other, rest);
    BracedIsPlain(other, name);
    ReplaceSkips(tail, rest, name, value);
    Associate(['$'], tail, rest);
    Associate(['$'], tail, replaced);
    ReplaceStep('$', tail + rest, Placeholder(name), value);
  }

  lemma Associate(a: string, b: string, c: string)
    ensures a + b + c == a + (b + c)
  {
  }

  lemma ReplaceStep(c: char, rest: string, pattern: string, value: string)
    requires pattern != [] && !(pattern <= [c] + rest)
    ensures Replace([c] + rest, pattern, value) == [c] + Replace(rest, pattern, value)
  {
    assert ([c] + rest)[1..] == rest;
  }

  lemma ReplaceSame(name: string, rest: string, value: string)
    requires PlainName(name)
    ensures Replace(Placeholder(name) + rest, Placeholder(name), value)
         == value + Replace(rest, Placeholder(name), value)
  {
    assert Placeholder(name) <= Placeholder(name) + rest;
    assert (Placeholder(name) + rest)[|Placeholder(name)|..] == rest;
  }

  /** One replace substitutes one name, provided the literal text is inert for it. */
  lemma {:induction false} ReplaceIsSubstitute(t: seq<Piece>, name: string, value: string)
    requires InertFor(t, name) && PlainName(name)
    ensures Replace(Render(t), Placeholder(name), value) == Render(Substitute(t, map[name := value]))
  {
    if t != [] {
      var values := map[name := value];
      var p, rest := t[0], Render(t[1..]);
      ReplaceIsSubstitute(t[1..], name, value);
      if p.Text? {
        ReplaceSkips(p.text, rest, name, value);
      } else if p.name == name {
        ReplaceSame(name, rest, value);
      } else {
        ReplaceOther(p.name, rest, name, value);
      }
      assert Substitute(t, values)[1..] == Substitute(t[1..], values);
    }
  }

  /** Replacing a placeholder by itself changes nothing. */
  lemma {:induction false} ReplaceBySelf(s: string, pattern: string)
    requires pattern != []
    ensures Replace(s, pattern, pattern) == s
    decreases |s|
  {
    if s != [] {
      if pattern <= s {
        var rest := s[|pattern|..];
        assert s == pattern + rest;
        ReplaceBySelf(rest, pattern);
      } else {
        ReplaceBySelf(s[1..], pattern);
        assert s == [s[0]] + s[1..];
      }
    }
  }

  lemma {:induction false} SubstituteBySelf(t: seq<Piece>, name: string)
    ensures Render(Substitute(t, map[name := Placeholder(name)])) == Render(t)
  {
    if t != [] {
      SubstituteBySelf(t[1..], name);
      var values := map[name := Placeholder(name)];
      assert Substitute(t, values)[1..] == Substitute(t[1..], values);
    }
  }

  lemma {:induction false} ReplaceLength(s: string, pattern: string, value: string)
    requires pattern != []
    ensures |value| >= |pattern| ==> |Replace(s, pattern, value)| >= |s|
    ensures |value| <= |pattern| ==> |Replace(s, pattern, value)| <= |s|
    decreases |s|
  {
    if s != [] {
      if pattern <= s {
        ReplaceLength(s[|pattern|..], pattern, value);
      } else {
        ReplaceLength(s[1..], pattern, value);
      }
    }
  }

  /** Replacing something that occurs by something else changes the text. */
  lemma {:induction false} ReplaceChanges(s: string, pattern: string, value: string, i: nat)
    requires pattern != [] && value != pattern && i <= |s| && pattern <= s[i..]
    ensures Replace(s, pattern, value) != s
    decreases |s|
  {
    if pattern <= s {
      var rest := s[|pattern|..];
      var rest' := Replace(rest, pattern, value);
      ReplaceLength(rest, pattern, value);
      if |value| == |pattern| {
        assert (value + rest')[..|pattern|] == value && s[..|pattern|] == pattern;
      } else {
        assert |value + rest'| != |s|;
      }
    } else {
      assert s[i..] == s[1..][i - 1..];
      ReplaceChanges(s[1..], pattern, value, i - 1);
      assert ([s[0]] + Replace(s[1..], pattern, value))[1..] == Replace(s[1..], pattern, value);
    }
  }

  // ------------------------------------------------------------- one after another

  /** The loop over a map whose keys come in the given order. */
  function InOrder(s: string, order: seq<string>, values: map<string, string>): string
    requires forall k | k in order :: k in values
  {
    if order == [] then s
    else
      var front, k := order[..|order| - 1], order[|order| - 1];
      Replace(InOrder(s, front, values), Placeholder(k), values[k])
  }

  predicate Distinct(order: seq<string>) {
    forall i, j | 0 <= i < j < |order| :: order[i] != order[j]
  }

  /** An order in which a map with these keys can be visited. */
  predicate Visits(order: seq<string>, keys: set<string>) {
    Distinct(order) && (forall k | k in order :: k in keys) && (forall k | k in keys :: k in order)
  }

  /** Replacing `m` leaves what `n` was replaced by alone. */
  predicate LeavesAlone(values: map<string, string>, n: string, m: string)
    requires n in values && m in values
  {
    Inert(values[n], m) || values[m] == Placeholder(m)
  }

  /** Later replaces leave earlier values alone. */
  predicate Orderly(order: seq<string>, values: map<string, string>)
    requires forall k | k in order :: k in values
  {
    forall i, j | 0 <= i < j < |order| :: LeavesAlone(values, order[i], order[j])
  }

  lemma {:induction false} SubstituteNothing(t: seq<Piece>)
    ensures Substitute(t, map[]) == t
  {
    if t != [] {
      SubstituteNothing(t[1..]);
    }
  }

  /** Substituted text is not looked at again by a second substitution. */
  lemma {:induction false} SubstituteTwice(t: seq<Piece>, first: map<string, string>, second: map<string, string>)
    ensures Substitute(Substitute(t, first), second) == Substitute(t, second + first)
  {
    if t != [] {
      SubstituteTwice(t[1..], first, second);
      assert Substitute(t, first)[1..] == Substitute(t[1..], first);
    }
  }

  /** The values of the names visited. */
  function Visited(order: seq<string>, values: map<string, string>): map<string, string>
    requires forall k | k in order :: k in values
  {
    map k | k in order :: values[k]
  }

  lemma {:induction false} SubstituteKeepsInert(t: seq<Piece>, done: map<string, string>, name: string)
    requires WellFormed(t) && forall k | k in done :: Inert(done[k], name)
    ensures InertFor(Substitute(t, done), name)
  {
    if t != [] {
      SubstituteKeepsInert(t[1..], done, name);
      if t[0].Text? {
        PlainIsInert(t[0].text, name);
      }
    }
  }

  /** One more replace, after the names in `done`. */
  lemma OneMore(t: seq<Piece>, done: map<string, string>, k: string, value: string)
    requires WellFormed(t) && PlainName(k) && k !in done
    requires (forall n | n in done :: Inert(done[n], k)) || value == Placeholder(k)
    ensures Replace(Render(Substitute(t, done)), Placeholder(k), value) == Render(Substitute(t, done[k := value]))
  {
    var now, one := Substitute(t, done), map[k := value];
    if value == Placeholder(k) {
      ReplaceBySelf(Render(now), value);
      SubstituteBySelf(now, k);
    } else {
      SubstituteKeepsInert(t, done, k);
      ReplaceIsSubstitute(now, k, value);
    }
    SubstituteTwice(t, done, one);
    assert one + done == done[k := value];
  }

  lemma VisitedIsInert(order: seq<string>, values: map<string, string>)
    requires order != [] && Distinct(order) && (forall k | k in order :: k in values) && Orderly(order, values)
    ensures var front, k := order[..|order| - 1], order[|order| - 1];
      var done := Visited(front, values);
      && k !in done && Visited(order, values) == done[k := values[k]]
      && ((forall n | n in done :: Inert(done[n], k)) || values[k] == Placeholder(k))
  {
    var front, k := order[..|order| - 1], order[|order| - 1];
    assert order == front + [k];
    if values[k] != Placeholder(k) {
      forall n | n in front ensures Inert(values[n], k) {
        var i :| 0 <= i < |front| && front[i] == n;
        assert LeavesAlone(values, order[i], order[|order| - 1]);
      }
    }
  }

  /** In an order in which later replaces leave earlier values alone, the loop substitutes all
      names at once. */
  lemma {:induction false} OrderlyIsSimultaneous(t: seq<Piece>, order: seq<string>, values: map<string, string>)
    requires WellFormed(t) && PlainNames(values) && Distinct(order) && forall k | k in order :: k in values
    requires Orderly(order, values)
    ensures InOrder(Render(t), order, values) == Render(Substitute(t, Visited(order, values)))
    decreases |order|
  {
    if order == [] {
      assert Visited(order, values) == map[];
      SubstituteNothing(t);
    } else {
      var front, k := order[..|order| - 1], order[|order| - 1];
      OrderlyIsSimultaneous(t, front, values);
      VisitedIsInert(order, values);
      OneMore(t, Visited(front, values), k, values[k]);
    }
  }

  // ------------------------------------------------------------- when the order does not matter

  /** No value can become, or become part of, the placeholder of another name. */
  predicate NoInterference(values: map<string, string>) {
    forall n, m | n in values && m in values && n != m :: LeavesAlone(values, n, m)
  }

  /** Every order substitutes all names at once, in every template. */
  ghost predicate Simultaneous(values: map<string, string>) {
    forall t, order | WellFormed(t) && Visits(order, values.Keys) ::
      InOrder(Render(t), order, values) == Render(Substitute(t, values))
  }

  /** All orders give the same text, for every template. */
  ghost predicate OrderFree(values: map<string, string>) {
    forall t, a, b | WellFormed(t) && Visits(a, values.Keys) && Visits(b, values.Keys) ::
      InOrder(Render(t), a, values) == InOrder(Render(t), b, values)
  }

  lemma VisitIsSimultaneous(t: seq<Piece>, order: seq<string>, values: map<string, string>)
    requires WellFormed(t) && PlainNames(values) && Visits(order, values.Keys) && Orderly(order, values)
    ensures InOrder(Render(t), order, values) == Render(Substitute(t, values))
  {
    OrderlyIsSimultaneous(t, order, values);
    assert Visited(order, values) == values;
  }

  lemma NoInterferenceSuffices(values: map<string, string>)
    requires PlainNames(values) && NoInterference(values)
    ensures Simultaneous(values)
  {
    forall t, order | WellFormed(t) && Visits(order, values.Keys)
      ensures InOrder(Render(t), order, values) == Render(Substitute(t, values))
    {
      VisitIsSimultaneous(t, order, values);
    }
  }

  lemma {:induction false} SomeOrder(keys: set<string>) returns (order: seq<string>)
    ensures Visits(order, keys)
  {
    order := [];
    if keys != {} {
      var k :| k in keys;
      order := SomeOrder(keys - {k});
      VisitLast(order, keys - {k}, k);
      assert keys - {k} + {k} == keys;
      order := order + [k];
    }
  }

  lemma PlaceholderRest(m: string, k: nat)
    requires PlainName(m) && 0 < k <= |Placeholder(m)|
    ensures PlainText(Placeholder(m)[k..])
  {
    var rest := "{" + m + "}";
    assert Placeholder(m)[1..] == rest && PlainText(rest);
    forall i | 0 <= i < |Placeholder(m)[k..]| ensures Placeholder(m)[k..][i] != '$' {
      assert Placeholder(m)[k..][i] == rest[k + i - 1];
    }
  }

  /** Literal text that, behind the value, completes the placeholder of `m`. */
  lemma Completion(value: string, m: string) returns (z: string, i: nat)
    requires PlainName(m) && !Inert(value, m)
    ensures PlainText(z) && i <= |value + z| && Placeholder(m) <= (value + z)[i..]
  {
    i :| 0 <= i < |value| && (value[i..] <= Placeholder(m) || Placeholder(m) <= value[i..]);
    if Placeholder(m) <= value[i..] {
      z := [];
      assert value + z == value;
    } else {
      PlaceholderRest(m, |value| - i);
      z := Placeholder(m)[|value| - i..];
      assert (value + z)[i..] == value[i..] + z;
      assert value[i..] + z == Placeholder(m);
    }
  }

  /** The template of one name followed by literal text. */
  function NameThen(n: string, z: string): seq<Piece> {
    [Var(n), Text(z)]
  }

  lemma RenderTwo(p: Piece, q: Piece)
    ensures Render([p, q]) == Show(p) + Show(q)
  {
    assert [p, q][1..] == [q] && [q][1..] == [];
    assert Render([q]) == Show(q) + [] == Show(q);
  }

  lemma RenderNameThen(n: string, z: string)
    ensures Render(NameThen(n, z)) == Placeholder(n) + z
  {
    RenderTwo(Var(n), Text(z));
  }

  lemma SubstituteNameThen(n: string, z: string, values: map<string, string>)
    requires n in values
    ensures Render(Substitute(NameThen(n, z), values)) == values[n] + z
  {
    var t := NameThen(n, z);
    assert t[1..] == [Text(z)] && t[1..][1..] == [];
    assert Substitute([Text(z)], values) == [Text(z)] + Substitute([], values);
    assert Substitute(t, values) == [Text(values[n]), Text(z)];
    RenderTwo(Text(values[n]), Text(z));
  }

  lemma ReplaceOtherThen(n: string, z: string, k: string, value: string)
    requires PlainName(n) && PlainName(k) && PlainText(z) && k != n
    ensures Replace(Placeholder(n) + z, Placeholder(k), value) == Placeholder(n) + z
  {
    ReplaceOther(n, z, k, value);
    PlainIsInert(z, k);
    ReplaceSkips(z, [], k, value);
    assert z + [] == z;
  }

  lemma {:induction false} OthersLeaveIt(n: string, z: string, order: seq<string>, values: map<string, string>)
    requires PlainNames(values) && PlainName(n) && PlainText(z) && n !in order
    requires forall k | k in order :: k in values
    ensures InOrder(Placeholder(n) + z, order, values) == Placeholder(n) + z
  {
    if order != [] {
      var front, k := order[..|order| - 1], order[|order| - 1];
      OthersLeaveIt(n, z, front, values);
      ReplaceOtherThen(n, z, k, values[k]);
    }
  }

  /** Ending a visit with `n` leaves the value of `n`. */
  lemma EndWith(n: string, z: string, rest: seq<string>, values: map<string, string>)
    requires PlainNames(values) && n in values && PlainText(z) && n !in rest
    requires forall k | k in rest :: k in values
    ensures InOrder(Placeholder(n) + z, rest + [n], values) == values[n] + z
  {
    assert (rest + [n])[..|rest|] == rest;
    OthersLeaveIt(n, z, rest, values);
    ReplaceSame(n, z, values[n]);
    PlainIsInert(z, n);
    ReplaceSkips(z, [], n, values[n]);
    assert z + [] == z;
  }

  /** Replacing `m` right after `n` spoils the value of `n` in some template. */
  lemma Spoils(n: string, m: string, rest: seq<string>, values: map<string, string>) returns (z: string)
    requires PlainNames(values) && n in values && m in values && n != m && n !in rest
    requires forall k | k in rest :: k in values
    requires !LeavesAlone(values, n, m)
    ensures PlainText(z)
    ensures InOrder(Placeholder(n) + z, rest + [n] + [m], values) != values[n] + z
  {
    var i;
    z, i := Completion(values[n], m);
    EndWith(n, z, rest, values);
    assert (rest + [n] + [m])[..|rest| + 1] == rest + [n];
    ReplaceChanges(values[n] + z, Placeholder(m), values[m], i);
  }

  lemma VisitLast(order: seq<string>, keys: set<string>, k: string)
    requires Visits(order, keys) && k !in keys
    ensures Visits(order + [k], keys + {k})
  {
    assert forall n | n in order :: n in order + [k];
    assert k in order + [k];
  }

  /** Two orders that differ in the last two names. */
  lemma TwoOrders(keys: set<string>, n: string, m: string) returns (rest: seq<string>)
    requires n in keys && m in keys && n != m
    ensures Visits(rest + [n] + [m], keys) && Visits(rest + [m] + [n], keys) && n !in rest && m !in rest
  {
    var others := keys - {n, m};
    rest := SomeOrder(others);
    VisitLast(rest, others, n);
    VisitLast(rest + [n], others + {n}, m);
    VisitLast(rest, others, m);
    VisitLast(rest + [m], others + {m}, n);
    assert others + {n} + {m} == keys && others + {m} + {n} == keys;
  }

  /** A template and two orders that spoil it differently. */
  lemma SpoiltTemplate(values: map<string, string>, n: string, m: string)
    returns (t: seq<Piece>, a: seq<string>, b: seq<string>)
    requires PlainNames(values) && n in values && m in values && n != m && !LeavesAlone(values, n, m)
    ensures WellFormed(t) && Visits(a, values.Keys) && Visits(b, values.Keys)
    ensures InOrder(Render(t), a, values) != InOrder(Render(t), b, values) == Render(Substitute(t, values))
  {
    var rest := TwoOrders(values.Keys, n, m);
    var z := Spoils(n, m, rest, values);
    t, a, b := NameThen(n, z), rest + [n] + [m], rest + [m] + [n];
    EndWith(n, z, rest + [m], values);
    RenderNameThen(n, z);
    SubstituteNameThen(n, z, values);
  }

  /** The order in which a map of names is visited never matters if and only if no value can
      become, or become part of, the placeholder of another name; and then, and only then, the
      loop always substitutes all names at once. */
  lemma OrderFreeIff(values: map<string, string>)
    requires PlainNames(values)
    ensures OrderFree(values) <==> NoInterference(values)
    ensures Simultaneous(values) <==> NoInterference(values)
  {
    if NoInterference(values) {
      NoInterferenceSuffices(values);
    } else {
      var n, m :| n in values && m in values && n != m && !LeavesAlone(values, n, m);
      var t, a, b := SpoiltTemplate(values, n, m);
    }
  }

  /** The loop over one map. */
  method ReplaceAll(s: string, values: map<string, string>) returns (r: string, ghost order: seq<string>)
    ensures Visits(order, values.Keys) && r == InOrder(s, order, values)
    ensures PlainNames(values) && NoInterference(values) ==>
      forall t | WellFormed(t) && Render(t) == s :: r == Render(Substitute(t, values))
  {
    r, order := s, [];
    var left := values.Keys;
    while left != {}
      invariant left <= values.Keys
      invariant Visits(order, values.Keys - left) && r == InOrder(s, order, values)
      decreases left
    {
      var k :| k in left;
      r := Replace(r, Placeholder(k), values[k]);
      left := left - {k};
      assert (order + [k])[..|order|] == order;
      order := order + [k];
    }
    if PlainNames(values) && NoInterference(values) {
      NoInterferenceSuffices(values);
    }
  }

  // ------------------------------------------------------------- the five names

  datatype Allocation = Allocation(id: string, jobName: string, group: string, index: string)

  const JOB_NAME := "NOMAD_JOB_NAME"
  const GROUP_NAME := "NOMAD_GROUP_NAME"

  function Interpolations(a: Allocation): map<string, string> {
    map["NOMAD_ALLOC_ID" := a.id, JOB_NAME := a.jobName, GROUP_NAME := a.group, "NOMAD_ALLOC_INDEX" := a.index]
  }

  const TASK_NAME := "NOMAD_TASK_NAME"

  function TaskNames(taskName: string): map<string, string> {
    map[TASK_NAME := taskName]
  }

  function AllNames(a: Allocation, taskName: string): map<string, string> {
    Interpolations(a) + TaskNames(taskName)
  }

  /** No value of the first loop touches another name of it, or the name of the second loop. */
  predicate Harmless(a: Allocation, taskName: string) {
    var values := AllNames(a, taskName);
    NoInterference(Interpolations(a)) && forall n | n in Interpolations(a) :: LeavesAlone(values, n, TASK_NAME)
  }

  lemma {:induction false} InOrderOfLarger(
    s: string, order: seq<string>, small: map<string, string>, large: map<string, string>)
    requires forall k | k in order :: k in small
    requires forall k | k in small :: k in large && large[k] == small[k]
    ensures InOrder(s, order, small) == InOrder(s, order, large)
  {
    if order != [] {
      InOrderOfLarger(s, order[..|order| - 1], small, large);
    }
  }

  /** Both loops substitute all five names at once, in every template and every order. */
  ghost predicate BothSimultaneous(a: Allocation, taskName: string) {
    forall t, order | WellFormed(t) && Visits(order, Interpolations(a).Keys) ::
      InOrder(Render(t), order + [TASK_NAME], AllNames(a, taskName)) == Render(Substitute(t, AllNames(a, taskName)))
  }

  lemma NamesArePlain(a: Allocation, taskName: string)
    ensures PlainNames(Interpolations(a)) && PlainNames(AllNames(a, taskName))
  {
  }

  lemma HarmlessIsOrderly(a: Allocation, taskName: string, order: seq<string>)
    requires Harmless(a, taskName) && Visits(order, Interpolations(a).Keys)
    ensures Distinct(order + [TASK_NAME]) && Orderly(order + [TASK_NAME], AllNames(a, taskName))
  {
    var all, values := order + [TASK_NAME], AllNames(a, taskName);
    forall i, j | 0 <= i < j < |all| ensures all[i] != all[j] && LeavesAlone(values, all[i], all[j]) {
      assert all[i] == order[i] && order[i] in Interpolations(a);
      if j < |order| {
        assert all[j] == order[j] && LeavesAlone(Interpolations(a), order[i], order[j]);
      }
    }
  }

  lemma HarmlessVisit(a: Allocation, taskName: string, t: seq<Piece>, order: seq<string>)
    requires Harmless(a, taskName) && WellFormed(t) && Visits(order, Interpolations(a).Keys)
    ensures InOrder(Render(t), order + [TASK_NAME], AllNames(a, taskName))
         == Render(Substitute(t, AllNames(a, taskName)))
  {
    NamesArePlain(a, taskName);
    HarmlessIsOrderly(a, taskName, order);
    VisitLast(order, Interpolations(a).Keys, TASK_NAME);
    assert AllNames(a, taskName).Keys == Interpolations(a).Keys + {TASK_NAME};
    VisitIsSimultaneous(t, order + [TASK_NAME], AllNames(a, taskName));
  }

  /** Values that touch no name replaced after them make the whole interpolation simultaneous. */
  lemma HarmlessSuffices(a: Allocation, taskName: string)
    requires Harmless(a, taskName)
    ensures BothSimultaneous(a, taskName)
  {
    forall t, order | WellFormed(t) && Visits(order, Interpolations(a).Keys)
      ensures InOrder(Render(t), order + [TASK_NAME], AllNames(a, taskName))
           == Render(Substitute(t, AllNames(a, taskName)))
    {
      HarmlessVisit(a, taskName, t, order);
    }
  }

  /** A value of the first loop that touches the task's name always spoils some template. */
  lemma TaskNameSpoils(a: Allocation, taskName: string, n: string)
    requires n in Interpolations(a) && !LeavesAlone(AllNames(a, taskName), n, TASK_NAME)
    ensures !BothSimultaneous(a, taskName)
  {
    var values := AllNames(a, taskName);
    NamesArePlain(a, taskName);
    var others := Interpolations(a).Keys - {n};
    var rest := SomeOrder(others);
    VisitLast(rest, others, n);
    assert others + {n} == Interpolations(a).Keys;
    var z := Spoils(n, TASK_NAME, rest, values);
    var order, t := rest + [n], NameThen(n, z);
    RenderNameThen(n, z);
    SubstituteNameThen(n, z, values);
    assert WellFormed(t);
    assert InOrder(Render(t), order + [TASK_NAME], values) != Render(Substitute(t, values));
  }

  /** No value of the first loop can become or contain any other of the five names. */
  predicate HarmlessForAll(a: Allocation) {
    NoInterference(Interpolations(a)) && forall n | n in Interpolations(a) :: Inert(Interpolations(a)[n], TASK_NAME)
  }

  /** A task name that spells its own placeholder leaves the first loop's disorder as it is. */
  lemma FirstLoopSpoils(a: Allocation)
    requires !NoInterference(Interpolations(a))
    ensures !BothSimultaneous(a, Placeholder(TASK_NAME))
  {
    var values, taskName := Interpolations(a), Placeholder(TASK_NAME);
    NamesArePlain(a, taskName);
    var n, m :| n in values && m in values && n != m && !LeavesAlone(values, n, m);
    var t, one, two := SpoiltTemplate(values, n, m);
    SecondLoopIdle(a, one, Render(t));
    SecondLoopIdle(a, two, Render(t));
    if BothSimultaneous(a, taskName) {
      BothAgree(a, taskName, t, one, two);
    }
  }

  lemma BothAgree(a: Allocation, taskName: string, t: seq<Piece>, one: seq<string>, two: seq<string>)
    requires BothSimultaneous(a, taskName) && WellFormed(t)
    requires Visits(one, Interpolations(a).Keys) && Visits(two, Interpolations(a).Keys)
    ensures InOrder(Render(t), one + [TASK_NAME], AllNames(a, taskName))
         == InOrder(Render(t), two + [TASK_NAME], AllNames(a, taskName))
  {
    var sim := Render(Substitute(t, AllNames(a, taskName)));
    assert InOrder(Render(t), one + [TASK_NAME], AllNames(a, taskName)) == sim;
  }

  lemma SecondLoopIdle(a: Allocation, order: seq<string>, s: string)
    requires Visits(order, Interpolations(a).Keys)
    ensures InOrder(s, order + [TASK_NAME], AllNames(a, Placeholder(TASK_NAME))) == InOrder(s, order, Interpolations(a))
  {
    var all := AllNames(a, Placeholder(TASK_NAME));
    assert (order + [TASK_NAME])[..|order|] == order;
    InOrderOfLarger(s, order, Interpolations(a), all);
    ReplaceBySelf(InOrder(s, order, all), Placeholder(TASK_NAME));
  }

  /** Over all tasks of an allocation's group, both loops always substitute all five names at
      once if and only if no value of the first loop can become or contain another name. */
  lemma AllTasksIff(a: Allocation)
    ensures (forall taskName :: BothSimultaneous(a, taskName)) <==> HarmlessForAll(a)
  {
    if HarmlessForAll(a) {
      forall taskName ensures BothSimultaneous(a, taskName) {
        HarmlessSuffices(a, taskName);
      }
    } else if !NoInterference(Interpolations(a)) {
      FirstLoopSpoils(a);
    } else {
      var n :| n in Interpolations(a) && !Inert(Interpolations(a)[n], TASK_NAME);
      TaskNameSpoils(a, "", n);
    }
  }

  predicate Plain(a: Allocation, taskName: string) {
    PlainText(a.id) && PlainText(a.jobName) && PlainText(a.group) && PlainText(a.index) && PlainText(taskName)
  }

  /** Values without `$` are harmless. */
  lemma PlainIsHarmless(a: Allocation, taskName: string)
    requires Plain(a, taskName)
    ensures Harmless(a, taskName)
  {
    var values := AllNames(a, taskName);
    forall n, m | n in values && m in values ensures LeavesAlone(values, n, m) {
      PlainIsInert(values[n], m);
    }
    forall n, m | n in Interpolations(a) && m in Interpolations(a) ensures LeavesAlone(Interpolations(a), n, m) {
      PlainIsInert(Interpolations(a)[n], m);
    }
  }

  /** A name amid literal text. */
  function NameAmid(x: string, n: string, y: string): seq<Piece> {
    [Text(x), Var(n), Text(y)]
  }

  lemma RenderThree(p: Piece, q: Piece, r: Piece)
    ensures Render([p, q, r]) == Show(p) + Show(q) + Show(r)
  {
    assert [p, q, r][1..] == [q, r];
    RenderTwo(q, r);
    Associate(Show(p), Show(q), Show(r));
  }

  lemma NameAmidBecomes(a: Allocation, taskName: string, x: string, n: string, y: string, order: seq<string>)
    requires BothSimultaneous(a, taskName) && Visits(order, Interpolations(a).Keys)
    requires PlainText(x) && PlainText(y) && n in AllNames(a, taskName)
    ensures InOrder(x + Placeholder(n) + y, order + [TASK_NAME], AllNames(a, taskName))
         == x + AllNames(a, taskName)[n] + y
  {
    var values, t := AllNames(a, taskName), NameAmid(x, n, y);
    NamesArePlain(a, taskName);
    RenderThree(Text(x), Var(n), Text(y));
    assert t[1..] == [Var(n), Text(y)] && t[1..][1..] == [Text(y)] && t[1..][1..][1..] == [];
    assert Substitute([Text(y)], values) == [Text(y)] + Substitute([], values) == [Text(y)];
    assert Substitute([Var(n), Text(y)], values) == [Text(values[n])] + [Text(y)];
    assert Substitute(t, values) == [Text(x), Text(values[n]), Text(y)];
    RenderThree(Text(x), Text(values[n]), Text(y));
    assert WellFormed(t);
  }

  /** The five placeholders, letter by letter, and the values that belong to them. */
  lemma FiveNames(a: Allocation, taskName: string)
    ensures "${NOMAD_ALLOC_ID}" == Placeholder("NOMAD_ALLOC_ID")
    ensures "${NOMAD_JOB_NAME}" == Placeholder("NOMAD_JOB_NAME")
    ensures "${NOMAD_GROUP_NAME}" == Placeholder("NOMAD_GROUP_NAME")
    ensures "${NOMAD_ALLOC_INDEX}" == Placeholder("NOMAD_ALLOC_INDEX")
    ensures "${NOMAD_TASK_NAME}" == Placeholder("NOMAD_TASK_NAME")
    ensures var values := AllNames(a, taskName);
      && "NOMAD_ALLOC_ID" in values && values["NOMAD_ALLOC_ID"] == a.id
      && "NOMAD_JOB_NAME" in values && values["NOMAD_JOB_NAME"] == a.jobName
      && "NOMAD_GROUP_NAME" in values && values["NOMAD_GROUP_NAME"] == a.group
      && "NOMAD_ALLOC_INDEX" in values && values["NOMAD_ALLOC_INDEX"] == a.index
      && "NOMAD_TASK_NAME" in values && values["NOMAD_TASK_NAME"] == taskName
  {
  }

  lemma EachName(a: Allocation, taskName: string, x: string, y: string, order: seq<string>)
    requires BothSimultaneous(a, taskName) && Visits(order, Interpolations(a).Keys) && PlainText(x) && PlainText(y)
    ensures var all, values := order + [TASK_NAME], AllNames(a, taskName);
      && InOrder(x + "${NOMAD_ALLOC_ID}" + y, all, values) == x + a.id + y
      && InOrder(x + "${NOMAD_JOB_NAME}" + y, all, values) == x + a.jobName + y
      && InOrder(x + "${NOMAD_GROUP_NAME}" + y, all, values) == x + a.group + y
      && InOrder(x + "${NOMAD_ALLOC_INDEX}" + y, all, values) == x + a.index + y
      && InOrder(x + "${NOMAD_TASK_NAME}" + y, all, values) == x + taskName + y
  {
    FiveNames(a, taskName);
    NameAmidBecomes(a, taskName, x, "NOMAD_ALLOC_ID", y, order);
    NameAmidBecomes(a, taskName, x, "NOMAD_JOB_NAME", y, order);
    NameAmidBecomes(a, taskName, x, "NOMAD_GROUP_NAME", y, order);
    NameAmidBecomes(a, taskName, x, "NOMAD_ALLOC_INDEX", y, order);
    NameAmidBecomes(a, taskName, x, "NOMAD_TASK_NAME", y, order);
  }

  /** A placeholder amid literal text becomes the value that belongs to it. */
  ghost predicate NamesReplaced(s: string, r: string, a: Allocation, taskName: string) {
    forall x, y | PlainText(x) && PlainText(y) ::
      && (s == x + "${NOMAD_ALLOC_ID}" + y ==> r == x + a.id + y)
      && (s == x + "${NOMAD_JOB_NAME}" + y ==> r == x + a.jobName + y)
      && (s == x + "${NOMAD_GROUP_NAME}" + y ==> r == x + a.group + y)
      && (s == x + "${NOMAD_ALLOC_INDEX}" + y ==> r == x + a.index + y)
      && (s == x + "${NOMAD_TASK_NAME}" + y ==> r == x + taskName + y)
  }

  lemma EachNameReplaced(s: string, a: Allocation, taskName: string, order: seq<string>)
    requires BothSimultaneous(a, taskName) && Visits(order, Interpolations(a).Keys)
    ensures NamesReplaced(s, InOrder(s, order + [TASK_NAME], AllNames(a, taskName)), a, taskName)
  {
    forall x, y | PlainText(x) && PlainText(y)
      ensures var r := InOrder(s, order + [TASK_NAME], AllNames(a, taskName));
        && (s == x + "${NOMAD_ALLOC_ID}" + y ==> r == x + a.id + y)
        && (s == x + "${NOMAD_JOB_NAME}" + y ==> r == x + a.jobName + y)
        && (s == x + "${NOMAD_GROUP_NAME}" + y ==> r == x + a.group + y)
        && (s == x + "${NOMAD_ALLOC_INDEX}" + y ==> r == x + a.index + y)
        && (s == x + "${NOMAD_TASK_NAME}" + y ==> r == x + taskName + y)
    {
      EachName(a, taskName, x, y, order);
    }
  }

  /** Both loops: the four names in some order, then the task's name. */
  method SimpleInterpolation(s: string, a: Allocation, taskName: string)
    returns (r: string, ghost order: seq<string>)
    ensures Visits(order, Interpolations(a).Keys)
    ensures r == InOrder(s, order + [TASK_NAME], AllNames(a, taskName))
    ensures Harmless(a, taskName) ==>
      forall t | WellFormed(t) && Render(t) == s :: r == Render(Substitute(t, AllNames(a, taskName)))
    ensures Harmless(a, taskName) ==> NamesReplaced(s, r, a, taskName)
  {
    r, order := ReplaceAll(s, Interpolations(a));
    InOrderOfLarger(s, order, Interpolations(a), AllNames(a, taskName));
    ghost var second;
    var text := r;
    r, second := ReplaceAll(text, TaskNames(taskName));
    assert TASK_NAME in second;
    assert second == [TASK_NAME];
    assert second[..0] == [] && (order + [TASK_NAME])[..|order|] == order;
    if Harmless(a, taskName) {
      HarmlessSuffices(a, taskName);
      EachNameReplaced(s, a, taskName, order);
    }
  }

  lemma ValueIsPlaceholder(values: map<string, string>, n: string, m: string, rest: seq<string>)
    requires PlainNames(values) && n in values && m in values && n != m && n !in rest
    requires (forall k | k in rest :: k in values) && values[n] == Placeholder(m)
    ensures InOrder(Placeholder(n), rest + [n] + [m], values) == values[m]
    ensures InOrder(Placeholder(n), rest + [m] + [n], values) == Placeholder(m)
  {
    assert Placeholder(n) + [] == Placeholder(n) && values[n] + [] == values[n];
    EndWith(n, [], rest, values);
    EndWith(n, [], rest + [m], values);
    assert (rest + [n] + [m])[..|rest| + 1] == rest + [n];
    ReplaceSame(m, [], values[m]);
    assert Placeholder(m) + [] == Placeholder(m) && values[m] + [] == values[m];
  }

  lemma JobAndGroup(a: Allocation)
    ensures var values := Interpolations(a);
      && JOB_NAME in values && values[JOB_NAME] == a.jobName
      && GROUP_NAME in values && values[GROUP_NAME] == a.group && JOB_NAME != GROUP_NAME
  {
  }

  /** With a job named after the group's placeholder, `${NOMAD_JOB_NAME}` becomes the name of the
      group in one order and the placeholder in another. */
  lemma OrderMatters(a: Allocation) returns (one: seq<string>, two: seq<string>)
    requires a.jobName == Placeholder(GROUP_NAME)
    ensures Visits(one, Interpolations(a).Keys) && Visits(two, Interpolations(a).Keys)
    ensures InOrder(Placeholder(JOB_NAME), one, Interpolations(a)) == a.group
    ensures InOrder(Placeholder(JOB_NAME), two, Interpolations(a)) == Placeholder(GROUP_NAME)
  {
    var values, job, group := Interpolations(a), JOB_NAME, GROUP_NAME;
    JobAndGroup(a);
    NamesArePlain(a, "");
    var rest := TwoOrders(values.Keys, job, group);
    one, two := rest + [job] + [group], rest + [group] + [job];
    ValueIsPlaceholder(values, job, group, rest);
  }
}
