/** The verdict on one allocation: the Consul checks of its node that carry one of its hashes. */
module AllocationHealth {
  import opened Wrappers

  datatype Check = Check(id: string, name: string, status: string)

  datatype Verdict = Verdict(
    checks: map<string, string>, count: map<string, nat>, total: nat, healthy: Option<bool>)

  /** The checks that belong to the allocation, in order. */
  function Matched(checks: seq<Check>, hashes: seq<string>): seq<Check> {
    if checks == [] then []
    else
      var front, c := checks[..|checks| - 1], checks[|checks| - 1];
      Matched(front, hashes) + (if c.id in hashes then [c] else [])
  }

  function WithStatus(checks: seq<Check>, status: string): nat {
    if checks == [] then 0
    else
      WithStatus(checks[..|checks| - 1], status) + (if checks[|checks| - 1].status == status then 1 else 0)
  }

  /** The sum of a map's values. */
  ghost function SumOf(m: map<string, nat>): nat {
    if m == map[] then 0
    else
      var k :| k in m;
      m[k] + SumOf(m - {k})
  }

  lemma {:induction false} SumTakeOut(m: map<string, nat>, k: string)
    requires k in m
    ensures SumOf(m) == m[k] + SumOf(m - {k})
    decreases |m|
  {
    var j :| j in m && SumOf(m) == m[j] + SumOf(m - {j});
    if j != k {
      assert (m - {j}).Keys == m.Keys - {j} && (m - {k}).Keys == m.Keys - {k};
      SumTakeOut(m - {j}, k);
      SumTakeOut(m - {k}, j);
      assert m - {j} - {k} == m - {k} - {j};
    }
  }

  lemma SumIncrement(m: map<string, nat>, k: string)
    ensures SumOf(m[k := (if k in m then m[k] else 0) + 1]) == SumOf(m) + 1
  {
    var m' := m[k := (if k in m then m[k] else 0) + 1];
    SumTakeOut(m', k);
    assert m' - {k} == m - {k};
    if k in m {
      SumTakeOut(m, k);
    } else {
      assert m - {k} == m;
    }
  }

  /** The status counts are those of the matched checks, and add up to the total. */
  ghost predicate CountsRight(h: Verdict, matched: seq<Check>) {
    && h.total == |matched| && SumOf(h.count) == h.total
    && (forall st :: st in h.count <==> WithStatus(matched, st) > 0)
    && (forall st | st in h.count :: h.count[st] == WithStatus(matched, st))
  }

  /** No verdict without matched checks; healthy exactly when all of them pass. */
  ghost predicate HealthyRight(h: Verdict, matched: seq<Check>) {
    && (h.healthy == None <==> matched == [])
    && (h.healthy == Some(true) <==> matched != [] && forall i | 0 <= i < |matched| :: matched[i].status == "passing")
  }

  /** Each name shows the status of the last matched check that has it. */
  ghost predicate NamesRight(h: Verdict, matched: seq<Check>) {
    && (forall n | n in h.checks :: exists i :: 0 <= i < |matched| && matched[i].name == n)
    && (forall i | 0 <= i < |matched| :: matched[i].name in h.checks)
    && (forall i | 0 <= i < |matched| && LastNamed(matched, i) :: h.checks[matched[i].name] == matched[i].status)
  }

  /** No later check has the name of check `i`. */
  ghost predicate LastNamed(matched: seq<Check>, i: nat)
    requires i < |matched|
  {
    forall j | i < j < |matched| :: matched[j].name != matched[i].name
  }

  ghost predicate Describes(h: Verdict, matched: seq<Check>) {
    CountsRight(h, matched) && HealthyRight(h, matched) && NamesRight(h, matched)
  }

  function WithCheck(h: Verdict, c: Check): Verdict {
    Verdict(h.checks[c.name := c.status],
           h.count[c.status := (if c.status in h.count then h.count[c.status] else 0) + 1],
           h.total + 1,
           if h.healthy == Some(false) then h.healthy else Some(c.status == "passing"))
  }

  lemma CountsStayRight(h: Verdict, matched: seq<Check>, c: Check)
    requires CountsRight(h, matched)
    ensures CountsRight(WithCheck(h, c), matched + [c])
  {
    SumIncrement(h.count, c.status);
    assert (matched + [c])[..|matched|] == matched;
  }

  lemma HealthyStaysRight(h: Verdict, matched: seq<Check>, c: Check)
    requires HealthyRight(h, matched)
    ensures HealthyRight(WithCheck(h, c), matched + [c])
  {
    var all := matched + [c];
    assert all[|matched|] == c;
    if h.healthy == Some(false) {
      var i :| 0 <= i < |matched| && matched[i].status != "passing";
      assert all[i].status != "passing";
    } else if h.healthy.Some? {
      var verdict := h.healthy.value;
      assert verdict && h.healthy == Some(true);
      forall i | 0 <= i < |matched| ensures all[i].status == "passing" {
        assert all[i] == matched[i];
      }
    }
  }

  lemma NamesStayRight(h: Verdict, matched: seq<Check>, c: Check)
    requires NamesRight(h, matched)
    ensures NamesRight(WithCheck(h, c), matched + [c])
  {
    var h', all := WithCheck(h, c), matched + [c];
    assert all[|matched|] == c;
    forall n | n in h'.checks ensures exists i :: 0 <= i < |all| && all[i].name == n {
      if n != c.name {
        var i :| 0 <= i < |matched| && matched[i].name == n;
        assert all[i].name == n;
      }
    }
    forall i | 0 <= i < |all| && LastNamed(all, i) ensures h'.checks[all[i].name] == all[i].status {
      if i < |matched| {
        assert forall j | i < j < |matched| :: all[j] == matched[j];
        assert LastNamed(matched, i);
      }
    }
  }

  // ------------------------------------------------------------- by position in the node's checks

  /** The positions of the checks that carry one of the hashes. */
  function MatchedAt(checks: seq<Check>, hashes: seq<string>): set<nat> {
    set i | 0 <= i < |checks| && checks[i].id in hashes
  }

  function StatusAt(checks: seq<Check>, hashes: seq<string>, status: string): set<nat> {
    set i | 0 <= i < |checks| && checks[i].id in hashes && checks[i].status == status
  }

  /** No later check with one of the hashes has the name of check `i`. */
  ghost predicate LastOfName(checks: seq<Check>, hashes: seq<string>, i: nat)
    requires i < |checks|
  {
    forall j | i < j < |checks| && checks[j].id in hashes :: checks[j].name != checks[i].name
  }

  lemma {:induction false} MatchedSize(checks: seq<Check>, hashes: seq<string>)
    ensures |Matched(checks, hashes)| == |MatchedAt(checks, hashes)|
  {
    if checks == [] {
      assert MatchedAt(checks, hashes) == {};
    } else {
      var last := |checks| - 1;
      MatchedSize(checks[..last], hashes);
      assert MatchedAt(checks, hashes)
          == MatchedAt(checks[..last], hashes) + (if checks[last].id in hashes then {last} else {});
    }
  }

  lemma WithStatusAppend(checks: seq<Check>, c: Check, status: string)
    ensures WithStatus(checks + [c], status) == WithStatus(checks, status) + (if c.status == status then 1 else 0)
  {
    assert (checks + [c])[..|checks|] == checks;
  }

  lemma OneMoreStatus(checks: seq<Check>, hashes: seq<string>, status: string)
    requires checks != []
    ensures var last := |checks| - 1;
      |StatusAt(checks, hashes, status)| == |StatusAt(checks[..last], hashes, status)|
        + (if checks[last].id in hashes && checks[last].status == status then 1 else 0)
  {
    var last := |checks| - 1;
    var before := checks[..last];
    var front := StatusAt(before, hashes, status);
    assert forall i | 0 <= i < last :: before[i] == checks[i];
    assert checks == before + [checks[last]];
    if checks[last].id in hashes && checks[last].status == status {
      assert StatusAt(checks, hashes, status) == front + {last};
    } else {
      assert StatusAt(checks, hashes, status) == front;
    }
  }

  lemma {:induction false} StatusSize(checks: seq<Check>, hashes: seq<string>, status: string)
    ensures WithStatus(Matched(checks, hashes), status) == |StatusAt(checks, hashes, status)|
  {
    if checks == [] {
      assert StatusAt(checks, hashes, status) == {};
    } else {
      var last := |checks| - 1;
      var front, c := checks[..last], checks[last];
      StatusSize(front, hashes, status);
      OneMoreStatus(checks, hashes, status);
      if c.id in hashes {
        WithStatusAppend(Matched(front, hashes), c, status);
      } else {
        assert Matched(front, hashes) + [] == Matched(front, hashes);
      }
    }
  }

  /** Where check `i` is among the matched ones. */
  function Place(checks: seq<Check>, hashes: seq<string>, i: nat): nat
    requires i < |checks|
  {
    |Matched(checks[..i], hashes)|
  }

  lemma {:induction false} Placed(checks: seq<Check>, hashes: seq<string>, i: nat)
    requires i < |checks| && checks[i].id in hashes
    ensures Place(checks, hashes, i) < |Matched(checks, hashes)|
    ensures Matched(checks, hashes)[Place(checks, hashes, i)] == checks[i]
  {
    var front := checks[..|checks| - 1];
    if i < |front| {
      Placed(front, hashes, i);
      assert front[..i] == checks[..i];
    } else {
      assert checks[..i] == front;
    }
  }

  /** Every matched check comes from one of the checks, and later ones from later ones. */
  lemma {:induction false} Origin(checks: seq<Check>, hashes: seq<string>, k: nat) returns (i: nat)
    requires k < |Matched(checks, hashes)|
    ensures i < |checks| && checks[i].id in hashes && checks[i] == Matched(checks, hashes)[k]
    ensures Place(checks, hashes, i) == k
  {
    var front := checks[..|checks| - 1];
    if k < |Matched(front, hashes)| {
      i := Origin(front, hashes, k);
      assert front[..i] == checks[..i];
    } else {
      i := |checks| - 1;
      assert checks[..i] == front;
    }
  }

  lemma {:induction false} PlacesIncrease(checks: seq<Check>, hashes: seq<string>, i: nat, j: nat)
    requires i <= j < |checks|
    ensures Place(checks, hashes, i) <= Place(checks, hashes, j)
    decreases j - i
  {
    if i < j {
      PlacesIncrease(checks, hashes, i, j - 1);
      assert checks[..j][..j - 1] == checks[..j - 1];
    }
  }

  /** The verdict in terms of the checks and hashes themselves. */
  ghost predicate Judges(h: Verdict, checks: seq<Check>, hashes: seq<string>) {
    && h.total == |MatchedAt(checks, hashes)|
    && (forall st :: st in h.count <==> StatusAt(checks, hashes, st) != {})
    && (forall st | st in h.count :: h.count[st] == |StatusAt(checks, hashes, st)|)
    && (h.healthy == None <==> forall i | 0 <= i < |checks| :: checks[i].id !in hashes)
    && (h.healthy == Some(true) <==>
          && (exists i :: 0 <= i < |checks| && checks[i].id in hashes)
          && (forall i | 0 <= i < |checks| && checks[i].id in hashes :: checks[i].status == "passing"))
    && (forall n | n in h.checks :: exists i :: 0 <= i < |checks| && checks[i].id in hashes && checks[i].name == n)
    && (forall i | 0 <= i < |checks| && checks[i].id in hashes :: checks[i].name in h.checks)
    && (forall i | 0 <= i < |checks| && checks[i].id in hashes && LastOfName(checks, hashes, i) ::
          h.checks[checks[i].name] == checks[i].status)
  }

  lemma CountsJudge(h: Verdict, checks: seq<Check>, hashes: seq<string>)
    requires CountsRight(h, Matched(checks, hashes))
    ensures h.total == |MatchedAt(checks, hashes)|
    ensures forall st :: st in h.count <==> StatusAt(checks, hashes, st) != {}
    ensures forall st | st in h.count :: h.count[st] == |StatusAt(checks, hashes, st)|
  {
    MatchedSize(checks, hashes);
    forall st
      ensures st in h.count <==> StatusAt(checks, hashes, st) != {}
      ensures st in h.count ==> h.count[st] == |StatusAt(checks, hashes, st)|
    {
      StatusSize(checks, hashes, st);
    }
  }

  lemma HealthyJudges(h: Verdict, checks: seq<Check>, hashes: seq<string>)
    requires HealthyRight(h, Matched(checks, hashes))
    ensures h.healthy == None <==> forall i | 0 <= i < |checks| :: checks[i].id !in hashes
    ensures h.healthy == Some(true) <==>
      && (exists i :: 0 <= i < |checks| && checks[i].id in hashes)
      && (forall i | 0 <= i < |checks| && checks[i].id in hashes :: checks[i].status == "passing")
  {
    var matched := Matched(checks, hashes);
    forall i | 0 <= i < |checks| && checks[i].id in hashes
      ensures exists k :: 0 <= k < |matched| && matched[k] == checks[i]
    {
      Placed(checks, hashes, i);
    }
    forall k | 0 <= k < |matched|
      ensures exists i :: 0 <= i < |checks| && checks[i].id in hashes && matched[k] == checks[i]
    {
      var i := Origin(checks, hashes, k);
    }
    if matched != [] {
      assert matched[0] == matched[0];
    }
  }

  lemma LastIsLast(checks: seq<Check>, hashes: seq<string>, i: nat)
    requires i < |checks| && checks[i].id in hashes && LastOfName(checks, hashes, i)
    ensures Place(checks, hashes, i) < |Matched(checks, hashes)|
    ensures LastNamed(Matched(checks, hashes), Place(checks, hashes, i))
  {
    var matched, k := Matched(checks, hashes), Place(checks, hashes, i);
    Placed(checks, hashes, i);
    forall l | k < l < |matched| ensures matched[l].name != matched[k].name {
      var j := Origin(checks, hashes, l);
      if j <= i {
        PlacesIncrease(checks, hashes, j, i);
      }
    }
  }

  lemma NamesJudge(h: Verdict, checks: seq<Check>, hashes: seq<string>)
    requires NamesRight(h, Matched(checks, hashes))
    ensures forall n | n in h.checks :: exists i :: 0 <= i < |checks| && checks[i].id in hashes && checks[i].name == n
    ensures forall i | 0 <= i < |checks| && checks[i].id in hashes :: checks[i].name in h.checks
    ensures forall i | 0 <= i < |checks| && checks[i].id in hashes && LastOfName(checks, hashes, i) ::
      h.checks[checks[i].name] == checks[i].status
  {
    var matched := Matched(checks, hashes);
    forall n | n in h.checks ensures exists i :: 0 <= i < |checks| && checks[i].id in hashes && checks[i].name == n {
      var k :| 0 <= k < |matched| && matched[k].name == n;
      var i := Origin(checks, hashes, k);
    }
    forall i | 0 <= i < |checks| && checks[i].id in hashes
      ensures checks[i].name in h.checks
      ensures LastOfName(checks, hashes, i) ==> h.checks[checks[i].name] == checks[i].status
    {
      Placed(checks, hashes, i);
      if LastOfName(checks, hashes, i) {
        LastIsLast(checks, hashes, i);
      }
    }
  }

  method HasHash(check: Check, hashes: seq<string>) returns (found: bool)
    ensures found <==> check.id in hashes
  {
    found := false;
    for j := 0 to |hashes|
      invariant found <==> check.id in hashes[..j]
    {
      if check.id == hashes[j] {
        found := true;
      }
    }
  }

  /** The loop over the node's checks. */
  method Assess(checks: seq<Check>, hashes: seq<string>) returns (h: Verdict)
    ensures Describes(h, Matched(checks, hashes)) && Judges(h, checks, hashes)
  {
    var result: map<string, string>, status: map<string, nat> := map[], map[];
    var healthy: Option<bool>, total := None, 0;
    for i := 0 to |checks|
      invariant Describes(Verdict(result, status, total, healthy), Matched(checks[..i], hashes))
    {
      var check := checks[i];
      ghost var before, seen := Verdict(result, status, total, healthy), Matched(checks[..i], hashes);
      assert checks[..i + 1][..i] == checks[..i];
      var found := HasHash(check, hashes);
      assert Matched(checks[..i + 1], hashes) == seen + (if found then [check] else []);
      if !found {
        assert seen + [] == seen;
        continue;
      }
      total := total + 1;
      result := result[check.name := check.status];
      status := status[check.status := (if check.status in status then status[check.status] else 0) + 1];
      if healthy != Some(false) {
        healthy := Some(check.status == "passing");
      }
      assert Verdict(result, status, total, healthy) == WithCheck(before, check);
      CountsStayRight(before, seen, check);
      HealthyStaysRight(before, seen, check);
      NamesStayRight(before, seen, check);
    }
    assert checks[..|checks|] == checks;
    h := Verdict(result, status, total, healthy);
    CountsJudge(h, checks, hashes);
    HealthyJudges(h, checks, hashes);
    NamesJudge(h, checks, hashes);
  }
}
