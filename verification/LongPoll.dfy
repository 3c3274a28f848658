/** Index tracking for long-polling queries. The Nomad and the Consul helper are the same code. */
module LongPoll {
  /** The wait index after a reply whose last index is `last`. */
  function WaitNext(wait: nat, last: nat): nat {
    if last == 0 then 1 else if last <= wait then wait else last
  }

  predicate Changed(wait: nat, last: nat) {
    last > wait && last > 0
  }

  class QueryOptions {
    var waitIndex: nat

    constructor ()
      ensures waitIndex == 0
    {
      waitIndex := 0;
    }

    method QueryChanged(lastIndex: nat) returns (changed: bool)
      modifies this
      ensures waitIndex == WaitNext(old(waitIndex), lastIndex)
      ensures changed <==> Changed(old(waitIndex), lastIndex)
    {
      if lastIndex == 0 {
        waitIndex := 1;
      }
      if lastIndex <= waitIndex {
        return false;
      }
      waitIndex := lastIndex;
      return true;
    }
  }

  // ---------------------------------------------------------------- sequences of replies

  /** The wait index of a fresh query after `replies`. */
  function WaitAfter(replies: seq<nat>): nat {
    if replies == [] then 0
    else WaitNext(WaitAfter(replies[..|replies| - 1]), replies[|replies| - 1])
  }

  function Zeros(replies: seq<nat>): nat {
    if replies == [] then 0
    else Zeros(replies[..|replies| - 1]) + (if replies[|replies| - 1] == 0 then 1 else 0)
  }

  /** The replies that came after the last 0. */
  function SinceZero(replies: seq<nat>): seq<nat> {
    if replies == [] || replies[|replies| - 1] == 0 then []
    else SinceZero(replies[..|replies| - 1]) + [replies[|replies| - 1]]
  }

  ghost predicate IsMaxOf(m: nat, base: nat, s: seq<nat>) {
    && base <= m && (m == base || m in s)
    && forall i | 0 <= i < |s| :: s[i] <= m
  }

  /** The wait index is the largest index since the last 0 reply; a 0 reply leaves a floor of 1. */
  lemma {:induction false} WaitIsMaximum(replies: seq<nat>)
    ensures IsMaxOf(WaitAfter(replies), if Zeros(replies) > 0 then 1 else 0, SinceZero(replies))
  {
    if replies != [] {
      var front, last := replies[..|replies| - 1], replies[|replies| - 1];
      WaitIsMaximum(front);
      if last != 0 {
        var s := SinceZero(front);
        assert forall i | 0 <= i < |s| :: (s + [last])[i] == s[i];
        assert (s + [last])[|s|] == last;
      }
    }
  }

  ghost predicate AllBelow(s: seq<nat>, last: nat) {
    forall i | 0 <= i < |s| :: s[i] < last
  }

  /** A reply counts as a change exactly when it beats the floor and every reply since the last 0. */
  lemma ChangedIsNewMaximum(replies: seq<nat>, last: nat)
    ensures Changed(WaitAfter(replies), last) <==>
      && last > (if Zeros(replies) > 0 then 1 else 0)
      && AllBelow(SinceZero(replies), last)
  {
    var m := WaitAfter(replies);
    WaitIsMaximum(replies);
    BeatsMaximum(m, if Zeros(replies) > 0 then 1 else 0, SinceZero(replies), last);
    assert Changed(m, last) <==> last > m;
  }

  lemma BeatsMaximum(m: nat, base: nat, s: seq<nat>, last: nat)
    requires IsMaxOf(m, base, s)
    ensures last > m <==> last > base && AllBelow(s, last)
  {
    if m in s {
      var i :| 0 <= i < |s| && s[i] == m;
      assert last > s[i] <==> last > m;
    }
  }

  /** An index handed on by a watcher, with the number of 0 replies seen before it. */
  datatype Emission = Emission(epoch: nat, index: nat)

  function Emissions(replies: seq<nat>): seq<Emission> {
    if replies == [] then []
    else
      var front, last := replies[..|replies| - 1], replies[|replies| - 1];
      Emissions(front)
        + (if Changed(WaitAfter(front), last) then [Emission(Zeros(front), last)] else [])
  }

  ghost predicate Bounded(es: seq<Emission>, epoch: nat, wait: nat) {
    forall i | 0 <= i < |es| ::
      0 < es[i].index && es[i].epoch <= epoch && (es[i].epoch == epoch ==> es[i].index <= wait)
  }

  ghost predicate Increasing(es: seq<Emission>) {
    forall i, j | 0 <= i < j < |es| ::
      es[i].epoch <= es[j].epoch && (es[i].epoch == es[j].epoch ==> es[i].index < es[j].index)
  }

  /** Indices handed on are nonzero and strictly increase unless a 0 reply falls between them. */
  lemma {:induction false} EmissionsIncrease(replies: seq<nat>)
    ensures Increasing(Emissions(replies))
    ensures Bounded(Emissions(replies), Zeros(replies), WaitAfter(replies))
  {
    if replies != [] {
      EmissionsIncrease(replies[..|replies| - 1]);
    }
  }
  // ---------------------------------------------------------------- answering every poll

  /** What a watcher hands on that answers every poll, change or not. */
  function Polls(replies: seq<nat>): seq<Emission> {
    if replies == [] then []
    else
      var front, last := replies[..|replies| - 1], replies[|replies| - 1];
      Polls(front) + [Emission(Zeros(front), last)]
  }

  ghost predicate Nonzero(es: seq<Emission>) {
    forall i | 0 <= i < |es| :: es[i].index > 0
  }

  ghost predicate AllChanges(replies: seq<nat>) {
    forall i | 0 <= i < |replies| :: Changed(WaitAfter(replies[..i]), replies[i])
  }

  lemma {:induction false} PollsAt(replies: seq<nat>)
    ensures |Polls(replies)| == |replies|
    ensures forall i | 0 <= i < |replies| :: Polls(replies)[i].index == replies[i]
  {
    if replies != [] {
      PollsAt(replies[..|replies| - 1]);
    }
  }

  lemma {:induction false} NoZeros(replies: seq<nat>)
    requires forall i | 0 <= i < |replies| :: replies[i] > 0
    ensures Zeros(replies) == 0 && SinceZero(replies) == replies
  {
    if replies != [] {
      NoZeros(replies[..|replies| - 1]);
    }
  }

  lemma {:induction false} ChangesAreEmitted(replies: seq<nat>)
    requires AllChanges(replies)
    ensures Polls(replies) == Emissions(replies)
  {
    if replies != [] {
      var front := replies[..|replies| - 1];
      forall i | 0 <= i < |front| ensures Changed(WaitAfter(front[..i]), front[i]) {
        assert front[..i] == replies[..i];
      }
      ChangesAreEmitted(front);
      assert replies[..|replies| - 1] == front;
    }
  }

  /** A last reply larger than 0 and all before it is a change. */
  lemma TopIsChange(front: seq<nat>, last: nat)
    requires last > 0 && forall i | 0 <= i < |front| :: 0 < front[i] < last
    ensures Changed(WaitAfter(front), last)
  {
    NoZeros(front);
    WaitIsMaximum(front);
  }

  lemma {:induction false} IncreasingAreChanges(replies: seq<nat>)
    requires Nonzero(Polls(replies)) && Increasing(Polls(replies))
    ensures AllChanges(replies)
  {
    PollsAt(replies);
    forall i | 0 <= i < |replies| ensures Changed(WaitAfter(replies[..i]), replies[i]) {
      PollsUpTo(replies, i);
      forall j | 0 <= j < i ensures 0 < replies[j] < replies[i] {
        assert Polls(replies)[j].index == replies[j];
      }
      TopIsChange(replies[..i], replies[i]);
    }
  }

  /** Without 0 replies all polls belong to one epoch. */
  lemma {:induction false} PollsUpTo(replies: seq<nat>, i: nat)
    requires i < |replies| && Nonzero(Polls(replies))
    ensures forall j | 0 <= j <= i :: j < |Polls(replies)| && Polls(replies)[j].epoch == 0
  {
    PollsAt(replies);
    var front := replies[..|replies| - 1];
    assert Nonzero(Polls(front)) by {
      assert forall j | 0 <= j < |Polls(front)| :: Polls(front)[j] == Polls(replies)[j];
    }
    PollsAt(front);
    forall j | 0 <= j < |front| ensures front[j] > 0 {
      assert Polls(front)[j].index == front[j];
    }
    NoZeros(front);
    if |replies| > 1 {
      PollsUpTo(front, |front| - 1);
    }
  }

  /** Answering every poll keeps indices nonzero and increasing exactly when every poll is a
      change, that is, when it makes no difference. */
  lemma EveryPollIff(replies: seq<nat>)
    ensures Nonzero(Polls(replies)) && Increasing(Polls(replies)) <==> AllChanges(replies)
    ensures AllChanges(replies) <==> Polls(replies) == Emissions(replies)
  {
    EmissionsIncrease(replies);
    if AllChanges(replies) {
      ChangesAreEmitted(replies);
    }
    if Nonzero(Polls(replies)) && Increasing(Polls(replies)) {
      IncreasingAreChanges(replies);
    }
  }
}
