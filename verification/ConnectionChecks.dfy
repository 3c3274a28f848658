/** What looking at the registry without the lock can and cannot tell: the check before Subscribe
    and the one after Do. */
module ConnectionChecks {
  import opened Wrappers
  import opened Connection
  import opened ConnectionSafety
  import opened ConnectionWatchers

  /** A goroutine subscribed to `key` and not told to stop. */
  predicate HoldsOpen(s: State, q: nat, key: string) {
    q < |s.procs| && Holding(s.procs[q]) && s.procs[q].key == key && s.procs[q].ch !in s.reg.closed
  }

  ghost predicate SomeoneHolds(s: State, key: string) {
    exists q :: HoldsOpen(s, q, key)
  }

  lemma HeldIffMapped(s: State, key: string)
    requires Inv(s) && HandedOut(s)
    ensures SomeoneHolds(s, key) <==> key in s.reg.subs
  {
    if key in s.reg.subs {
      assert HoldsOpen(s, s.reg.subs[key], key);
    }
  }

  /** Whoever checks while someone holds its key open never subscribes; otherwise it can. */
  lemma CheckDecides(es: seq<Event>, p: nat)
    requires CanRun(Init(), es) && Enabled(Exec(Init(), es), Event.Check(p))
    ensures var s := Exec(Init(), es);
      (exists more :: CanRun(Next(s, Event.Check(p)), more) && Event.Subscribe(p) in more)
        <==> !SomeoneHolds(s, s.procs[p].key)
  {
    RunHandsOut(Init(), es);
    var s := Exec(Init(), es);
    var s' := Next(s, Event.Check(p));
    HeldIffMapped(s, s.procs[p].key);
    assert Shaped(s.procs[p]);
    if SomeoneHolds(s, s.procs[p].key) {
      forall more | CanRun(s', more) ensures Event.Subscribe(p) !in more {
        EndingStays(s', more, p);
      }
    } else {
      OneStep(s', Event.Subscribe(p));
      assert Event.Subscribe(p) in [Event.Subscribe(p)];
    }
  }

  /** A goroutine back from Do goes on to send exactly what it holds if someone holds its key open;
      otherwise it never sends anything again. */
  lemma LookDecides(es: seq<Event>, p: nat)
    requires CanRun(Init(), es) && Enabled(Exec(Init(), es), Look(p))
    ensures var s := Exec(Init(), es);
      var batch, s' := s.procs[p].pc.batch, Next(s, Look(p));
      if SomeoneHolds(s, s.procs[p].key) then batch != [] ==> s'.procs[p].pc.Sending? && s'.procs[p].pc.batch == batch
      else forall more | CanRun(s', more) :: SendsBy(more, p) == 0
  {
    RunHandsOut(Init(), es);
    var s := Exec(Init(), es);
    var s' := Next(s, Look(p));
    HeldIffMapped(s, s.procs[p].key);
    assert Shaped(s.procs[p]);
    if !SomeoneHolds(s, s.procs[p].key) {
      forall more | CanRun(s', more) ensures SendsBy(more, p) == 0 {
        EndingStays(s', more, p);
      }
    }
  }

  // ------------------------------------------------------------- how a key is taken twice

  /** A Subscribe finds its key taken exactly when another goroutine has subscribed to the key,
      has not unsubscribed, and has not been told to stop: the check beforehand cannot tell. */
  lemma DuplicateIff(es: seq<Event>, p: nat)
    requires CanRun(Init(), es) && Enabled(Exec(Init(), es), Event.Subscribe(p))
    ensures var s := Exec(Init(), es);
      Next(s, Event.Subscribe(p)).dups == s.dups + 1 <==>
        exists q :: q != p && HoldsOpen(s, q, s.procs[p].key)
  {
    RunHandsOut(Init(), es);
    var s := Exec(Init(), es);
    var key := s.procs[p].key;
    if key in s.reg.subs {
      assert HoldsOpen(s, s.reg.subs[key], key);
    }
  }

  /** `p` checked at step `i`, when nobody held its key open; if the key is taken by now, someone
      subscribed to it since. */
  ghost predicate CheckedAt(es: seq<Event>, p: nat, i: nat)
    requires CanRun(Init(), es) && p < |Exec(Init(), es).procs|
  {
    var s := Exec(Init(), es);
    && i < |es| && es[i] == Event.Check(p)
    && CanRun(Init(), es[..i]) && !SomeoneHolds(Exec(Init(), es[..i]), s.procs[p].key)
    && (s.procs[p].key in s.reg.subs ==> exists j: nat :: SubscribedAt(es, s, p, i, j))
  }

  /** Another goroutine subscribed to the key of `p` at step `j`, after step `i`. */
  ghost predicate SubscribedAt(es: seq<Event>, s: State, p: nat, i: nat, j: nat)
    requires p < |s.procs|
  {
    && i < j < |es| && es[j].Subscribe? && es[j].p != p
    && es[j].p < |s.procs| && s.procs[es[j].p].key == s.procs[p].key
  }

  lemma KeysStay(s: State, e: Event, q: nat)
    requires Enabled(s, e) && q < |s.procs|
    ensures q < |Next(s, e).procs| && Next(s, e).procs[q].key == s.procs[q].key
  {
  }

  lemma OnlyCheckLeads(s: State, e: Event, p: nat)
    requires AllShaped(s) && Enabled(s, e) && Actor(e) == Some(p)
    requires p < |Next(s, e).procs| && Next(s, e).procs[p].pc == Checked
    ensures e == Event.Check(p) && s.procs[p].key !in s.reg.subs && Next(s, e).reg == s.reg
    ensures Next(s, e).procs[p].key == s.procs[p].key
  {
    assert Shaped(s.procs[p]);
  }

  /** The only way to `Checked` is a check that finds the key free. */
  lemma ChecksIn(es: seq<Event>, e: Event, p: nat)
    requires CanRun(Init(), es) && Enabled(Exec(Init(), es), e) && Actor(e) == Some(p)
    requires p < |Next(Exec(Init(), es), e).procs| && Next(Exec(Init(), es), e).procs[p].pc == Checked
    requires CanRun(Init(), es + [e]) && Exec(Init(), es + [e]) == Next(Exec(Init(), es), e)
    ensures CheckedAt(es + [e], p, |es|)
  {
    var s := Exec(Init(), es);
    RunHandsOut(Init(), es);
    OnlyCheckLeads(s, e, p);
    HeldIffMapped(s, s.procs[p].key);
    assert (es + [e])[..|es|] == es;
  }

  /** Once checked, a goroutine that waits finds its key taken only if someone else takes it. */
  lemma StaysChecked(es: seq<Event>, e: Event, p: nat, i: nat)
    requires CanRun(Init(), es) && Enabled(Exec(Init(), es), e) && Actor(e) != Some(p)
    requires p < |Exec(Init(), es).procs| && CheckedAt(es, p, i)
    requires CanRun(Init(), es + [e]) && Exec(Init(), es + [e]) == Next(Exec(Init(), es), e)
    requires p < |Next(Exec(Init(), es), e).procs|
    ensures CheckedAt(es + [e], p, i)
  {
    var s, es' := Exec(Init(), es), es + [e];
    var s', key := Next(s, e), s.procs[p].key;
    KeysStay(s, e, p);
    assert es'[..i] == es[..i];
    if key in s.reg.subs {
      var j: nat :| SubscribedAt(es, s, p, i, j);
      KeysStay(s, e, es[j].p);
      assert SubscribedAt(es', s', p, i, j);
    } else if key in s'.reg.subs {
      assert e.Subscribe? && s.procs[e.p].key == key;
      KeysStay(s, e, e.p);
      assert SubscribedAt(es', s', p, i, |es|);
    }
  }

  lemma {:induction false} WhenChecked(es: seq<Event>, p: nat) returns (i: nat)
    requires CanRun(Init(), es) && p < |Exec(Init(), es).procs| && Exec(Init(), es).procs[p].pc == Checked
    ensures CheckedAt(es, p, i)
    decreases |es|
  {
    assert es != [];
    var front, e := es[..|es| - 1], es[|es| - 1];
    WithoutLast(Init(), es);
    assert es == front + [e];
    if Actor(e) == Some(p) {
      i := |front|;
      ChecksIn(front, e, p);
    } else {
      assert p < |Exec(Init(), front).procs|;
      OthersLeaveAlone(Exec(Init(), front), e, p);
      i := WhenChecked(front, p);
      StaysChecked(front, e, p, i);
    }
  }

  /** A key is taken twice only in a race: whoever finds its key taken on subscribing (keep-alive
      apart, which does not check) checked when nobody held the key open, and another goroutine
      subscribed to the key in between. */
  lemma DuplicateNeedsRace(es: seq<Event>, p: nat) returns (i: nat, j: nat)
    requires CanRun(Init(), es) && Enabled(Exec(Init(), es), Event.Subscribe(p))
    requires !Exec(Init(), es).procs[p].kind.KeepAlive?
    requires Next(Exec(Init(), es), Event.Subscribe(p)).dups > Exec(Init(), es).dups
    ensures i < j < |es| && es[i] == Event.Check(p) && es[j].Subscribe? && es[j].p != p
    ensures var s := Exec(Init(), es); es[j].p < |s.procs| && s.procs[es[j].p].key == s.procs[p].key
    ensures CanRun(Init(), es[..i]) && !SomeoneHolds(Exec(Init(), es[..i]), Exec(Init(), es).procs[p].key)
  {
    var s := Exec(Init(), es);
    i := WhenChecked(es, p);
    j :| SubscribedAt(es, s, p, i, j);
  }
}
