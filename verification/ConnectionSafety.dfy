/** What holds of the registry in every reachable state of a connection. */
module ConnectionSafety {
  import opened Subscriptions
  import opened Connection

  /** Between its Subscribe and its deferred Unsubscribe. */
  predicate Holding(proc: Proc) {
    Subscriber(proc.kind) && !proc.pc.Start? && !proc.pc.Checked? && !proc.pc.Exited?
  }

  predicate HasSubscribed(proc: Proc) {
    Subscriber(proc.kind) && !proc.pc.Start? && !proc.pc.Checked?
  }

  ghost predicate Counted(s: State) {
    && !s.reg.panicked
    && s.reg.wg == s.reg.count == |s.reg.subs| + s.dups
  }

  /** Every mapped channel is open, and its maker still holds it under that key. */
  ghost predicate Owned(s: State) {
    forall k | k in s.reg.subs ::
      var p := s.reg.subs[k];
      p < |s.procs| && s.procs[p].key == k && s.procs[p].ch == p && Holding(s.procs[p]) && p !in s.reg.closed
  }

  ghost predicate ClosedByRun(s: State) {
    forall c | c in s.reg.closed :: c < |s.procs| && HasSubscribed(s.procs[c])
  }

  /** Which pcs each kind of goroutine can be at. */
  predicate Shaped(proc: Proc) {
    match proc.pc
    case Start => !proc.kind.Worker?
    case Checked => proc.kind.Watch? || proc.kind.Once? || proc.kind.Stream?
    case Selecting => proc.kind.Worker?
    case Active => !proc.kind.Unwatch?
    case Recheck(_) => proc.kind.Worker? || proc.kind.Once? || proc.kind.Stream?
    case Sending(batch, after) =>
      && batch != []
      && (after == ThenLeave ==> proc.kind.Once? || proc.kind.Stream?)
      && (after == ThenGoOn ==> proc.kind.Stream? || proc.kind.KeepAlive?)
      && (after == ThenSelect || after == ThenExit ==> proc.kind.Worker?)
    case Leaving => Subscriber(proc.kind)
    case Exited => true
  }

  ghost predicate AllShaped(s: State) {
    forall p | 0 <= p < |s.procs| :: Shaped(s.procs[p])
  }

  ghost predicate Inv(s: State) {
    Counted(s) && Owned(s) && ClosedByRun(s) && AllShaped(s)
  }

  /** A step that moves one goroutine within its holding period, or outside it, and leaves the
      registry alone. */
  lemma MoveKeepsInv(s: State, p: nat, proc: Proc, s': State)
    requires Inv(s) && p < |s.procs| && Shaped(proc)
    requires s'.procs == s.procs[p := proc] && s'.reg == s.reg && s'.dups == s.dups
    requires proc.key == s.procs[p].key && proc.kind == s.procs[p].kind && proc.ch == s.procs[p].ch
    requires Holding(s.procs[p]) ==> Holding(proc)
    requires HasSubscribed(s.procs[p]) ==> HasSubscribed(proc)
    ensures Inv(s')
  {
  }

  lemma SubscribeKeepsInv(s: State, p: nat)
    requires Inv(s) && Enabled(s, Event.Subscribe(p))
    ensures Inv(Subscribed(s, p))
  {
    var s', key := Subscribed(s, p), s.procs[p].key;
    assert p !in s.reg.closed;
    if key !in s.reg.subs {
      AddCounts(s.reg.subs, key, p);
    }
    forall q | 0 <= q < |s'.procs| ensures Shaped(s'.procs[q]) {
      if q < |s.procs| && q != p {
        assert s'.procs[q] == s.procs[q];
      }
    }
  }

  lemma UnsubscribeKeepsOwned(s: State, p: nat)
    requires Inv(s) && Enabled(s, Event.Unsubscribe(p))
    ensures Owned(Next(s, Event.Unsubscribe(p)))
  {
    var s', key := Next(s, Event.Unsubscribe(p)), s.procs[p].key;
    forall k | k in s'.reg.subs
      ensures var q := s'.reg.subs[k];
        q < |s'.procs| && s'.procs[q].key == k && s'.procs[q].ch == q && Holding(s'.procs[q])
        && q !in s'.reg.closed
    {
      assert k in s.reg.subs && k != key;
    }
  }

  lemma UnsubscribeKeepsCounted(s: State, p: nat)
    requires Inv(s) && Enabled(s, Event.Unsubscribe(p))
    ensures Counted(Next(s, Event.Unsubscribe(p)))
  {
    var key := s.procs[p].key;
    if key in s.reg.subs {
      RemoveCounts(s.reg.subs, key);
    }
  }

  lemma UnsubscribeKeepsClosed(s: State, p: nat)
    requires Inv(s) && Enabled(s, Event.Unsubscribe(p))
    ensures ClosedByRun(Next(s, Event.Unsubscribe(p)))
  {
    var s', key := Next(s, Event.Unsubscribe(p)), s.procs[p].key;
    assert !s.procs[p].kind.Unwatch? ==> HasSubscribed(s.procs[p]) by {
      assert Shaped(s.procs[p]);
    }
    forall c | c in s'.reg.closed ensures c < |s'.procs| && HasSubscribed(s'.procs[c]) {
      assert c in s.reg.closed || (key in s.reg.subs && c == s.reg.subs[key]);
    }
  }

  lemma UnsubscribeKeepsShaped(s: State, p: nat)
    requires AllShaped(s) && Enabled(s, Event.Unsubscribe(p))
    ensures AllShaped(Next(s, Event.Unsubscribe(p)))
  {
  }

  lemma UnsubscribeKeepsInv(s: State, p: nat)
    requires Inv(s) && Enabled(s, Event.Unsubscribe(p))
    ensures Inv(Next(s, Event.Unsubscribe(p)))
  {
    UnsubscribeKeepsCounted(s, p);
    UnsubscribeKeepsOwned(s, p);
    UnsubscribeKeepsClosed(s, p);
    UnsubscribeKeepsShaped(s, p);
  }

  lemma GotoKeepsInv(s: State, p: nat, pc: Pc)
    requires Inv(s) && p < |s.procs| && Shaped(s.procs[p].(pc := pc))
    requires Holding(s.procs[p]) ==> Holding(s.procs[p].(pc := pc))
    requires HasSubscribed(s.procs[p]) ==> HasSubscribed(s.procs[p].(pc := pc))
    ensures Inv(Goto(s, p, pc))
  {
    MoveKeepsInv(s, p, s.procs[p].(pc := pc), Goto(s, p, pc));
  }

  lemma SendKeepsInv(s: State, p: nat)
    requires Inv(s) && Enabled(s, Send(p))
    ensures Inv(Sent(s, p))
  {
    var s' := Sent(s, p);
    MoveKeepsInv(s, p, s'.procs[p], s');
  }

  lemma LookKeepsInv(s: State, p: nat)
    requires Inv(s) && Enabled(s, Look(p))
    ensures Inv(Looked(s, p))
  {
    var proc := s.procs[p];
    assert Shaped(proc);
    if proc.key !in s.reg.subs {
      GotoKeepsInv(s, p, if proc.kind.Worker? then Exited else Leaving);
    } else if proc.pc.batch == [] {
      GotoKeepsInv(s, p, PcAfter(AfterBatch(proc)));
    } else {
      GotoKeepsInv(s, p, Sending(proc.pc.batch, AfterBatch(proc)));
    }
  }

  /** Steps that leave the registry and all present goroutines alone. */
  lemma SideStepKeepsInv(s: State, s': State)
    requires Inv(s) && s'.reg == s.reg && s'.dups == s.dups
    requires s.procs == s'.procs || (|s'.procs| == |s.procs| + 1 && s'.procs[..|s.procs|] == s.procs
                                     && s'.procs[|s.procs|].pc == Start && !s'.procs[|s.procs|].kind.Worker?)
    ensures Inv(s')
  {
    assert forall p | 0 <= p < |s.procs| :: s'.procs[p] == s.procs[p];
  }

  lemma FinishKeepsInv(s: State, p: nat, outcome: Outcome)
    requires Inv(s) && Enabled(s, Finish(p, outcome))
    ensures Inv(Finished(s, p, outcome))
  {
    var s' := Finished(s, p, outcome);
    MoveKeepsInv(s, p, s'.procs[p], s');
  }

  lemma StepKeepsInv(s: State, e: Event)
    requires Inv(s) && Enabled(s, e)
    ensures Inv(Next(s, e))
  {
    match e {
      case Subscribe(p) => SubscribeKeepsInv(s, p);
      case Unsubscribe(p) => UnsubscribeKeepsInv(s, p);
      case Finish(p, outcome) => FinishKeepsInv(s, p, outcome);
      case Look(p) => LookKeepsInv(s, p);
      case Send(p) => SendKeepsInv(s, p);
      case Check(p) => GotoKeepsInv(s, p, Next(s, e).procs[p].pc);
      case Notice(p) => GotoKeepsInv(s, p, Leaving);
      case Select(p) => GotoKeepsInv(s, p, Next(s, e).procs[p].pc);
      case Emit(p, action) => GotoKeepsInv(s, p, Sending([action], ThenGoOn));
      case _ => SideStepKeepsInv(s, Next(s, e));
    }
  }

  lemma {:induction false} RunKeepsInv(s: State, es: seq<Event>)
    requires Inv(s) && CanRun(s, es)
    ensures Inv(Exec(s, es))
    decreases |es|
  {
    if es != [] {
      StepKeepsInv(s, es[0]);
      RunKeepsInv(Next(s, es[0]), es[1..]);
    }
  }

  /** In every reachable state the wait group and the counter are the number of keys plus the
      number of duplicate subscribes; nothing has panicked; every mapped channel is open and
      still held, under that key, by the goroutine that made it; and no two keys share one. */
  lemma RegistrySafety(es: seq<Event>)
    requires CanRun(Init(), es)
    ensures Inv(Exec(Init(), es))
    ensures var s := Exec(Init(), es);
      && !s.reg.panicked && s.reg.wg == s.reg.count == |s.reg.subs| + s.dups
      && (forall k | k in s.reg.subs ::
            var p := s.reg.subs[k];
            p < |s.procs| && s.procs[p].key == k && Holding(s.procs[p]) && p !in s.reg.closed)
      && (forall k1, k2 | k1 in s.reg.subs && k2 in s.reg.subs && k1 != k2 :: s.reg.subs[k1] != s.reg.subs[k2])
  {
    RunKeepsInv(Init(), es);
  }

  ghost predicate AllExited(s: State) {
    forall p | 0 <= p < |s.procs| :: s.procs[p].pc == Exited
  }

  /** When every goroutine has exited no key is left, the wait group is the number of duplicate
      subscribes, and so a draining handler can return exactly when there was none. */
  lemma ShutdownReturnsIffNoDuplicates(es: seq<Event>)
    requires CanRun(Init(), es) && AllExited(Exec(Init(), es))
    ensures var s := Exec(Init(), es);
      && s.reg.subs == map[] && s.reg.wg == s.dups
      && (s.handler == Draining ==> (Enabled(s, Return) <==> s.dups == 0))
  {
    RegistrySafety(es);
    var s := Exec(Init(), es);
    assert s.reg.subs.Keys == {};
  }
}
