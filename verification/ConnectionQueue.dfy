/** The send queue loses nothing on the way to the socket. */
module ConnectionQueue {
  import opened Connection

  /** `b` is `a` as written: the same, except that a zero index may have been replaced. */
  predicate SameAction(a: Action, b: Action) {
    && b.from == a.from && b.data == a.data && b.payload == a.payload
    && (a.index != 0 ==> b.index == a.index)
  }

  /** What was written, then what a failed write lost, then what is queued, is what was enqueued. */
  ghost predicate Conserved(s: State) {
    && |s.queue| <= SEND_QUEUE_SIZE && |s.lost| <= 1
    && |s.written| + |s.lost| + |s.queue| == |s.sent|
    && (forall i | 0 <= i < |s.written| :: SameAction(s.sent[i], s.written[i]))
    && (s.lost != [] ==> !s.pumping && s.lost[0] == s.sent[|s.written|])
    && s.queue == s.sent[|s.written| + |s.lost|..]
  }

  lemma EnqueueConserves(s: State, a: Action)
    requires Conserved(s) && HasRoom(s)
    ensures Conserved(Enqueue(s, a))
  {
  }

  lemma WriteConserves(s: State, random: nat, ok: bool)
    requires Conserved(s) && Enabled(s, Write(random, ok))
    ensures Conserved(Next(s, Write(random, ok)))
  {
    var n := |s.written|;
    assert s.lost == [];
    assert s.queue == s.sent[n..] && s.queue[0] == s.sent[n];
    assert s.sent[n..][1..] == s.sent[n + 1..];
  }

  /** A step that touches neither the queue nor the socket. */
  lemma ElsewhereConserves(s: State, s': State)
    requires Conserved(s) && s'.queue == s.queue && s'.sent == s.sent
    requires s'.written == s.written && s'.lost == s.lost && (s'.pumping ==> s.pumping)
    ensures Conserved(s')
  {
  }

  lemma SendConserves(s: State, p: nat)
    requires Conserved(s) && Enabled(s, Send(p))
    ensures Conserved(Sent(s, p))
  {
    EnqueueConserves(s, s.procs[p].pc.batch[0]);
    ElsewhereConserves(Enqueue(s, s.procs[p].pc.batch[0]), Sent(s, p));
  }

  lemma RefusalConserves(s: State)
    requires Conserved(s) && Enabled(s, SendRefusal)
    ensures Conserved(Next(s, SendRefusal))
  {
    var a := Action(ReadPump, false, 0, s.handler.message);
    EnqueueConserves(s, a);
    ElsewhereConserves(Enqueue(s, a), Next(s, SendRefusal));
  }

  lemma OnlyThreeTouchTheQueue(s: State, e: Event)
    requires Enabled(s, e) && !e.SendRefusal? && !e.Send? && !e.Write?
    ensures var s' := Next(s, e);
      && s'.queue == s.queue && s'.sent == s.sent && s'.written == s.written && s'.lost == s.lost
      && (s'.pumping ==> s.pumping)
  {
  }

  lemma StepConserves(s: State, e: Event)
    requires Conserved(s) && Enabled(s, e)
    ensures Conserved(Next(s, e))
  {
    if e.SendRefusal? {
      RefusalConserves(s);
    } else if e.Send? {
      SendConserves(s, e.p);
    } else if e.Write? {
      WriteConserves(s, e.random, e.ok);
    } else {
      OnlyThreeTouchTheQueue(s, e);
      ElsewhereConserves(s, Next(s, e));
    }
  }

  lemma {:induction false} QueueConserves(s: State, es: seq<Event>)
    requires Conserved(s) && CanRun(s, es)
    ensures Conserved(Exec(s, es))
    decreases |es|
  {
    if es != [] {
      StepConserves(s, es[0]);
      QueueConserves(Next(s, es[0]), es[1..]);
    }
  }

  lemma ConservedMeans(s: State)
    requires Conserved(s)
    ensures |s.queue| <= 500 && |s.lost| <= 1 && |s.written| + |s.lost| + |s.queue| == |s.sent|
    ensures s.lost + s.queue == s.sent[|s.written|..]
    ensures forall i | 0 <= i < |s.written| ::
      && s.written[i].from == s.sent[i].from && s.written[i].data == s.sent[i].data
      && s.written[i].payload == s.sent[i].payload
      && (s.sent[i].index != 0 ==> s.written[i].index == s.sent[i].index)
  {
    assert forall i | 0 <= i < |s.written| :: SameAction(s.sent[i], s.written[i]);
    assert s.lost + s.queue == s.sent[|s.written|..];
  }

  /** In every reachable state at most 500 actions are queued, and written, lost and queued
      actions together are everything enqueued, in order: written ones with their sender, kind and
      payload, and with their index unless that was 0. At most one is ever lost, when a write
      fails and the pump stops. */
  lemma SendQueueIsFifo(es: seq<Event>, s: State)
    requires CanRun(Init(), es) && s == Exec(Init(), es)
    ensures Conserved(s)
    ensures |s.queue| <= 500 && |s.lost| <= 1 && |s.written| + |s.lost| + |s.queue| == |s.sent|
    ensures s.lost + s.queue == s.sent[|s.written|..]
    ensures forall i | 0 <= i < |s.written| ::
      && s.written[i].from == s.sent[i].from && s.written[i].data == s.sent[i].data
      && s.written[i].payload == s.sent[i].payload
      && (s.sent[i].index != 0 ==> s.written[i].index == s.sent[i].index)
  {
    QueueConserves(Init(), es);
    ConservedMeans(s);
  }

  /** Messages a goroutine has chosen and not yet put on the queue. */
  function Pending(proc: Proc): seq<Action> {
    match proc.pc
    case Recheck(batch) => batch
    case Sending(batch, _) => batch
    case _ => []
  }
}
