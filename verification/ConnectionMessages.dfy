/** From what goroutines have to say, through the send queue, to the socket: messages and
    indices of one goroutine, end to end. What a goroutine says is read off the events of a run. */
module ConnectionMessages {
  import opened Wrappers
  import opened LongPoll
  import opened Connection
  import opened ConnectionSafety
  import opened ConnectionQueue

  /** The actions of goroutine `p`, in order; with `dataOnly`, its results but no notifications. */
  function Own(actions: seq<Action>, p: nat, dataOnly: bool): seq<Action> {
    if actions == [] then []
    else
      var front, a := actions[..|actions| - 1], actions[|actions| - 1];
      Own(front, p, dataOnly) + (if a.from == Goroutine(p) && (dataOnly ==> a.data) then [a] else [])
  }

  /** A successful answer of a poll. */
  datatype Poll = Poll(last: nat, payload: string)

  /** The answers that the polls of goroutine `p` got in a run. */
  function PollsBy(es: seq<Event>, p: nat): seq<Poll> {
    if es == [] then []
    else
      var front, e := es[..|es| - 1], es[|es| - 1];
      PollsBy(front, p)
        + (if e.Finish? && e.p == p && e.outcome.Polled? then [Poll(e.outcome.lastIndex, e.outcome.payload)] else [])
  }

  function Lasts(polls: seq<Poll>): seq<nat> {
    seq(|polls|, i requires 0 <= i < |polls| => polls[i].last)
  }

  /** Whether a poll calls for an answer: always, or when its index is new. */
  predicate Calls(before: seq<Poll>, last: nat, always: bool) {
    always || Changed(WaitAfter(Lasts(before)), last)
  }

  /** What goroutine `p` has to say in step `e`, after `before` polls. */
  function Says(e: Event, p: nat, before: seq<Poll>, always: bool): seq<Action> {
    if e.Emit? && e.p == p then [e.action]
    else if e.Finish? && e.p == p then
      match e.outcome
      case Failed(message) => [Action(Goroutine(p), false, 0, message)]
      case Polled(last, payload) =>
        if Calls(before, last, always) then [Action(Goroutine(p), true, last, payload)] else []
      case Answered(batch) => batch
    else []
  }

  /** All that goroutine `p` has to say in a run, in order. */
  function Said(es: seq<Event>, p: nat, always: bool): seq<Action> {
    if es == [] then []
    else
      var front, e := es[..|es| - 1], es[|es| - 1];
      Said(front, p, always) + Says(e, p, PollsBy(front, p), always)
  }

  predicate Polling(proc: Proc) {
    proc.kind.Worker? && proc.kind.answers != Freely
  }

  predicate AnswersAll(proc: Proc) {
    proc.kind.Worker? && proc.kind.answers == Always
  }

  /** What a polling worker hands on for its polls. */
  function ForPolls(polls: seq<Poll>, p: nat, always: bool): seq<Action> {
    if polls == [] then []
    else
      var front, poll := polls[..|polls| - 1], polls[|polls| - 1];
      ForPolls(front, p, always)
        + (if Calls(front, poll.last, always) then [Action(Goroutine(p), true, poll.last, poll.payload)] else [])
  }

  // ------------------------------------------------------------- what is said is what is sent

  /** Left for good, perhaps with something unsaid. */
  predicate Left(proc: Proc) {
    proc.pc == Leaving || proc.pc == Exited
  }

  /** Goroutine `p` has put on the queue all it had to say, up to what it holds; one that has
      left may have dropped its last batch. */
  ghost predicate KeepsWord(es: seq<Event>, s: State, p: nat)
    requires p < |s.procs|
  {
    var proc := s.procs[p];
    var said := Said(es, p, AnswersAll(proc));
    && From(Pending(proc), p)
    && (proc.kind.Worker? ==> proc.waitIndex == WaitAfter(Lasts(PollsBy(es, p))))
    && (Polling(proc) ==> Own(said, p, true) == ForPolls(PollsBy(es, p), p, AnswersAll(proc)))
    && (if Left(proc) then Own(s.sent, p, false) <= said else Own(s.sent, p, false) + Pending(proc) == said)
  }

  /** Nobody speaks before being started. */
  ghost predicate NotYetHeard(es: seq<Event>, s: State, p: nat) {
    PollsBy(es, p) == [] && Own(s.sent, p, false) == [] && (forall always :: Said(es, p, always) == [])
  }

  ghost predicate AllKeepWord(es: seq<Event>, s: State) {
    && (forall p | 0 <= p < |s.procs| :: KeepsWord(es, s, p))
    && (forall p: nat | p >= |s.procs| :: NotYetHeard(es, s, p))
  }

  lemma OwnAppend(actions: seq<Action>, a: Action, p: nat, dataOnly: bool)
    ensures Own(actions + [a], p, dataOnly)
         == Own(actions, p, dataOnly) + (if a.from == Goroutine(p) && (dataOnly ==> a.data) then [a] else [])
  {
    assert (actions + [a])[..|actions|] == actions;
  }

  lemma {:induction false} OwnOfSum(a: seq<Action>, b: seq<Action>, p: nat, dataOnly: bool)
    ensures Own(a + b, p, dataOnly) == Own(a, p, dataOnly) + Own(b, p, dataOnly)
  {
    if b == [] {
      assert a + b == a;
    } else {
      assert (a + b)[..|a + b| - 1] == a + b[..|b| - 1];
      OwnOfSum(a, b[..|b| - 1], p, dataOnly);
    }
  }

  lemma OneStepMore(es: seq<Event>, e: Event, p: nat, always: bool)
    ensures Said(es + [e], p, always) == Said(es, p, always) + Says(e, p, PollsBy(es, p), always)
    ensures PollsBy(es + [e], p) == PollsBy(es, p)
      + (if e.Finish? && e.p == p && e.outcome.Polled? then [Poll(e.outcome.lastIndex, e.outcome.payload)] else [])
  {
    assert (es + [e])[..|es|] == es;
  }

  lemma NothingSaid(es: seq<Event>, e: Event, p: nat, always: bool)
    requires !(e.Emit? && e.p == p) && !(e.Finish? && e.p == p)
    ensures Said(es + [e], p, always) == Said(es, p, always) && PollsBy(es + [e], p) == PollsBy(es, p)
  {
    OneStepMore(es, e, p, always);
    assert Said(es, p, always) + [] == Said(es, p, always) && PollsBy(es, p) + [] == PollsBy(es, p);
  }

  lemma LastsAppend(polls: seq<Poll>, poll: Poll)
    ensures Lasts(polls + [poll]) == Lasts(polls) + [poll.last]
    ensures WaitAfter(Lasts(polls + [poll])) == WaitNext(WaitAfter(Lasts(polls)), poll.last)
  {
    assert Lasts(polls + [poll]) == Lasts(polls) + [poll.last];
    assert (Lasts(polls) + [poll.last])[..|polls|] == Lasts(polls);
  }

  /** What a step adds to the queue comes from the goroutine that takes it. */
  lemma OnlyActorSends(s: State, e: Event, q: nat)
    requires Enabled(s, e) && Actor(e) != Some(q)
    requires e.Send? ==> From(Pending(s.procs[e.p]), e.p)
    ensures Own(Next(s, e).sent, q, false) == Own(s.sent, q, false)
  {
    if e.SendRefusal? {
      OwnAppend(s.sent, Action(ReadPump, false, 0, s.handler.message), q, false);
    } else if e.Send? {
      OwnAppend(s.sent, s.procs[e.p].pc.batch[0], q, false);
    }
  }

  lemma OthersKeepWord(es: seq<Event>, s: State, e: Event, q: nat)
    requires AllKeepWord(es, s) && Enabled(s, e) && Actor(e) != Some(q)
    ensures q < |s.procs| ==> q < |Next(s, e).procs| && KeepsWord(es + [e], Next(s, e), q)
    ensures q >= |s.procs| ==> NotYetHeard(es + [e], Next(s, e), q)
  {
    if e.Send? {
      assert KeepsWord(es, s, e.p);
    }
    OnlyActorSends(s, e, q);
    NothingSaid(es, e, q, true);
    NothingSaid(es, e, q, false);
    if q < |s.procs| {
      OthersLeaveAlone(s, e, q);
      assert KeepsWord(es, s, q);
    } else {
      assert NotYetHeard(es, s, q);
    }
  }

  lemma Regrouped(own: seq<Action>, sent: seq<Action>, hand: seq<Action>, hand': seq<Action>, p: nat)
    requires sent + hand' == hand && From(hand, p)
    ensures own + sent + hand' == own + hand && From(hand', p)
  {
    assert forall i | 0 <= i < |hand'| :: hand'[i] == hand[i + |sent|];
  }

  /** Goroutine `p` moves, sending `sent` and saying nothing. */
  ghost predicate Moves(s: State, s': State, p: nat, sent: seq<Action>)
    requires p < |s.procs| && p < |s'.procs|
  {
    && s'.procs[p].kind == s.procs[p].kind && s'.procs[p].waitIndex == s.procs[p].waitIndex
    && Own(s'.sent, p, false) == Own(s.sent, p, false) + sent
    && sent + Pending(s'.procs[p]) == Pending(s.procs[p])
    && (Left(s.procs[p]) ==> Left(s'.procs[p]))
  }

  lemma MoveKeepsWord(es: seq<Event>, s: State, e: Event, s': State, p: nat, sent: seq<Action>)
    requires p < |s.procs| && p < |s'.procs| && KeepsWord(es, s, p) && Moves(s, s', p, sent)
    requires !(e.Emit? && e.p == p) && !(e.Finish? && e.p == p)
    ensures KeepsWord(es + [e], s', p)
  {
    NothingSaid(es, e, p, AnswersAll(s.procs[p]));
    Regrouped(Own(s.sent, p, false), sent, Pending(s.procs[p]), Pending(s'.procs[p]), p);
    if Left(s.procs[p]) {
      assert Own(s.sent, p, false) + [] == Own(s.sent, p, false);
    } else {
      Beginning(Own(s'.sent, p, false), Pending(s'.procs[p]));
    }
  }

  lemma Beginning(a: seq<Action>, b: seq<Action>)
    ensures a <= a + b
  {
  }

  /** Goroutine `p` leaves with its last batch unsaid. */
  lemma DropKeepsWord(es: seq<Event>, s: State, e: Event, s': State, p: nat)
    requires p < |s.procs| && p < |s'.procs| && KeepsWord(es, s, p) && !Left(s.procs[p])
    requires !(e.Emit? && e.p == p) && !(e.Finish? && e.p == p)
    requires s'.procs[p].kind == s.procs[p].kind && s'.procs[p].waitIndex == s.procs[p].waitIndex
    requires s'.sent == s.sent && Left(s'.procs[p])
    ensures KeepsWord(es + [e], s', p)
  {
    NothingSaid(es, e, p, AnswersAll(s.procs[p]));
    Beginning(Own(s.sent, p, false), Pending(s.procs[p]));
  }

  lemma SendKeepsWord(es: seq<Event>, s: State, p: nat)
    requires AllKeepWord(es, s) && Enabled(s, Send(p))
    ensures KeepsWord(es + [Send(p)], Sent(s, p), p)
  {
    var batch := s.procs[p].pc.batch;
    assert KeepsWord(es, s, p) && From(batch, p);
    OwnAppend(s.sent, batch[0], p, false);
    assert [batch[0]] + batch[1..] == batch;
    MoveKeepsWord(es, s, Send(p), Sent(s, p), p, [batch[0]]);
  }

  lemma LookHolds(s: State, p: nat)
    requires Enabled(s, Look(p))
    ensures var a, s' := s.procs[p], Looked(s, p);
      && p < |s'.procs| && s'.sent == s.sent
      && s'.procs[p].kind == a.kind && s'.procs[p].waitIndex == a.waitIndex && !Left(a)
      && (Left(s'.procs[p]) || Pending(s'.procs[p]) == Pending(a))
  {
  }

  lemma LookKeepsWord(es: seq<Event>, s: State, p: nat)
    requires AllKeepWord(es, s) && Enabled(s, Look(p))
    ensures KeepsWord(es + [Look(p)], Looked(s, p), p)
  {
    var s' := Looked(s, p);
    assert KeepsWord(es, s, p);
    LookHolds(s, p);
    if Left(s'.procs[p]) {
      DropKeepsWord(es, s, Look(p), s', p);
    } else {
      Nothing(Pending(s.procs[p]), Own(s.sent, p, false));
      MoveKeepsWord(es, s, Look(p), s', p, []);
    }
  }

  lemma Nothing(a: seq<Action>, b: seq<Action>)
    ensures [] + a == a && b + [] == b
  {
  }

  /** A step of `p` from one place without messages to another. */
  lemma HopKeepsWord(es: seq<Event>, s: State, e: Event, p: nat)
    requires AllKeepWord(es, s) && AllShaped(s) && Enabled(s, e) && Actor(e) == Some(p)
    requires e.Check? || e.Subscribe? || e.Notice? || e.Select? || e.Unsubscribe?
    ensures KeepsWord(es + [e], Next(s, e), p)
  {
    assert KeepsWord(es, s, p);
    assert Shaped(s.procs[p]);
    Nothing([], Own(s.sent, p, false));
    MoveKeepsWord(es, s, e, Next(s, e), p, []);
  }

  lemma EmitKeepsWord(es: seq<Event>, s: State, p: nat, action: Action)
    requires AllKeepWord(es, s) && AllShaped(s) && Enabled(s, Emit(p, action))
    ensures KeepsWord(es + [Emit(p, action)], Next(s, Emit(p, action)), p)
  {
    var e := Emit(p, action);
    assert KeepsWord(es, s, p);
    OneStepMore(es, e, p, false);
    assert Own(s.sent, p, false) + [] == Own(s.sent, p, false);
  }

  lemma OwnOfOne(a: Action, p: nat, dataOnly: bool)
    ensures Own([a], p, dataOnly) == if a.from == Goroutine(p) && (dataOnly ==> a.data) then [a] else []
  {
    assert [a][..0] == [];
  }

  /** What is said in a call of Do that returns is what the goroutine holds then. */
  lemma FinishHolds(es: seq<Event>, s: State, p: nat, outcome: Outcome)
    requires AllKeepWord(es, s) && Enabled(s, Finish(p, outcome))
    ensures Pending(Finished(s, p, outcome).procs[p])
         == Says(Finish(p, outcome), p, PollsBy(es, p), AnswersAll(s.procs[p]))
    ensures From(Pending(Finished(s, p, outcome).procs[p]), p)
  {
    assert KeepsWord(es, s, p);
    var hand := Pending(Finished(s, p, outcome).procs[p]);
    match outcome {
      case Failed(message) => assert hand == [Action(Goroutine(p), false, 0, message)];
      case Polled(last, payload) =>
        assert Calls(PollsBy(es, p), last, AnswersAll(s.procs[p]))
          <==> AnswersAll(s.procs[p]) || Changed(s.procs[p].waitIndex, last);
      case Answered(batch) => assert hand == batch;
    }
  }

  lemma ForPollsAppend(polls: seq<Poll>, poll: Poll, p: nat, always: bool)
    ensures ForPolls(polls + [poll], p, always) == ForPolls(polls, p, always)
      + (if Calls(polls, poll.last, always) then [Action(Goroutine(p), true, poll.last, poll.payload)] else [])
  {
    assert (polls + [poll])[..|polls|] == polls;
  }

  lemma PolledKeepsData(said: seq<Action>, polls: seq<Poll>, poll: Poll, p: nat, always: bool)
    requires Own(said, p, true) == ForPolls(polls, p, always)
    ensures Own(said + Says(Finish(p, Polled(poll.last, poll.payload)), p, polls, always), p, true)
         == ForPolls(polls + [poll], p, always)
  {
    var says := Says(Finish(p, Polled(poll.last, poll.payload)), p, polls, always);
    OwnOfSum(said, says, p, true);
    OwnOfOne(Action(Goroutine(p), true, poll.last, poll.payload), p, true);
    ForPollsAppend(polls, poll, p, always);
  }

  lemma FailedKeepsData(said: seq<Action>, message: string, p: nat)
    ensures Own(said + [Action(Goroutine(p), false, 0, message)], p, true) == Own(said, p, true)
  {
    OwnAppend(said, Action(Goroutine(p), false, 0, message), p, true);
    Nothing([], Own(said, p, true));
  }

  lemma FinishKeepsData(es: seq<Event>, s: State, p: nat, outcome: Outcome)
    requires AllKeepWord(es, s) && Enabled(s, Finish(p, outcome)) && Polling(s.procs[p])
    ensures var always, es' := AnswersAll(s.procs[p]), es + [Finish(p, outcome)];
      Own(Said(es', p, always), p, true) == ForPolls(PollsBy(es', p), p, always)
  {
    var always, polls := AnswersAll(s.procs[p]), PollsBy(es, p);
    assert KeepsWord(es, s, p);
    OneStepMore(es, Finish(p, outcome), p, always);
    if outcome.Polled? {
      PolledKeepsData(Said(es, p, always), polls, Poll(outcome.lastIndex, outcome.payload), p, always);
    } else {
      FailedKeepsData(Said(es, p, always), outcome.message, p);
      assert polls + [] == polls;
    }
  }

  lemma FinishKeepsWait(es: seq<Event>, s: State, p: nat, outcome: Outcome)
    requires AllKeepWord(es, s) && Enabled(s, Finish(p, outcome)) && s.procs[p].kind.Worker?
    ensures Finished(s, p, outcome).procs[p].waitIndex
         == WaitAfter(Lasts(PollsBy(es + [Finish(p, outcome)], p)))
  {
    assert KeepsWord(es, s, p);
    OneStepMore(es, Finish(p, outcome), p, false);
    if outcome.Polled? {
      LastsAppend(PollsBy(es, p), Poll(outcome.lastIndex, outcome.payload));
    } else {
      assert PollsBy(es, p) + [] == PollsBy(es, p);
    }
  }

  lemma FinishKeepsWord(es: seq<Event>, s: State, p: nat, outcome: Outcome)
    requires AllKeepWord(es, s) && Enabled(s, Finish(p, outcome))
    ensures KeepsWord(es + [Finish(p, outcome)], Finished(s, p, outcome), p)
  {
    assert KeepsWord(es, s, p);
    FinishHolds(es, s, p, outcome);
    OneStepMore(es, Finish(p, outcome), p, AnswersAll(s.procs[p]));
    if s.procs[p].kind.Worker? {
      FinishKeepsWait(es, s, p, outcome);
    }
    if Polling(s.procs[p]) {
      FinishKeepsData(es, s, p, outcome);
    }
    Nothing([], Own(s.sent, p, false));
  }

  lemma ActorKeepsWord(es: seq<Event>, s: State, e: Event, p: nat)
    requires AllKeepWord(es, s) && AllShaped(s) && Enabled(s, e) && Actor(e) == Some(p)
    ensures p < |s.procs| && p < |Next(s, e).procs| && KeepsWord(es + [e], Next(s, e), p)
  {
    match e {
      case Send(_) => SendKeepsWord(es, s, p);
      case Look(_) => LookKeepsWord(es, s, p);
      case Emit(_, action) => EmitKeepsWord(es, s, p, action);
      case Finish(_, outcome) => FinishKeepsWord(es, s, p, outcome);
      case _ => HopKeepsWord(es, s, e, p);
    }
  }

  /** A goroutine that has just been started has said nothing and holds nothing. */
  lemma NewKeepsWord(es: seq<Event>, s: State, p: nat)
    requires p < |s.procs| && NotYetHeard(es, s, p) && Pending(s.procs[p]) == [] && s.procs[p].waitIndex == 0
    ensures KeepsWord(es, s, p)
  {
    assert Lasts([]) == [];
  }

  lemma StepKeepsWord(es: seq<Event>, s: State, e: Event)
    requires AllKeepWord(es, s) && AllShaped(s) && Enabled(s, e)
    ensures AllKeepWord(es + [e], Next(s, e))
  {
    var s' := Next(s, e);
    forall p: nat
      ensures if p < |s'.procs| then KeepsWord(es + [e], s', p) else NotYetHeard(es + [e], s', p)
    {
      if Actor(e) == Some(p) {
        ActorKeepsWord(es, s, e, p);
      } else {
        OthersKeepWord(es, s, e, p);
        if |s.procs| <= p < |s'.procs| {
          NewKeepsWord(es + [e], s', p);
        }
      }
    }
  }

  lemma {:induction false} RunKeepsWord(es: seq<Event>)
    requires CanRun(Init(), es)
    ensures AllKeepWord(es, Exec(Init(), es))
    decreases |es|
  {
    if es == [] {
      NewKeepsWord([], Init(), 0);
    } else {
      var front, e := es[..|es| - 1], es[|es| - 1];
      WithoutLast(Init(), es);
      RunKeepsWord(front);
      RegistrySafety(front);
      StepKeepsWord(front, Exec(Init(), front), e);
      assert front + [e] == es;
    }
  }
  // ------------------------------------------------------------- on the socket

  /** `seen` is a beginning of `called`, with its senders, kinds and payloads, and its indices
      except that a 0 may have been replaced. */
  ghost predicate Stamped(called: seq<Action>, seen: seq<Action>) {
    |seen| <= |called| && forall i | 0 <= i < |seen| :: SameAction(called[i], seen[i])
  }

  lemma {:induction false} OwnWritten(sent: seq<Action>, written: seq<Action>, p: nat, dataOnly: bool)
    requires Stamped(sent, written)
    ensures Stamped(Own(sent, p, dataOnly), Own(written, p, dataOnly))
    ensures |written| == |sent| ==> |Own(written, p, dataOnly)| == |Own(sent, p, dataOnly)|
  {
    if |written| < |sent| {
      OwnWritten(sent[..|sent| - 1], written, p, dataOnly);
    } else if sent != [] {
      OwnWritten(sent[..|sent| - 1], written[..|sent| - 1], p, dataOnly);
      assert SameAction(sent[|sent| - 1], written[|sent| - 1]);
    }
  }

  lemma StampedPrefix(called: seq<Action>, more: seq<Action>, seen: seq<Action>)
    requires Stamped(called, seen) && called <= more
    ensures Stamped(more, seen)
  {
    assert forall i | 0 <= i < |called| :: called[i] == more[i];
  }

  /** End to end, for every goroutine: its messages on the socket are those it had to say, in
      order, none invented, left out or altered, but for indices of 0. */
  lemma SocketMessages(es: seq<Event>, s: State, p: nat)
    requires CanRun(Init(), es) && s == Exec(Init(), es) && p < |s.procs|
    ensures Own(s.sent, p, false) <= Said(es, p, AnswersAll(s.procs[p]))
    ensures Stamped(Said(es, p, AnswersAll(s.procs[p])), Own(s.written, p, false))
  {
    RunKeepsWord(es);
    SendQueueIsFifo(es, s);
    assert KeepsWord(es, s, p);
    OwnWritten(s.sent, s.written, p, false);
    StampedPrefix(Own(s.sent, p, false), Said(es, p, AnswersAll(s.procs[p])), Own(s.written, p, false));
  }

  lemma {:induction false} OwnTwice(actions: seq<Action>, p: nat)
    ensures Own(Own(actions, p, false), p, true) == Own(actions, p, true)
  {
    if actions != [] {
      var front, a := actions[..|actions| - 1], actions[|actions| - 1];
      OwnTwice(front, p);
      if a.from == Goroutine(p) {
        OwnAppend(Own(front, p, false), a, p, true);
      } else {
        Nothing([], Own(front, p, false));
      }
    }
  }

  lemma OwnPrefix(a: seq<Action>, b: seq<Action>, p: nat)
    requires a <= b
    ensures Own(a, p, true) <= Own(b, p, true)
  {
    assert b == a + b[|a|..];
    OwnOfSum(a, b[|a|..], p, true);
  }

  /** The results of a polling watcher on the socket are, in order, those of the polls that
      called for an answer, each with that poll's index, unless 0, and payload. */
  lemma SocketData(es: seq<Event>, s: State, p: nat)
    requires CanRun(Init(), es) && s == Exec(Init(), es) && p < |s.procs| && Polling(s.procs[p])
    ensures Stamped(ForPolls(PollsBy(es, p), p, AnswersAll(s.procs[p])), Own(s.written, p, true))
  {
    var said := Said(es, p, AnswersAll(s.procs[p]));
    RunKeepsWord(es);
    SendQueueIsFifo(es, s);
    assert KeepsWord(es, s, p);
    SocketMessages(es, s, p);
    OwnPrefix(Own(s.sent, p, false), said, p);
    OwnTwice(s.sent, p);
    OwnWritten(s.sent, s.written, p, true);
    StampedPrefix(Own(s.sent, p, true), Own(said, p, true), Own(s.written, p, true));
  }

  // ------------------------------------------------------------- indices on the socket

  /** The indices of the results of goroutine `p`, in order. */
  function Indices(actions: seq<Action>, p: nat): seq<nat> {
    var own := Own(actions, p, true);
    seq(|own|, i requires 0 <= i < |own| => own[i].index)
  }

  function IndicesOf(es: seq<Emission>): seq<nat> {
    seq(|es|, i requires 0 <= i < |es| => es[i].index)
  }

  lemma {:induction false} ForPollsOnChange(polls: seq<Poll>, p: nat)
    ensures |ForPolls(polls, p, false)| == |Emissions(Lasts(polls))|
    ensures forall i | 0 <= i < |ForPolls(polls, p, false)| ::
      ForPolls(polls, p, false)[i].index == Emissions(Lasts(polls))[i].index
  {
    if polls != [] {
      var front, poll := polls[..|polls| - 1], polls[|polls| - 1];
      ForPollsOnChange(front, p);
      assert Lasts(polls)[..|polls| - 1] == Lasts(front);
    }
  }

  lemma {:induction false} ForPollsAlways(polls: seq<Poll>, p: nat)
    ensures |ForPolls(polls, p, true)| == |polls|
    ensures forall i | 0 <= i < |polls| :: ForPolls(polls, p, true)[i].index == polls[i].last
  {
    if polls != [] {
      ForPollsAlways(polls[..|polls| - 1], p);
    }
  }

  /** The indices on the socket of a watcher that answers on change are, in order and unaltered,
      those its replies call for. They are nonzero, and they strictly increase as long as no 0
      reply falls between them. */
  lemma SocketIndices(es: seq<Event>, s: State, p: nat)
    requires CanRun(Init(), es) && s == Exec(Init(), es) && p < |s.procs|
    requires s.procs[p].kind.Worker? && s.procs[p].kind.answers == OnChange
    ensures var called, onSocket := Emissions(Lasts(PollsBy(es, p))), Indices(s.written, p);
      && onSocket <= IndicesOf(called)
      && (forall i | 0 <= i < |onSocket| :: onSocket[i] == called[i].index > 0)
      && (forall i, j | 0 <= i < j < |onSocket| && called[i].epoch == called[j].epoch ::
            onSocket[i] < onSocket[j])
  {
    var polls := PollsBy(es, p);
    SocketData(es, s, p);
    ForPollsOnChange(polls, p);
    EmissionsIncrease(Lasts(polls));
    var data, own := ForPolls(polls, p, false), Own(s.written, p, true);
    assert forall i | 0 <= i < |own| :: SameAction(data[i], own[i]);
  }

  ghost predicate StrictlyIncreasing(indices: seq<nat>) {
    forall i, j | 0 <= i < j < |indices| :: indices[i] < indices[j]
  }

  /** The same for a watcher that answers every poll: on the socket are its replies, changes or
      not, with random numbers in place of zeros. As long as no reply is 0 they increase exactly
      when every one is a change. */
  lemma EveryPollOnSocket(es: seq<Event>, s: State, p: nat)
    requires CanRun(Init(), es) && s == Exec(Init(), es) && p < |s.procs|
    requires s.procs[p].kind.Worker? && s.procs[p].kind.answers == Always
    ensures var replies, onSocket := Lasts(PollsBy(es, p)), Indices(s.written, p);
      && |onSocket| <= |replies|
      && (forall i | 0 <= i < |onSocket| :: onSocket[i] == replies[i] || replies[i] == 0)
      && (0 !in replies ==>
            && onSocket <= replies
            && (StrictlyIncreasing(onSocket) <==> AllChanges(onSocket)))
  {
    var polls, onSocket := PollsBy(es, p), Indices(s.written, p);
    SocketData(es, s, p);
    ForPollsAlways(polls, p);
    var data, own := ForPolls(polls, p, true), Own(s.written, p, true);
    assert forall i | 0 <= i < |own| :: SameAction(data[i], own[i]);
    WithoutZeros(Lasts(polls), onSocket);
  }

  lemma WithoutZeros(replies: seq<nat>, onSocket: seq<nat>)
    requires |onSocket| <= |replies|
    requires forall i | 0 <= i < |onSocket| :: onSocket[i] == replies[i] || replies[i] == 0
    ensures 0 !in replies ==>
      onSocket <= replies && (StrictlyIncreasing(onSocket) <==> AllChanges(onSocket))
  {
    if 0 !in replies {
      forall i | 0 <= i < |onSocket| ensures onSocket[i] == replies[i] > 0 {
        assert replies[i] in replies;
      }
      IncreasingIff(onSocket);
    }
  }

  lemma IncreasingIff(replies: seq<nat>)
    requires forall i | 0 <= i < |replies| :: replies[i] > 0
    ensures StrictlyIncreasing(replies) <==> AllChanges(replies)
  {
    var es := Polls(replies);
    PollsAt(replies);
    EveryPollIff(replies);
    if replies != [] {
      PollsUpTo(replies, |replies| - 1);
    }
    if StrictlyIncreasing(replies) {
      assert forall i, j | 0 <= i < j < |es| :: replies[i] < replies[j];
    }
    if Increasing(es) {
      assert forall i, j | 0 <= i < j < |replies| :: es[i].index < es[j].index;
    }
  }
}
