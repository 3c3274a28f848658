/** What watchers can rely on: being told when their key is unwatched, and stopping after it. */
module ConnectionWatchers {
  import opened Wrappers
  import opened Connection
  import opened ConnectionSafety

  // ------------------------------------------------------------- unwatching reaches everyone

  predicate HasChannel(proc: Proc) {
    Holding(proc) || proc.kind.Worker?
  }

  /** Every channel a goroutine holds is closed, or is the one mapped under its holder's key. */
  ghost predicate HandedOut(s: State) {
    forall p | 0 <= p < |s.procs| && HasChannel(s.procs[p]) ::
      s.procs[p].ch in s.reg.closed
      || (s.procs[p].key in s.reg.subs && s.reg.subs[s.procs[p].key] == s.procs[p].ch)
  }

  /** A goroutine keeps its key and channel, and does not begin to hold one. */
  predicate Keeps(a: Proc, b: Proc) {
    b.key == a.key && b.ch == a.ch && (HasChannel(b) ==> HasChannel(a))
  }

  /** The registry stays, goroutines keep what they have, and new ones start without a channel. */
  ghost predicate Quiet(s: State, s': State) {
    && s'.reg == s.reg && |s.procs| <= |s'.procs|
    && (forall p | 0 <= p < |s.procs| :: Keeps(s.procs[p], s'.procs[p]))
    && (forall p | |s.procs| <= p < |s'.procs| :: !HasChannel(s'.procs[p]))
  }

  lemma MoveIsQuiet(s: State, s': State, p: nat)
    requires p < |s.procs| == |s'.procs| && s'.reg == s.reg
    requires s'.procs == s.procs[p := s'.procs[p]] && Keeps(s.procs[p], s'.procs[p])
    ensures Quiet(s, s')
  {
  }

  lemma FinishIsQuiet(s: State, p: nat, outcome: Outcome)
    requires Enabled(s, Finish(p, outcome))
    ensures Quiet(s, Finished(s, p, outcome))
  {
    MoveIsQuiet(s, Finished(s, p, outcome), p);
  }

  lemma LookIsQuiet(s: State, p: nat)
    requires AllShaped(s) && Enabled(s, Look(p))
    ensures Quiet(s, Looked(s, p))
  {
    assert Shaped(s.procs[p]);
    MoveIsQuiet(s, Looked(s, p), p);
  }

  lemma SendIsQuiet(s: State, p: nat)
    requires AllShaped(s) && Enabled(s, Send(p))
    ensures Quiet(s, Sent(s, p))
  {
    assert Shaped(s.procs[p]);
    MoveIsQuiet(s, Sent(s, p), p);
  }

  lemma EmitIsQuiet(s: State, p: nat, action: Action)
    requires Enabled(s, Emit(p, action))
    ensures Quiet(s, Next(s, Emit(p, action)))
  {
    MoveIsQuiet(s, Next(s, Emit(p, action)), p);
  }

  lemma StepIsQuiet(s: State, e: Event)
    requires AllShaped(s) && Enabled(s, e) && !e.Subscribe? && !e.Unsubscribe?
    ensures Quiet(s, Next(s, e))
  {
    match e {
      case Finish(p, outcome) => FinishIsQuiet(s, p, outcome);
      case Look(p) => LookIsQuiet(s, p);
      case Send(p) => SendIsQuiet(s, p);
      case Emit(p, action) => EmitIsQuiet(s, p, action);
      case Check(p) => MoveIsQuiet(s, Next(s, e), p);
      case Notice(p) => MoveIsQuiet(s, Next(s, e), p);
      case Select(p) => MoveIsQuiet(s, Next(s, e), p);
      case _ =>
    }
  }

  lemma StepHandsOut(s: State, e: Event)
    requires Inv(s) && HandedOut(s) && Enabled(s, e)
    ensures HandedOut(Next(s, e))
  {
    var s' := Next(s, e);
    if !e.Subscribe? && !e.Unsubscribe? {
      StepIsQuiet(s, e);
    } else {
      forall q | 0 <= q < |s'.procs| && HasChannel(s'.procs[q])
        ensures s'.procs[q].ch in s'.reg.closed
          || (s'.procs[q].key in s'.reg.subs && s'.reg.subs[s'.procs[q].key] == s'.procs[q].ch)
      {
        if q < |s.procs| && q != e.p {
          assert s'.procs[q] == s.procs[q];
        }
      }
    }
  }

  lemma {:induction false} RunHandsOut(s: State, es: seq<Event>)
    requires Inv(s) && HandedOut(s) && CanRun(s, es)
    ensures Inv(Exec(s, es)) && HandedOut(Exec(s, es))
    decreases |es|
  {
    if es != [] {
      StepKeepsInv(s, es[0]);
      StepHandsOut(s, es[0]);
      RunHandsOut(Next(s, es[0]), es[1..]);
    }
  }

  /** Unwatching a key closes the channel of every goroutine that holds a subscription to it or
      works for one that did, duplicates included. */
  lemma UnwatchTellsEveryone(es: seq<Event>, p: nat)
    requires CanRun(Init(), es) && Enabled(Exec(Init(), es), Event.Unsubscribe(p))
    ensures var s := Exec(Init(), es);
      var s' := Next(s, Event.Unsubscribe(p));
      && s.procs[p].key !in s'.reg.subs
      && forall q | 0 <= q < |s.procs| && HasChannel(s.procs[q]) ::
           s.procs[q].key == s.procs[p].key ==> s.procs[q].ch in s'.reg.closed
  {
    RunHandsOut(Init(), es);
  }

  // ------------------------------------------------------------- who leaves

  /** A watcher that leaves has been told to, keep-alive by the connection alone. */
  ghost predicate LeavesTold(s: State, p: nat)
    requires p < |s.procs|
  {
    var proc := s.procs[p];
    && (proc.kind.Watch? && proc.pc == Leaving ==> s.destroyed || proc.ch in s.reg.closed)
    && (proc.kind.KeepAlive? && (proc.pc == Leaving || proc.pc == Exited) ==> s.destroyed)
  }

  lemma StepLeavesTold(s: State, e: Event, p: nat)
    requires AllShaped(s) && Enabled(s, e) && p < |Next(s, e).procs|
    requires p < |s.procs| ==> LeavesTold(s, p)
    ensures LeavesTold(Next(s, e), p)
  {
    if p < |s.procs| {
      StaysTold(s, e, p);
      if OwnStep(e, p) {
        OwnStepLeavesTold(s, e, p);
      } else {
        OthersLeaveAlone(s, e, p);
      }
    }
  }

  lemma OwnStepLeavesTold(s: State, e: Event, p: nat)
    requires p < |s.procs| && AllShaped(s) && Enabled(s, e) && OwnStep(e, p) && LeavesTold(s, p)
    ensures p < |Next(s, e).procs| && LeavesTold(Next(s, e), p)
  {
    assert Shaped(s.procs[p]);
    match e {
      case Check(_) =>
      case Notice(_) =>
      case Send(_) =>
      case Unsubscribe(_) =>
      case _ =>
    }
  }

  /** In every reachable state a watcher that is leaving has been told to, by its channel or the
      connection being closed; keep-alive leaves only when the connection is. */
  lemma {:induction false} LeavesOnlyWhenTold(es: seq<Event>, p: nat)
    requires CanRun(Init(), es) && p < |Exec(Init(), es).procs|
    ensures LeavesTold(Exec(Init(), es), p)
    decreases |es|
  {
    if es != [] {
      var front, e := es[..|es| - 1], es[|es| - 1];
      WithoutLast(Init(), es);
      RegistrySafety(front);
      if p < |Exec(Init(), front).procs| {
        LeavesOnlyWhenTold(front, p);
      }
      StepLeavesTold(Exec(Init(), front), e, p);
    }
  }

  // ------------------------------------------------------------- counting steps of a goroutine

  function OwnSteps(es: seq<Event>, p: nat): nat {
    if es == [] then 0 else (if OwnStep(es[0], p) then 1 else 0) + OwnSteps(es[1..], p)
  }

  /** Calls of Do that return. */
  function DosBy(es: seq<Event>, p: nat): nat {
    if es == [] then 0 else (if es[0].Finish? && es[0].p == p then 1 else 0) + DosBy(es[1..], p)
  }

  function SendsBy(es: seq<Event>, p: nat): nat {
    if es == [] then 0 else (if es[0] == Send(p) then 1 else 0) + SendsBy(es[1..], p)
  }

  function Messages(outcome: Outcome): nat {
    match outcome
    case Failed(_) => 1
    case Polled(_, _) => 1
    case Answered(batch) => |batch|
  }

  /** The number of messages with which the calls of Do of goroutine `p` return in a run. */
  function MessagesBy(es: seq<Event>, p: nat): nat {
    if es == [] then 0
    else (if es[0].Finish? && es[0].p == p then Messages(es[0].outcome) else 0) + MessagesBy(es[1..], p)
  }

  function Hand(pc: Pc): nat {
    match pc
    case Sending(batch, _) => |batch|
    case Recheck(batch) => |batch|
    case _ => 0
  }

  // ------------------------------------------------------------- one more Do, one more batch

  /** Calls of Do a told worker can still complete, by where it is. */
  function DosLeft(pc: Pc): nat {
    if pc == Active then 1 else 0
  }

  /** A worker whose watcher's channel, or the connection, has been closed. */
  ghost predicate ToldWorker(s: State, p: nat) {
    && p < |s.procs| && s.procs[p].kind.Worker? && Shaped(s.procs[p])
    && (s.destroyed || s.procs[p].ch in s.reg.closed)
  }

  /** Steps a told worker still has to take; a Do it is inside of may add its messages. */
  function StepsLeft(pc: Pc): nat {
    match pc
    case Sending(batch, after) => |batch| + (if after == ThenSelect then 1 else 0)
    case Recheck(batch) => |batch| + 2
    case Active => 3
    case Selecting => 1
    case _ => 0
  }

  lemma StaysTold(s: State, e: Event, p: nat)
    requires Enabled(s, e) && p < |s.procs|
    ensures p < |Next(s, e).procs| && Next(s, e).reg.closed >= s.reg.closed
    ensures s.destroyed ==> Next(s, e).destroyed
  {
  }

  /** A told worker gets nearer to its end with each step of its own. */
  lemma OwnStepUsesBudget(s: State, e: Event, p: nat)
    requires ToldWorker(s, p) && Enabled(s, e) && OwnStep(e, p)
    ensures var a, b := s.procs[p], Next(s, e).procs[p];
      && b.kind == a.kind && b.ch == a.ch && Shaped(b)
      && DosBy([e], p) + DosLeft(b.pc) <= DosLeft(a.pc)
      && SendsBy([e], p) + Hand(b.pc) <= Hand(a.pc) + MessagesBy([e], p)
      && 1 + StepsLeft(b.pc) <= StepsLeft(a.pc) + MessagesBy([e], p)
  {
    OneEvent(e, p);
    match e {
      case Select(_) =>
      case Finish(_, _) =>
      case Look(_) =>
      case Send(_) =>
      case _ =>
    }
  }

  lemma OneEvent(e: Event, p: nat)
    ensures DosBy([e], p) == (if e.Finish? && e.p == p then 1 else 0)
    ensures SendsBy([e], p) == (if e == Send(p) then 1 else 0)
    ensures MessagesBy([e], p) == (if e.Finish? && e.p == p then Messages(e.outcome) else 0)
    ensures OwnSteps([e], p) == (if OwnStep(e, p) then 1 else 0)
  {
    assert [e][1..] == [];
  }

  lemma StepUsesBudget(s: State, e: Event, p: nat)
    requires ToldWorker(s, p) && Enabled(s, e)
    ensures ToldWorker(Next(s, e), p)
    ensures var a, b := s.procs[p].pc, Next(s, e).procs[p].pc;
      && DosBy([e], p) + DosLeft(b) <= DosLeft(a)
      && SendsBy([e], p) + Hand(b) <= Hand(a) + MessagesBy([e], p)
      && OwnSteps([e], p) + StepsLeft(b) <= StepsLeft(a) + MessagesBy([e], p)
  {
    StaysTold(s, e, p);
    OneEvent(e, p);
    if OwnStep(e, p) {
      OwnStepUsesBudget(s, e, p);
    } else {
      OthersLeaveAlone(s, e, p);
    }
  }

  /** Once its subscription or the connection is closed, a worker completes at most one more Do,
      none unless it was inside one, and sends no more than it holds and that Do returns, whatever
      the others do, re-watching included. */
  lemma {:induction false} ToldWorkerStops(s: State, es: seq<Event>, p: nat)
    requires ToldWorker(s, p) && CanRun(s, es)
    ensures ToldWorker(Exec(s, es), p)
    ensures var a, b := s.procs[p].pc, Exec(s, es).procs[p].pc;
      && DosBy(es, p) + DosLeft(b) <= DosLeft(a) <= 1
      && SendsBy(es, p) + Hand(b) <= Hand(a) + MessagesBy(es, p)
    decreases |es|
  {
    if es != [] {
      StepUsesBudget(s, es[0], p);
      OneEvent(es[0], p);
      ToldWorkerStops(Next(s, es[0]), es[1..], p);
    }
  }

  /** However long a run is, a told worker takes at most `StepsLeft` steps of its own in it, not
      counting those for the messages of a Do it is inside of; and it is gone exactly when it has
      none left. */
  lemma {:induction false} ToldWorkerEnds(s: State, es: seq<Event>, p: nat)
    requires ToldWorker(s, p) && CanRun(s, es)
    ensures ToldWorker(Exec(s, es), p)
    ensures var left := StepsLeft(Exec(s, es).procs[p].pc);
      && OwnSteps(es, p) + left <= StepsLeft(s.procs[p].pc) + MessagesBy(es, p)
      && (left == 0 <==> Exec(s, es).procs[p].pc == Exited)
    decreases |es|
  {
    if es != [] {
      StepUsesBudget(s, es[0], p);
      OneEvent(es[0], p);
      ToldWorkerEnds(Next(s, es[0]), es[1..], p);
    }
  }

  // ------------------------------------------------------------- the last Do

  /** On the way out: nothing left to do but send what is in hand, and unsubscribe. */
  predicate Ending(proc: Proc) {
    match proc.pc
    case Recheck(_) => !proc.kind.Worker?
    case Sending(_, after) => after == ThenLeave || after == ThenExit
    case Leaving => true
    case Exited => true
    case _ => false
  }

  lemma OwnStepEnds(s: State, e: Event, p: nat)
    requires Enabled(s, e) && OwnStep(e, p) && Ending(s.procs[p]) && Shaped(s.procs[p])
    ensures var b := Next(s, e).procs[p];
      && Ending(b) && Shaped(b) && !e.Subscribe? && !e.Finish?
      && (if e.Send? then 1 else 0) + Hand(b.pc) <= Hand(s.procs[p].pc)
  {
    match e {
      case Look(_) =>
      case Send(_) =>
      case Unsubscribe(_) =>
      case _ =>
    }
  }

  /** A goroutine on its way out subscribes to nothing, completes no Do, and sends at most what it
      holds, in every continuation. */
  lemma {:induction false} EndingStays(s: State, es: seq<Event>, p: nat)
    requires p < |s.procs| && Ending(s.procs[p]) && Shaped(s.procs[p]) && CanRun(s, es)
    ensures p < |Exec(s, es).procs|
    ensures Event.Subscribe(p) !in es && DosBy(es, p) == 0
    ensures SendsBy(es, p) + Hand(Exec(s, es).procs[p].pc) <= Hand(s.procs[p].pc)
    decreases |es|
  {
    if es != [] {
      var e := es[0];
      if OwnStep(e, p) {
        OwnStepEnds(s, e, p);
      } else {
        OthersLeaveAlone(s, e, p);
      }
      EndingStays(Next(s, e), es[1..], p);
      assert es == [e] + es[1..];
    }
  }

  /** A one-off query or a stream completes one Do only, and so does a worker whose Do fails: after
      it, it sends at most that Do's messages, whatever the others do. */
  lemma LastDo(s: State, p: nat, outcome: Outcome, es: seq<Event>)
    requires AllShaped(s) && Enabled(s, Finish(p, outcome)) && CanRun(Finished(s, p, outcome), es)
    requires !s.procs[p].kind.Worker? || outcome.Failed?
    ensures DosBy(es, p) == 0 && SendsBy(es, p) <= Messages(outcome)
  {
    assert Shaped(s.procs[p]);
    EndingStays(Finished(s, p, outcome), es, p);
  }

  // ------------------------------------------------------------- who is stuck, and for how long

  /** Only Do itself decides when it returns. */
  predicate InsideDo(proc: Proc) {
    proc.pc == Active && (proc.kind.Worker? || proc.kind.Once? || proc.kind.Stream?)
  }

  /** Do may fail at any time with any error, and return any answer of its kind. */
  lemma AnyOutcome(s: State, p: nat, message: string, last: nat, payload: string, batch: seq<Action>)
    requires p < |s.procs| && InsideDo(s.procs[p]) && From(batch, p)
    ensures Enabled(s, Finish(p, Failed(message)))
    ensures var polls := s.procs[p].kind.Worker? && s.procs[p].kind.answers != Freely;
      if polls then Enabled(s, Finish(p, Polled(last, payload))) else Enabled(s, Finish(p, Answered(batch)))
  {
  }

  /** Putting a message on the full queue. */
  predicate AtFullQueue(s: State, proc: Proc) {
    proc.pc.Sending? && !HasRoom(s)
  }

  /** A watcher waiting for its channel or the connection to be closed. */
  predicate Waiting(s: State, proc: Proc) {
    proc.kind.Watch? && proc.pc == Active && proc.ch !in s.reg.closed && !s.destroyed
  }

  /** The step a live goroutine outside Do can take. */
  function NextStep(s: State, p: nat): Event
    requires p < |s.procs|
  {
    var proc := s.procs[p];
    match proc.pc
    case Start =>
      if proc.kind.KeepAlive? then Event.Subscribe(p)
      else if proc.kind.Unwatch? then Event.Unsubscribe(p) else Check(p)
    case Checked => Event.Subscribe(p)
    case Selecting => Select(p)
    case Active => if proc.kind.KeepAlive? then Emit(p, Action(Goroutine(p), false, 0, "")) else Notice(p)
    case Recheck(_) => Look(p)
    case Sending(_, _) => Send(p)
    case Leaving => Event.Unsubscribe(p)
    case Exited => Return
  }

  /** A live goroutine outside Do is stuck exactly when it sends on a full queue, or is a watcher
      that nobody has told to stop. */
  lemma StuckOnlyOnFullQueue(es: seq<Event>, p: nat)
    requires CanRun(Init(), es)
    requires p < |Exec(Init(), es).procs|
    requires Exec(Init(), es).procs[p].pc != Exited && !InsideDo(Exec(Init(), es).procs[p])
    ensures var s := Exec(Init(), es);
      (exists e :: OwnStep(e, p) && Enabled(s, e)) <==> !AtFullQueue(s, s.procs[p]) && !Waiting(s, s.procs[p])
  {
    RegistrySafety(es);
    var s := Exec(Init(), es);
    assert Shaped(s.procs[p]);
    var e := NextStep(s, p);
    if !AtFullQueue(s, s.procs[p]) && !Waiting(s, s.procs[p]) {
      assert OwnStep(e, p) && Enabled(s, e);
    }
  }

  /** A full queue that nobody empties any more. */
  predicate Clogged(s: State) {
    !s.pumping && !HasRoom(s)
  }

  lemma {:induction false} CloggedForGood(s: State, es: seq<Event>, p: nat)
    requires Clogged(s) && CanRun(s, es) && p < |s.procs| && s.procs[p].pc.Sending?
    ensures Clogged(Exec(s, es)) && Exec(s, es).queue == s.queue
    ensures p < |Exec(s, es).procs| && Exec(s, es).procs[p] == s.procs[p]
    decreases |es|
  {
    if es != [] {
      OthersLeaveAlone(s, es[0], p);
      CloggedForGood(Next(s, es[0]), es[1..], p);
    }
  }

  lemma TwoSteps(s: State, e1: Event, e2: Event)
    requires Enabled(s, e1) && Enabled(Next(s, e1), e2)
    ensures CanRun(s, [e1, e2]) && Exec(s, [e1, e2]) == Next(Next(s, e1), e2)
  {
    OneStep(Next(s, e1), e2);
    assert [e1, e2][0] == e1 && [e1, e2][1..] == [e2];
  }

  lemma SendingChanges(s: State, p: nat)
    requires Enabled(s, Send(p))
    ensures p < |Sent(s, p).procs| && Sent(s, p).procs[p] != s.procs[p]
  {
    var batch := s.procs[p].pc.batch;
    assert |batch[1..]| < |batch|;
  }

  lemma SenderMovesOn(s: State, p: nat) returns (es: seq<Event>)
    requires |s.queue| <= SEND_QUEUE_SIZE && !Clogged(s)
    requires p < |s.procs| && s.procs[p].pc.Sending? && s.procs[p].pc.batch != []
    ensures CanRun(s, es) && p < |Exec(s, es).procs| && Exec(s, es).procs[p] != s.procs[p]
  {
    if HasRoom(s) {
      es := [Send(p)];
      OneStep(s, Send(p));
      SendingChanges(s, p);
    } else {
      es := [Write(0, false), Send(p)];
      TwoSteps(s, Write(0, false), Send(p));
      SendingChanges(Next(s, Write(0, false)), p);
    }
  }

  /** A goroutine that has a message to send gets rid of it in some continuation exactly when
      there is room or the pump still runs; otherwise it stays where it is for ever. */
  lemma SenderMovesOnIff(s: State, p: nat)
    requires AllShaped(s) && |s.queue| <= SEND_QUEUE_SIZE && p < |s.procs| && s.procs[p].pc.Sending?
    ensures (exists es :: CanRun(s, es) && p < |Exec(s, es).procs| && Exec(s, es).procs[p] != s.procs[p])
       <==> !Clogged(s)
  {
    assert Shaped(s.procs[p]);
    if Clogged(s) {
      forall es | CanRun(s, es) ensures p < |Exec(s, es).procs| && Exec(s, es).procs[p] == s.procs[p] {
        CloggedForGood(s, es, p);
      }
    } else {
      var es := SenderMovesOn(s, p);
    }
  }

  lemma {:induction false} RefusalForGood(s: State, es: seq<Event>)
    requires Clogged(s) && s.handler.Refusing? && CanRun(s, es)
    ensures Clogged(Exec(s, es)) && Exec(s, es).handler == s.handler
    decreases |es|
  {
    if es != [] {
      RefusalForGood(Next(s, es[0]), es[1..]);
    }
  }

  /** A refused action holds up the connection itself: it can go on to read, or to shut down, in
      some continuation exactly when there is room or the pump still runs. */
  lemma RefusalMovesOnIff(s: State)
    requires s.handler.Refusing? && |s.queue| <= SEND_QUEUE_SIZE
    ensures (exists es :: CanRun(s, es) && Exec(s, es).handler != s.handler) <==> !Clogged(s)
  {
    if Clogged(s) {
      forall es | CanRun(s, es) ensures Exec(s, es).handler == s.handler {
        RefusalForGood(s, es);
      }
    } else {
      if HasRoom(s) {
        OneStep(s, SendRefusal);
      } else {
        TwoSteps(s, Write(0, false), SendRefusal);
      }
    }
  }
}
