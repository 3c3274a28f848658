/** When a closing connection can finish: when its handler can return, whom it can leave behind,
    and when it is kept waiting for ever. */
module ConnectionShutdown {
  import opened Subscriptions
  import opened Connection
  import opened ConnectionSafety
  import opened ConnectionWatchers
  import opened ConnectionQueue

  // ------------------------------------------------------------- right now

  /** The handler can return when, and only when, no key is left and none was taken twice. */
  lemma ReturnIff(es: seq<Event>)
    requires CanRun(Init(), es)
    ensures var s := Exec(Init(), es);
      Enabled(s, Return) <==> s.handler == Draining && s.dups == 0 && s.reg.subs == map[]
  {
    RegistrySafety(es);
  }

  /** The same in terms of goroutines: everyone between Subscribe and Unsubscribe has been told
      to stop. Those can outlive the handler, as can workers told to stop, and goroutines that
      have not subscribed yet; nobody else. */
  lemma WhoOutlivesTheHandler(es: seq<Event>)
    requires CanRun(Init(), es)
    ensures var s := Exec(Init(), es);
      && (Enabled(s, Return) <==>
            && s.handler == Draining && s.dups == 0
            && forall p | 0 <= p < |s.procs| && Holding(s.procs[p]) :: s.procs[p].ch in s.reg.closed)
      && (Enabled(s, Return) ==>
            forall p | 0 <= p < |s.procs| && s.procs[p].pc != Exited ::
              s.procs[p].pc == Start || s.procs[p].pc == Checked
              || (HasChannel(s.procs[p]) && s.procs[p].ch in s.reg.closed))
  {
    ReturnIff(es);
    RunHandsOut(Init(), es);
    var s := Exec(Init(), es);
    forall p | Enabled(s, Return) && 0 <= p < |s.procs| && s.procs[p].pc != Exited
      ensures s.procs[p].pc == Start || s.procs[p].pc == Checked
              || (HasChannel(s.procs[p]) && s.procs[p].ch in s.reg.closed)
    {
      assert Shaped(s.procs[p]);
    }
    if s.reg.subs != map[] {
      var k :| k in s.reg.subs;
      assert Holding(s.procs[s.reg.subs[k]]);
    }
  }

  /** The deferred Unsubscribe of a goroutine closes a channel that is not its own exactly when
      its own is already closed and its key has been taken anew. */
  lemma DeferredUnsubscribeEndsAnother(es: seq<Event>, p: nat)
    requires CanRun(Init(), es) && p < |Exec(Init(), es).procs| && Exec(Init(), es).procs[p].pc == Leaving
    ensures var s := Exec(Init(), es);
      var proc, s' := s.procs[p], Next(s, Event.Unsubscribe(p));
      (exists c :: c in s'.reg.closed - s.reg.closed && c != proc.ch)
        <==> proc.ch in s.reg.closed && proc.key in s.reg.subs
  {
    RunHandsOut(Init(), es);
    var s := Exec(Init(), es);
    var proc, s' := s.procs[p], Next(s, Event.Unsubscribe(p));
    assert Shaped(proc) && HasChannel(proc);
    if proc.key in s.reg.subs {
      var c := s.reg.subs[proc.key];
      assert s'.reg.closed - s.reg.closed == {c};
    }
  }

  // ------------------------------------------------------------- in the end

  /** Messages a goroutine has to put on the queue before it can leave. */
  function InHand(proc: Proc): nat {
    |Pending(proc)|
  }

  /** What the goroutines in `leavers` have in hand together. */
  function Load(procs: seq<Proc>, leavers: set<nat>): nat {
    if procs == [] then 0
    else
      var last := |procs| - 1;
      Load(procs[..last], leavers) + (if last in leavers then InHand(procs[last]) else 0)
  }

  /** A goroutine that can still come to an Unsubscribe of its key without subscribing first. */
  predicate CanLeave(proc: Proc) {
    Holding(proc) || (proc.kind.Unwatch? && proc.pc == Start)
  }

  /** The goroutines in `leavers` can leave, and every key that is left is the key of one. */
  ghost predicate Clears(s: State, leavers: set<nat>) {
    && (forall p | p in leavers :: p < |s.procs| && CanLeave(s.procs[p]))
    && (forall k | k in s.reg.subs :: exists p :: p in leavers && s.procs[p].key == k)
  }

  function Room(s: State): int {
    SEND_QUEUE_SIZE - |s.queue|
  }

  /** Messages a closing connection can still take. Its socket is closed, so a pump that has not
      left yet takes one message from the queue, fails to write it, and leaves. */
  function Slots(s: State): int {
    Room(s) + (if s.pumping then 1 else 0)
  }

  ghost predicate RoomFor(s: State, leavers: set<nat>) {
    Clears(s, leavers) && Load(s.procs, leavers) <= Slots(s)
  }

  /** There is room for all that must be sent before every key is given up. */
  ghost predicate CanClear(s: State) {
    exists leavers :: RoomFor(s, leavers)
  }

  // ------------------------------------------------------------- sums over goroutines

  lemma {:induction false} LoadUpdate(procs: seq<Proc>, p: nat, proc: Proc, leavers: set<nat>)
    requires p < |procs|
    ensures Load(procs[p := proc], leavers) + (if p in leavers then InHand(procs[p]) else 0)
         == Load(procs, leavers) + (if p in leavers then InHand(proc) else 0)
  {
    var last := |procs| - 1;
    if p == last {
      assert procs[p := proc][..last] == procs[..last];
    } else {
      assert procs[p := proc][..last] == procs[..last][p := proc];
      LoadUpdate(procs[..last], p, proc, leavers);
    }
  }

  lemma {:induction false} LoadRemove(procs: seq<Proc>, p: nat, leavers: set<nat>)
    requires p < |procs|
    ensures Load(procs, leavers - {p}) == Load(procs, leavers) - (if p in leavers then InHand(procs[p]) else 0)
  {
    var last := |procs| - 1;
    if p == last {
      LoadFrame(procs[..last], leavers, leavers - {p});
    } else {
      LoadRemove(procs[..last], p, leavers);
    }
  }

  lemma {:induction false} LoadFrame(procs: seq<Proc>, a: set<nat>, b: set<nat>)
    requires forall i: nat | i < |procs| :: i in a <==> i in b
    ensures Load(procs, a) == Load(procs, b)
  {
    if procs != [] {
      LoadFrame(procs[..|procs| - 1], a, b);
    }
  }

  // ------------------------------------------------------------- backwards over a run

  /** A step of goroutine `p` that neither subscribes nor unsubscribes. */
  ghost predicate Hops(s: State, s': State, p: nat) {
    && p < |s.procs| == |s'.procs| && s'.reg == s.reg
    && s'.procs == s.procs[p := s'.procs[p]] && s'.procs[p].key == s.procs[p].key
    && (CanLeave(s'.procs[p]) ==> CanLeave(s.procs[p]))
    && Slots(s') <= Slots(s)
    && (s.procs[p].key in s.reg.subs ==>
          InHand(s.procs[p]) - InHand(s'.procs[p]) <= Slots(s) - Slots(s'))
  }

  lemma HopBack(s: State, s': State, p: nat, leavers: set<nat>)
    requires Hops(s, s', p) && RoomFor(s', leavers)
    ensures CanClear(s)
  {
    assert s.procs == s'.procs[p := s.procs[p]];
    LoadUpdate(s'.procs, p, s.procs[p], leavers);
    if s.procs[p].key in s.reg.subs {
      assert Clears(s, leavers);
      assert RoomFor(s, leavers);
    } else {
      LoadRemove(s.procs, p, leavers);
      assert Clears(s, leavers - {p}) by {
        forall k | k in s.reg.subs ensures exists q :: q in leavers - {p} && s.procs[q].key == k {
          var q :| q in leavers && s'.procs[q].key == k;
          assert q in leavers - {p};
        }
      }
      assert RoomFor(s, leavers - {p});
    }
  }

  lemma MoveHops(s: State, e: Event, p: nat)
    requires AllShaped(s) && Enabled(s, e) && OwnStep(e, p) && !e.Subscribe? && !e.Unsubscribe?
    ensures Hops(s, Next(s, e), p)
  {
    assert Shaped(s.procs[p]);
    match e {
      case Check(_) =>
      case Notice(_) =>
      case Select(_) =>
      case Finish(_, _) =>
      case Look(_) =>
      case Emit(_, _) =>
      case Send(_) =>
      case _ =>
    }
  }

  lemma UnsubscribeClears(s: State, p: nat, leavers: set<nat>)
    requires AllShaped(s) && Enabled(s, Event.Unsubscribe(p)) && Clears(Next(s, Event.Unsubscribe(p)), leavers)
    ensures p !in leavers && Clears(s, leavers + {p})
  {
    var s', all := Next(s, Event.Unsubscribe(p)), leavers + {p};
    assert Shaped(s.procs[p]) && CanLeave(s.procs[p]) && !CanLeave(s'.procs[p]);
    forall k | k in s.reg.subs ensures exists q :: q in all && s.procs[q].key == k {
      if k == s.procs[p].key {
        assert p in all;
      } else {
        assert k in s'.reg.subs;
        var q :| q in leavers && s'.procs[q].key == k;
        assert q in all;
      }
    }
  }

  lemma UnsubscribeBack(s: State, p: nat, leavers: set<nat>)
    requires AllShaped(s) && Enabled(s, Event.Unsubscribe(p)) && RoomFor(Next(s, Event.Unsubscribe(p)), leavers)
    ensures CanClear(s)
  {
    var s', all := Next(s, Event.Unsubscribe(p)), leavers + {p};
    UnsubscribeClears(s, p, leavers);
    LoadUpdate(s.procs, p, s'.procs[p], leavers);
    assert all - {p} == leavers && InHand(s.procs[p]) == 0;
    LoadRemove(s.procs, p, all);
    assert RoomFor(s, all);
  }

  lemma SubscribeClears(s: State, p: nat, leavers: set<nat>)
    requires Enabled(s, Event.Subscribe(p)) && Clears(Subscribed(s, p), leavers)
    requires s.procs[p].key !in s.reg.subs
    ensures |s.procs| !in leavers && Clears(s, leavers - {p})
  {
    var s', n, others := Subscribed(s, p), |s.procs|, leavers - {p};
    if |s'.procs| > n {
      assert !CanLeave(s'.procs[n]) && n !in leavers;
    }
    assert forall q | q in others :: s'.procs[q] == s.procs[q];
    forall k | k in s.reg.subs ensures exists q :: q in others && s.procs[q].key == k {
      assert k in s'.reg.subs;
      var q :| q in leavers && s'.procs[q].key == k;
      assert q in others;
    }
  }

  lemma SubscribeLoads(s: State, p: nat, leavers: set<nat>)
    requires Enabled(s, Event.Subscribe(p)) && |s.procs| !in leavers
    ensures Load(s.procs, leavers - {p}) <= Load(Subscribed(s, p).procs, leavers)
  {
    var s' := Subscribed(s, p);
    var moved := s.procs[p := s'.procs[p]];
    if |s'.procs| > |s.procs| {
      assert s'.procs[..|s'.procs| - 1] == moved;
    } else {
      assert s'.procs == moved;
    }
    assert Load(s'.procs, leavers) == Load(moved, leavers);
    LoadUpdate(s.procs, p, s'.procs[p], leavers);
    LoadRemove(s.procs, p, leavers);
  }

  lemma SubscribeBack(s: State, p: nat, leavers: set<nat>)
    requires Enabled(s, Event.Subscribe(p)) && RoomFor(Subscribed(s, p), leavers)
    requires Subscribed(s, p).dups == s.dups
    ensures CanClear(s)
  {
    SubscribeClears(s, p, leavers);
    SubscribeLoads(s, p, leavers);
    assert RoomFor(s, leavers - {p});
  }

  /** What the pump does once the connection is destroyed frees one slot at most. */
  lemma PumpBack(s: State, e: Event, leavers: set<nat>)
    requires s.destroyed && Enabled(s, e) && (e.Write? || e.StopWriting?) && RoomFor(Next(s, e), leavers)
    ensures CanClear(s)
  {
    assert RoomFor(s, leavers);
  }

  lemma StepBack(s: State, e: Event)
    requires Inv(s) && s.destroyed && s.handler == Draining && Enabled(s, e)
    requires Next(s, e).dups == s.dups && Next(s, e).handler == Draining && CanClear(Next(s, e))
    ensures CanClear(s)
  {
    var leavers :| RoomFor(Next(s, e), leavers);
    if e.Write? || e.StopWriting? {
      PumpBack(s, e, leavers);
    } else {
      assert Actor(e).Some?;
      var p := Actor(e).value;
      if e.Subscribe? {
        SubscribeBack(s, p, leavers);
      } else if e.Unsubscribe? {
        UnsubscribeBack(s, p, leavers);
      } else {
        MoveHops(s, e, p);
        HopBack(s, Next(s, e), p, leavers);
      }
    }
  }

  lemma ReturnMeansClear(s: State)
    requires Inv(s) && Conserved(s) && Enabled(s, Return)
    ensures s.dups == 0 && CanClear(s)
  {
    LoadNone(s.procs);
    assert RoomFor(s, {});
  }

  lemma StepFromDraining(s: State, e: Event)
    requires s.handler == Draining && s.destroyed && Enabled(s, e)
    ensures Next(s, e).destroyed && Next(s, e).dups >= s.dups
    ensures Next(s, e).handler == if e.Return? then Returned else Draining
  {
  }

  lemma {:induction false} ReturnedCouldClear(s: State, es: seq<Event>)
    requires Inv(s) && Conserved(s) && s.destroyed && s.handler == Draining
    requires CanRun(s, es) && Exec(s, es).handler == Returned
    ensures s.dups == 0 && CanClear(s)
    decreases |es|
  {
    var e, s' := es[0], Next(s, es[0]);
    if e.Return? {
      ReturnMeansClear(s);
    } else {
      StepKeepsInv(s, e);
      StepConserves(s, e);
      StepFromDraining(s, e);
      ReturnedCouldClear(s', es[1..]);
      StepBack(s, e);
    }
  }

  lemma {:induction false} LoadNone(procs: seq<Proc>)
    ensures Load(procs, {}) == 0
  {
    if procs != [] {
      LoadNone(procs[..|procs| - 1]);
    }
  }

  // ------------------------------------------------------------- forwards to the return

  /** A closing connection with no duplicates in which `leavers` can give up every key. */
  ghost predicate Ready(s: State, leavers: set<nat>) {
    && Inv(s) && Conserved(s) && s.destroyed && s.handler == Draining && s.dups == 0
    && RoomFor(s, leavers)
  }

  /** About to unsubscribe. */
  predicate AtExit(proc: Proc) {
    proc.pc == Leaving || proc.pc == Start
  }

  /** Steps a goroutine that can leave takes before it is about to unsubscribe. */
  function Distance(pc: Pc): nat {
    match pc
    case Sending(batch, after) => |batch| + (if after == ThenGoOn then 2 else 0)
    case Recheck(batch) => |batch| + 1
    case Active => 2
    case _ => 0
  }

  function WayOut(proc: Proc, p: nat): Event {
    match proc.pc
    case Recheck(_) => Look(p)
    case Sending(_, _) => Send(p)
    case _ => if proc.kind.Watch? || proc.kind.KeepAlive? then Notice(p) else Finish(p, Answered([]))
  }

  /** A step with which goroutine `p` gets closer to leaving. */
  ghost predicate Onward(s: State, s': State, p: nat) {
    && p < |s.procs| && s'.reg == s.reg && s'.dups == s.dups && s'.handler == s.handler
    && s'.destroyed == s.destroyed && s'.pumping == s.pumping
    && |s'.procs| == |s.procs| && s'.procs == s.procs[p := s'.procs[p]]
    && s'.procs[p].key == s.procs[p].key && CanLeave(s'.procs[p])
    && Distance(s'.procs[p].pc) < Distance(s.procs[p].pc)
    && Room(s) - Room(s') <= InHand(s.procs[p]) - InHand(s'.procs[p])
  }

  lemma StepOnward(s: State, p: nat)
    requires AllShaped(s) && s.destroyed && p < |s.procs| && CanLeave(s.procs[p]) && !AtExit(s.procs[p])
    requires s.procs[p].pc.Sending? ==> HasRoom(s)
    ensures Enabled(s, WayOut(s.procs[p], p)) && Onward(s, Next(s, WayOut(s.procs[p], p)), p)
  {
    assert Shaped(s.procs[p]);
    match s.procs[p].pc {
      case Recheck(_) =>
      case Sending(_, _) =>
      case _ =>
    }
  }

  lemma OnwardStaysReady(s: State, e: Event, p: nat, leavers: set<nat>)
    requires Ready(s, leavers) && p in leavers && Enabled(s, e) && Onward(s, Next(s, e), p)
    ensures Ready(Next(s, e), leavers)
  {
    var s' := Next(s, e);
    StepKeepsInv(s, e);
    StepConserves(s, e);
    LoadUpdate(s.procs, p, s'.procs[p], leavers);
    assert forall q | q in leavers && q != p :: s'.procs[q] == s.procs[q];
    assert forall q | q in leavers :: s'.procs[q].key == s.procs[q].key;
  }

  lemma WriteStaysReady(s: State, leavers: set<nat>)
    requires Ready(s, leavers) && s.pumping && !HasRoom(s)
    ensures Enabled(s, Write(0, false)) && HasRoom(Next(s, Write(0, false)))
    ensures Ready(Next(s, Write(0, false)), leavers)
  {
    StepKeepsInv(s, Write(0, false));
    StepConserves(s, Write(0, false));
  }

  /** Who has something to send finds room, or the pump makes some. */
  lemma MakeRoom(s: State, leavers: set<nat>, p: nat) returns (es: seq<Event>)
    requires Ready(s, leavers) && p in leavers
    ensures CanRun(s, es) && Ready(Exec(s, es), leavers)
    ensures s.procs[p].pc.Sending? ==> HasRoom(Exec(s, es))
    ensures Exec(s, es).procs == s.procs && Exec(s, es).reg == s.reg
  {
    es := [];
    if s.procs[p].pc.Sending? && !HasRoom(s) {
      assert Shaped(s.procs[p]);
      LoadRemove(s.procs, p, leavers);
      WriteStaysReady(s, leavers);
      es := [Write(0, false)];
      OneStep(s, Write(0, false));
    }
  }

  lemma {:induction false} WalkOut(s: State, leavers: set<nat>, p: nat) returns (es: seq<Event>)
    requires Ready(s, leavers) && p in leavers
    ensures CanRun(s, es) && Ready(Exec(s, es), leavers)
    ensures Exec(s, es).reg == s.reg && Exec(s, es).procs[p].key == s.procs[p].key
    ensures AtExit(Exec(s, es).procs[p])
    decreases Distance(s.procs[p].pc)
  {
    es := [];
    if !AtExit(s.procs[p]) {
      var room := MakeRoom(s, leavers, p);
      var s1 := Exec(s, room);
      var e := WayOut(s1.procs[p], p);
      StepOnward(s1, p);
      OnwardStaysReady(s1, e, p, leavers);
      Extend(s, room, e);
      var rest := WalkOut(Next(s1, e), leavers, p);
      Join(s, room + [e], rest);
      es := room + [e] + rest;
    }
  }

  lemma ExitClears(s: State, leavers: set<nat>, p: nat)
    requires Clears(s, leavers) && p in leavers && Enabled(s, Event.Unsubscribe(p))
    ensures Clears(Next(s, Event.Unsubscribe(p)), leavers - {p})
  {
    var s', left := Next(s, Event.Unsubscribe(p)), leavers - {p};
    forall k | k in s'.reg.subs ensures exists q :: q in left && s'.procs[q].key == k {
      assert k in s.reg.subs && k != s.procs[p].key;
      var q :| q in leavers && s.procs[q].key == k;
      assert q in left;
    }
  }

  lemma ExitLoads(s: State, leavers: set<nat>, p: nat)
    requires p in leavers && Enabled(s, Event.Unsubscribe(p))
    ensures Load(Next(s, Event.Unsubscribe(p)).procs, leavers - {p}) <= Load(s.procs, leavers)
  {
    LoadRemove(s.procs, p, leavers);
    LoadUpdate(s.procs, p, Next(s, Event.Unsubscribe(p)).procs[p], leavers - {p});
  }

  lemma ExitStaysReady(s: State, leavers: set<nat>, p: nat)
    requires Ready(s, leavers) && p in leavers && AtExit(s.procs[p])
    ensures Enabled(s, Event.Unsubscribe(p)) && Ready(Next(s, Event.Unsubscribe(p)), leavers - {p})
  {
    var e := Event.Unsubscribe(p);
    assert Shaped(s.procs[p]) && Enabled(s, e);
    StepKeepsInv(s, e);
    StepConserves(s, e);
    ExitClears(s, leavers, p);
    ExitLoads(s, leavers, p);
  }

  lemma {:induction false} ReadyCanReturn(s: State, leavers: set<nat>) returns (es: seq<Event>)
    requires Ready(s, leavers)
    ensures CanRun(s, es) && Exec(s, es).handler == Returned
    decreases leavers
  {
    if leavers == {} {
      assert s.reg.subs == map[];
      es := [Return];
      OneStep(s, Return);
    } else {
      var p :| p in leavers;
      es := WalkOut(s, leavers, p);
      var s1, e := Exec(s, es), Event.Unsubscribe(p);
      ExitStaysReady(s1, leavers, p);
      Extend(s, es, e);
      var rest := ReadyCanReturn(Next(s1, e), leavers - {p});
      Join(s, es + [e], rest);
      es := es + [e] + rest;
    }
  }

  // ------------------------------------------------------------- the condition

  /** `handler` is draining or has returned exactly when the connection is destroyed. */
  lemma {:induction false} DestroyedWhenDraining(s: State, es: seq<Event>)
    requires CanRun(s, es) && (s.destroyed <==> s.handler == Draining || s.handler == Returned)
    ensures Exec(s, es).destroyed <==> Exec(s, es).handler == Draining || Exec(s, es).handler == Returned
    decreases |es|
  {
    if es != [] {
      DestroyedWhenDraining(Next(s, es[0]), es[1..]);
    }
  }

  ghost predicate CanReturn(s: State) {
    exists es :: CanRun(s, es) && Exec(s, es).handler == Returned
  }

  /** A closing connection's handler returns in some continuation exactly when no key was
      subscribed to twice, and the queue has room for all that some goroutines, between them
      holding every key left, have to send before they leave; a pump that has not left yet makes
      room for one message more. Otherwise it waits for ever, whatever anyone does. */
  lemma ReturnsInTheEndIff(es: seq<Event>)
    requires CanRun(Init(), es) && Exec(Init(), es).handler == Draining
    ensures CanReturn(Exec(Init(), es)) <==> Exec(Init(), es).dups == 0 && CanClear(Exec(Init(), es))
  {
    RegistrySafety(es);
    SendQueueIsFifo(es, Exec(Init(), es));
    DestroyedWhenDraining(Init(), es);
    var s := Exec(Init(), es);
    if CanReturn(s) {
      var more :| CanRun(s, more) && Exec(s, more).handler == Returned;
      ReturnedCouldClear(s, more);
    }
    if s.dups == 0 && CanClear(s) {
      var leavers :| RoomFor(s, leavers);
      var more := ReadyCanReturn(s, leavers);
    }
  }

  lemma {:induction false} NothingInHand(procs: seq<Proc>, leavers: set<nat>)
    requires forall p | p in leavers && p < |procs| :: InHand(procs[p]) == 0
    ensures Load(procs, leavers) == 0
  {
    if procs != [] {
      NothingInHand(procs[..|procs| - 1], leavers);
    }
  }

  /** With the pump stopped and the queue full: every key left must have a goroutine that can
      leave without sending anything. */
  lemma CloggedReturnsIff(es: seq<Event>)
    requires CanRun(Init(), es) && Exec(Init(), es).handler == Draining && Clogged(Exec(Init(), es))
    ensures var s := Exec(Init(), es);
      CanReturn(s) <==>
        && s.dups == 0
        && forall k | k in s.reg.subs ::
             exists p :: 0 <= p < |s.procs| && CanLeave(s.procs[p]) && s.procs[p].key == k && InHand(s.procs[p]) == 0
  {
    ReturnsInTheEndIff(es);
    SendQueueIsFifo(es, Exec(Init(), es));
    var s := Exec(Init(), es);
    if CanReturn(s) {
      var leavers :| RoomFor(s, leavers);
      forall k | k in s.reg.subs
        ensures exists p :: 0 <= p < |s.procs| && CanLeave(s.procs[p]) && s.procs[p].key == k && InHand(s.procs[p]) == 0
      {
        var p :| p in leavers && s.procs[p].key == k;
        LoadRemove(s.procs, p, leavers);
      }
    }
    var free := set p | 0 <= p < |s.procs| && CanLeave(s.procs[p]) && InHand(s.procs[p]) == 0;
    NothingInHand(s.procs, free);
    if forall k | k in s.reg.subs :: exists p :: p in free && s.procs[p].key == k {
      assert RoomFor(s, free);
    }
  }

  // ------------------------------------------------------------- kept waiting for ever

  /** The connection before and while the read-only gate fills the queue. */
  function Filled(n: nat): State {
    var errors := seq(n, i => Action(ReadPump, false, 0, "read-only"));
    State(Empty(), 0, false, Reading, [NewProc(KeepAlive, KEEP_ALIVE_KEY, Start, 0)], errors, errors, [], [], true)
  }

  lemma {:induction false} FillQueue(n: nat) returns (es: seq<Event>)
    requires n <= SEND_QUEUE_SIZE
    ensures CanRun(Init(), es) && Exec(Init(), es) == Filled(n)
  {
    es := [];
    assert Init() == Filled(0);
    if n > 0 {
      es := FillQueue(n - 1);
      var s := Filled(n - 1);
      Extend(Init(), es, Refuse("read-only"));
      es := es + [Refuse("read-only")];
      Extend(Init(), es, SendRefusal);
      es := es + [SendRefusal];
      assert s.queue + [Action(ReadPump, false, 0, "read-only")] == Filled(n).queue;
    }
  }

  /** A one-off query for `key`, with `pc`, beside a connection with a full queue. */
  function WithOnce(key: string, reg: Registry<nat>, pc: Pc, ch: nat): State {
    Filled(SEND_QUEUE_SIZE).(reg := reg, procs := Filled(0).procs + [NewProc(Once, key, pc, ch)])
  }

  lemma OnceBehindFullQueue(key: string) returns (es: seq<Event>)
    ensures CanRun(Init(), es)
    ensures Exec(Init(), es) ==
      WithOnce(key, Registry(map[key := 1], 1, 1, {}, false),
               Sending([Action(Goroutine(1), false, 0, "x")], ThenLeave), 1)
  {
    var s0, r := Init(), Registry(map[key := 1], 1, 1, {}, false);
    es := FillQueue(SEND_QUEUE_SIZE);
    Extend(s0, es, Spawn(Once, key));
    es := es + [Spawn(Once, key)];
    assert Exec(s0, es) == WithOnce(key, Empty(), Start, 0);
    Extend(s0, es, Check(1));
    es := es + [Check(1)];
    assert Exec(s0, es) == WithOnce(key, Empty(), Checked, 0);
    Extend(s0, es, Event.Subscribe(1));
    es := es + [Event.Subscribe(1)];
    assert Exec(s0, es) == WithOnce(key, r, Active, 1);
    Extend(s0, es, Finish(1, Failed("x")));
    es := es + [Finish(1, Failed("x"))];
  }

  /** A stopped pump and a full queue keep the handler waiting for ever, without any duplicate:
      the one goroutine that holds a key has a message to send. */
  lemma FullQueueKeepsHandler(key: string) returns (es: seq<Event>)
    ensures CanRun(Init(), es)
    ensures var s := Exec(Init(), es);
      s.handler == Draining && s.dups == 0 && |s.queue| == 500 && !CanReturn(s)
  {
    es := OnceBehindFullQueue(key);
    Extend(Init(), es, Destroy);
    es := es + [Destroy];
    Extend(Init(), es, StopWriting);
    es := es + [StopWriting];
    CloggedReturnsIff(es);
    var s := Exec(Init(), es);
    assert key in s.reg.subs;
    forall p | 0 <= p < |s.procs| && CanLeave(s.procs[p]) && s.procs[p].key == key ensures InHand(s.procs[p]) != 0 {
      assert p == 1;
    }
  }
  /** A second one-off query behind the first, both with a message to send. */
  lemma TwoBehindFullQueue(key: string, key2: string) returns (es: seq<Event>)
    requires key != key2
    ensures CanRun(Init(), es)
    ensures var s := Exec(Init(), es);
      && s.pumping && !s.destroyed && s.handler == Reading && s.dups == 0 && |s.queue| == SEND_QUEUE_SIZE
      && s.reg.subs == map[key := 1, key2 := 2] && |s.procs| == 3
      && s.procs[0].key == KEEP_ALIVE_KEY && s.procs[0].pc == Start && s.procs[0].kind.KeepAlive?
      && s.procs[1].key == key && InHand(s.procs[1]) == 1
      && s.procs[2].key == key2 && InHand(s.procs[2]) == 1
  {
    var s0 := Init();
    es := OnceBehindFullQueue(key);
    var s := Exec(s0, es);
    Extend(s0, es, Spawn(Once, key2));
    es := es + [Spawn(Once, key2)];
    assert Exec(s0, es) == s.(procs := s.procs + [NewProc(Once, key2, Start, 0)]);
    Extend(s0, es, Check(2));
    es := es + [Check(2)];
    assert Exec(s0, es) == s.(procs := s.procs + [NewProc(Once, key2, Checked, 0)]);
    Extend(s0, es, Event.Subscribe(2));
    es := es + [Event.Subscribe(2)];
    assert Exec(s0, es) == 
      s.(reg := AfterSubscribe(s.reg, key2, 2), procs := s.procs + [NewProc(Once, key2, Active, 2)]);
    Extend(s0, es, Finish(2, Failed("x")));
    es := es + [Finish(2, Failed("x"))];
  }

  lemma LoadOfTwo(procs: seq<Proc>, p: nat, q: nat, leavers: set<nat>)
    requires p < |procs| && q < |procs| && p != q && p in leavers && q in leavers
    ensures InHand(procs[p]) + InHand(procs[q]) <= Load(procs, leavers)
  {
    LoadRemove(procs, p, leavers);
    LoadRemove(procs, q, leavers - {p});
  }

  /** Two keys, each held by goroutines with a message to send only. */
  lemma TwoMustSend(s: State, key: string, key2: string, leavers: set<nat>)
    requires key != key2 && key in s.reg.subs && key2 in s.reg.subs && Clears(s, leavers)
    requires forall p | 0 <= p < |s.procs| && (s.procs[p].key == key || s.procs[p].key == key2) ::
      InHand(s.procs[p]) > 0
    ensures Load(s.procs, leavers) >= 2
  {
    var p :| p in leavers && s.procs[p].key == key;
    var q :| q in leavers && s.procs[q].key == key2;
    LoadOfTwo(s.procs, p, q, leavers);
  }

  /** Nor does a pump that has not left yet help when two have a message to send on a full queue. */
  lemma PumpFreesOneSlot(key: string, key2: string) returns (es: seq<Event>)
    requires key != key2 && key != KEEP_ALIVE_KEY && key2 != KEEP_ALIVE_KEY
    ensures CanRun(Init(), es)
    ensures var s := Exec(Init(), es); s.handler == Draining && s.pumping && s.dups == 0 && !CanReturn(s)
  {
    es := TwoBehindFullQueue(key, key2);
    var before := Exec(Init(), es);
    Extend(Init(), es, Destroy);
    es := es + [Destroy];
    ReturnsInTheEndIff(es);
    var s := Exec(Init(), es);
    assert s == before.(destroyed := true, handler := Draining);
    forall leavers | Clears(s, leavers) ensures Load(s.procs, leavers) > Slots(s) {
      TwoMustSend(s, key, key2, leavers);
    }
  }
}
