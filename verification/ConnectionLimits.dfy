/** What the protocol does not guarantee, shown by runs of the step machine. */
module ConnectionLimits {
  import opened LongPoll
  import opened Subscriptions
  import opened Connection
  import opened ConnectionSafety
  import opened ConnectionMessages

  /** A goroutine of the given kind, for `key`, having received channel `ch`. */
  function At(kind: Kind, key: string, pc: Pc, ch: nat): Proc {
    NewProc(kind, key, pc, ch)
  }

  const KEEPER := At(KeepAlive, KEEP_ALIVE_KEY, Start, 0)

  function Idle(reg: Registry<nat>, dups: nat, destroyed: bool, procs: seq<Proc>): State {
    State(reg, dups, destroyed, if destroyed then Draining else Reading, procs, [], [], [], [], true)
  }

  /** Two watchers of one key can both find it free and both subscribe: they share a channel,
      the wait group is raised twice and will be lowered once. */
  lemma DuplicateSubscribe(key: string) returns (es: seq<Event>)
    requires key != KEEP_ALIVE_KEY
    ensures CanRun(Init(), es)
    ensures Exec(Init(), es) ==
      Idle(Registry(map[key := 1], 2, 2, {}, false), 1, false,
           [KEEPER, At(Watch(OnChange), key, Active, 1), At(Watch(OnChange), key, Active, 1),
            At(Worker(1, OnChange), key, Selecting, 1), At(Worker(2, OnChange), key, Selecting, 1)])
  {
    var w := Watch(OnChange);
    var s0 := Init();
    es := [];
    assert s0 == Idle(Empty(), 0, false, [KEEPER]);
    Extend(s0, es, Spawn(w, key));
    es := es + [Spawn(w, key)];
    assert Exec(s0, es) == Idle(Empty(), 0, false, [KEEPER, At(w, key, Start, 0)]);
    Extend(s0, es, Spawn(w, key));
    es := es + [Spawn(w, key)];
    assert Exec(s0, es) == Idle(Empty(), 0, false, [KEEPER, At(w, key, Start, 0), At(w, key, Start, 0)]);
    Extend(s0, es, Check(1));
    es := es + [Check(1)];
    assert Exec(s0, es) == Idle(Empty(), 0, false, [KEEPER, At(w, key, Checked, 0), At(w, key, Start, 0)]);
    Extend(s0, es, Check(2));
    es := es + [Check(2)];
    assert Exec(s0, es) == Idle(Empty(), 0, false, [KEEPER, At(w, key, Checked, 0), At(w, key, Checked, 0)]);
    Extend(s0, es, Event.Subscribe(1));
    es := es + [Event.Subscribe(1)];
    assert Exec(s0, es) ==
      Idle(Registry(map[key := 1], 1, 1, {}, false), 0, false,
           [KEEPER, At(w, key, Active, 1), At(w, key, Checked, 0), At(Worker(1, OnChange), key, Selecting, 1)]);
    Extend(s0, es, Event.Subscribe(2));
    es := es + [Event.Subscribe(2)];
  }

  /** The two watchers, their workers and the keep-alive after such a duplicate, closing down. */
  function Closing(key: string, reg: Registry<nat>, keeper: Pc, first: Pc, second: Pc, worker: Pc): State {
    Idle(reg, 1, true,
         [At(KeepAlive, KEEP_ALIVE_KEY, keeper, 0),
          At(Watch(OnChange), key, first, 1), At(Watch(OnChange), key, second, 1),
          At(Worker(1, OnChange), key, worker, 1), At(Worker(2, OnChange), key, worker, 1)])
  }

  lemma DuplicateThenDestroy(key: string) returns (es: seq<Event>)
    requires key != KEEP_ALIVE_KEY
    ensures CanRun(Init(), es)
    ensures Exec(Init(), es) ==
      Closing(key, Registry(map[key := 1, KEEP_ALIVE_KEY := 0], 3, 3, {}, false), Active, Active, Active, Exited)
  {
    var s0 := Init();
    es := DuplicateSubscribe(key);
    Extend(s0, es, Event.Subscribe(0));
    es := es + [Event.Subscribe(0)];
    Extend(s0, es, Destroy);
    es := es + [Destroy];
    assert Exec(s0, es) ==
      Closing(key, Registry(map[key := 1, KEEP_ALIVE_KEY := 0], 3, 3, {}, false), Active, Active, Active, Selecting);
    Extend(s0, es, Select(3));
    es := es + [Select(3)];
    Extend(s0, es, Select(4));
    es := es + [Select(4)];
  }

  lemma DuplicateThenLeave(key: string) returns (es: seq<Event>)
    requires key != KEEP_ALIVE_KEY
    ensures CanRun(Init(), es)
    ensures Exec(Init(), es) ==
      Closing(key, Registry(map[key := 1, KEEP_ALIVE_KEY := 0], 3, 3, {}, false), Leaving, Leaving, Leaving, Exited)
  {
    var s0 := Init();
    es := DuplicateThenDestroy(key);
    Extend(s0, es, Notice(0));
    es := es + [Notice(0)];
    Extend(s0, es, Notice(1));
    es := es + [Notice(1)];
    Extend(s0, es, Notice(2));
    es := es + [Notice(2)];
  }

  /** After such a duplicate the connection can close with every goroutine gone and the wait
      group still at 1. */
  lemma DuplicateLeavesWaitGroupUp(key: string) returns (es: seq<Event>)
    requires key != KEEP_ALIVE_KEY
    ensures CanRun(Init(), es)
    ensures var s := Exec(Init(), es);
      AllExited(s) && s.handler == Draining && s.reg.subs == map[] && s.reg.wg == s.dups == 1
  {
    var s0, k := Init(), KEEP_ALIVE_KEY;
    es := DuplicateThenLeave(key);
    Extend(s0, es, Event.Unsubscribe(1));
    es := es + [Event.Unsubscribe(1)];
    assert map[key := 1, k := 0] - {key} == map[k := 0];
    assert Exec(s0, es) == Closing(key, Registry(map[k := 0], 2, 2, {1}, false), Leaving, Exited, Leaving, Exited);
    Extend(s0, es, Event.Unsubscribe(2));
    es := es + [Event.Unsubscribe(2)];
    assert Exec(s0, es) == Closing(key, Registry(map[k := 0], 2, 2, {1}, false), Leaving, Exited, Exited, Exited);
    Extend(s0, es, Event.Unsubscribe(0));
    es := es + [Event.Unsubscribe(0)];
    assert map[k := 0] - {k} == map[];
    assert Exec(s0, es) == Closing(key, Registry(map[], 1, 1, {0, 1}, false), Exited, Exited, Exited, Exited);
  }

  /** Once every goroutine is gone, a draining handler whose wait group is up never returns. */
  lemma {:induction false} NeverReturns(s: State, es: seq<Event>)
    requires AllExited(s) && AllShaped(s) && s.handler == Draining && s.reg.wg != 0 && CanRun(s, es)
    ensures Exec(s, es).handler == Draining
    decreases |es|
  {
    if es != [] {
      NeverReturns(Next(s, es[0]), es[1..]);
    }
  }

  /** A watcher whose key was unwatched before it noticed. */
  lemma Unwatched(key: string) returns (es: seq<Event>)
    requires key != KEEP_ALIVE_KEY
    ensures CanRun(Init(), es)
    ensures Exec(Init(), es) == Idle(Registry(map[], 0, 0, {1}, false), 0, false,
      [KEEPER, At(Watch(OnChange), key, Active, 1), At(Worker(1, OnChange), key, Selecting, 1),
       At(Unwatch, key, Exited, 0)])
  {
    var s0, w := Init(), Watch(OnChange);
    es := [];
    Extend(s0, es, Spawn(w, key));
    es := es + [Spawn(w, key)];
    Extend(s0, es, Check(1));
    es := es + [Check(1)];
    assert Exec(s0, es) == Idle(Empty(), 0, false, [KEEPER, At(w, key, Checked, 0)]);
    Extend(s0, es, Event.Subscribe(1));
    es := es + [Event.Subscribe(1)];
    Extend(s0, es, Spawn(Unwatch, key));
    es := es + [Spawn(Unwatch, key)];
    Extend(s0, es, Event.Unsubscribe(3));
    es := es + [Event.Unsubscribe(3)];
    assert map[key := 1] - {key} == map[];
  }

  /** A watcher that was unwatched closes, in its deferred Unsubscribe, the channel of the
      watcher that took its key since; no duplicate subscribe is involved. */
  lemma UnsubscribeEndsNewerWatch(key: string) returns (es: seq<Event>)
    requires key != KEEP_ALIVE_KEY
    ensures CanRun(Init(), es)
    ensures var s := Exec(Init(), es);
      && s.dups == 0 && !s.destroyed && |s.procs| > 4
      && s.procs[1].key == s.procs[4].key == key && s.procs[1].pc == Exited
      && s.procs[4].pc == Active && s.procs[4].ch in s.reg.closed && key !in s.reg.subs
  {
    var s0, w, v := Init(), Watch(OnChange), Worker(1, OnChange);
    es := Unwatched(key);
    Extend(s0, es, Spawn(w, key));
    es := es + [Spawn(w, key)];
    Extend(s0, es, Check(4));
    es := es + [Check(4)];
    Extend(s0, es, Event.Subscribe(4));
    es := es + [Event.Subscribe(4)];
    assert Exec(s0, es) == Idle(Registry(map[key := 4], 1, 1, {1}, false), 0, false,
      [KEEPER, At(w, key, Active, 1), At(v, key, Selecting, 1), At(Unwatch, key, Exited, 0),
       At(w, key, Active, 4), At(Worker(4, OnChange), key, Selecting, 4)]);
    Extend(s0, es, Notice(1));
    es := es + [Notice(1)];
    Extend(s0, es, Event.Unsubscribe(1));
    es := es + [Event.Unsubscribe(1)];
  }

  /** The handler can return before a goroutine it started has subscribed. */
  lemma HandlerReturnsFirst() returns (es: seq<Event>)
    ensures CanRun(Init(), es)
    ensures var s := Exec(Init(), es);
      s.handler == Returned && |s.procs| > 0 && s.procs[0].pc == Active && KEEP_ALIVE_KEY in s.reg.subs
  {
    var s0 := Init();
    es := [];
    Extend(s0, es, Destroy);
    es := es + [Destroy];
    Extend(s0, es, Return);
    es := es + [Return];
    Extend(s0, es, Event.Subscribe(0));
    es := es + [Event.Subscribe(0)];
  }

  /** A watcher of `key` with the given worker, and what it has put on the queue and the socket. */
  function Polling(key: string, worker: Proc, queue: seq<Action>, sent: seq<Action>, written: seq<Action>): State {
    State(Registry(map[key := 1], 1, 1, {}, false), 0, false, Reading,
          [KEEPER, At(Watch(Always), key, Active, 1), worker], queue, sent, written, [], true)
  }

  /** The worker of a watcher that answers every poll. */
  function Poller(key: string, pc: Pc, wait: nat): Proc {
    Proc(Worker(1, Always), key, pc, 1, wait)
  }

  lemma StartPolling(key: string) returns (es: seq<Event>)
    requires key != KEEP_ALIVE_KEY
    ensures CanRun(Init(), es) && Exec(Init(), es) == Polling(key, Poller(key, Selecting, 0), [], [], [])
    ensures PollsBy(es, 2) == []
  {
    var s0, w := Init(), Watch(Always);
    es := [];
    Extend(s0, es, Spawn(w, key));
    es := es + [Spawn(w, key)];
    Extend(s0, es, Check(1));
    es := es + [Check(1)];
    assert Exec(s0, es) == Idle(Empty(), 0, false, [KEEPER, At(w, key, Checked, 0)]);
    Extend(s0, es, Event.Subscribe(1));
    es := es + [Event.Subscribe(1)];
    NothingSaid([], Spawn(w, key), 2, true);
    NothingSaid([Spawn(w, key)], Check(1), 2, true);
    NothingSaid([Spawn(w, key), Check(1)], Event.Subscribe(1), 2, true);
    assert [] + [Spawn(w, key)] == [Spawn(w, key)] && [Spawn(w, key)] + [Check(1)] == [Spawn(w, key), Check(1)];
  }

  lemma PollingAnswer(key: string, sent: seq<Action>, written: seq<Action>, wait: nat, last: nat)
    returns (es: seq<Event>)
    ensures var s := Polling(key, Poller(key, Selecting, wait), [], sent, written);
      var holding := Sending([Action(Goroutine(2), true, last, "")], ThenSelect);
      && CanRun(s, es)
      && Exec(s, es) == Polling(key, Poller(key, holding, WaitNext(wait, last)), [], sent, written)
    ensures es == [Select(2), Finish(2, Polled(last, "")), Look(2)]
  {
    var s := Polling(key, Poller(key, Selecting, wait), [], sent, written);
    es := [];
    Extend(s, es, Select(2));
    es := es + [Select(2)];
    assert Exec(s, es) == Polling(key, Poller(key, Active, wait), [], sent, written);
    Extend(s, es, Finish(2, Polled(last, "")));
    es := es + [Finish(2, Polled(last, ""))];
    assert Exec(s, es).procs[2] ==
      Poller(key, Recheck([Action(Goroutine(2), true, last, "")]), WaitNext(wait, last));
    Extend(s, es, Look(2));
    es := es + [Look(2)];
  }

  /** One poll, answered and written. */
  lemma PollOnce(key: string, sent: seq<Action>, written: seq<Action>, wait: nat, last: nat)
    returns (es: seq<Event>)
    requires last > 0
    ensures var s := Polling(key, Poller(key, Selecting, wait), [], sent, written);
      var a := Action(Goroutine(2), true, last, "");
      && CanRun(s, es)
      && Exec(s, es) == Polling(key, Poller(key, Selecting, WaitNext(wait, last)), [], sent + [a], written + [a])
    ensures es == [Select(2), Finish(2, Polled(last, "")), Look(2), Send(2), Write(0, true)]
  {
    var s := Polling(key, Poller(key, Selecting, wait), [], sent, written);
    var a := Action(Goroutine(2), true, last, "");
    es := PollingAnswer(key, sent, written, wait, last);
    Extend(s, es, Send(2));
    es := es + [Send(2)];
    assert Exec(s, es) == Polling(key, Poller(key, Selecting, WaitNext(wait, last)), [a], sent + [a], written);
    Extend(s, es, Write(0, true));
    es := es + [Write(0, true)];
  }

  lemma {:induction false} PollsOfSum(a: seq<Event>, b: seq<Event>, p: nat)
    ensures PollsBy(a + b, p) == PollsBy(a, p) + PollsBy(b, p)
  {
    if b == [] {
      assert a + b == a;
    } else {
      assert (a + b)[..|a + b| - 1] == a + b[..|b| - 1];
      PollsOfSum(a, b[..|b| - 1], p);
    }
  }

  lemma PollsOfOne(last: nat)
    ensures PollsBy([Select(2), Finish(2, Polled(last, "")), Look(2), Send(2), Write(0, true)], 2) == [Poll(last, "")]
  {
    var rest := [Look(2), Send(2), Write(0, true)];
    assert rest[..2] == [Look(2), Send(2)] && rest[..2][..1] == [Look(2)] && rest[..2][..1][..0] == [];
    assert PollsBy([Look(2), Send(2)], 2) == PollsBy([Look(2)], 2) + [];
    assert PollsBy(rest, 2) == PollsBy([Look(2), Send(2)], 2) + [] == [];
    var first := [Select(2), Finish(2, Polled(last, ""))];
    assert first[..1] == [Select(2)] && first[..1][..0] == [];
    assert PollsBy(first, 2) == [Poll(last, "")];
    PollsOfSum(first, rest, 2);
    assert first + rest == [Select(2), Finish(2, Polled(last, "")), Look(2), Send(2), Write(0, true)];
  }

  /** A watcher that answers every poll puts the same index on the socket twice. */
  lemma SameIndexTwice(key: string) returns (es: seq<Event>)
    requires key != KEEP_ALIVE_KEY
    ensures CanRun(Init(), es) && PollsBy(es, 2) == [Poll(7, ""), Poll(7, "")]
    ensures Indices(Exec(Init(), es).written, 2) == [7, 7]
  {
    var s0, a := Init(), Action(Goroutine(2), true, 7, "");
    assert [] + [a] == [a];
    es := StartPolling(key);
    var first := PollOnce(key, [], [], 0, 7);
    Join(s0, es, first);
    PollsOfOne(7);
    PollsOfSum(es, first, 2);
    es := es + first;
    var second := PollOnce(key, [a], [a], 7, 7);
    Join(s0, es, second);
    PollsOfSum(es, second, 2);
    es := es + second;
    OwnAppend([], a, 2, true);
    OwnAppend([a], a, 2, true);
    assert Own([a] + [a], 2, true) == [a, a];
  }
}
