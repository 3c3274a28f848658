/** One browser connection as a step machine: any number of goroutines sharing the registry,
    the destroy channel and the bounded send queue, in any interleaving.

    A channel is named by the goroutine that made it; each goroutine subscribes at most once.
    `Subscribe` and `Unsubscribe` hold the lock and are single steps. The `Subscribed` check
    takes no lock and is a step of its own. */
module Connection {
  import opened Wrappers
  import opened LongPoll
  import opened Subscriptions

  const SEND_QUEUE_SIZE := 500
  const KEEP_ALIVE_KEY := "/internal/keep-alive"

  datatype Sender = ReadPump | Goroutine(id: nat)

  /** A message to the browser. `data` tells results of a watcher from notifications. */
  datatype Action = Action(from: Sender, data: bool, index: nat, payload: string)

  /** How a watcher answers: with one action carrying the new index when `QueryChanged`, with one
      carrying the last index at every poll, or in some other way. */
  datatype Answers = OnChange | Always | Freely

  datatype Kind =
    | KeepAlive
    | Watch(answers: Answers)
    | Worker(watcher: nat, answers: Answers)
    | Once
    | Stream
    | Unwatch

  datatype Then = ThenLeave | ThenSelect | ThenExit | ThenGoOn

  datatype Pc =
    | Start                                   // not yet looked at the registry
    | Checked                                 // found its key free, not yet subscribed
    | Selecting                               // a worker at its select statement
    | Active                                  // waiting in a loop, or inside Do
    | Recheck(batch: seq<Action>)             // Do returned, about to look at the registry again
    | Sending(batch: seq<Action>, after: Then) // putting a batch on the send queue
    | Leaving                                 // returned, deferred Unsubscribe still to run
    | Exited

  /** `ch` names the channel received from Subscribe (for a worker: that of its watcher). */
  datatype Proc = Proc(kind: Kind, key: string, pc: Pc, ch: nat, waitIndex: nat)

  /** The connection's own goroutine: `Refusing` is putting a read-only error on the queue. */
  datatype Handler = Reading | Refusing(message: string) | Draining | Returned

  /** `sent` is everything ever enqueued, `lost` an action whose write failed. `dups` counts
      Subscribe calls that found their key taken. */
  datatype State = State(
    reg: Registry<nat>, dups: nat, destroyed: bool, handler: Handler, procs: seq<Proc>,
    queue: seq<Action>, sent: seq<Action>, written: seq<Action>, lost: seq<Action>, pumping: bool)

  datatype Outcome =
    | Failed(message: string)
    | Polled(lastIndex: nat, payload: string)
    | Answered(batch: seq<Action>)

  datatype Event =
    | Spawn(kind: Kind, key: string)
    | Refuse(message: string)
    | SendRefusal
    | Check(p: nat)
    | Subscribe(p: nat)
    | Notice(p: nat)
    | Select(p: nat)
    | Finish(p: nat, outcome: Outcome)
    | Look(p: nat)
    | Emit(p: nat, action: Action)
    | Send(p: nat)
    | Unsubscribe(p: nat)
    | Write(random: nat, ok: bool)  // the socket is closed before the destroy channel
    | StopWriting
    | Destroy
    | Return

  function NewProc(kind: Kind, key: string, pc: Pc, ch: nat): Proc {
    Proc(kind, key, pc, ch, 0)
  }

  function Init(): State {
    State(Empty(), 0, false, Reading, [NewProc(KeepAlive, KEEP_ALIVE_KEY, Start, 0)],
          [], [], [], [], true)
  }

  predicate HasRoom(s: State) {
    |s.queue| < SEND_QUEUE_SIZE
  }

  /** Whether the channels a goroutine listens on have been closed. */
  predicate Told(s: State, proc: Proc) {
    s.destroyed || (proc.kind != KeepAlive && proc.ch in s.reg.closed)
  }

  predicate Subscriber(kind: Kind) {
    kind.KeepAlive? || kind.Watch? || kind.Once? || kind.Stream?
  }

  predicate From(batch: seq<Action>, p: nat) {
    forall i | 0 <= i < |batch| :: batch[i].from == Goroutine(p)
  }

  predicate Fits(proc: Proc, p: nat, outcome: Outcome) {
    match outcome
    case Failed(_) => true
    case Polled(_, _) => proc.kind.Worker? && proc.kind.answers != Freely
    case Answered(batch) => From(batch, p) && (proc.kind.Worker? ==> proc.kind.answers == Freely)
  }

  predicate Enabled(s: State, e: Event) {
    match e
    case Spawn(kind, _) => s.handler == Reading && !kind.KeepAlive? && !kind.Worker?
    case Refuse(_) => s.handler == Reading
    case SendRefusal => s.handler.Refusing? && HasRoom(s)
    case Check(p) =>
      p < |s.procs| && s.procs[p].pc == Start
      && (s.procs[p].kind.Watch? || s.procs[p].kind.Once? || s.procs[p].kind.Stream?)
    case Subscribe(p) =>
      p < |s.procs|
      && (s.procs[p].pc == Checked || (s.procs[p].kind.KeepAlive? && s.procs[p].pc == Start))
    case Notice(p) =>
      p < |s.procs| && s.procs[p].pc == Active && (s.procs[p].kind.Watch? || s.procs[p].kind.KeepAlive?)
      && Told(s, s.procs[p])
    case Select(p) => p < |s.procs| && s.procs[p].pc == Selecting
    case Finish(p, outcome) =>
      p < |s.procs| && s.procs[p].pc == Active
      && (s.procs[p].kind.Worker? || s.procs[p].kind.Once? || s.procs[p].kind.Stream?)
      && Fits(s.procs[p], p, outcome)
    case Look(p) => p < |s.procs| && s.procs[p].pc.Recheck?
    case Emit(p, action) =>
      p < |s.procs| && s.procs[p].pc == Active && (s.procs[p].kind.Stream? || s.procs[p].kind.KeepAlive?)
      && action.from == Goroutine(p)
    case Send(p) =>
      p < |s.procs| && s.procs[p].pc.Sending? && s.procs[p].pc.batch != [] && HasRoom(s)
    case Unsubscribe(p) =>
      p < |s.procs|
      && (s.procs[p].pc == Leaving || (s.procs[p].kind.Unwatch? && s.procs[p].pc == Start))
    case Write(_, ok) => s.pumping && s.queue != [] && (ok ==> !s.destroyed)
    case StopWriting => s.pumping && s.destroyed
    case Destroy => s.handler == Reading
    case Return => s.handler == Draining && s.reg.wg == 0
  }

  function Goto(s: State, p: nat, pc: Pc): State
    requires p < |s.procs|
  {
    s.(procs := s.procs[p := s.procs[p].(pc := pc)])
  }

  function Enqueue(s: State, a: Action): State {
    s.(queue := s.queue + [a], sent := s.sent + [a])
  }

  function PcAfter(after: Then): Pc {
    match after
    case ThenLeave => Leaving
    case ThenSelect => Selecting
    case ThenExit => Exited
    case ThenGoOn => Active
  }

  /** Where a goroutine goes once its whole batch is on the queue. */
  function AfterBatch(proc: Proc): Then {
    if proc.kind.Worker? then ThenSelect else ThenLeave
  }

  function Subscribed(s: State, p: nat): State
    requires p < |s.procs|
  {
    var proc := s.procs[p];
    var taken := proc.key in s.reg.subs;
    var ch := if taken then s.reg.subs[proc.key] else p;
    var moved := s.procs[p := proc.(pc := Active, ch := ch)];
    s.(reg := AfterSubscribe(s.reg, proc.key, p),
       dups := if taken then s.dups + 1 else s.dups,
       procs := if proc.kind.Watch?
                then moved + [NewProc(Worker(p, proc.kind.answers), proc.key, Selecting, ch)]
                else moved)
  }

  function Finished(s: State, p: nat, outcome: Outcome): State
    requires p < |s.procs|
  {
    var proc := s.procs[p];
    var proc' :=
      match outcome
      case Failed(message) =>
        proc.(pc := Sending([Action(Goroutine(p), false, 0, message)],
                            if proc.kind.Worker? then ThenExit else ThenLeave))
      case Polled(last, payload) =>
        var answer := Changed(proc.waitIndex, last) || (proc.kind.Worker? && proc.kind.answers == Always);
        var batch := if answer then [Action(Goroutine(p), true, last, payload)] else [];
        proc.(pc := Recheck(batch), waitIndex := WaitNext(proc.waitIndex, last))
      case Answered(batch) => proc.(pc := Recheck(batch));
    s.(procs := s.procs[p := proc'])
  }

  function Looked(s: State, p: nat): State
    requires p < |s.procs| && s.procs[p].pc.Recheck?
  {
    var proc := s.procs[p];
    var batch := proc.pc.batch;
    if proc.key !in s.reg.subs then Goto(s, p, if proc.kind.Worker? then Exited else Leaving)
    else if batch == [] then Goto(s, p, PcAfter(AfterBatch(proc)))
    else Goto(s, p, Sending(batch, AfterBatch(proc)))
  }

  function Sent(s: State, p: nat): State
    requires p < |s.procs| && s.procs[p].pc.Sending? && s.procs[p].pc.batch != []
  {
    var proc := s.procs[p];
    var rest := proc.pc.batch[1..];
    var proc' :=
      proc.(pc := if rest == [] then PcAfter(proc.pc.after) else Sending(rest, proc.pc.after));
    Enqueue(s, proc.pc.batch[0]).(procs := s.procs[p := proc'])
  }

  /** An action without an index gets a random one just before it is written. */
  function Stamp(a: Action, random: nat): Action {
    if a.index == 0 then a.(index := random) else a
  }

  function Next(s: State, e: Event): State
    requires Enabled(s, e)
  {
    match e
    case Spawn(kind, key) => s.(procs := s.procs + [NewProc(kind, key, Start, 0)])
    case Refuse(message) => s.(handler := Refusing(message))
    case SendRefusal => Enqueue(s, Action(ReadPump, false, 0, s.handler.message)).(handler := Reading)
    case Check(p) => Goto(s, p, if s.procs[p].key in s.reg.subs then Exited else Checked)
    case Subscribe(p) => Subscribed(s, p)
    case Notice(p) => Goto(s, p, Leaving)
    case Select(p) => Goto(s, p, if Told(s, s.procs[p]) then Exited else Active)
    case Finish(p, outcome) => Finished(s, p, outcome)
    case Look(p) => Looked(s, p)
    case Emit(p, action) => Goto(s, p, Sending([action], ThenGoOn))
    case Send(p) => Sent(s, p)
    case Unsubscribe(p) => Goto(s, p, Exited).(reg := AfterUnsubscribe(s.reg, s.procs[p].key))
    case Write(random, ok) =>
      var s' := s.(queue := s.queue[1..]);
      if ok then s'.(written := s.written + [Stamp(s.queue[0], random)])
      else s'.(lost := [s.queue[0]], pumping := false)
    case StopWriting => s.(pumping := false)
    case Destroy => s.(destroyed := true, handler := Draining)
    case Return => s.(handler := Returned)
  }

  predicate CanRun(s: State, es: seq<Event>)
    decreases |es|
  {
    es == [] || (Enabled(s, es[0]) && CanRun(Next(s, es[0]), es[1..]))
  }

  function Exec(s: State, es: seq<Event>): State
    requires CanRun(s, es)
    decreases |es|
  {
    if es == [] then s else Exec(Next(s, es[0]), es[1..])
  }

  /** The goroutine that takes a step, unless it is the connection itself. */
  function Actor(e: Event): Option<nat> {
    match e
    case Check(p) => Some(p)
    case Subscribe(p) => Some(p)
    case Notice(p) => Some(p)
    case Select(p) => Some(p)
    case Finish(p, _) => Some(p)
    case Look(p) => Some(p)
    case Emit(p, _) => Some(p)
    case Send(p) => Some(p)
    case Unsubscribe(p) => Some(p)
    case _ => None
  }

  predicate OwnStep(e: Event, p: nat) {
    Actor(e) == Some(p)
  }

  lemma OthersLeaveAlone(s: State, e: Event, p: nat)
    requires Enabled(s, e) && p < |s.procs| && !OwnStep(e, p)
    ensures p < |Next(s, e).procs| && Next(s, e).procs[p] == s.procs[p]
  {
  }

  // ------------------------------------------------------------- putting runs together

  lemma OneStep(s: State, e: Event)
    requires Enabled(s, e)
    ensures CanRun(s, [e]) && Exec(s, [e]) == Next(s, e)
  {
    assert [e][0] == e && [e][1..] == [];
    assert CanRun(Next(s, e), []);
  }

  lemma {:induction false} Join(s: State, a: seq<Event>, b: seq<Event>)
    requires CanRun(s, a) && CanRun(Exec(s, a), b)
    ensures CanRun(s, a + b) && Exec(s, a + b) == Exec(Exec(s, a), b)
    decreases |a|
  {
    if a == [] {
      assert a + b == b;
    } else {
      assert (a + b)[1..] == a[1..] + b;
      Join(Next(s, a[0]), a[1..], b);
    }
  }

  lemma Extend(s: State, es: seq<Event>, e: Event)
    requires CanRun(s, es) && Enabled(Exec(s, es), e)
    ensures CanRun(s, es + [e]) && Exec(s, es + [e]) == Next(Exec(s, es), e)
  {
    OneStep(Exec(s, es), e);
    Join(s, es, [e]);
  }
  /** A run without its last step. */
  lemma {:induction false} WithoutLast(s: State, es: seq<Event>)
    requires CanRun(s, es) && es != []
    ensures var front, e := es[..|es| - 1], es[|es| - 1];
      CanRun(s, front) && Enabled(Exec(s, front), e) && Exec(s, es) == Next(Exec(s, front), e)
    decreases |es|
  {
    var s' := Next(s, es[0]);
    if |es| == 1 {
      assert es[1..] == [] && CanRun(s, []);
    } else {
      WithoutLast(s', es[1..]);
      assert es[1..][..|es| - 2] == es[..|es| - 1][1..];
    }
  }
}
