/** Every interleaving of the pool computes the sequential totals, and with the quit channel
    open every run ends. */
module WorkerPoolTotals {
  import opened ClusterTotals
  import opened WorkerPool
  import opened WorkerPoolSafety

  // ------------------------------------------------------------- conservation

  /** What a held or queued task will still add. */
  function TaskShare(nodes: seq<Node>, t: nat): Totals {
    if t < |nodes| then Contribution(nodes[t]) else ZERO
  }

  function Share(nodes: seq<Node>, pc: Pc): Totals {
    if pc == Idle || pc == Gone || pc.Finishing? then ZERO else TaskShare(nodes, pc.task)
  }

  function WorkerShares(nodes: seq<Node>, workers: seq<Pc>): seq<Totals> {
    seq(|workers|, i requires 0 <= i < |workers| => Share(nodes, workers[i]))
  }

  function QueueShares(nodes: seq<Node>, tasks: seq<nat>): seq<Totals> {
    seq(|tasks|, i requires 0 <= i < |tasks| => TaskShare(nodes, tasks[i]))
  }

  /** In every figure, results, held tasks and queued tasks together are worth the nodes
      considered so far. */
  ghost predicate Balanced(s: Pool, f: Figure) {
    && s.fed <= |s.nodes|
    && SumOf(s.results, f) + SumOf(WorkerShares(s.nodes, s.workers), f) + SumOf(QueueShares(s.nodes, s.tasks), f)
       == SumOf(Contributions(s.nodes[..s.fed]), f)
  }

  lemma MoveShares(nodes: seq<Node>, workers: seq<Pc>, w: nat, pc: Pc, f: Figure)
    requires w < |workers|
    ensures SumOf(WorkerShares(nodes, workers[w := pc]), f) + Get(Share(nodes, workers[w]), f)
         == SumOf(WorkerShares(nodes, workers), f) + Get(Share(nodes, pc), f)
  {
    assert WorkerShares(nodes, workers[w := pc]) == WorkerShares(nodes, workers)[w := Share(nodes, pc)];
    SumUpdate(WorkerShares(nodes, workers), w, Share(nodes, pc), f);
  }

  lemma FeedShares(nodes: seq<Node>, fed: nat, f: Figure)
    requires fed < |nodes|
    ensures SumOf(Contributions(nodes[..fed + 1]), f)
         == SumOf(Contributions(nodes[..fed]), f) + Get(Contribution(nodes[fed]), f)
  {
    assert Contributions(nodes[..fed + 1]) == Contributions(nodes[..fed]) + [Contribution(nodes[fed])];
    SumAppend(Contributions(nodes[..fed]), Contribution(nodes[fed]), f);
  }

  lemma QueueAppend(nodes: seq<Node>, tasks: seq<nat>, t: nat, f: Figure)
    ensures SumOf(QueueShares(nodes, tasks + [t]), f)
         == SumOf(QueueShares(nodes, tasks), f) + Get(TaskShare(nodes, t), f)
  {
    assert QueueShares(nodes, tasks + [t]) == QueueShares(nodes, tasks) + [TaskShare(nodes, t)];
    SumAppend(QueueShares(nodes, tasks), TaskShare(nodes, t), f);
  }

  lemma QueueTake(nodes: seq<Node>, tasks: seq<nat>, f: Figure)
    requires tasks != []
    ensures SumOf(QueueShares(nodes, tasks), f)
         == Get(TaskShare(nodes, tasks[0]), f) + SumOf(QueueShares(nodes, tasks[1..]), f)
  {
    assert QueueShares(nodes, tasks) == [TaskShare(nodes, tasks[0])] + QueueShares(nodes, tasks[1..]);
    SumCons(TaskShare(nodes, tasks[0]), QueueShares(nodes, tasks[1..]), f);
  }

  lemma NothingHeld(nodes: seq<Node>, workers: seq<Pc>, f: Figure)
    requires forall w | 0 <= w < |workers| :: HoldsTask(workers[w]) == 0
    ensures SumOf(WorkerShares(nodes, workers), f) == 0
  {
    var shares := WorkerShares(nodes, workers);
    forall i | 0 <= i < |shares| ensures Get(shares[i], f) == 0 {
      assert HoldsTask(workers[i]) == 0;
    }
    SumOfNothing(shares, f);
  }

  lemma InitBalanced(nodes: seq<Node>, f: Figure)
    ensures Balanced(Init(nodes), f)
  {
    NothingHeld(nodes, Init(nodes).workers, f);
    assert QueueShares(nodes, []) == [] && Contributions(nodes[..0]) == [];
  }

  lemma LookupBalances(s: Pool, w: nat, f: Figure)
    requires Safe(s) && Balanced(s, f) && Enabled(s, Step(w)) && !s.workers[w].Sending?
    ensures Balanced(Stepped(s, w), f)
  {
    var pc, pc' := s.workers[w], Stepped(s, w).workers[w];
    assert PcOk(s, pc);
    assert Share(s.nodes, pc') == Share(s.nodes, pc);
    MoveShares(s.nodes, s.workers, w, pc', f);
  }

  lemma SendBalances(s: Pool, w: nat, f: Figure)
    requires Safe(s) && Balanced(s, f) && Enabled(s, Step(w)) && s.workers[w].Sending?
    ensures Balanced(Stepped(s, w), f)
  {
    HolderCanStep(s, w);
    var t := s.workers[w].task;
    assert PcOk(s, s.workers[w]);
    assert Share(s.nodes, s.workers[w]) == ResultOf(s.nodes[t]) && Share(s.nodes, Finishing(t)) == ZERO;
    MoveShares(s.nodes, s.workers, w, Finishing(t), f);
    SumAppend(s.results, ResultOf(s.nodes[t]), f);
  }

  lemma TakeBalances(s: Pool, w: nat, f: Figure)
    requires Safe(s) && Balanced(s, f) && Enabled(s, Take(w))
    ensures Balanced(Next(s, Take(w)), f)
  {
    QueueTake(s.nodes, s.tasks, f);
    MoveShares(s.nodes, s.workers, w, GetInfo(s.tasks[0]), f);
  }

  lemma SkipBalances(s: Pool, f: Figure)
    requires Balanced(s, f) && Enabled(s, Skip)
    ensures Balanced(Next(s, Skip), f)
  {
    FeedShares(s.nodes, s.fed, f);
  }

  lemma SendTaskBalances(s: Pool, f: Figure)
    requires Safe(s) && Balanced(s, f) && Enabled(s, SendTask)
    ensures Balanced(Next(s, SendTask), f)
  {
    FeedShares(s.nodes, s.fed, f);
    QueueAppend(s.nodes, s.tasks, s.fed, f);
  }

  lemma LeaveBalances(s: Pool, w: nat, f: Figure)
    requires Balanced(s, f) && Enabled(s, Leave(w))
    ensures Balanced(Next(s, Leave(w)), f)
  {
    MoveShares(s.nodes, s.workers, w, Gone, f);
  }

  lemma StepBalances(s: Pool, e: Event, f: Figure)
    requires Safe(s) && Balanced(s, f) && Enabled(s, e)
    ensures Balanced(Next(s, e), f)
  {
    match e {
      case Skip => SkipBalances(s, f);
      case SendTask => SendTaskBalances(s, f);
      case Take(w) => TakeBalances(s, w, f);
      case Step(w) =>
        if s.workers[w].Sending? {
          SendBalances(s, w, f);
        } else {
          LookupBalances(s, w, f);
        }
      case Leave(w) => LeaveBalances(s, w, f);
      case _ =>
    }
  }

  lemma WaitedMeansIdle(s: Pool)
    requires Safe(s) && s.stage != Feeding
    ensures s.tasks == [] && forall w | 0 <= w < |s.workers| :: HoldsTask(s.workers[w]) == 0
  {
    CountZero(Weights(s.workers, HoldsTask));
    forall w | 0 <= w < |s.workers| ensures HoldsTask(s.workers[w]) == 0 {
      assert Weights(s.workers, HoldsTask)[w] == 0;
    }
  }

  /** After the wait everything is in the results. */
  lemma WaitedMeansAllResults(s: Pool, f: Figure)
    requires Safe(s) && Balanced(s, f) && s.stage != Feeding
    ensures SumOf(s.results, f) == SumOf(Contributions(s.nodes), f)
  {
    WaitedMeansIdle(s);
    NothingHeld(s.nodes, s.workers, f);
    assert s.nodes[..s.fed] == s.nodes && QueueShares(s.nodes, []) == [];
  }

  ghost predicate Correct(s: Pool, f: Figure) {
    && Safe(s) && Balanced(s, f)
    && (s.stage == Collected ==> Get(s.total, f) == SumOf(Contributions(s.nodes), f))
  }

  lemma StepKeepsCorrect(s: Pool, e: Event, f: Figure)
    requires Correct(s, f) && Enabled(s, e)
    ensures Correct(Next(s, e), f) && Next(s, e).nodes == s.nodes
  {
    StepKeepsSafe(s, e);
    StepBalances(s, e, f);
    TotalStays(s, e, f);
    if e == Drain {
      DrainIsRight(s, f);
    }
  }

  lemma TotalStays(s: Pool, e: Event, f: Figure)
    requires Enabled(s, e)
    ensures Next(s, e).nodes == s.nodes
    ensures e != Drain && Next(s, e).stage == Collected ==>
      s.stage == Collected && Get(Next(s, e).total, f) == Get(s.total, f)
  {
    if e.Step? {
      StepLeavesTotal(s, e.w, f);
    }
  }

  lemma StepLeavesTotal(s: Pool, w: nat, f: Figure)
    requires Enabled(s, Step(w))
    ensures var s' := Stepped(s, w);
      s'.nodes == s.nodes && s'.stage == s.stage && Get(s'.total, f) == Get(s.total, f)
  {
  }

  lemma DrainIsRight(s: Pool, f: Figure)
    requires Safe(s) && Balanced(s, f) && s.stage == Draining
    ensures Get(Next(s, Drain).total, f) == SumOf(Contributions(s.nodes), f)
  {
    WaitedMeansAllResults(s, f);
    SumFigure(s.results, f);
  }

  lemma {:induction false} RunKeepsCorrect(s: Pool, es: seq<Event>, f: Figure)
    requires Correct(s, f) && CanRun(s, es)
    ensures Correct(Exec(s, es), f) && Exec(s, es).nodes == s.nodes
    decreases |es|
  {
    if es != [] {
      StepKeepsCorrect(s, es[0], f);
      RunKeepsCorrect(Next(s, es[0]), es[1..], f);
    }
  }

  lemma FigureIsRight(nodes: seq<Node>, es: seq<Event>, f: Figure)
    requires CanRun(Init(nodes), es)
    ensures Safe(Exec(Init(nodes), es))
    ensures Exec(Init(nodes), es).stage == Collected ==>
      Get(Exec(Init(nodes), es).total, f) == Get(SequentialTotals(nodes), f)
  {
    InitSafe(nodes);
    InitBalanced(nodes, f);
    RunKeepsCorrect(Init(nodes), es, f);
    SumFigure(Contributions(nodes), f);
  }

  /** In every run nothing panics, the wait group is exact, no send ever finds a channel full or
      closed, and whatever total is collected is the sequential sum over the nodes that count. */
  lemma PoolIsCorrect(nodes: seq<Node>, es: seq<Event>)
    requires CanRun(Init(nodes), es)
    ensures Safe(Exec(Init(nodes), es))
    ensures Exec(Init(nodes), es).stage == Collected ==>
      Exec(Init(nodes), es).total == SequentialTotals(nodes)
  {
    FigureIsRight(nodes, es, Clients);
    if Exec(Init(nodes), es).stage == Collected {
      forall f ensures Get(Exec(Init(nodes), es).total, f) == Get(SequentialTotals(nodes), f) {
        FigureIsRight(nodes, es, f);
      }
      SameFigures(Exec(Init(nodes), es).total, SequentialTotals(nodes));
    }
  }

  /** On a machine with 64-bit words the collected figures are the sequential ones, wrapped; all
      but the idle time are words. */
  lemma WordsAreCorrect(nodes: seq<Node>, es: seq<Event>, f: Figure)
    requires CanRun(Init(nodes), es) && Exec(Init(nodes), es).stage == Collected && f != CpuIdle
    ensures WordSum(Figures(Exec(Init(nodes), es).results, f))
         == Get(SequentialTotals(nodes), f) % 0x1_0000_0000_0000_0000
  {
    var s := Exec(Init(nodes), es);
    InitSafe(nodes);
    InitBalanced(nodes, f);
    RunKeepsCorrect(Init(nodes), es, f);
    WaitedMeansAllResults(s, f);
    SumFigure(Contributions(nodes), f);
    SumIsTotal(s.results, f);
    WrapsOnce(Figures(s.results, f));
  }

  // ------------------------------------------------------------- progress

  /** While the wait group is up and the quit channel open, some worker can step unless the
      collector still has tasks to send. */
  lemma WorkerCanStep(s: Pool) returns (e: Event)
    requires Safe(s) && !s.quit && s.wg > 0 && !s.adding
    ensures (e.Step? || e.Take?) && Enabled(s, e)
  {
    if Held(s) > 0 {
      var w := CountWitness(Weights(s.workers, HoldsTask));
      HolderCanStep(s, w);
      e := Step(w);
    } else {
      CountZero(Weights(s.workers, HoldsTask));
      assert Weights(s.workers, HoldsTask)[0] == 0;
      assert HoldsTask(s.workers[0]) == 0;
      assert PcOk(s, s.workers[0]) && s.workers[0] == Idle && s.tasks != [];
      e := Take(0);
    }
  }

  /** With the quit channel open the pool is never stuck before the totals are collected. */
  lemma NeverStuck(s: Pool) returns (e: Event)
    requires Safe(s) && !s.quit && s.stage != Collected
    ensures Enabled(s, e) && !e.CloseQuit?
  {
    match s.stage {
      case Feeding =>
        if s.adding {
          e := SendTask;
        } else if s.fed < |s.nodes| {
          e := if s.nodes[s.fed].listedStatus == "ready" then AddOne else Skip;
        } else if s.wg > 0 {
          e := WorkerCanStep(s);
        } else {
          e := StopWaiting;
        }
      case ClosingTasks => e := CloseTasks;
      case ClosingResults => e := CloseResults;
      case Draining => e := Drain;
    }
  }

  function StepsLeft(pc: Pc): nat {
    match pc
    case Gone => 0
    case Idle => 1
    case Finishing(_) => 2
    case Sending(_) => 3
    case GetAllocations(_) => 4
    case GetStats(_) => 5
    case GetInfo(_) => 6
  }

  function StageLeft(stage: Stage): nat {
    match stage
    case Feeding => 4
    case ClosingTasks => 3
    case ClosingResults => 2
    case Draining => 1
    case Collected => 0
  }

  /** An upper bound on the steps still to come. */
  function Measure(s: Pool): int {
    Count(Weights(s.workers, StepsLeft)) + 6 * |s.tasks| + 8 * (|s.nodes| - s.fed)
      - (if s.adding then 1 else 0) + StageLeft(s.stage) + (if s.quit then 0 else 1)
  }

  lemma WorkerStepShrinks(s: Pool, w: nat)
    requires Safe(s) && Enabled(s, Step(w))
    ensures Measure(Stepped(s, w)) < Measure(s)
  {
    HolderCanStep(s, w);
    var pc' := Stepped(s, w).workers[w];
    assert StepsLeft(pc') < StepsLeft(s.workers[w]);
    MoveCounts(s.workers, w, pc', StepsLeft);
  }

  lemma StepShrinks(s: Pool, e: Event)
    requires Safe(s) && Enabled(s, e)
    ensures Measure(Next(s, e)) < Measure(s)
  {
    match e {
      case Take(w) => MoveCounts(s.workers, w, GetInfo(s.tasks[0]), StepsLeft);
      case Step(w) => WorkerStepShrinks(s, w);
      case Leave(w) => MoveCounts(s.workers, w, Gone, StepsLeft);
      case _ =>
    }
  }

  lemma {:induction false} RunIsShort(s: Pool, es: seq<Event>)
    requires Safe(s) && CanRun(s, es)
    ensures |es| <= Measure(s)
    decreases |es|
  {
    if es == [] {
      assert Measure(s) >= 0;
    } else {
      StepKeepsSafe(s, es[0]);
      StepShrinks(s, es[0]);
      RunIsShort(Next(s, es[0]), es[1..]);
    }
  }

  /** Every run has at most `9 * |nodes| + 6` steps. */
  lemma EveryRunIsShort(nodes: seq<Node>, es: seq<Event>)
    requires CanRun(Init(nodes), es)
    ensures |es| <= 9 * |nodes| + 6
  {
    InitSafe(nodes);
    RunIsShort(Init(nodes), es);
    IdleCounts(Init(nodes).workers, StepsLeft);
  }

  /** No step but closing the quit channel is possible. */
  ghost predicate Maximal(s: Pool) {
    forall e :: Enabled(s, e) ==> e.CloseQuit?
  }

  lemma MaximalIsCollected(s: Pool)
    requires Safe(s) && !s.quit && Maximal(s)
    ensures s.stage == Collected
  {
    if s.stage != Collected {
      var e := NeverStuck(s);
    }
  }

  /** A run that closes no quit channel and cannot be continued has collected exactly the
      sequential totals. */
  lemma EveryRunEnds(nodes: seq<Node>, es: seq<Event>)
    requires CanRun(Init(nodes), es) && !Exec(Init(nodes), es).quit && Maximal(Exec(Init(nodes), es))
    ensures Exec(Init(nodes), es).stage == Collected
    ensures Exec(Init(nodes), es).total == SequentialTotals(nodes)
  {
    FigureIsRight(nodes, es, Clients);
    MaximalIsCollected(Exec(Init(nodes), es));
    PoolIsCorrect(nodes, es);
  }

  lemma {:induction false} Extend(s: Pool, es: seq<Event>, e: Event)
    requires CanRun(s, es) && Enabled(Exec(s, es), e)
    ensures CanRun(s, es + [e]) && Exec(s, es + [e]) == Next(Exec(s, es), e)
    decreases |es|
  {
    if es == [] {
      assert es + [e] == [e];
      assert CanRun(Next(s, e), []);
    } else {
      assert (es + [e])[1..] == es[1..] + [e];
      Extend(Next(s, es[0]), es[1..], e);
    }
  }

  // ------------------------------------------------------------- closing the quit channel

  /** Whether or not the quit channel is closed, with no task queued something can happen. */
  lemma NoTasksCanGoOn(s: Pool) returns (e: Event)
    requires Safe(s) && s.tasks == [] && s.stage != Collected
    ensures Enabled(s, e) && !e.CloseQuit?
  {
    match s.stage {
      case Feeding =>
        if s.adding {
          e := SendTask;
        } else if s.fed < |s.nodes| {
          e := if s.nodes[s.fed].listedStatus == "ready" then AddOne else Skip;
        } else if s.wg > 0 {
          var w := CountWitness(Weights(s.workers, HoldsTask));
          HolderCanStep(s, w);
          e := Step(w);
        } else {
          e := StopWaiting;
        }
      case ClosingTasks => e := CloseTasks;
      case ClosingResults => e := CloseResults;
      case Draining => e := Drain;
    }
  }

  /** A run that cannot go on has collected its totals exactly when no task is left queued. */
  lemma CollectedIffNoTasks(s: Pool)
    requires Safe(s) && Maximal(s)
    ensures s.stage == Collected <==> s.tasks == []
  {
    if s.stage == Collected {
      WaitedMeansIdle(s);
    } else if s.tasks == [] {
      var e := NoTasksCanGoOn(s);
    }
  }

  /** Nothing can happen any more, and the totals are not collected. */
  ghost predicate Hung(s: Pool) {
    s.stage != Collected && forall e :: !Enabled(s, e)
  }

  /** The first `n` listed nodes that are ready. */
  function Ready(nodes: seq<Node>, n: nat): (ready: seq<nat>)
    requires n <= |nodes|
    ensures |ready| <= n
  {
    if n == 0 then [] else Ready(nodes, n - 1) + (if nodes[n - 1].listedStatus == "ready" then [n - 1] else [])
  }

  lemma {:induction false} ReadyListed(nodes: seq<Node>, n: nat, i: nat)
    requires i < n <= |nodes| && nodes[i].listedStatus == "ready"
    ensures Ready(nodes, n) != []
  {
    if i < n - 1 {
      ReadyListed(nodes, n - 1, i);
    }
  }

  /** `n` nodes considered and `gone` workers gone, without any task taken. */
  function Untouched(nodes: seq<Node>, n: nat, gone: nat, quit: bool): Pool
    requires n <= |nodes|
  {
    var tasks := Ready(nodes, n);
    Init(nodes).(fed := n, tasks := tasks, wg := |tasks|, quit := quit,
                 workers := seq(|nodes| + 1, i => if i < gone then Gone else Idle))
  }

  lemma {:induction false} FeedAll(nodes: seq<Node>, n: nat) returns (es: seq<Event>)
    requires n <= |nodes|
    ensures CanRun(Init(nodes), es) && Exec(Init(nodes), es) == Untouched(nodes, n, 0, false)
  {
    es := [];
    if n > 0 {
      es := FeedAll(nodes, n - 1);
      if nodes[n - 1].listedStatus == "ready" {
        Extend(Init(nodes), es, AddOne);
        es := es + [AddOne];
        Extend(Init(nodes), es, SendTask);
        es := es + [SendTask];
      } else {
        Extend(Init(nodes), es, Skip);
        es := es + [Skip];
      }
    }
  }

  lemma {:induction false} LeaveAll(nodes: seq<Node>, gone: nat) returns (es: seq<Event>)
    requires gone <= |nodes| + 1
    ensures CanRun(Init(nodes), es) && Exec(Init(nodes), es) == Untouched(nodes, |nodes|, gone, true)
  {
    if gone == 0 {
      es := FeedAll(nodes, |nodes|);
      Extend(Init(nodes), es, CloseQuit);
      es := es + [CloseQuit];
    } else {
      es := LeaveAll(nodes, gone - 1);
      var s := Exec(Init(nodes), es);
      Extend(Init(nodes), es, Leave(gone - 1));
      es := es + [Leave(gone - 1)];
      assert s.workers[gone - 1 := Gone] == Untouched(nodes, |nodes|, gone, true).workers;
    }
  }

  /** Closing the quit channel can leave the collector waiting for ever, with the wait group up
      and every worker gone, whenever some node is listed as ready. */
  lemma QuitCanHang(nodes: seq<Node>, i: nat) returns (es: seq<Event>)
    requires i < |nodes| && nodes[i].listedStatus == "ready"
    ensures CanRun(Init(nodes), es) && Hung(Exec(Init(nodes), es))
    ensures Exec(Init(nodes), es).wg > 0 && Exec(Init(nodes), es).quit
  {
    es := LeaveAll(nodes, |nodes| + 1);
    ReadyListed(nodes, |nodes|, i);
    var s := Exec(Init(nodes), es);
    assert forall w | 0 <= w < |s.workers| :: s.workers[w] == Gone;
  }

  lemma QueuedIsReady(s: Pool)
    requires Safe(s) && s.tasks != []
    ensures exists i :: 0 <= i < |s.nodes| && s.nodes[i].listedStatus == "ready"
  {
    assert TaskOk(s, s.tasks[0]);
  }

  /** Some run hangs exactly when some node is listed as ready. */
  lemma HangsIff(nodes: seq<Node>)
    ensures (exists es :: CanRun(Init(nodes), es) && Hung(Exec(Init(nodes), es)))
       <==> exists i :: 0 <= i < |nodes| && nodes[i].listedStatus == "ready"
  {
    if i :| 0 <= i < |nodes| && nodes[i].listedStatus == "ready" {
      var es := QuitCanHang(nodes, i);
    }
    if es :| CanRun(Init(nodes), es) && Hung(Exec(Init(nodes), es)) {
      InitSafe(nodes);
      InitBalanced(nodes, Clients);
      RunKeepsCorrect(Init(nodes), es, Clients);
      CollectedIffNoTasks(Exec(Init(nodes), es));
      QueuedIsReady(Exec(Init(nodes), es));
    }
  }
}
