/** What every interleaving of the worker pool keeps, and what it computes. */
module WorkerPoolSafety {
  import opened Wrappers
  import opened ClusterTotals
  import opened WorkerPool

  // ------------------------------------------------------------- counting workers

  function Count(weights: seq<nat>): nat {
    if weights == [] then 0 else weights[0] + Count(weights[1..])
  }

  function Weights(workers: seq<Pc>, f: Pc -> nat): seq<nat> {
    seq(|workers|, i requires 0 <= i < |workers| => f(workers[i]))
  }

  lemma {:induction false} CountUpdate(weights: seq<nat>, i: nat, n: nat)
    requires i < |weights|
    ensures Count(weights[i := n]) + weights[i] == Count(weights) + n
  {
    if i > 0 {
      assert weights[i := n][1..] == weights[1..][i - 1 := n];
      CountUpdate(weights[1..], i - 1, n);
    } else {
      assert weights[0 := n][1..] == weights[1..];
    }
  }

  lemma {:induction false} CountWitness(weights: seq<nat>) returns (i: nat)
    requires Count(weights) > 0
    ensures i < |weights| && weights[i] > 0
  {
    if weights[0] > 0 {
      i := 0;
    } else {
      var j := CountWitness(weights[1..]);
      i := j + 1;
    }
  }

  lemma {:induction false} CountConstant(weights: seq<nat>, c: nat)
    requires forall i | 0 <= i < |weights| :: weights[i] == c
    ensures Count(weights) == c * |weights|
  {
    if weights != [] {
      CountConstant(weights[1..], c);
    }
  }

  lemma {:induction false} CountZero(weights: seq<nat>)
    requires Count(weights) == 0
    ensures forall i | 0 <= i < |weights| :: weights[i] == 0
  {
    if weights != [] {
      CountZero(weights[1..]);
    }
  }

  function HoldsTask(pc: Pc): nat {
    if pc == Idle || pc == Gone then 0 else 1
  }

  function HoldsUnsent(pc: Pc): nat {
    if pc == Idle || pc == Gone || pc.Finishing? then 0 else 1
  }

  function Held(s: Pool): nat {
    Count(Weights(s.workers, HoldsTask))
  }

  function Unsent(s: Pool): nat {
    Count(Weights(s.workers, HoldsUnsent))
  }

  lemma MoveCounts(workers: seq<Pc>, w: nat, pc: Pc, f: Pc -> nat)
    requires w < |workers|
    ensures Count(Weights(workers[w := pc], f)) + f(workers[w]) == Count(Weights(workers, f)) + f(pc)
  {
    assert Weights(workers[w := pc], f) == Weights(workers, f)[w := f(pc)];
    CountUpdate(Weights(workers, f), w, f(pc));
  }

  // ------------------------------------------------------------- the wait group and the channels

  /** The wait group counts queued tasks, held tasks and a task about to be queued. */
  ghost predicate WaitGroupExact(s: Pool) {
    s.wg == |s.tasks| + Held(s) + (if s.adding then 1 else 0)
  }

  /** There is always room for the task about to be queued and for every result to come. */
  ghost predicate RoomLeft(s: Pool) {
    && s.fed <= |s.nodes| && (s.adding ==> s.fed < |s.nodes|)
    && |s.results| + Unsent(s) + |s.tasks| <= s.fed
  }

  ghost predicate TaskOk(s: Pool, t: nat) {
    t < |s.nodes| && s.nodes[t].listedStatus == "ready"
  }

  /** A worker that has come this far has had the lookups before it succeed. */
  ghost predicate PcOk(s: Pool, pc: Pc) {
    match pc
    case Idle => true
    case Gone => s.quit || s.tasksClosed
    case GetInfo(t) => TaskOk(s, t)
    case GetStats(t) =>
      TaskOk(s, t) && s.nodes[t].info.Some? && !s.nodes[t].info.value.drain && s.nodes[t].info.value.status == "ready"
    case GetAllocations(t) =>
      TaskOk(s, t) && s.nodes[t].info.Some? && !s.nodes[t].info.value.drain && s.nodes[t].info.value.status == "ready"
      && s.nodes[t].stats.Some?
    case Sending(t) => TaskOk(s, t) && Counted(s.nodes[t])
    case Finishing(t) => TaskOk(s, t)
  }

  ghost predicate Placed(s: Pool) {
    && |s.workers| == |s.nodes| + 1
    && (forall w | 0 <= w < |s.workers| :: PcOk(s, s.workers[w]))
    && (forall i | 0 <= i < |s.tasks| :: TaskOk(s, s.tasks[i]))
    && (s.adding ==> s.fed < |s.nodes| && s.nodes[s.fed].listedStatus == "ready")
  }

  /** The channels close only after the wait is over, in order. */
  ghost predicate Staged(s: Pool) {
    && !s.panicked
    && (s.tasksClosed <==> s.stage != Feeding && s.stage != ClosingTasks)
    && (s.resultsClosed <==> s.stage == Draining || s.stage == Collected)
    && (s.stage != Feeding ==> s.fed == |s.nodes| && !s.adding && s.wg == 0)
  }

  ghost predicate Safe(s: Pool) {
    WaitGroupExact(s) && RoomLeft(s) && Placed(s) && Staged(s)
  }

  lemma IdleCounts(workers: seq<Pc>, f: Pc -> nat)
    requires forall i | 0 <= i < |workers| :: workers[i] == Idle
    ensures Count(Weights(workers, f)) == f(Idle) * |workers|
  {
    var weights := Weights(workers, f);
    forall i | 0 <= i < |weights| ensures weights[i] == f(Idle) {
      assert weights[i] == f(workers[i]);
    }
    CountConstant(weights, f(Idle));
  }

  lemma InitSafe(nodes: seq<Node>)
    ensures Safe(Init(nodes))
  {
    var s := Init(nodes);
    IdleCounts(s.workers, HoldsTask);
    IdleCounts(s.workers, HoldsUnsent);
  }

  lemma HolderCounted(s: Pool, w: nat)
    requires w < |s.workers|
    ensures HoldsTask(s.workers[w]) <= Held(s) && HoldsUnsent(s.workers[w]) <= Unsent(s)
  {
    MoveCounts(s.workers, w, Idle, HoldsTask);
    MoveCounts(s.workers, w, Idle, HoldsUnsent);
  }

  /** A worker holding a task can always take its next step: no lookup order, full channel or
      closed channel stands in the way. */
  lemma HolderCanStep(s: Pool, w: nat)
    requires Safe(s) && w < |s.workers| && HoldsTask(s.workers[w]) == 1
    ensures Enabled(s, Step(w)) && s.stage == Feeding && !s.resultsClosed
    ensures s.workers[w].Sending? ==> |s.results| < |s.nodes|
  {
    HolderCounted(s, w);
    assert PcOk(s, s.workers[w]);
  }

  lemma TakeKeepsSafe(s: Pool, w: nat)
    requires Safe(s) && Enabled(s, Take(w))
    ensures Safe(Next(s, Take(w)))
  {
    MoveCounts(s.workers, w, GetInfo(s.tasks[0]), HoldsTask);
    MoveCounts(s.workers, w, GetInfo(s.tasks[0]), HoldsUnsent);
  }

  lemma LeaveKeepsSafe(s: Pool, w: nat)
    requires Safe(s) && Enabled(s, Leave(w))
    ensures Safe(Next(s, Leave(w)))
  {
    MoveCounts(s.workers, w, Gone, HoldsTask);
    MoveCounts(s.workers, w, Gone, HoldsUnsent);
  }

  lemma LookupKeepsSafe(s: Pool, w: nat)
    requires Safe(s) && Enabled(s, Step(w)) && !s.workers[w].Sending? && !s.workers[w].Finishing?
    ensures Safe(Stepped(s, w))
  {
    HolderCanStep(s, w);
    var pc' := AfterLookup(s.nodes[s.workers[w].task], s.workers[w]);
    MoveCounts(s.workers, w, pc', HoldsTask);
    MoveCounts(s.workers, w, pc', HoldsUnsent);
    assert PcOk(s, s.workers[w]);
  }

  lemma SendKeepsSafe(s: Pool, w: nat)
    requires Safe(s) && Enabled(s, Step(w)) && s.workers[w].Sending?
    ensures Safe(Stepped(s, w))
  {
    HolderCanStep(s, w);
    MoveCounts(s.workers, w, Finishing(s.workers[w].task), HoldsTask);
    MoveCounts(s.workers, w, Finishing(s.workers[w].task), HoldsUnsent);
  }

  lemma DoneKeepsSafe(s: Pool, w: nat)
    requires Safe(s) && Enabled(s, Step(w)) && s.workers[w].Finishing?
    ensures Safe(Stepped(s, w))
  {
    HolderCanStep(s, w);
    HolderCounted(s, w);
    MoveCounts(s.workers, w, Idle, HoldsTask);
    MoveCounts(s.workers, w, Idle, HoldsUnsent);
  }

  lemma StepOfWorkerKeepsSafe(s: Pool, w: nat)
    requires Safe(s) && Enabled(s, Step(w))
    ensures Safe(Stepped(s, w))
  {
    if s.workers[w].Sending? {
      SendKeepsSafe(s, w);
    } else if s.workers[w].Finishing? {
      DoneKeepsSafe(s, w);
    } else {
      LookupKeepsSafe(s, w);
    }
  }

  lemma FeedKeepsSafe(s: Pool, e: Event)
    requires Safe(s) && Enabled(s, e) && (e == Skip || e == AddOne || e == SendTask)
    ensures Safe(Next(s, e))
  {
  }

  lemma CloseKeepsSafe(s: Pool, e: Event)
    requires Safe(s) && Enabled(s, e)
    requires e == StopWaiting || e == CloseTasks || e == CloseResults || e == Drain || e == CloseQuit
    ensures Safe(Next(s, e))
  {
  }

  lemma StepKeepsSafe(s: Pool, e: Event)
    requires Safe(s) && Enabled(s, e)
    ensures Safe(Next(s, e))
  {
    match e {
      case Take(w) => TakeKeepsSafe(s, w);
      case Leave(w) => LeaveKeepsSafe(s, w);
      case Step(w) => StepOfWorkerKeepsSafe(s, w);
      case Skip => FeedKeepsSafe(s, e);
      case AddOne => FeedKeepsSafe(s, e);
      case SendTask => FeedKeepsSafe(s, e);
      case _ => CloseKeepsSafe(s, e);
    }
  }
}
