/** The worker pool that collects cluster statistics, as a step machine: one collector, one
    more worker than listed nodes, two bounded channels and a wait group.

    The outcome of each lookup is fixed per listed node beforehand; every node is looked up at
    most once, so this fixes nothing that could vary within a run. */
module WorkerPool {
  import opened Wrappers
  import opened ClusterTotals

  /** Where a worker is; `task` is the position of the listed node it holds. */
  datatype Pc =
    | Idle
    | GetInfo(task: nat)
    | GetStats(task: nat)
    | GetAllocations(task: nat)
    | Sending(task: nat)
    | Finishing(task: nat)  // about to call Done
    | Gone

  datatype Stage = Feeding | ClosingTasks | ClosingResults | Draining | Collected

  /** `fed` nodes have been considered; `adding` says the wait group was raised for node `fed`
      whose task is not sent yet. */
  datatype Pool = Pool(
    nodes: seq<Node>, stage: Stage, fed: nat, adding: bool, tasks: seq<nat>, tasksClosed: bool,
    workers: seq<Pc>, results: seq<Totals>, resultsClosed: bool, wg: int, quit: bool,
    panicked: bool, total: Totals)

  datatype Event =
    | Skip | AddOne | SendTask | StopWaiting | CloseTasks | CloseResults | Drain
    | Take(w: nat) | Step(w: nat) | Leave(w: nat) | CloseQuit

  function Init(nodes: seq<Node>): Pool {
    Pool(nodes, Feeding, 0, false, [], false, seq(|nodes| + 1, i => Idle), [], false, 0, false, false, ZERO)
  }

  predicate Enabled(s: Pool, e: Event) {
    match e
    case Skip =>
      s.stage == Feeding && s.fed < |s.nodes| && !s.adding && s.nodes[s.fed].listedStatus != "ready"
    case AddOne =>
      s.stage == Feeding && s.fed < |s.nodes| && !s.adding && s.nodes[s.fed].listedStatus == "ready"
    case SendTask => s.stage == Feeding && s.adding && |s.tasks| < |s.nodes|
    case StopWaiting => s.stage == Feeding && s.fed == |s.nodes| && !s.adding && s.wg == 0
    case CloseTasks => s.stage == ClosingTasks
    case CloseResults => s.stage == ClosingResults
    case Drain => s.stage == Draining
    case Take(w) => w < |s.workers| && s.workers[w] == Idle && s.tasks != []
    case Step(w) =>
      && w < |s.workers| && s.workers[w] != Idle && s.workers[w] != Gone
      && s.workers[w].task < |s.nodes|
      && (s.workers[w].Sending? ==> s.resultsClosed || |s.results| < |s.nodes|)
      && (s.workers[w].Sending? ==> Counted(s.nodes[s.workers[w].task]))
    case Leave(w) =>
      w < |s.workers| && s.workers[w] == Idle && (s.quit || (s.tasksClosed && s.tasks == []))
    case CloseQuit => !s.quit
  }

  /** The next place of a worker that holds a task, short of sending its result. */
  function AfterLookup(n: Node, pc: Pc): Pc
    requires pc.GetInfo? || pc.GetStats? || pc.GetAllocations?
  {
    match pc
    case GetInfo(t) =>
      if n.info.None? || n.info.value.drain || n.info.value.status != "ready" then Finishing(t) else GetStats(t)
    case GetStats(t) => if n.stats.None? then Finishing(t) else GetAllocations(t)
    case GetAllocations(t) => if n.allocations.None? then Finishing(t) else Sending(t)
  }

  function At(s: Pool, w: nat, pc: Pc): Pool
    requires w < |s.workers|
  {
    s.(workers := s.workers[w := pc])
  }

  function Stepped(s: Pool, w: nat): Pool
    requires Enabled(s, Step(w))
  {
    var pc := s.workers[w];
    if pc.Sending? then
      if s.resultsClosed then s.(panicked := true)
      else At(s, w, Finishing(pc.task)).(results := s.results + [ResultOf(s.nodes[pc.task])])
    else if pc.Finishing? then At(s, w, Idle).(wg := s.wg - 1, panicked := s.panicked || s.wg <= 0)
    else At(s, w, AfterLookup(s.nodes[pc.task], pc))
  }

  function Next(s: Pool, e: Event): Pool
    requires Enabled(s, e)
  {
    match e
    case Skip => s.(fed := s.fed + 1)
    case AddOne => s.(wg := s.wg + 1, adding := true)
    case SendTask =>
      if s.tasksClosed then s.(panicked := true)
      else s.(tasks := s.tasks + [s.fed], adding := false, fed := s.fed + 1)
    case StopWaiting => s.(stage := ClosingTasks)
    case CloseTasks => s.(stage := ClosingResults, tasksClosed := true, panicked := s.panicked || s.tasksClosed)
    case CloseResults => s.(stage := Draining, resultsClosed := true, panicked := s.panicked || s.resultsClosed)
    case Drain => s.(stage := Collected, total := Sum(s.results))
    case Take(w) => At(s, w, GetInfo(s.tasks[0])).(tasks := s.tasks[1..])
    case Step(w) => Stepped(s, w)
    case Leave(w) => At(s, w, Gone)
    case CloseQuit => s.(quit := true)
  }

  predicate CanRun(s: Pool, es: seq<Event>)
    decreases |es|
  {
    es == [] || (Enabled(s, es[0]) && CanRun(Next(s, es[0]), es[1..]))
  }

  function Exec(s: Pool, es: seq<Event>): Pool
    requires CanRun(s, es)
    decreases |es|
  {
    if es == [] then s else Exec(Next(s, es[0]), es[1..])
  }
}
