/** What one node contributes to the cluster statistics, and how contributions add up.

    Idle times are floats in the program. Every finite float is a whole number of the smallest
    one, and that number stands for it here; the rounding of sums is not modelled. */
module ClusterTotals {
  import opened Wrappers

  datatype Totals = Totals(
    clients: int, cpuAllocated: int, cpuTotal: int, cores: int, cpuIdle: int,
    memoryUsed: int, memoryTotal: int, memoryAllocated: int)

  const ZERO := Totals(0, 0, 0, 0, 0, 0, 0, 0)

  /** Sums are compared figure by figure. */
  datatype Figure =
    | Clients | CpuAllocated | CpuTotal | Cores | CpuIdle | MemoryUsed | MemoryTotal | MemoryAllocated

  function Get(t: Totals, f: Figure): int {
    match f
    case Clients => t.clients
    case CpuAllocated => t.cpuAllocated
    case CpuTotal => t.cpuTotal
    case Cores => t.cores
    case CpuIdle => t.cpuIdle
    case MemoryUsed => t.memoryUsed
    case MemoryTotal => t.memoryTotal
    case MemoryAllocated => t.memoryAllocated
  }

  function SumOf(ts: seq<Totals>, f: Figure): int {
    if ts == [] then 0 else Get(ts[0], f) + SumOf(ts[1..], f)
  }

  function Sum(ts: seq<Totals>): Totals {
    Totals(SumOf(ts, Clients), SumOf(ts, CpuAllocated), SumOf(ts, CpuTotal), SumOf(ts, Cores),
           SumOf(ts, CpuIdle), SumOf(ts, MemoryUsed), SumOf(ts, MemoryTotal), SumOf(ts, MemoryAllocated))
  }

  datatype Resources = Resources(cpu: int, memoryMB: int)

  datatype Allocation = Allocation(desired: string, client: string, tasks: seq<Resources>)

  datatype Memory = Memory(used: int, total: int)

  /** Answers of the three lookups for a listed node; None where the lookup fails. */
  datatype Info = Info(drain: bool, status: string, cpu: int)
  /** `idle` has one entry for each core. */
  datatype Stats = Stats(idle: seq<int>, memory: Option<Memory>)
  datatype Node = Node(
    listedStatus: string, info: Option<Info>, stats: Option<Stats>, allocations: Option<seq<Allocation>>)

  predicate Running(a: Allocation) {
    a.desired == "run" && a.client == "running"
  }

  /** All task resources of the running allocations, in order. */
  function RunningTasks(allocations: seq<Allocation>): seq<Resources> {
    if allocations == [] then []
    else
      var front, a := allocations[..|allocations| - 1], allocations[|allocations| - 1];
      RunningTasks(front) + (if Running(a) then a.tasks else [])
  }

  function CpuOf(tasks: seq<Resources>): int {
    if tasks == [] then 0 else CpuOf(tasks[..|tasks| - 1]) + tasks[|tasks| - 1].cpu
  }

  function MemoryOf(tasks: seq<Resources>): int {
    if tasks == [] then 0 else MemoryOf(tasks[..|tasks| - 1]) + tasks[|tasks| - 1].memoryMB
  }

  function Total(xs: seq<int>): int {
    if xs == [] then 0 else Total(xs[..|xs| - 1]) + xs[|xs| - 1]
  }

  /** Whether a worker sends a result for the node. */
  predicate Counted(n: Node) {
    && n.info.Some? && !n.info.value.drain && n.info.value.status == "ready"
    && n.stats.Some? && n.allocations.Some?
  }

  /** A node's result, counting the node itself as one client. */
  function ResultOf(n: Node): Totals
    requires Counted(n)
  {
    var tasks := RunningTasks(n.allocations.value);
    var memory := match n.stats.value.memory case Some(m) => m case None => Memory(0, 0);
    Totals(1, CpuOf(tasks), n.info.value.cpu, |n.stats.value.idle|, Total(n.stats.value.idle),
           memory.used, memory.total, MemoryOf(tasks))
  }

  /** What a listed node adds to the totals in the end. */
  function Contribution(n: Node): Totals {
    if n.listedStatus == "ready" && Counted(n) then ResultOf(n) else ZERO
  }

  function Contributions(nodes: seq<Node>): seq<Totals> {
    seq(|nodes|, i requires 0 <= i < |nodes| => Contribution(nodes[i]))
  }

  /** What one pass over the listed nodes, in order, adds up to. */
  function SequentialTotals(nodes: seq<Node>): Totals {
    Sum(Contributions(nodes))
  }

  lemma {:induction false} TasksAppend(a: seq<Resources>, b: seq<Resources>)
    ensures CpuOf(a + b) == CpuOf(a) + CpuOf(b) && MemoryOf(a + b) == MemoryOf(a) + MemoryOf(b)
  {
    if b == [] {
      assert a + b == a;
    } else {
      assert (a + b)[..|a + b| - 1] == a + b[..|b| - 1];
      TasksAppend(a, b[..|b| - 1]);
    }
  }

  /** The inner loop: the task resources of one running allocation. */
  method AddTasks(tasks: seq<Resources>, cpu0: int, memory0: int) returns (cpu: int, memory: int)
    ensures cpu == cpu0 + CpuOf(tasks) && memory == memory0 + MemoryOf(tasks)
  {
    cpu, memory := cpu0, memory0;
    for j := 0 to |tasks|
      invariant cpu == cpu0 + CpuOf(tasks[..j]) && memory == memory0 + MemoryOf(tasks[..j])
    {
      assert tasks[..j + 1][..j] == tasks[..j];
      memory := memory + tasks[j].memoryMB;
      cpu := cpu + tasks[j].cpu;
    }
    assert tasks[..|tasks|] == tasks;
  }

  /** The loop of the worker over a node's allocations, and the node's own figures. */
  method Summarise(n: Node) returns (r: Totals)
    requires Counted(n)
    ensures r == ResultOf(n)
    ensures r.clients == 1 && r.cpuTotal == n.info.value.cpu && r.cores == |n.stats.value.idle|
    ensures n.stats.value.memory == None ==> r.memoryUsed == 0 && r.memoryTotal == 0
    ensures n.stats.value.memory.Some? ==>
      r.memoryUsed == n.stats.value.memory.value.used && r.memoryTotal == n.stats.value.memory.value.total
  {
    var allocations, stats := n.allocations.value, n.stats.value;
    var cpu, memory := 0, 0;
    for i := 0 to |allocations|
      invariant cpu == CpuOf(RunningTasks(allocations[..i]))
      invariant memory == MemoryOf(RunningTasks(allocations[..i]))
    {
      var a := allocations[i];
      assert allocations[..i + 1][..i] == allocations[..i];
      ghost var before := RunningTasks(allocations[..i]);
      if a.desired != "run" || a.client != "running" {
        assert before + [] == before;
        continue;
      }
      TasksAppend(before, a.tasks);
      cpu, memory := AddTasks(a.tasks, cpu, memory);
    }
    assert allocations[..|allocations|] == allocations;
    var idle := 0;
    for c := 0 to |stats.idle|
      invariant idle == Total(stats.idle[..c])
    {
      assert stats.idle[..c + 1][..c] == stats.idle[..c];
      idle := idle + stats.idle[c];
    }
    assert stats.idle[..|stats.idle|] == stats.idle;
    r := Totals(1, cpu, n.info.value.cpu, |stats.idle|, idle, 0, 0, memory);
    if stats.memory.Some? {
      r := r.(memoryUsed := stats.memory.value.used, memoryTotal := stats.memory.value.total);
    }
  }

  // ------------------------------------------------------------- what a node's share means

  function WithAllocations(n: Node, allocations: seq<Allocation>): Node {
    n.(allocations := Some(allocations))
  }

  lemma RunningAppend(allocations: seq<Allocation>, a: Allocation)
    ensures RunningTasks(allocations + [a]) == RunningTasks(allocations) + (if Running(a) then a.tasks else [])
  {
    assert (allocations + [a])[..|allocations|] == allocations;
  }

  lemma {:induction false} NothingRuns(allocations: seq<Allocation>)
    requires forall i | 0 <= i < |allocations| :: allocations[i].desired != "run" || allocations[i].client != "running"
    ensures RunningTasks(allocations) == []
  {
    if allocations != [] {
      NothingRuns(allocations[..|allocations| - 1]);
    }
  }

  /** Nothing is allocated on a node all of whose allocations are to stop or do not run. */
  lemma IdleNode(n: Node)
    requires Counted(n)
    requires forall i | 0 <= i < |n.allocations.value| ::
      n.allocations.value[i].desired != "run" || n.allocations.value[i].client != "running"
    ensures ResultOf(n).cpuAllocated == 0 && ResultOf(n).memoryAllocated == 0
  {
    NothingRuns(n.allocations.value);
  }

  /** An allocation that is to stop, does not run or has no tasks changes nothing. */
  lemma IdleAllocation(n: Node, a: Allocation)
    requires Counted(n) && (a.desired != "run" || a.client != "running" || a.tasks == [])
    ensures ResultOf(WithAllocations(n, n.allocations.value + [a])) == ResultOf(n)
  {
    RunningAppend(n.allocations.value, a);
    assert RunningTasks(n.allocations.value) + [] == RunningTasks(n.allocations.value);
  }

  lemma RunningAdds(n: Node, a: Allocation)
    requires Counted(n) && a.desired == "run" && a.client == "running"
    ensures var r, tasks := ResultOf(WithAllocations(n, n.allocations.value + [a])), RunningTasks(n.allocations.value);
      r.cpuAllocated == CpuOf(tasks + a.tasks) && r.memoryAllocated == MemoryOf(tasks + a.tasks)
  {
    RunningAppend(n.allocations.value, a);
  }

  /** One more task of an allocation that runs adds exactly its own resources. */
  lemma OneMoreTask(n: Node, a: Allocation, task: Resources)
    requires Counted(n) && a.desired == "run" && a.client == "running"
    ensures var before := ResultOf(WithAllocations(n, n.allocations.value + [a]));
      var after := ResultOf(WithAllocations(n, n.allocations.value + [a.(tasks := a.tasks + [task])]));
      && after.cpuAllocated == before.cpuAllocated + task.cpu
      && after.memoryAllocated == before.memoryAllocated + task.memoryMB
  {
    var there := RunningTasks(n.allocations.value);
    RunningAdds(n, a);
    RunningAdds(n, a.(tasks := a.tasks + [task]));
    assert there + (a.tasks + [task]) == there + a.tasks + [task];
    TaskAppend(there + a.tasks, task);
  }

  lemma TaskAppend(tasks: seq<Resources>, task: Resources)
    ensures CpuOf(tasks + [task]) == CpuOf(tasks) + task.cpu
    ensures MemoryOf(tasks + [task]) == MemoryOf(tasks) + task.memoryMB
  {
    assert (tasks + [task])[..|tasks|] == tasks;
  }

  /** One more core adds one to the cores and its own idle time; without cores there is none. */
  lemma OneMoreCore(n: Node, idle: int)
    requires Counted(n)
    ensures var more := n.(stats := Some(n.stats.value.(idle := n.stats.value.idle + [idle])));
      && ResultOf(more).cores == ResultOf(n).cores + 1 && ResultOf(more).cpuIdle == ResultOf(n).cpuIdle + idle
      && (n.stats.value.idle == [] ==> ResultOf(n).cpuIdle == 0)
  {
    var cores := n.stats.value.idle;
    assert (cores + [idle])[..|cores|] == cores;
  }

  /** The nodes that count: listed as ready, found ready and undrained, and asked successfully. */
  function Counting(nodes: seq<Node>): set<nat> {
    set i | 0 <= i < |nodes|
      && nodes[i].listedStatus == "ready" && nodes[i].info.Some? && nodes[i].info.value.status == "ready"
      && !nodes[i].info.value.drain && nodes[i].stats.Some? && nodes[i].allocations.Some?
  }

  lemma CountingAppend(nodes: seq<Node>, n: Node)
    ensures |Counting(nodes + [n])| == |Counting(nodes)| + Get(Contribution(n), Clients)
  {
    var more := Counting(nodes + [n]);
    assert forall i | 0 <= i < |nodes| :: (nodes + [n])[i] == nodes[i];
    if Contribution(n) == ZERO {
      assert more == Counting(nodes);
    } else {
      assert more == Counting(nodes) + {|nodes|};
    }
  }

  /** The number of clients in the totals is the number of nodes that count. */
  lemma {:induction false} ClientsCount(nodes: seq<Node>)
    ensures SequentialTotals(nodes).clients == |Counting(nodes)|
  {
    if nodes == [] {
      assert Counting(nodes) == {};
    } else {
      var front, n := nodes[..|nodes| - 1], nodes[|nodes| - 1];
      ClientsCount(front);
      assert nodes == front + [n] && Contributions(nodes) == Contributions(front) + [Contribution(n)];
      CountingAppend(front, n);
      SumAppend(Contributions(front), Contribution(n), Clients);
    }
  }

  // ------------------------------------------------------------- adding up

  lemma {:induction false} SumAppend(ts: seq<Totals>, t: Totals, f: Figure)
    ensures SumOf(ts + [t], f) == SumOf(ts, f) + Get(t, f)
  {
    if ts == [] {
      assert ts + [t] == [t];
    } else {
      assert (ts + [t])[1..] == ts[1..] + [t];
      SumAppend(ts[1..], t, f);
    }
  }

  lemma {:induction false} SumUpdate(ts: seq<Totals>, i: nat, t: Totals, f: Figure)
    requires i < |ts|
    ensures SumOf(ts[i := t], f) + Get(ts[i], f) == SumOf(ts, f) + Get(t, f)
  {
    if i > 0 {
      assert ts[i := t][1..] == ts[1..][i - 1 := t];
      SumUpdate(ts[1..], i - 1, t, f);
    } else {
      assert ts[0 := t][1..] == ts[1..];
    }
  }

  lemma {:induction false} SumOfNothing(ts: seq<Totals>, f: Figure)
    requires forall i | 0 <= i < |ts| :: Get(ts[i], f) == 0
    ensures SumOf(ts, f) == 0
  {
    if ts != [] {
      SumOfNothing(ts[1..], f);
    }
  }

  lemma SumCons(t: Totals, ts: seq<Totals>, f: Figure)
    ensures SumOf([t] + ts, f) == Get(t, f) + SumOf(ts, f)
  {
    assert ([t] + ts)[1..] == ts;
  }

  /** The loop that drains the result channel. */
  method Aggregate(results: seq<Totals>) returns (total: Totals)
    ensures total == Sum(results)
  {
    total := ZERO;
    for i := 0 to |results|
      invariant forall f :: Get(total, f) == SumOf(results[..i], f)
    {
      var elem := results[i];
      ghost var before := total;
      total := Totals(total.clients + elem.clients, total.cpuAllocated + elem.cpuAllocated,
                      total.cpuTotal + elem.cpuTotal, total.cores + elem.cores,
                      total.cpuIdle + elem.cpuIdle,
                      total.memoryUsed + elem.memoryUsed, total.memoryTotal + elem.memoryTotal,
                      total.memoryAllocated + elem.memoryAllocated);
      assert results[..i + 1] == results[..i] + [elem];
      forall f ensures Get(total, f) == SumOf(results[..i + 1], f) {
        SumAppend(results[..i], elem, f);
        assert Get(total, f) == Get(before, f) + Get(elem, f);
      }
    }
    assert results[..|results|] == results;
    SameFigures(total, Sum(results));
  }

  lemma SameFigures(a: Totals, b: Totals)
    requires forall f :: Get(a, f) == Get(b, f)
    ensures a == b
  {
    assert Get(a, Clients) == a.clients && Get(b, Clients) == b.clients;
    assert Get(a, CpuAllocated) == Get(b, CpuAllocated) && Get(a, CpuTotal) == Get(b, CpuTotal);
    assert Get(a, Cores) == Get(b, Cores) && Get(a, CpuIdle) == Get(b, CpuIdle);
    assert Get(a, MemoryUsed) == Get(b, MemoryUsed);
    assert Get(a, MemoryTotal) == Get(b, MemoryTotal) && Get(a, MemoryAllocated) == Get(b, MemoryAllocated);
  }

  lemma SumFigure(ts: seq<Totals>, f: Figure)
    ensures Get(Sum(ts), f) == SumOf(ts, f)
  {
  }

  // ------------------------------------------------------------- machine words

  /** A 64-bit word, signed or not, as its bits. */
  function Word(x: int): nat {
    x % 0x1_0000_0000_0000_0000
  }

  /** Adding up words in words: every number and every sum on the way wraps. */
  function WordSum(xs: seq<int>): nat {
    if xs == [] then 0 else Word(WordSum(xs[..|xs| - 1]) + Word(xs[|xs| - 1]))
  }

  /** Wrapping on the way is wrapping once at the end. */
  lemma {:induction false} WrapsOnce(xs: seq<int>)
    ensures WordSum(xs) == Word(Total(xs))
  {
    if xs != [] {
      WrapsOnce(xs[..|xs| - 1]);
    }
  }

  function Figures(ts: seq<Totals>, f: Figure): seq<int> {
    seq(|ts|, i requires 0 <= i < |ts| => Get(ts[i], f))
  }

  lemma {:induction false} TotalCons(x: int, xs: seq<int>)
    ensures Total([x] + xs) == x + Total(xs)
  {
    if xs == [] {
      assert [x] + xs == [x] && [x][..0] == [];
    } else {
      assert ([x] + xs)[..|xs|] == [x] + xs[..|xs| - 1];
      TotalCons(x, xs[..|xs| - 1]);
    }
  }

  lemma {:induction false} SumIsTotal(ts: seq<Totals>, f: Figure)
    ensures SumOf(ts, f) == Total(Figures(ts, f))
  {
    if ts != [] {
      SumIsTotal(ts[1..], f);
      TotalCons(Get(ts[0], f), Figures(ts[1..], f));
      assert Figures(ts, f) == [Get(ts[0], f)] + Figures(ts[1..], f);
    }
  }
}
