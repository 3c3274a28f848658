/** The sliding windows behind the charts: an allocation's (prefilled with 60 empty points, at
    most 300 real ones) and a node's or cluster's (a fixed length). */
module ChartWindows {
  /** A point of a chart; an empty name marks prefill. */
  datatype Point = Point(name: string, values: seq<int>)

  datatype Sample = Sample(cpu: Point, memory: Point)

  datatype Series = Series(cpu: seq<Point>, memory: seq<Point>)

  const PREFILL := 60
  const MAX_POINTS := 300

  function Last<T>(s: seq<T>, n: nat): seq<T> {
    if |s| > n then s[|s| - n..] else s
  }

  function Copies(p: Point, n: nat): seq<Point> {
    seq(n, i => p)
  }

  function Cpus(samples: seq<Sample>): seq<Point> {
    seq(|samples|, i requires 0 <= i < |samples| => samples[i].cpu)
  }

  function Memories(samples: seq<Sample>): seq<Point> {
    seq(|samples|, i requires 0 <= i < |samples| => samples[i].memory)
  }

  predicate HasPrefill(points: seq<Point>) {
    exists i :: 0 <= i < |points| && points[i].name == ""
  }

  const CPU_PREFILL := Point("", [0, 0, 0])
  const MEMORY_PREFILL := Point("", [0, 0, 0])

  /** `prefillData`: the given number of empty points after what is there. */
  method Prefill(s: Series, amount: nat) returns (r: Series)
    ensures r == Series(s.cpu + Copies(CPU_PREFILL, amount), s.memory + Copies(MEMORY_PREFILL, amount))
  {
    r := s;
    for i := 0 to amount
      invariant r == Series(s.cpu + Copies(CPU_PREFILL, i), s.memory + Copies(MEMORY_PREFILL, i))
    {
      r := Series(r.cpu + [CPU_PREFILL], r.memory + [MEMORY_PREFILL]);
      assert Copies(CPU_PREFILL, i + 1) == Copies(CPU_PREFILL, i) + [CPU_PREFILL];
      assert Copies(MEMORY_PREFILL, i + 1) == Copies(MEMORY_PREFILL, i) + [MEMORY_PREFILL];
    }
  }

  // ------------------------------------------------------------- allocations

  function DropFirst(s: Series): Series {
    Series(if s.cpu == [] then [] else s.cpu[1..], if s.memory == [] then [] else s.memory[1..])
  }

  /** One sample arriving at an allocation's series. */
  function AllocationStep(s: Series, x: Sample): Series {
    var pushed := Series(s.cpu + [x.cpu], s.memory + [x.memory]);
    var bounded := if |pushed.cpu| > MAX_POINTS then DropFirst(pushed) else pushed;
    if HasPrefill(bounded.cpu) then DropFirst(bounded) else bounded
  }

  function AllocationSeries(samples: seq<Sample>): Series {
    if samples == [] then Series(Copies(CPU_PREFILL, PREFILL), Copies(MEMORY_PREFILL, PREFILL))
    else AllocationStep(AllocationSeries(samples[..|samples| - 1]), samples[|samples| - 1])
  }

  class AllocationStats {
    var started: bool
    var cpu: seq<Point>
    var memory: seq<Point>
    ghost var samples: seq<Sample>

    ghost predicate Valid()
      reads this
    {
      (started ==> Series(cpu, memory) == AllocationSeries(samples)) && (!started ==> samples == [])
    }

    constructor ()
      ensures Valid() && samples == []
    {
      started, cpu, memory, samples := false, [], [], [];
    }

    /** `computeResourceStats` with the two points of a sample. */
    method Compute(x: Sample)
      requires Valid()
      modifies this
      ensures Valid() && started && samples == old(samples) + [x]
    {
      if !started {
        var filled := Prefill(Series([], []), PREFILL);
        assert [] + Copies(CPU_PREFILL, PREFILL) == Copies(CPU_PREFILL, PREFILL);
        assert [] + Copies(MEMORY_PREFILL, PREFILL) == Copies(MEMORY_PREFILL, PREFILL);
        started, cpu, memory := true, filled.cpu, filled.memory;
      }
      ghost var before := Series(cpu, memory);
      cpu := cpu + [x.cpu];
      memory := memory + [x.memory];
      if |cpu| > MAX_POINTS {
        cpu := cpu[1..];
        memory := if memory == [] then [] else memory[1..];
      }
      if HasPrefill(cpu) {
        cpu := cpu[1..];
        memory := if memory == [] then [] else memory[1..];
      }
      samples := samples + [x];
      assert samples[..|samples| - 1] == old(samples);
      assert Series(cpu, memory) == AllocationStep(before, x);
    }
  }

  /** What is left of the prefill after `k` samples, then the last 300 of them. */
  function Window(prefill: Point, points: seq<Point>): seq<Point> {
    Copies(prefill, if |points| < PREFILL then PREFILL - |points| else 0) + Last(points, MAX_POINTS)
  }

  lemma LastStep<T>(points: seq<T>, p: T, n: nat)
    ensures Last(points + [p], n)
         == if |points| >= n > 0 then Last(points, n)[1..] + [p] else if n == 0 then [] else Last(points, n) + [p]
  {
  }

  lemma WindowStep(prefill: Point, points: seq<Point>, p: Point)
    ensures var pushed := Window(prefill, points) + [p];
      Window(prefill, points + [p])
        == if |points| < PREFILL || |points| >= MAX_POINTS then pushed[1..] else pushed
  {
    LastStep(points, p, MAX_POINTS);
    var k := |points|;
    if k < PREFILL {
      assert Copies(prefill, PREFILL - k)[1..] == Copies(prefill, PREFILL - k - 1);
    }
  }

  /** After `k` samples with real names an allocation's series is exactly max(0, 60 - k) prefill
      points followed by the last min(k, 300) samples, for CPU and memory alike. */
  lemma {:induction false} AllocationSeriesIsWindow(samples: seq<Sample>)
    requires forall i | 0 <= i < |samples| :: samples[i].cpu.name != ""
    ensures AllocationSeries(samples)
         == Series(Window(CPU_PREFILL, Cpus(samples)), Window(MEMORY_PREFILL, Memories(samples)))
    ensures var k := |samples|;
      var left := if k < 60 then 60 - k else 0;
      && AllocationSeries(samples).cpu == Copies(CPU_PREFILL, left) + Cpus(samples)[if k < 300 then 0 else k - 300..]
      && AllocationSeries(samples).memory
           == Copies(MEMORY_PREFILL, left) + Memories(samples)[if k < 300 then 0 else k - 300..]
  {
    if samples == [] {
      assert Cpus([]) == [] && Memories([]) == [];
      assert Copies(CPU_PREFILL, PREFILL) + [] == Copies(CPU_PREFILL, PREFILL);
      assert Copies(MEMORY_PREFILL, PREFILL) + [] == Copies(MEMORY_PREFILL, PREFILL);
    } else {
      var front, x := samples[..|samples| - 1], samples[|samples| - 1];
      AllocationSeriesIsWindow(front);
      assert Cpus(samples) == Cpus(front) + [x.cpu] && Memories(samples) == Memories(front) + [x.memory];
      AllocationWindowStep(Cpus(front), Memories(front), x);
    }
  }

  lemma AllocationWindowStep(cpus: seq<Point>, memories: seq<Point>, x: Sample)
    requires |cpus| == |memories| && x.cpu.name != ""
    requires forall i | 0 <= i < |cpus| :: cpus[i].name != ""
    ensures AllocationStep(Series(Window(CPU_PREFILL, cpus), Window(MEMORY_PREFILL, memories)), x)
         == Series(Window(CPU_PREFILL, cpus + [x.cpu]), Window(MEMORY_PREFILL, memories + [x.memory]))
  {
    WindowStep(CPU_PREFILL, cpus, x.cpu);
    WindowStep(MEMORY_PREFILL, memories, x.memory);
    PrefillLeft(cpus, x.cpu);
  }

  lemma PrefillLeft(points: seq<Point>, p: Point)
    requires p.name != "" && forall i | 0 <= i < |points| :: points[i].name != ""
    ensures var pushed := Window(CPU_PREFILL, points) + [p];
      && |Window(CPU_PREFILL, points)| ==
           (if |points| < PREFILL then PREFILL else if |points| > MAX_POINTS then MAX_POINTS else |points|)
      && (HasPrefill(pushed) <==> |points| < PREFILL)
      && (|points| >= MAX_POINTS ==> !HasPrefill(pushed[1..]))
  {
    var pushed := Window(CPU_PREFILL, points) + [p];
    if |points| < PREFILL {
      assert pushed[0].name == "";
    }
  }

  // ------------------------------------------------------------- nodes and the cluster

  function NodeStep(s: Series, x: Sample, maxLength: nat): Series {
    var pushed := Series(s.cpu + [x.cpu], s.memory + [x.memory]);
    if |pushed.cpu| > maxLength then DropFirst(pushed) else pushed
  }

  function NodeSeries(samples: seq<Sample>, maxLength: nat): Series {
    if samples == [] then Series(Copies(CPU_PREFILL, maxLength), Copies(MEMORY_PREFILL, maxLength))
    else NodeStep(NodeSeries(samples[..|samples| - 1], maxLength), samples[|samples| - 1], maxLength)
  }

  class NodeStats {
    const maxLength: nat
    var started: bool
    var cpu: seq<Point>
    var memory: seq<Point>
    ghost var samples: seq<Sample>

    ghost predicate Valid()
      reads this
    {
      (started ==> Series(cpu, memory) == NodeSeries(samples, maxLength)) && (!started ==> samples == [])
    }

    constructor (maxLength: nat)
      ensures Valid() && samples == [] && this.maxLength == maxLength
    {
      this.maxLength := maxLength;
      started, cpu, memory, samples := false, [], [], [];
    }

    /** `calculateNodeStats` with the two points of a sample. */
    method Calculate(x: Sample)
      requires Valid()
      modifies this
      ensures Valid() && started && samples == old(samples) + [x]
    {
      if !started {
        var filled := Prefill(Series([], []), maxLength);
        assert [] + Copies(CPU_PREFILL, maxLength) == Copies(CPU_PREFILL, maxLength);
        assert [] + Copies(MEMORY_PREFILL, maxLength) == Copies(MEMORY_PREFILL, maxLength);
        started, cpu, memory := true, filled.cpu, filled.memory;
      }
      cpu := cpu + [x.cpu];
      memory := memory + [x.memory];
      if |cpu| > maxLength {
        cpu := cpu[1..];
        memory := if memory == [] then [] else memory[1..];
      }
      samples := samples + [x];
      assert samples[..|samples| - 1] == old(samples);
    }
  }

  lemma LastOfLonger<T>(s: seq<T>, p: T, n: nat)
    requires |s| >= n
    ensures Last(s + [p], n) == (Last(s, n) + [p])[1..]
  {
  }

  /** A node's series is always the last `maxLength` points of the prefill and all samples. */
  lemma {:induction false} NodeSeriesIsWindow(samples: seq<Sample>, maxLength: nat)
    ensures NodeSeries(samples, maxLength)
         == Series(Last(Copies(CPU_PREFILL, maxLength) + Cpus(samples), maxLength),
                   Last(Copies(MEMORY_PREFILL, maxLength) + Memories(samples), maxLength))
  {
    var c, m := Copies(CPU_PREFILL, maxLength), Copies(MEMORY_PREFILL, maxLength);
    if samples == [] {
      assert c + Cpus([]) == c && m + Memories([]) == m;
    } else {
      var front, x := samples[..|samples| - 1], samples[|samples| - 1];
      NodeSeriesIsWindow(front, maxLength);
      assert c + Cpus(samples) == c + Cpus(front) + [x.cpu];
      assert m + Memories(samples) == m + Memories(front) + [x.memory];
      LastOfLonger(c + Cpus(front), x.cpu, maxLength);
      LastOfLonger(m + Memories(front), x.memory, maxLength);
    }
  }
}
