/** The health of one job: two long-polled queries, and the counts shown when either moved on. */
module JobHealth {
  import opened Wrappers
  import opened LongPoll

  /** A successful answer: the group counts, or the client status of every allocation. */
  datatype JobReply = JobReply(counts: seq<int>, lastIndex: nat)
  datatype AllocReply = AllocReply(statuses: seq<string>, lastIndex: nat)

  datatype Response = Error | Noop | Report(running: nat, missing: int)

  function Total(counts: seq<int>): int {
    if counts == [] then 0 else Total(counts[..|counts| - 1]) + counts[|counts| - 1]
  }

  /** `Total` is the sum: nothing for no group, and each group adds its own count, anywhere. */
  lemma {:induction false} TotalOfSum(a: seq<int>, count: int, b: seq<int>)
    ensures Total([]) == 0 && Total(a + [count] + b) == Total(a + b) + count
  {
    if b == [] {
      assert a + [count] + b == a + [count] && (a + [count])[..|a|] == a && a + b == a;
    } else {
      var front := b[..|b| - 1];
      TotalOfSum(a, count, front);
      assert (a + [count] + b)[..|a| + |b|] == a + [count] + front;
      assert (a + b)[..|a| + |b| - 1] == a + front;
    }
  }

  method ExpectedCount(counts: seq<int>) returns (res: int)
    ensures res == Total(counts)
  {
    res := 0;
    for i := 0 to |counts|
      invariant res == Total(counts[..i])
    {
      assert counts[..i + 1][..i] == counts[..i];
      res := res + counts[i];
    }
    assert counts[..|counts|] == counts;
  }

  method AllocationStats(statuses: seq<string>) returns (res: map<string, nat>)
    ensures forall st :: st in res <==> st in statuses
    ensures forall st | st in res :: res[st] == multiset(statuses)[st]
  {
    res := map[];
    for i := 0 to |statuses|
      invariant forall st :: st in res <==> st in statuses[..i]
      invariant forall st | st in res :: res[st] == multiset(statuses[..i])[st]
    {
      var st := statuses[i];
      assert statuses[..i + 1] == statuses[..i] + [st];
      if st !in res {
        assert st !in multiset(statuses[..i]);
        res := res[st := 0];
      }
      res := res[st := res[st] + 1];
    }
    assert statuses[..|statuses|] == statuses;
  }

  class Health {
    const jobQuery: QueryOptions
    const allocQuery: QueryOptions

    constructor (jobQuery: QueryOptions, allocQuery: QueryOptions)
      ensures this.jobQuery == jobQuery && this.allocQuery == allocQuery
    {
      this.jobQuery, this.allocQuery := jobQuery, allocQuery;
    }

    /** One round; a failed fetch is None. */
    method Do(job: Option<JobReply>, allocs: Option<AllocReply>) returns (r: Response)
      requires jobQuery != allocQuery
      modifies jobQuery, allocQuery
      ensures r.Error? <==> job.None? || allocs.None?
      ensures r.Error? ==>
        jobQuery.waitIndex == old(jobQuery.waitIndex) && allocQuery.waitIndex == old(allocQuery.waitIndex)
      ensures !r.Error? ==>
        && jobQuery.waitIndex == WaitNext(old(jobQuery.waitIndex), job.value.lastIndex)
        && allocQuery.waitIndex == WaitNext(old(allocQuery.waitIndex), allocs.value.lastIndex)
        && (r.Report? <==> (Changed(old(jobQuery.waitIndex), job.value.lastIndex)
                            || Changed(old(allocQuery.waitIndex), allocs.value.lastIndex)))
      ensures r.Report? ==>
        && r.running == multiset(allocs.value.statuses)["running"]
        && r.running + r.missing == Total(job.value.counts)
    {
      if job.None? || allocs.None? {
        return Error;
      }
      var jobChanged := jobQuery.QueryChanged(job.value.lastIndex);
      var allocChanged := allocQuery.QueryChanged(allocs.value.lastIndex);
      if !jobChanged && !allocChanged {
        return Noop;
      }
      var stats := AllocationStats(allocs.value.statuses);
      var expected := ExpectedCount(job.value.counts);
      var running := if "running" in stats then stats["running"] else 0;
      assert "running" !in stats ==> "running" !in multiset(allocs.value.statuses);
      r := Report(running, expected - running);
    }
  }
}
