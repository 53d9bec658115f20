/**
 * `optimize_printing` of task1/main.py: the priority-sorted queue is packed
 * greedily into consecutive batches bounded by the printer's item count and
 * volume, the ids are emitted batch by batch, and each batch costs the
 * longest print time among its jobs.
 */
module PrintBatching {
  import opened PrintJobs

  /** `PrinterConstraints`: volume capacity and item capacity of one batch. */
  datatype PrinterConstraints = PrinterConstraints(maxVolume: real, maxItems: int)

  /** The result record: ids in print order and the total print time. */
  datatype PrintPlan = PrintPlan(printOrder: seq<string>, totalTime: int)

  /** Sum of the volumes of a batch. */
  function TotalVolume(batch: seq<PrintJob>): real
  {
    if |batch| == 0 then 0.0 else TotalVolume(batch[..|batch| - 1]) + batch[|batch| - 1].volume
  }

  /** The new-batch test of `optimize_printing`, negated: the open batch still has room for
      `job`, both in item count and in volume. */
  predicate Admits(c: PrinterConstraints, current: seq<PrintJob>, job: PrintJob)
  {
    |current| < c.maxItems && TotalVolume(current) + job.volume <= c.maxVolume
  }

  /** Every job of the batch after the first was admitted to the batch
      formed by the jobs before it. */
  predicate Fits(c: PrinterConstraints, batch: seq<PrintJob>)
  {
    forall k :: 1 <= k < |batch| ==> Admits(c, batch[..k], batch[k])
  }

  /** The batch `next` was opened because `batch` had no room for its first job. */
  predicate Closed(c: PrinterConstraints, batch: seq<PrintJob>, next: seq<PrintJob>)
  {
    |next| > 0 && !Admits(c, batch, next[0])
  }

  /** The jobs of all batches, batch after batch. */
  function Flatten(batches: seq<seq<PrintJob>>): seq<PrintJob>
  {
    if |batches| == 0 then [] else batches[0] + Flatten(batches[1..])
  }

  /** `batches` is the greedy packing of `jobs`: it only splits the queue,
      no batch is empty, every job joins the open batch when it fits there,
      and a new batch is opened exactly when it does not. */
  predicate IsGreedyBatching(c: PrinterConstraints, jobs: seq<PrintJob>, batches: seq<seq<PrintJob>>)
  {
    && Flatten(batches) == jobs
    && (forall k :: 0 <= k < |batches| ==> |batches[k]| > 0 && Fits(c, batches[k]))
    && (forall k :: 0 <= k < |batches| - 1 ==> Closed(c, batches[k], batches[k + 1]))
  }

  /** Flattening distributes over appending one batch. */
  lemma {:induction false} FlattenAppend(batches: seq<seq<PrintJob>>, batch: seq<PrintJob>)
    ensures Flatten(batches + [batch]) == Flatten(batches) + batch
    decreases |batches|
  {
    if |batches| == 0 {
      assert Flatten([batch]) == batch + Flatten([]);
    } else {
      assert (batches + [batch])[1..] == batches[1..] + [batch];
      FlattenAppend(batches[1..], batch);
    }
  }

  /** The first job opens the first batch. */
  lemma GreedyStart(c: PrinterConstraints, job: PrintJob)
    ensures IsGreedyBatching(c, [job], [[job]])
  {
    assert Flatten([[job]]) == [job] + Flatten([]);
  }

  /** A job that does not fit the open batch opens a new one (the new-batch branch of `optimize_printing`). */
  lemma GreedyOpen(c: PrinterConstraints, jobs: seq<PrintJob>, done: seq<seq<PrintJob>>,
                   current: seq<PrintJob>, job: PrintJob)
    requires IsGreedyBatching(c, jobs, done + [current])
    requires !Admits(c, current, job)
    ensures IsGreedyBatching(c, jobs + [job], done + [current] + [[job]])
  {
    var before := done + [current];
    var after := before + [[job]];
    FlattenAppend(before, [job]);
    forall k | 0 <= k < |after| ensures |after[k]| > 0 && Fits(c, after[k]) {
      if k < |before| {
        assert after[k] == before[k];
      }
    }
    forall k | 0 <= k < |after| - 1 ensures Closed(c, after[k], after[k + 1]) {
      if k < |before| - 1 {
        assert after[k] == before[k] && after[k + 1] == before[k + 1];
      } else {
        assert after[k] == current && after[k + 1] == [job];
      }
    }
  }

  /** A job that fits joins the open batch (the append branch of `optimize_printing`). */
  lemma GreedyGrow(c: PrinterConstraints, jobs: seq<PrintJob>, done: seq<seq<PrintJob>>,
                   current: seq<PrintJob>, job: PrintJob)
    requires IsGreedyBatching(c, jobs, done + [current])
    requires Admits(c, current, job)
    ensures IsGreedyBatching(c, jobs + [job], done + [current + [job]])
  {
    var before := done + [current];
    var grown := current + [job];
    var after := done + [grown];
    FlattenAppend(done, current);
    FlattenAppend(done, grown);
    assert Fits(c, grown) by {
      assert before[|done|] == current;
      assert Fits(c, current);
      forall k | 1 <= k < |grown| ensures Admits(c, grown[..k], grown[k]) {
        if k < |current| {
          assert grown[..k] == current[..k] && grown[k] == current[k];
        } else {
          assert grown[..k] == current;
        }
      }
    }
    forall k | 0 <= k < |after| ensures |after[k]| > 0 && Fits(c, after[k]) {
      if k < |done| {
        assert after[k] == before[k];
      }
    }
    forall k | 0 <= k < |after| - 1 ensures Closed(c, after[k], after[k + 1]) {
      assert after[k] == before[k];
      if k + 1 < |done| {
        assert after[k + 1] == before[k + 1];
      } else {
        assert before[k + 1] == current && after[k + 1] == grown;
        assert grown[0] == current[0];
      }
    }
  }

  /** The batching loop of `optimize_printing`. */
  method PackBatches(c: PrinterConstraints, jobs: seq<PrintJob>) returns (batches: seq<seq<PrintJob>>)
    ensures IsGreedyBatching(c, jobs, batches)
  {
    batches := [];
    var current: seq<PrintJob> := [];
    var volume: real := 0.0;
    var i := 0;
    while i < |jobs|
      invariant 0 <= i <= |jobs|
      invariant volume == TotalVolume(current)
      invariant current == [] ==> i == 0 && batches == []
      invariant current != [] ==> IsGreedyBatching(c, jobs[..i], batches + [current])
    {
      var job := jobs[i];
      assert jobs[..i + 1] == jobs[..i] + [job];
      if |current| >= c.maxItems || volume + job.volume > c.maxVolume {
        if current != [] {
          GreedyOpen(c, jobs[..i], batches, current, job);
          batches := batches + [current];
        } else {
          GreedyStart(c, job);
        }
        current := [job];
        volume := job.volume;
        assert TotalVolume(current) == TotalVolume([]) + job.volume;
      } else {
        if current != [] {
          GreedyGrow(c, jobs[..i], batches, current, job);
        } else {
          GreedyStart(c, job);
        }
        assert (current + [job])[..|current|] == current;
        current := current + [job];
        volume := volume + job.volume;
      }
      i := i + 1;
    }
    assert jobs[..i] == jobs;
    if current != [] {
      batches := batches + [current];
    } else {
      assert Flatten([]) == jobs;
    }
  }

  /** The batches respect the printer: a batch holds more than `max_items`
      jobs, or more than `max_volume` in total, only when it is a single job
      that is too large on its own (or `max_items` is below one). */
  lemma GreedyBatchBounds(c: PrinterConstraints, jobs: seq<PrintJob>, batches: seq<seq<PrintJob>>, k: nat)
    requires IsGreedyBatching(c, jobs, batches)
    requires k < |batches|
    ensures |batches[k]| <= c.maxItems || |batches[k]| == 1
    ensures |batches[k]| == 1 || TotalVolume(batches[k]) <= c.maxVolume
  {
    var b := batches[k];
    if |b| > 1 {
      assert Admits(c, b[..|b| - 1], b[|b| - 1]);
    }
  }

  /** Dropping the first batch leaves a greedy packing of the rest of the queue. */
  lemma GreedyTail(c: PrinterConstraints, jobs: seq<PrintJob>, batches: seq<seq<PrintJob>>)
    requires IsGreedyBatching(c, jobs, batches)
    requires |batches| > 0
    ensures jobs == batches[0] + Flatten(batches[1..])
    ensures IsGreedyBatching(c, Flatten(batches[1..]), batches[1..])
  {
    var tail := batches[1..];
    forall k | 0 <= k < |tail| ensures |tail[k]| > 0 && Fits(c, tail[k]) {
      assert tail[k] == batches[k + 1];
    }
    forall k | 0 <= k < |tail| - 1 ensures Closed(c, tail[k], tail[k + 1]) {
      assert tail[k] == batches[k + 1] && tail[k + 1] == batches[k + 2];
    }
  }

  /** In a greedy packing the job after the first batch did not fit it. */
  lemma FirstBatchClosed(c: PrinterConstraints, jobs: seq<PrintJob>, batches: seq<seq<PrintJob>>)
    requires IsGreedyBatching(c, jobs, batches)
    requires |batches| > 0 && |batches[0]| < |jobs|
    ensures !Admits(c, jobs[..|batches[0]|], jobs[|batches[0]|])
  {
    GreedyTail(c, jobs, batches);
    var first := batches[0];
    assert |batches| > 1;
    assert Flatten(batches[1..]) == batches[1] + Flatten(batches[2..]) by {
      assert batches[1..][1..] == batches[2..];
    }
    assert jobs[..|first|] == first;
    assert jobs[|first|] == batches[1][0];
    assert Closed(c, batches[0], batches[1]);
  }

  /** In a greedy packing every job inside the first batch fit the jobs
      before it. */
  lemma FirstBatchAdmits(c: PrinterConstraints, jobs: seq<PrintJob>, batches: seq<seq<PrintJob>>, m: nat)
    requires IsGreedyBatching(c, jobs, batches)
    requires |batches| > 0 && 1 <= m < |batches[0]|
    ensures Admits(c, jobs[..m], jobs[m])
  {
    GreedyTail(c, jobs, batches);
    var first := batches[0];
    assert Fits(c, first);
    assert jobs[..m] == first[..m] && jobs[m] == first[m];
  }

  /** Two greedy packings of one queue cannot start with batches of
      different sizes: the shorter first batch would have had room for the
      job that opened its successor. */
  lemma SameFirstBatchSize(c: PrinterConstraints, jobs: seq<PrintJob>,
                           a: seq<seq<PrintJob>>, b: seq<seq<PrintJob>>)
    requires IsGreedyBatching(c, jobs, a)
    requires IsGreedyBatching(c, jobs, b)
    requires |a| > 0 && |b| > 0
    ensures |a[0]| >= |b[0]|
  {
    GreedyTail(c, jobs, b);
    if |a[0]| < |b[0]| {
      FirstBatchClosed(c, jobs, a);
      FirstBatchAdmits(c, jobs, b, |a[0]|);
      assert false;
    }
  }

  /** The greedy packing of a queue is unique: the characterisation above
      determines the batches completely. */
  lemma {:induction false} GreedyBatchingUnique(c: PrinterConstraints, jobs: seq<PrintJob>,
                                               a: seq<seq<PrintJob>>, b: seq<seq<PrintJob>>)
    requires IsGreedyBatching(c, jobs, a)
    requires IsGreedyBatching(c, jobs, b)
    ensures a == b
    decreases |jobs|
  {
    if |a| == 0 || |b| == 0 {
      if |a| > 0 {
        GreedyTail(c, jobs, a);
      } else if |b| > 0 {
        GreedyTail(c, jobs, b);
      }
    } else {
      SameFirstBatchSize(c, jobs, a, b);
      SameFirstBatchSize(c, jobs, b, a);
      GreedyTail(c, jobs, a);
      GreedyTail(c, jobs, b);
      assert a[0] == jobs[..|a[0]|] == b[0];
      assert Flatten(a[1..]) == jobs[|a[0]|..] == Flatten(b[1..]);
      GreedyBatchingUnique(c, jobs[|a[0]|..], a[1..], b[1..]);
      assert a == [a[0]] + a[1..] && b == [b[0]] + b[1..];
    }
  }

  /** `max(job.print_time for job in batch)`: the batch prints as long as its
      slowest job. */
  function MaxTime(batch: seq<PrintJob>): (r: int)
    requires |batch| > 0
    ensures exists i :: 0 <= i < |batch| && r == batch[i].printTime
    ensures forall i :: 0 <= i < |batch| ==> batch[i].printTime <= r
    decreases |batch|
  {
    if |batch| == 1 then batch[0].printTime
    else
      var rest := MaxTime(batch[1..]);
      assert forall i :: 1 <= i < |batch| ==> batch[i] == batch[1..][i - 1];
      if batch[0].printTime >= rest then batch[0].printTime else rest
  }

  /** Every batch has at least one job. */
  predicate NonEmptyBatches(batches: seq<seq<PrintJob>>)
  {
    forall k :: 0 <= k < |batches| ==> |batches[k]| > 0
  }

  /** Sum over the batches of each batch's print time. */
  function TotalTime(batches: seq<seq<PrintJob>>): int
    requires NonEmptyBatches(batches)
  {
    if |batches| == 0 then 0 else MaxTime(batches[0]) + TotalTime(batches[1..])
  }

  /** With non-negative print times a batch never takes longer than
      printing its jobs one after another. */
  lemma {:induction false} MaxTimeAtMostSum(batch: seq<PrintJob>)
    requires |batch| > 0
    requires forall i :: 0 <= i < |batch| ==> batch[i].printTime >= 0
    ensures MaxTime(batch) <= SumTimes(batch)
    decreases |batch|
  {
    if |batch| > 1 {
      var rest := batch[1..];
      assert forall i :: 0 <= i < |rest| ==> rest[i] == batch[i + 1];
      MaxTimeAtMostSum(rest);
    }
  }

  /** Batching saves time: with non-negative print times the total is at
      most the sum of all print times. */
  lemma {:induction false} TotalTimeAtMostSum(batches: seq<seq<PrintJob>>)
    requires NonEmptyBatches(batches)
    requires forall i :: 0 <= i < |Flatten(batches)| ==> Flatten(batches)[i].printTime >= 0
    ensures TotalTime(batches) <= SumTimes(Flatten(batches))
    decreases |batches|
  {
    if |batches| > 0 {
      var first, tail := batches[0], batches[1..];
      assert Flatten(batches) == first + Flatten(tail);
      forall i | 0 <= i < |first| ensures first[i].printTime >= 0 {
        assert first[i] == Flatten(batches)[i];
      }
      forall i | 0 <= i < |Flatten(tail)| ensures Flatten(tail)[i].printTime >= 0 {
        assert Flatten(tail)[i] == Flatten(batches)[|first| + i];
      }
      MaxTimeAtMostSum(first);
      TotalTimeAtMostSum(tail);
      SumTimesAppend(first, Flatten(tail));
    }
  }

  /** The ids distribute over concatenation. */
  lemma {:induction false} IdsAppend(a: seq<PrintJob>, b: seq<PrintJob>)
    ensures Ids(a + b) == Ids(a) + Ids(b)
    decreases |a|
  {
    if |a| > 0 {
      assert (a + b)[1..] == a[1..] + b;
      IdsAppend(a[1..], b);
    } else {
      assert a + b == b;
    }
  }

  /** Appending a batch adds its time to the total. */
  lemma {:induction false} TotalTimeAppend(batches: seq<seq<PrintJob>>, batch: seq<PrintJob>)
    requires NonEmptyBatches(batches)
    requires |batch| > 0
    ensures NonEmptyBatches(batches + [batch])
    ensures TotalTime(batches + [batch]) == TotalTime(batches) + MaxTime(batch)
    decreases |batches|
  {
    if |batches| > 0 {
      assert (batches + [batch])[1..] == batches[1..] + [batch];
      TotalTimeAppend(batches[1..], batch);
    } else {
      assert TotalTime([batch]) == MaxTime(batch) + TotalTime([]);
    }
  }

  /** One more batch emitted. */
  lemma PrefixStep(batches: seq<seq<PrintJob>>, k: nat)
    requires NonEmptyBatches(batches)
    requires k < |batches|
    ensures Ids(Flatten(batches[..k + 1])) == Ids(Flatten(batches[..k])) + Ids(batches[k])
    ensures TotalTime(batches[..k + 1]) == TotalTime(batches[..k]) + MaxTime(batches[k])
  {
    assert batches[..k + 1] == batches[..k] + [batches[k]];
    FlattenAppend(batches[..k], batches[k]);
    IdsAppend(Flatten(batches[..k]), batches[k]);
    TotalTimeAppend(batches[..k], batches[k]);
  }

  /** One more id emitted. */
  lemma IdsSnoc(batch: seq<PrintJob>, m: nat)
    requires m < |batch|
    ensures Ids(batch[..m + 1]) == Ids(batch[..m]) + [batch[m].id]
  {
    assert batch[..m + 1] == batch[..m] + [batch[m]];
    IdsAppend(batch[..m], [batch[m]]);
    assert Ids([batch[m]]) == [batch[m].id] + Ids([]);
  }

  /** The emission loop of `optimize_printing`: ids batch by batch, and the sum of
      the batch times. */
  method EmitBatches(batches: seq<seq<PrintJob>>) returns (printOrder: seq<string>, totalTime: int)
    requires NonEmptyBatches(batches)
    ensures printOrder == Ids(Flatten(batches))
    ensures totalTime == TotalTime(batches)
  {
    printOrder := [];
    totalTime := 0;
    var k := 0;
    while k < |batches|
      invariant 0 <= k <= |batches|
      invariant printOrder == Ids(Flatten(batches[..k]))
      invariant totalTime == TotalTime(batches[..k])
    {
      var batch := batches[k];
      ghost var before := printOrder;
      var m := 0;
      while m < |batch|
        invariant 0 <= m <= |batch|
        invariant printOrder == before + Ids(batch[..m])
      {
        IdsSnoc(batch, m);
        printOrder := printOrder + [batch[m].id];
        m := m + 1;
      }
      assert batch[..m] == batch;
      PrefixStep(batches, k);
      totalTime := totalTime + MaxTime(batch);
      k := k + 1;
    }
    assert batches[..k] == batches;
  }

  /** With non-negative print times, a greedy packing of any reordering of
      the jobs takes at most as long as printing them one at a time. */
  lemma PlanWithinSum(c: PrinterConstraints, queue: seq<PrintJob>, jobs: seq<PrintJob>,
                      batches: seq<seq<PrintJob>>)
    requires IsGreedyBatching(c, queue, batches)
    requires multiset(queue) == multiset(jobs)
    requires NonNegativeTimes(jobs)
    ensures NonEmptyBatches(batches)
    ensures TotalTime(batches) <= SumTimes(jobs)
  {
    forall i | 0 <= i < |queue| ensures queue[i].printTime >= 0 {
      assert queue[i] in multiset(jobs);
      var k :| 0 <= k < |jobs| && jobs[k] == queue[i];
    }
    TotalTimeAtMostSum(batches);
    SumTimesPermutation(queue, jobs);
  }

  /** `optimize_printing(print_jobs, constraints)`: the ids come out in the
      stable priority order, they are the input's ids with nothing lost or
      repeated, and the total time is the sum of the batch times of the
      unique greedy packing of that order. With non-negative print times
      that total never exceeds printing the jobs one at a time. */
  method OptimizePrinting(jobs: seq<PrintJob>, c: PrinterConstraints) returns (plan: PrintPlan)
    ensures plan.printOrder == Ids(SortByPriority(jobs))
    ensures multiset(plan.printOrder) == multiset(Ids(jobs))
    ensures exists batches :: IsGreedyBatching(c, SortByPriority(jobs), batches)
                              && plan.totalTime == TotalTime(batches)
    ensures jobs == [] ==> plan == PrintPlan([], 0)
    ensures NonNegativeTimes(jobs) ==> plan.totalTime <= SumTimes(jobs)
  {
    var sorted := SortByPriority(jobs);
    var batches := PackBatches(c, sorted);
    assert NonEmptyBatches(batches);
    var printOrder, totalTime := EmitBatches(batches);
    plan := PrintPlan(printOrder, totalTime);
    SortIds(jobs);
    if NonNegativeTimes(jobs) {
      PlanWithinSum(c, sorted, jobs, batches);
    }
    if jobs == [] {
      assert Flatten(batches) == [];
      assert batches == [] by {
        if |batches| > 0 {
          GreedyTail(c, sorted, batches);
        }
      }
    }
  }
}
