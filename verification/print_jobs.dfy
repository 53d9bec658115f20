/**
 * The records of task1/main.py (`PrintJob`) and the stable sort of the job
 * queue by priority (`jobs.sort(key=lambda x: x.priority)`). Python's sort is
 * stable, so it is modelled by a stable insertion sort whose contract fixes
 * the result completely: a permutation, ordered by priority, and with the
 * jobs of each priority in their input order.
 */
module PrintJobs {

  /** One 3D-print job. Volumes are only added and compared, so they are
      exact reals here. */
  datatype PrintJob = PrintJob(id: string, volume: real, priority: int, printTime: int)

  /** Ids of the jobs, in order. */
  function Ids(jobs: seq<PrintJob>): seq<string>
  {
    if |jobs| == 0 then [] else [jobs[0].id] + Ids(jobs[1..])
  }

  /** Sum of the print times of the jobs. */
  function SumTimes(jobs: seq<PrintJob>): int
  {
    if |jobs| == 0 then 0 else jobs[0].printTime + SumTimes(jobs[1..])
  }

  /** The time sum distributes over concatenation. */
  lemma {:induction false} SumTimesAppend(a: seq<PrintJob>, b: seq<PrintJob>)
    ensures SumTimes(a + b) == SumTimes(a) + SumTimes(b)
    decreases |a|
  {
    if |a| > 0 {
      assert (a + b)[1..] == a[1..] + b;
      SumTimesAppend(a[1..], b);
    } else {
      assert a + b == b;
    }
  }

  /** No job has a negative print time. */
  predicate NonNegativeTimes(jobs: seq<PrintJob>)
  {
    forall i :: 0 <= i < |jobs| ==> jobs[i].printTime >= 0
  }

  /** Taking out the job at index `j` takes one copy of it out of the multiset. */
  lemma RemoveJob(b: seq<PrintJob>, j: nat)
    requires j < |b|
    ensures multiset(b[..j] + b[j + 1..]) == multiset(b) - multiset{b[j]}
  {
    assert b == b[..j] + [b[j]] + b[j + 1..];
  }

  /** Taking out the job at index `j` takes its print time off the sum. */
  lemma {:induction false} RemoveTime(b: seq<PrintJob>, j: nat)
    requires j < |b|
    ensures SumTimes(b) == b[j].printTime + SumTimes(b[..j] + b[j + 1..])
    decreases j
  {
    if j == 0 {
      assert b[..0] + b[1..] == b[1..];
    } else {
      var tail := b[1..];
      RemoveTime(tail, j - 1);
      var shorter := b[..j] + b[j + 1..];
      assert shorter[0] == b[0];
      assert shorter[1..] == tail[..j - 1] + tail[j..];
    }
  }

  /** Any reordering of the jobs keeps the sum of their print times. */
  lemma {:induction false} SumTimesPermutation(a: seq<PrintJob>, b: seq<PrintJob>)
    requires multiset(a) == multiset(b)
    ensures SumTimes(a) == SumTimes(b)
    decreases |a|
  {
    if |a| == 0 {
      assert |b| == |multiset(b)| == 0;
    } else {
      assert a[0] in multiset(b);
      var j :| 0 <= j < |b| && b[j] == a[0];
      RemoveJob(b, j);
      RemoveTime(b, j);
      assert a == [a[0]] + a[1..];
      assert multiset(a[1..]) == multiset(a) - multiset{a[0]};
      SumTimesPermutation(a[1..], b[..j] + b[j + 1..]);
    }
  }

  /** The subsequence of jobs that have priority `p`. */
  function WithPriority(jobs: seq<PrintJob>, p: int): seq<PrintJob>
  {
    if |jobs| == 0 then []
    else (if jobs[0].priority == p then [jobs[0]] else []) + WithPriority(jobs[1..], p)
  }

  /** Priorities never decrease along the sequence. */
  predicate SortedByPriority(jobs: seq<PrintJob>)
  {
    forall i, j :: 0 <= i < j < |jobs| ==> jobs[i].priority <= jobs[j].priority
  }

  /** Places `job` before the first job of the same or a larger priority, so
      it precedes every job of its own priority already in `sorted`. */
  function Insert(job: PrintJob, sorted: seq<PrintJob>): (r: seq<PrintJob>)
    ensures multiset(r) == multiset(sorted) + multiset{job}
    ensures r[0] == job || (|sorted| > 0 && r[0] == sorted[0])
    decreases |sorted|
  {
    if |sorted| == 0 || job.priority <= sorted[0].priority then
      [job] + sorted
    else
      assert sorted == [sorted[0]] + sorted[1..];
      [sorted[0]] + Insert(job, sorted[1..])
  }

  /** Filtering a sequence that starts with `x`. */
  lemma WithPriorityCons(x: PrintJob, jobs: seq<PrintJob>, p: int)
    ensures WithPriority([x] + jobs, p) == (if x.priority == p then [x] else []) + WithPriority(jobs, p)
  {
    assert ([x] + jobs)[1..] == jobs;
  }

  /** Inserting into a sorted queue keeps it sorted. */
  lemma {:induction false} InsertSorted(job: PrintJob, sorted: seq<PrintJob>)
    requires SortedByPriority(sorted)
    ensures SortedByPriority(Insert(job, sorted))
    decreases |sorted|
  {
    if |sorted| > 0 && job.priority > sorted[0].priority {
      var tail := sorted[1..];
      InsertSorted(job, tail);
      var rest := Insert(job, tail);
      var r := [sorted[0]] + rest;
      assert r == Insert(job, sorted);
      assert sorted[0].priority <= rest[0].priority;
      forall i, j | 0 <= i < j < |r| ensures r[i].priority <= r[j].priority {
        if i == 0 {
          assert r[j] == rest[j - 1];
          assert rest[0].priority <= rest[j - 1].priority || j - 1 == 0;
        } else {
          assert r[i] == rest[i - 1] && r[j] == rest[j - 1];
        }
      }
    }
  }

  /** Insertion is stable: `job` comes first among the jobs of its priority
      and every other priority's subsequence is untouched. */
  lemma {:induction false} InsertStable(job: PrintJob, sorted: seq<PrintJob>, p: int)
    ensures WithPriority(Insert(job, sorted), p) ==
      (if job.priority == p then [job] + WithPriority(sorted, p) else WithPriority(sorted, p))
    decreases |sorted|
  {
    if |sorted| == 0 || job.priority <= sorted[0].priority {
      WithPriorityCons(job, sorted, p);
    } else {
      var head, tail := sorted[0], sorted[1..];
      var rest := Insert(job, tail);
      assert Insert(job, sorted) == [head] + rest;
      assert sorted == [head] + tail;
      InsertStable(job, tail, p);
      WithPriorityCons(head, rest, p);
      WithPriorityCons(head, tail, p);
      if head.priority == p {
        assert job.priority != p;
      } else {
        assert [] + WithPriority(rest, p) == WithPriority(rest, p);
        assert [] + WithPriority(tail, p) == WithPriority(tail, p);
      }
    }
  }

  /** `jobs.sort(key=priority)`: a permutation of the jobs, ordered by
      priority, and stable, since each priority's jobs keep their order. */
  function SortByPriority(jobs: seq<PrintJob>): (r: seq<PrintJob>)
    ensures multiset(r) == multiset(jobs)
    ensures SortedByPriority(r)
    ensures forall p :: WithPriority(r, p) == WithPriority(jobs, p)
    decreases |jobs|
  {
    if |jobs| == 0 then []
    else
      var rest := SortByPriority(jobs[1..]);
      assert jobs == [jobs[0]] + jobs[1..];
      InsertSorted(jobs[0], rest);
      assert forall p :: WithPriority(Insert(jobs[0], rest), p) == WithPriority(jobs, p) by {
        forall p ensures WithPriority(Insert(jobs[0], rest), p) == WithPriority(jobs, p) {
          InsertStable(jobs[0], rest, p);
          WithPriorityCons(jobs[0], jobs[1..], p);
        }
      }
      Insert(jobs[0], rest)
  }

  /** Insertion adds exactly the inserted job's id. */
  lemma {:induction false} InsertIds(job: PrintJob, sorted: seq<PrintJob>)
    ensures multiset(Ids(Insert(job, sorted))) == multiset(Ids(sorted)) + multiset{job.id}
    decreases |sorted|
  {
    if |sorted| == 0 || job.priority <= sorted[0].priority {
      assert ([job] + sorted)[1..] == sorted;
    } else {
      var rest := Insert(job, sorted[1..]);
      InsertIds(job, sorted[1..]);
      assert ([sorted[0]] + rest)[1..] == rest;
    }
  }

  /** Sorting neither loses nor repeats an id. */
  lemma {:induction false} SortIds(jobs: seq<PrintJob>)
    ensures multiset(Ids(SortByPriority(jobs))) == multiset(Ids(jobs))
    decreases |jobs|
  {
    if |jobs| > 0 {
      SortIds(jobs[1..]);
      InsertIds(jobs[0], SortByPriority(jobs[1..]));
    }
  }

  /** Insertion adds exactly the inserted job's print time. */
  lemma {:induction false} InsertTimes(job: PrintJob, sorted: seq<PrintJob>)
    ensures SumTimes(Insert(job, sorted)) == SumTimes(sorted) + job.printTime
    decreases |sorted|
  {
    if |sorted| == 0 || job.priority <= sorted[0].priority {
      assert ([job] + sorted)[1..] == sorted;
    } else {
      var rest := Insert(job, sorted[1..]);
      InsertTimes(job, sorted[1..]);
      assert ([sorted[0]] + rest)[1..] == rest;
    }
  }

  /** Sorting keeps the sum of the print times. */
  lemma {:induction false} SortTimes(jobs: seq<PrintJob>)
    ensures SumTimes(SortByPriority(jobs)) == SumTimes(jobs)
    decreases |jobs|
  {
    if |jobs| > 0 {
      SortTimes(jobs[1..]);
      InsertTimes(jobs[0], SortByPriority(jobs[1..]));
    }
  }

  /** In a sorted queue no job has a priority below the first job's. */
  lemma {:induction false} NoneBelowHead(jobs: seq<PrintJob>, p: int)
    requires SortedByPriority(jobs)
    requires |jobs| > 0 && p < jobs[0].priority
    ensures WithPriority(jobs, p) == []
    decreases |jobs|
  {
    if |jobs| > 1 {
      NoneBelowHead(jobs[1..], p);
    } else {
      assert WithPriority(jobs[1..], p) == [];
    }
  }

  /** The first job shows up among the jobs of its own priority. */
  lemma HeadInFilter(jobs: seq<PrintJob>)
    requires |jobs| > 0
    ensures WithPriority(jobs, jobs[0].priority) != []
  {
  }

  /** A sorted queue is determined by its per-priority subsequences. */
  lemma {:induction false} SortedByFilters(a: seq<PrintJob>, b: seq<PrintJob>)
    requires SortedByPriority(a) && SortedByPriority(b)
    requires forall p :: WithPriority(a, p) == WithPriority(b, p)
    ensures a == b
    decreases |a|
  {
    if |a| == 0 || |b| == 0 {
      if |a| > 0 {
        HeadInFilter(a);
      } else if |b| > 0 {
        HeadInFilter(b);
      }
    } else {
      var q, q' := a[0].priority, b[0].priority;
      if q < q' {
        NoneBelowHead(b, q);
        HeadInFilter(a);
      } else if q' < q {
        NoneBelowHead(a, q');
        HeadInFilter(b);
      } else {
        assert WithPriority(a, q) == [a[0]] + WithPriority(a[1..], q);
        assert WithPriority(b, q) == [b[0]] + WithPriority(b[1..], q);
        assert a[0] == ([a[0]] + WithPriority(a[1..], q))[0];
        assert a[0] == b[0];
        forall p ensures WithPriority(a[1..], p) == WithPriority(b[1..], p) {
          assert a == [a[0]] + a[1..] && b == [b[0]] + b[1..];
          WithPriorityCons(a[0], a[1..], p);
          WithPriorityCons(b[0], b[1..], p);
          if p == q {
            assert ([a[0]] + WithPriority(a[1..], q))[1..] == WithPriority(a[1..], q);
            assert ([b[0]] + WithPriority(b[1..], q))[1..] == WithPriority(b[1..], q);
          } else {
            assert [] + WithPriority(a[1..], p) == WithPriority(a[1..], p);
            assert [] + WithPriority(b[1..], p) == WithPriority(b[1..], p);
          }
        }
        SortedByFilters(a[1..], b[1..]);
        assert a == [a[0]] + a[1..] && b == [b[0]] + b[1..];
      }
    }
  }

  /** Any stable ordering by priority is the one `SortByPriority` produces. */
  lemma StableSortUnique(jobs: seq<PrintJob>, r: seq<PrintJob>)
    requires SortedByPriority(r)
    requires forall p :: WithPriority(r, p) == WithPriority(jobs, p)
    ensures r == SortByPriority(jobs)
  {
    SortedByFilters(r, SortByPriority(jobs));
  }
}
