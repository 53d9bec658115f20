/**
 * The inputs of `test_printing_optimization` in task1/main.py. Since the
 * greedy packing is unique, any batches `OptimizePrinting` may have used are
 * the ones listed here, which fixes its print order and total time.
 */
module PrintExamples {
  import opened PrintJobs
  import opened PrintBatching

  /** The printer of every test: 300 units of volume, two items per batch. */
  const Printer := PrinterConstraints(300.0, 2)

  /** Test 1: three jobs of the same priority. */
  const SamePriority := [
    PrintJob("M1", 100.0, 1, 120),
    PrintJob("M2", 150.0, 1, 90),
    PrintJob("M3", 120.0, 1, 150)]

  /** Test 2: a thesis (1), a lab (2) and a personal project (3). */
  const MixedPriority := [
    PrintJob("M1", 100.0, 2, 120),
    PrintJob("M2", 150.0, 1, 90),
    PrintJob("M3", 120.0, 3, 150)]

  /** Test 3: volumes that cannot share a batch. */
  const LargeVolumes := [
    PrintJob("M1", 250.0, 1, 180),
    PrintJob("M2", 200.0, 1, 150),
    PrintJob("M3", 180.0, 2, 120)]

  /** Three jobs already in priority order stay where they are. */
  lemma SortOfThreeInOrder(a: PrintJob, b: PrintJob, c: PrintJob)
    requires a.priority <= b.priority <= c.priority
    ensures SortByPriority([a, b, c]) == [a, b, c]
  {
    assert [a, b, c][1..] == [b, c];
    assert [b, c][1..] == [c];
    assert SortByPriority([c]) == [c];
    assert Insert(b, [c]) == [b, c];
  }

  /** A first job that ranks between the second and the third moves one place back. */
  lemma SortOfThreeSwapFirst(a: PrintJob, b: PrintJob, c: PrintJob)
    requires b.priority < a.priority <= c.priority
    ensures SortByPriority([a, b, c]) == [b, a, c]
  {
    assert [a, b, c][1..] == [b, c];
    assert [b, c][1..] == [c];
    assert SortByPriority([c]) == [c];
    assert Insert(b, [c]) == [b, c];
    assert Insert(a, [c]) == [a, c];
  }

  /** Volume of a single job. */
  lemma VolumeOfOne(job: PrintJob)
    ensures TotalVolume([job]) == job.volume
  {
    assert [job][..0] == [];
  }

  /** Volume of two jobs. */
  lemma VolumeOfTwo(a: PrintJob, b: PrintJob)
    ensures TotalVolume([a, b]) == a.volume + b.volume
  {
    assert [a, b][..1] == [a];
    VolumeOfOne(a);
  }

  /** Ids of three jobs. */
  lemma IdsOfThree(a: PrintJob, b: PrintJob, c: PrintJob)
    ensures Ids([a, b, c]) == [a.id, b.id, c.id]
  {
    assert [a, b, c][1..] == [b, c];
    assert [b, c][1..] == [c];
    assert Ids([c]) == [c.id] + Ids([]);
  }

  /** Print order and time of the batches [a, b], [c]. */
  lemma PlanOfTwoBatches(a: PrintJob, b: PrintJob, c: PrintJob)
    ensures Ids(Flatten([[a, b], [c]])) == [a.id, b.id, c.id]
    ensures TotalTime([[a, b], [c]]) == (if a.printTime >= b.printTime then a.printTime else b.printTime) + c.printTime
  {
    var batches := [[a, b], [c]];
    assert batches[1..] == [[c]];
    assert Flatten([[c]]) == [c] + Flatten([]);
    assert Flatten(batches) == [a, b, c];
    assert TotalTime([[c]]) == c.printTime + TotalTime([]);
    IdsOfThree(a, b, c);
  }

  /** Print order and time of the batches [a], [b], [c]. */
  lemma PlanOfThreeBatches(a: PrintJob, b: PrintJob, c: PrintJob)
    ensures Ids(Flatten([[a], [b], [c]])) == [a.id, b.id, c.id]
    ensures TotalTime([[a], [b], [c]]) == a.printTime + b.printTime + c.printTime
  {
    var batches := [[a], [b], [c]];
    assert batches[1..] == [[b], [c]];
    assert batches[1..][1..] == [[c]];
    assert Flatten([[c]]) == [c] + Flatten([]);
    assert Flatten([[b], [c]]) == [b] + Flatten([[c]]);
    assert Flatten(batches) == [a, b, c];
    assert TotalTime([[c]]) == c.printTime + TotalTime([]);
    IdsOfThree(a, b, c);
  }

  /** Test 1 is already in priority order. */
  lemma SamePrioritySorted()
    ensures SortByPriority(SamePriority) == SamePriority
  {
    var s := SamePriority;
    assert s == [s[0], s[1], s[2]];
    SortOfThreeInOrder(s[0], s[1], s[2]);
  }

  /** Test 1 packs as [M1, M2], [M3]. */
  lemma SamePriorityBatches()
    ensures IsGreedyBatching(Printer, SamePriority, [[SamePriority[0], SamePriority[1]], [SamePriority[2]]])
  {
    var s := SamePriority;
    GreedyStart(Printer, s[0]);
    VolumeOfOne(s[0]);
    assert [] + [[s[0]]] == [[s[0]]];
    GreedyGrow(Printer, [s[0]], [], [s[0]], s[1]);
    assert [s[0]] + [s[1]] == [s[0], s[1]];
    assert [] + [[s[0]] + [s[1]]] == [[s[0], s[1]]];
    VolumeOfTwo(s[0], s[1]);
    GreedyOpen(Printer, [s[0], s[1]], [], [s[0], s[1]], s[2]);
    assert [] + [[s[0], s[1]]] + [[s[2]]] == [[s[0], s[1]], [s[2]]];
    assert [s[0], s[1]] + [s[2]] == s;
  }

  /** Test 1: M1 and M2 share a batch, M3 is cut off by the item limit;
      120 + 150 minutes. */
  lemma SamePriorityCase(batches: seq<seq<PrintJob>>)
    requires IsGreedyBatching(Printer, SortByPriority(SamePriority), batches)
    ensures batches == [[SamePriority[0], SamePriority[1]], [SamePriority[2]]]
    ensures Ids(Flatten(batches)) == ["M1", "M2", "M3"]
    ensures TotalTime(batches) == 270
  {
    var s := SamePriority;
    var expected := [[s[0], s[1]], [s[2]]];
    SamePrioritySorted();
    SamePriorityBatches();
    GreedyBatchingUnique(Printer, s, batches, expected);
    PlanOfTwoBatches(s[0], s[1], s[2]);
  }

  /** Test 2 in priority order: M2, M1, M3. */
  lemma MixedPrioritySorted()
    ensures SortByPriority(MixedPriority) == [MixedPriority[1], MixedPriority[0], MixedPriority[2]]
  {
    var s := MixedPriority;
    assert s == [s[0], s[1], s[2]];
    SortOfThreeSwapFirst(s[0], s[1], s[2]);
  }

  /** Test 2 packs as [M2, M1], [M3]. */
  lemma MixedPriorityBatches()
    ensures IsGreedyBatching(Printer, [MixedPriority[1], MixedPriority[0], MixedPriority[2]],
                             [[MixedPriority[1], MixedPriority[0]], [MixedPriority[2]]])
  {
    var s := MixedPriority;
    GreedyStart(Printer, s[1]);
    VolumeOfOne(s[1]);
    assert [] + [[s[1]]] == [[s[1]]];
    GreedyGrow(Printer, [s[1]], [], [s[1]], s[0]);
    assert [s[1]] + [s[0]] == [s[1], s[0]];
    assert [] + [[s[1]] + [s[0]]] == [[s[1], s[0]]];
    VolumeOfTwo(s[1], s[0]);
    GreedyOpen(Printer, [s[1], s[0]], [], [s[1], s[0]], s[2]);
    assert [] + [[s[1], s[0]]] + [[s[2]]] == [[s[1], s[0]], [s[2]]];
    assert [s[1], s[0]] + [s[2]] == [s[1], s[0], s[2]];
  }

  /** Test 2: the thesis M2 goes first and shares a batch with M1; M3 goes
      alone; 120 + 150 minutes. */
  lemma MixedPriorityCase(batches: seq<seq<PrintJob>>)
    requires IsGreedyBatching(Printer, SortByPriority(MixedPriority), batches)
    ensures batches == [[MixedPriority[1], MixedPriority[0]], [MixedPriority[2]]]
    ensures Ids(Flatten(batches)) == ["M2", "M1", "M3"]
    ensures TotalTime(batches) == 270
  {
    var s := MixedPriority;
    var expected := [[s[1], s[0]], [s[2]]];
    MixedPrioritySorted();
    MixedPriorityBatches();
    GreedyBatchingUnique(Printer, [s[1], s[0], s[2]], batches, expected);
    PlanOfTwoBatches(s[1], s[0], s[2]);
  }

  /** Test 3 is already in priority order. */
  lemma LargeVolumesSorted()
    ensures SortByPriority(LargeVolumes) == LargeVolumes
  {
    var s := LargeVolumes;
    assert s == [s[0], s[1], s[2]];
    SortOfThreeInOrder(s[0], s[1], s[2]);
  }

  /** Test 3 packs every job alone. */
  lemma LargeVolumesBatches()
    ensures IsGreedyBatching(Printer, LargeVolumes, [[LargeVolumes[0]], [LargeVolumes[1]], [LargeVolumes[2]]])
  {
    var s := LargeVolumes;
    GreedyStart(Printer, s[0]);
    VolumeOfOne(s[0]);
    assert [] + [[s[0]]] == [[s[0]]];
    GreedyOpen(Printer, [s[0]], [], [s[0]], s[1]);
    assert [] + [[s[0]]] + [[s[1]]] == [[s[0]]] + [[s[1]]];
    VolumeOfOne(s[1]);
    GreedyOpen(Printer, [s[0]] + [s[1]], [[s[0]]], [s[1]], s[2]);
    assert [[s[0]]] + [[s[1]]] + [[s[2]]] == [[s[0]], [s[1]], [s[2]]];
    assert [s[0]] + [s[1]] + [s[2]] == s;
  }

  /** Test 3: no two jobs fit together; 180 + 150 + 120 minutes. */
  lemma LargeVolumesCase(batches: seq<seq<PrintJob>>)
    requires IsGreedyBatching(Printer, SortByPriority(LargeVolumes), batches)
    ensures batches == [[LargeVolumes[0]], [LargeVolumes[1]], [LargeVolumes[2]]]
    ensures Ids(Flatten(batches)) == ["M1", "M2", "M3"]
    ensures TotalTime(batches) == 450
  {
    var s := LargeVolumes;
    var expected := [[s[0]], [s[1]], [s[2]]];
    LargeVolumesSorted();
    LargeVolumesBatches();
    GreedyBatchingUnique(Printer, s, batches, expected);
    PlanOfThreeBatches(s[0], s[1], s[2]);
  }
}
