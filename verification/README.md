# Rod cutting and 3D-print batching, modelled in Dafny

This project models the two algorithms of the repository.

**Rod cutting** (`task2/main.py`). A rod of integer length is cut into pieces, and
`prices[i]` is the price of a piece of length `i + 1`. There are two strategies:

- `rod_cutting_memo` is a top-down recursion. `find_max_profit` computes the best
  profit. `find_cuts` scans the first pieces in ascending order, keeps the first
  strict maximum, and recurses on the rest of the rod.
- `rod_cutting_table` fills a `dp` table and a `cut` table bottom-up, using the same
  strict-`>` tie-break. It then walks back from the full length to read off the pieces.

Both return `max_profit`, `cuts` and `number_of_cuts`. The model proves that the
two strategies return the same record: the same profit and the same cut list. It
also proves that the cut list splits the rod exactly into positive pieces, that
its revenue is the profit, and that no other way of cutting the rod earns more.

**Print batching** (`task1/main.py`, `optimize_printing`). Jobs are stably sorted
by priority. They are then packed greedily into consecutive batches that respect
the printer's `max_items` and `max_volume`. Ids are emitted batch by batch, and
the total time adds up each batch's longest print time. The model proves these
things:

- The print order is the input's ids in stable priority order.
- The batches split the sorted queue without reordering it.
- The greedy packing is unique.
- The printer's limits hold, except for a single job that is too large on its own.

Modules:

- `Wrappers`: the `Result` type.
- `RodModel`: partitions, revenue and the result record.
- `RodMemo`: the memoised strategy.
- `RodTable`: the tabulated strategy.
- `RodExamples`: the inputs of `run_tests`.
- `PrintJobs`: the job record and the stable sort.
- `PrintBatching`: the packing and `optimize_printing`.
- `PrintExamples`: the inputs of `test_printing_optimization`.

Invalid rod input is not a precondition. The source raises on a negative length:
`find_cuts` recurses forever, and `dp[length]` is out of range. It also raises when
the price table is shorter than the rod, because of an index error. Both cases are
modelled as a `Failure` result, and neither strategy fails on any other input. The
source raises different exceptions in the two strategies; the model does not
distinguish them.

At length 5 and prices [2, 5, 7, 8, 10], both [1, 2, 2] and [2, 3] earn 12. The
first-strict-maximum tie-break returns [1, 2, 2] (`RodExamples.BasicCase`).

## Model

| member | source | states |
|---|---|---|
| RodMemo.CutScan | task2/main.py:42-49 | The scan of `find_cuts` over pieces `1..k` returns a piece in `1..k` whose gain is at least every scanned gain, and it is the first such piece: every earlier piece gains strictly less (strict `>`). |
| RodMemo.ScanAgrees | task2/main.py:27-32 | The `max()` loop of `find_max_profit` and the strict scan of `find_cuts` reach the same maximum value. |
| RodMemo.MaxProfitRecurrence | task2/main.py:20-32 | For `n >= 1`, `find_max_profit(n)` is the largest `prices[j-1] + find_max_profit(n-j)` over `j` in `1..n`. The first cut is the smallest `j` reaching it. |
| RodMemo.MemoCuts | task2/main.py:35-54 | `find_cuts(n)` returns positive pieces that sum to `n`, all with a price, and their revenue equals `find_max_profit(n)`. |
| RodMemo.Optimal | task2/main.py:20-32 | Optimality: every partition of `n` into positive pieces earns at most `find_max_profit(n)`. |
| RodMemo.OptimalAll | task2/main.py:20-32 | The same optimality, for all partitions of `n` at once. |
| RodMemo.Monotone | task2/main.py:20-32 | When a unit piece has a non-negative price, the best profit never decreases as the rod gets longer. |
| RodMemo.SolveMemo | task2/main.py:3-69 | `rod_cutting_memo` fails exactly on a negative length or a short price table. Length 0 gives `{0, [], 0}`. Otherwise the cuts are a positive partition of the rod, the profit is their revenue and beats every other partition, and `number_of_cuts` is the number of pieces minus one. |
| RodTable.FillTable | task2/main.py:83-95 | The filled tables obey the recurrence. `dp[0] == 0`. For each `1 <= i <= length`, `cut[i]` lies in `1..i`, `dp[i]` is the largest `prices[j-1] + dp[i-j]`, and `cut[i]` is the smallest `j` reaching it. |
| RodTable.RecurrenceTableIsMemo | task2/main.py:87-95 | Any table obeying that recurrence agrees with the memoised strategy. `dp[k]` is `find_max_profit(k)`, and `cut[k]` is the first piece `find_cuts(k)` picks. |
| RodTable.WalkIsPartition | task2/main.py:98-103 | The pieces read off by the back-walk are positive and sum exactly to the starting length. |
| RodTable.Reconstruct | task2/main.py:98-103 | The back-walk terminates. Each emitted piece is the table's choice at the length still remaining, the walk ends at exactly zero, and the pieces partition the rod. |
| RodTable.WalkIsMemoCuts | task2/main.py:51-52 | Walking a table of first cuts gives exactly the list that `find_cuts` builds by prepending `best_cut`. |
| RodTable.RodCuttingTable | task2/main.py:71-112 | `rod_cutting_table` returns exactly what `rod_cutting_memo` returns: the same profit, cut list and count, and the same failures. |
| RodExamples.BasicCase | task2/main.py:117-122 | Length 5 at prices [2, 5, 7, 8, 10] gives profit 12, cuts [1, 2, 2] and 2 cuts. |
| RodExamples.NoCutCase | task2/main.py:123-128 | Length 3 at prices [1, 3, 8] gives profit 8, cuts [3] and 0 cuts. |
| RodExamples.UniformCase | task2/main.py:129-134 | Length 4 at prices [3, 5, 6, 7] gives profit 12, cuts [1, 1, 1, 1] and 3 cuts. |
| PrintJobs.SortByPriority | task1/main.py:32 | The sort returns a permutation of the jobs, in non-decreasing priority. It is stable: the jobs of each priority keep their input order. |
| PrintJobs.StableSortUnique | task1/main.py:32 | Any ordering that is sorted by priority and stable equals the sort's result, so the contract above fixes the order completely. |
| PrintJobs.SortIds | task1/main.py:32 | Sorting neither loses nor repeats an id: the multiset of ids is unchanged. |
| PrintJobs.SortTimes | task1/main.py:32 | Sorting keeps the sum of the print times, so a bound on the sorted queue is a bound on the input. |
| PrintJobs.SumTimesPermutation | task1/main.py:32 | Any two orderings of the same jobs have the same sum of print times. |
| PrintBatching.GreedyOpen | task1/main.py:41-46 | A job that does not fit the open batch, by item count or by volume, closes that batch and opens a new one. The packing stays greedy. |
| PrintBatching.GreedyGrow | task1/main.py:47-49 | A job that fits joins the open batch, and the packing stays greedy. |
| PrintBatching.PackBatches | task1/main.py:35-53 | The loop yields a greedy packing. The batches concatenate to the input queue and none is empty. Every job after a batch's first fit that batch when it joined, and every new batch was opened because its first job did not fit the previous batch. |
| PrintBatching.GreedyBatchBounds | task1/main.py:41-49 | A batch holds at most `max_items` jobs, unless it is a single job. Its volume is at most `max_volume`, unless it is a single job. |
| PrintBatching.GreedyBatchingUnique | task1/main.py:39-53 | Two greedy packings of the same queue are equal. |
| PrintBatching.MaxTime | task1/main.py:64 | A batch's time is one of its jobs' print times, and no job in the batch takes longer. |
| PrintBatching.TotalTimeAtMostSum | task1/main.py:56-65 | With non-negative print times, the total time is at most the sum of all print times. |
| PrintBatching.PlanWithinSum | task1/main.py:56-65 | With non-negative print times, a greedy packing of any reordering of the jobs (the sorted queue among them) takes at most the sum of the jobs' print times. |
| PrintBatching.EmitBatches | task1/main.py:56-65 | The print order lists the jobs' ids batch after batch. The total is the sum of the batch times. |
| PrintBatching.OptimizePrinting | task1/main.py:16-70 | The print order is the ids in stable priority order, a permutation of the input ids. The total time is the sum of batch times of the greedy packing of that order. With non-negative print times it is at most the sum of the input jobs' print times. An empty queue gives `([], 0)`. |
| PrintExamples.SamePriorityCase | task1/main.py:75-79 | Test 1 prints M1, M2, M3 in 270 minutes: [M1, M2] then [M3]. |
| PrintExamples.MixedPriorityCase | task1/main.py:82-86 | Test 2 prints M2, M1, M3 in 270 minutes: [M2, M1] then [M3]. |
| PrintExamples.LargeVolumesCase | task1/main.py:89-93 | Test 3 prints M1, M2, M3 in 450 minutes, one job per batch. |

## Left out

- The memo dictionaries `memo_profit` and `memo_cuts` (task2/main.py:15-17) are not modelled. They only cache values of pure recursions, so the model uses the recursions directly and does not state that the cache stays coherent.
- Python's recursion limit is not modelled. `rod_cutting_memo` on a long rod raises `RecursionError`; the model has no depth bound.
- The two strategies raise different exceptions: `IndexError` in both, and `RecursionError` for a negative length in the memo strategy. The model reports the reason instead, as `NegativeLength` or `MissingPrice`.
- The `float('-inf')` seeds of the scans are left out. The first candidate always beats minus infinity, so each scan starts from the first piece.
- Volumes are exact reals. Floating-point rounding in the volume sums of `optimize_printing` is not modelled.
- Timsort itself is not modelled. `list.sort` is represented by a stable insertion sort, and `PrintJobs.StableSortUnique` shows that every stable priority sort gives the same order.
- The construction of dataclasses from dicts (`PrintJob(**job)`, `PrinterConstraints(**constraints)`) is left out, along with its `TypeError` on missing or extra keys. The records are Dafny datatypes, and the result dicts are the `Solution` and `PrintPlan` records.
- `run_tests` and `test_printing_optimization` only print. Their inputs appear as the example lemmas above.
- Time and space complexity are not modelled.
