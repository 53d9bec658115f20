/**
 * The top-down strategy of task2/main.py (`rod_cutting_memo`): the profit
 * recursion `find_max_profit`, the cut recursion `find_cuts` with its
 * first-strict-maximum scan, and the result record. The memo dictionaries
 * only cache values of these pure recursions, so they are not modelled.
 */
module RodMemo {
  import opened Wrappers
  import opened RodModel

  /** `find_max_profit(n)`: the best revenue for a rod of length `n`. */
  function MaxProfit(prices: PriceTable, n: nat): int
    requires n <= |prices|
    decreases n, 1
  {
    if n == 0 then 0 else ProfitScan(prices, n, n)
  }

  /** The running `max_val` of the loop in `find_max_profit` after it has
      tried the first pieces `1..k`. Starting from minus infinity, the first
      candidate always becomes the maximum. */
  function ProfitScan(prices: PriceTable, n: nat, k: nat): int
    requires 1 <= k <= n <= |prices|
    decreases n, 0, k
  {
    var current := prices[k - 1] + MaxProfit(prices, n - k);
    if k == 1 then current
    else
      var previous := ProfitScan(prices, n, k - 1);
      if previous >= current then previous else current
  }

  /** What a first piece of length `j` earns when the rest of the rod is
      sold at its best profit. */
  function Gain(prices: PriceTable, n: nat, j: nat): int
    requires 1 <= j <= n <= |prices|
  {
    prices[j - 1] + MaxProfit(prices, n - j)
  }

  /** State of the `find_cuts` scan: best value so far and the piece that reached it. */
  datatype Choice = Choice(value: int, cut: nat)

  /** The scan of `find_cuts` over pieces `1..k`: `best_cut` changes only on
      a strict improvement, so it is the FIRST piece reaching the maximum. */
  function CutScan(prices: PriceTable, n: nat, k: nat): (r: Choice)
    requires 1 <= k <= n <= |prices|
    ensures 1 <= r.cut <= k
    ensures r.value == Gain(prices, n, r.cut)
    ensures forall j :: 1 <= j <= k ==> Gain(prices, n, j) <= r.value
    ensures forall j :: 1 <= j < r.cut ==> Gain(prices, n, j) < r.value
    decreases k
  {
    var current := Gain(prices, n, k);
    if k == 1 then Choice(current, 1)
    else
      var previous := CutScan(prices, n, k - 1);
      if current > previous.value then Choice(current, k) else previous
  }

  /** `best_cut` of `find_cuts(n)`. */
  function FirstCut(prices: PriceTable, n: nat): nat
    requires 1 <= n <= |prices|
  {
    CutScan(prices, n, n).cut
  }

  /** The value scan of `find_max_profit` and the strict scan of `find_cuts`
      reach the same maximum. */
  lemma {:induction false} ScanAgrees(prices: PriceTable, n: nat, k: nat)
    requires 1 <= k <= n <= |prices|
    ensures ProfitScan(prices, n, k) == CutScan(prices, n, k).value
    decreases k
  {
    if k > 1 {
      ScanAgrees(prices, n, k - 1);
    }
  }

  /** The recurrence of the memoised profit: `MaxProfit(n)` is the largest
      gain over all first pieces, and `FirstCut(n)` is the smallest piece
      that reaches it. */
  lemma MaxProfitRecurrence(prices: PriceTable, n: nat)
    requires 1 <= n <= |prices|
    ensures 1 <= FirstCut(prices, n) <= n
    ensures MaxProfit(prices, n) == Gain(prices, n, FirstCut(prices, n))
    ensures forall j :: 1 <= j <= n ==> Gain(prices, n, j) <= MaxProfit(prices, n)
    ensures forall j :: 1 <= j < FirstCut(prices, n) ==> Gain(prices, n, j) < MaxProfit(prices, n)
  {
    ScanAgrees(prices, n, n);
  }

  /** `find_cuts(n)`: the first best piece followed by the cuts of the rest.
      The pieces cut the rod exactly and earn the best profit. */
  function MemoCuts(prices: PriceTable, n: nat): (r: seq<int>)
    requires n <= |prices|
    ensures IsPartition(r, n)
    ensures PiecesFit(prices, r)
    ensures Revenue(prices, r) == MaxProfit(prices, n)
    decreases n
  {
    if n == 0 then []
    else
      var c := FirstCut(prices, n);
      MaxProfitRecurrence(prices, n);
      [c] + MemoCuts(prices, n - c)
  }

  /** `find_cuts(n)` starts with its first best piece. */
  lemma MemoCutsUnfold(prices: PriceTable, n: nat)
    requires 1 <= n <= |prices|
    ensures 1 <= FirstCut(prices, n) <= n
    ensures MemoCuts(prices, n) == [FirstCut(prices, n)] + MemoCuts(prices, n - FirstCut(prices, n))
  {
  }

  /** Optimality: no way of cutting the rod earns more than `MaxProfit`. */
  lemma {:induction false} Optimal(prices: PriceTable, n: nat, pieces: seq<int>)
    requires n <= |prices|
    requires IsPartition(pieces, n)
    ensures PiecesFit(prices, pieces)
    ensures Revenue(prices, pieces) <= MaxProfit(prices, n)
    decreases |pieces|
  {
    PartitionFits(prices, pieces, n);
    if |pieces| > 0 {
      var c := pieces[0];
      var rest := pieces[1..];
      PartitionBounds(pieces, n);
      assert IsPartition(rest, n - c) by {
        forall i | 0 <= i < |rest| ensures rest[i] >= 1 {
          assert rest[i] == pieces[i + 1];
        }
      }
      Optimal(prices, n - c, rest);
      MaxProfitRecurrence(prices, n);
      assert Revenue(prices, pieces) <= Gain(prices, n, c);
    }
  }

  /** `Optimal` for every partition at once. */
  lemma OptimalAll(prices: PriceTable, n: nat)
    requires n <= |prices|
    ensures forall p :: IsPartition(p, n) ==> PiecesFit(prices, p) && Revenue(prices, p) <= MaxProfit(prices, n)
  {
    forall p | IsPartition(p, n)
      ensures PiecesFit(prices, p) && Revenue(prices, p) <= MaxProfit(prices, n)
    {
      Optimal(prices, n, p);
    }
  }

  /** A longer rod never earns less, provided a piece of length one has a
      non-negative price: one more unit piece can always be sold. */
  lemma Monotone(prices: PriceTable, n: nat)
    requires n + 1 <= |prices|
    requires prices[0] >= 0
    ensures MaxProfit(prices, n) <= MaxProfit(prices, n + 1)
  {
    var best := MemoCuts(prices, n);
    var longer := [1] + best;
    assert longer[1..] == best;
    assert IsPartition(longer, n + 1) by {
      forall i | 0 <= i < |longer| ensures longer[i] >= 1 {
        if i > 0 {
          assert longer[i] == best[i - 1];
        }
      }
    }
    Optimal(prices, n + 1, longer);
  }

  /** `rod_cutting_memo(length, prices)`. The source fails on a negative
      length (unbounded recursion) and on a price table shorter than the rod
      (index error); both become a `Failure`. */
  function SolveMemo(length: int, prices: PriceTable): (r: Result<Solution, SolveError>)
    ensures r.Failure? <==> length < 0 || |prices| < length
    ensures length == 0 ==> r == Success(Solution(0, [], 0))
    ensures r.Success? ==>
      && IsPartition(r.value.cuts, length)
      && PiecesFit(prices, r.value.cuts)
      && r.value.maxProfit == Revenue(prices, r.value.cuts)
      && (length > 0 ==> r.value.numberOfCuts + 1 == |r.value.cuts|)
    ensures r.Success? ==>
      forall p :: IsPartition(p, length) ==> PiecesFit(prices, p) && Revenue(prices, p) <= r.value.maxProfit
  {
    if length < 0 then Failure(NegativeLength)
    else if |prices| < length then Failure(MissingPrice)
    else
      var cuts := MemoCuts(prices, length);
      OptimalAll(prices, length);
      Success(Solution(MaxProfit(prices, length), cuts, CutCount(cuts)))
  }
}
