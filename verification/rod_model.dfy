/**
 * Vocabulary shared by the two rod-cutting strategies: the price table,
 * lists of piece lengths, their revenue, and the record both solvers return.
 */
module RodModel {

  /** `prices[i]` is the price of a piece of length `i + 1`. */
  type PriceTable = seq<int>

  /** Why a solve call cannot produce a solution. */
  datatype SolveError =
    | NegativeLength   // a negative rod length
    | MissingPrice     // the price table is shorter than the rod

  /** The result record of both strategies: profit, piece lengths and the
      number of cuts, which is the number of pieces minus one. */
  datatype Solution = Solution(maxProfit: int, cuts: seq<int>, numberOfCuts: int)

  /** Total length of a list of pieces. */
  function Sum(pieces: seq<int>): int
  {
    if |pieces| == 0 then 0 else pieces[0] + Sum(pieces[1..])
  }

  /** Every piece has a positive length. */
  predicate AllPositive(pieces: seq<int>)
  {
    forall i :: 0 <= i < |pieces| ==> pieces[i] >= 1
  }

  /** `pieces` cuts a rod of length `n` into positive parts. */
  predicate IsPartition(pieces: seq<int>, n: int)
  {
    AllPositive(pieces) && Sum(pieces) == n
  }

  /** Every piece has an entry in the price table. */
  predicate PiecesFit(prices: PriceTable, pieces: seq<int>)
  {
    forall i :: 0 <= i < |pieces| ==> 1 <= pieces[i] <= |prices|
  }

  /** Money earned by selling the pieces at the table's prices. */
  function Revenue(prices: PriceTable, pieces: seq<int>): int
    requires PiecesFit(prices, pieces)
  {
    if |pieces| == 0 then 0 else prices[pieces[0] - 1] + Revenue(prices, pieces[1..])
  }

  /** `number_of_cuts` as both strategies compute it: pieces minus one, and
      zero for an empty list. */
  function CutCount(cuts: seq<int>): int
  {
    if |cuts| > 0 then |cuts| - 1 else 0
  }

  /** No piece of a partition is longer than the rod, and only the rod of
      length zero has the empty partition. */
  lemma {:induction false} PartitionBounds(pieces: seq<int>, n: int)
    requires IsPartition(pieces, n)
    ensures n >= 0
    ensures forall i :: 0 <= i < |pieces| ==> pieces[i] <= n
    ensures n == 0 <==> pieces == []
    decreases |pieces|
  {
    if |pieces| > 0 {
      var rest := pieces[1..];
      assert IsPartition(rest, n - pieces[0]) by {
        forall i | 0 <= i < |rest| ensures rest[i] >= 1 {
          assert rest[i] == pieces[i + 1];
        }
      }
      PartitionBounds(rest, n - pieces[0]);
      forall i | 0 <= i < |pieces| ensures pieces[i] <= n {
        if i > 0 {
          assert pieces[i] == rest[i - 1];
        }
      }
    }
  }

  /** A partition of a rod no longer than the table only uses priced pieces. */
  lemma PartitionFits(prices: PriceTable, pieces: seq<int>, n: int)
    requires IsPartition(pieces, n)
    requires n <= |prices|
    ensures PiecesFit(prices, pieces)
  {
    PartitionBounds(pieces, n);
  }
}
