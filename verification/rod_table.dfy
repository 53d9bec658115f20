/**
 * The bottom-up strategy of task2/main.py (`rod_cutting_table`): the fill of
 * the `dp` and `cut` tables, the back-walk that reads the pieces off `cut`,
 * and the proof that it returns exactly what the memoised strategy returns.
 */
module RodTable {
  import opened Wrappers
  import opened RodModel
  import opened RodMemo

  /** Candidate value of row `i` when the first piece has length `j`. */
  function Candidate(prices: PriceTable, dp: seq<int>, i: nat, j: nat): int
    requires 1 <= j <= i <= |dp|
    requires i <= |prices|
  {
    prices[j - 1] + dp[i - j]
  }

  /** Among the pieces `1..bound` of row `i`, `c` is the first one reaching
      the largest candidate value, and that value is `v`. */
  predicate FirstArgMax(prices: PriceTable, dp: seq<int>, i: nat, bound: nat, c: int, v: int)
    requires bound <= i <= |dp|
    requires i <= |prices|
  {
    && 1 <= c <= bound
    && v == Candidate(prices, dp, i, c)
    && (forall j :: 1 <= j <= bound ==> Candidate(prices, dp, i, j) <= v)
    && (forall j :: 1 <= j < c ==> Candidate(prices, dp, i, j) < v)
  }

  /** The tables of lengths `0..n` obey the rod-cutting recurrence, with the
      strict `>` tie-break recorded in `cut`. */
  predicate IsRecurrenceTable(prices: PriceTable, dp: seq<int>, cut: seq<int>, n: nat)
  {
    && |dp| == n + 1
    && |cut| == n + 1
    && n <= |prices|
    && dp[0] == 0
    && forall i :: 1 <= i <= n ==> FirstArgMax(prices, dp, i, i, cut[i], dp[i])
  }

  /** Appending to the table leaves the rows already filled unchanged. */
  lemma FirstArgMaxExtend(prices: PriceTable, dp: seq<int>, x: int, i: nat, bound: nat, c: int, v: int)
    requires bound <= i <= |dp|
    requires i <= |prices|
    requires FirstArgMax(prices, dp, i, bound, c, v)
    ensures FirstArgMax(prices, dp + [x], i, bound, c, v)
  {
    var dp' := dp + [x];
    forall j | 1 <= j <= bound
      ensures Candidate(prices, dp', i, j) == Candidate(prices, dp, i, j)
    {
      assert dp'[i - j] == dp[i - j];
    }
  }

  /** Appending a row that obeys the recurrence extends a recurrence table. */
  lemma RecurrenceTableExtend(prices: PriceTable, dp: seq<int>, cut: seq<int>, n: nat, v: int, c: int)
    requires IsRecurrenceTable(prices, dp, cut, n)
    requires n + 1 <= |prices|
    requires FirstArgMax(prices, dp, n + 1, n + 1, c, v)
    ensures IsRecurrenceTable(prices, dp + [v], cut + [c], n + 1)
  {
    var dp', cut' := dp + [v], cut + [c];
    forall k | 1 <= k <= n + 1
      ensures FirstArgMax(prices, dp', k, k, cut'[k], dp'[k])
    {
      if k <= n {
        FirstArgMaxExtend(prices, dp, v, k, k, cut[k], dp[k]);
      } else {
        FirstArgMaxExtend(prices, dp, v, k, k, c, v);
      }
    }
  }

  /** The fill loops of `rod_cutting_table`. The scan of each row is seeded with
      the first piece, which always beats the source's minus-infinity start. */
  method FillTable(length: nat, prices: PriceTable) returns (dp: seq<int>, cut: seq<int>)
    requires length <= |prices|
    ensures IsRecurrenceTable(prices, dp, cut, length)
  {
    dp := [0];
    cut := [0];
    var i := 1;
    while i <= length
      invariant 1 <= i <= length + 1
      invariant IsRecurrenceTable(prices, dp, cut, i - 1)
    {
      var maxVal := prices[0] + dp[i - 1];
      var best := 1;
      var j := 2;
      while j <= i
        invariant 2 <= j <= i + 1
        invariant FirstArgMax(prices, dp, i, j - 1, best, maxVal)
      {
        if prices[j - 1] + dp[i - j] > maxVal {
          maxVal := prices[j - 1] + dp[i - j];
          best := j;
        }
        j := j + 1;
      }
      RecurrenceTableExtend(prices, dp, cut, i - 1, maxVal, best);
      dp := dp + [maxVal];
      cut := cut + [best];
      i := i + 1;
    }
  }

  /** A table obeying the recurrence is the memoised solver's: every `dp[k]`
      is `find_max_profit(k)` and every `cut[k]` is `find_cuts`' first piece. */
  lemma {:induction false} RecurrenceTableIsMemo(prices: PriceTable, dp: seq<int>, cut: seq<int>, n: nat, k: nat)
    requires IsRecurrenceTable(prices, dp, cut, n)
    requires k <= n
    ensures dp[k] == MaxProfit(prices, k)
    ensures 1 <= k ==> cut[k] == FirstCut(prices, k)
    decreases k
  {
    if k > 0 {
      forall m | 0 <= m < k ensures dp[m] == MaxProfit(prices, m) {
        RecurrenceTableIsMemo(prices, dp, cut, n, m);
      }
      forall j | 1 <= j <= k ensures Candidate(prices, dp, k, j) == Gain(prices, k, j) {
        assert dp[k - j] == MaxProfit(prices, k - j);
      }
      MaxProfitRecurrence(prices, k);
      assert FirstArgMax(prices, dp, k, k, cut[k], dp[k]);
      var c, c' := cut[k], FirstCut(prices, k);
      assert dp[k] == MaxProfit(prices, k) by {
        assert Candidate(prices, dp, k, c') <= dp[k];
        assert Gain(prices, k, c) <= MaxProfit(prices, k);
      }
      assert c == c';
    }
  }

  /** `pieces` is what the back-walk emits from length `n`: each piece is the
      table's choice at the length still remaining, down to exactly zero. */
  predicate WalksTable(cut: seq<int>, n: nat, pieces: seq<int>)
    requires n < |cut|
    decreases |pieces|
  {
    if |pieces| == 0 then n == 0
    else 1 <= pieces[0] <= n && pieces[0] == cut[n] && WalksTable(cut, n - pieces[0], pieces[1..])
  }

  /** A back-walk cuts the rod exactly into positive pieces. */
  lemma {:induction false} WalkIsPartition(cut: seq<int>, n: nat, pieces: seq<int>)
    requires n < |cut|
    requires WalksTable(cut, n, pieces)
    ensures IsPartition(pieces, n)
    decreases |pieces|
  {
    if |pieces| > 0 {
      var rest := pieces[1..];
      WalkIsPartition(cut, n - pieces[0], rest);
      forall i | 0 <= i < |pieces| ensures pieces[i] >= 1 {
        if i > 0 {
          assert pieces[i] == rest[i - 1];
        }
      }
    }
  }

  /** One step of the back-walk keeps the walk consistent with the table. */
  lemma WalkStep(cut: seq<int>, length: nat, cuts: seq<int>, remaining: nat)
    requires remaining <= length < |cut|
    requires 1 <= cut[remaining] <= remaining
    requires forall rest :: WalksTable(cut, remaining, rest) ==> WalksTable(cut, length, cuts + rest)
    ensures forall rest :: WalksTable(cut, remaining - cut[remaining], rest) ==>
              WalksTable(cut, length, (cuts + [cut[remaining]]) + rest)
  {
    var piece := cut[remaining];
    forall rest | WalksTable(cut, remaining - piece, rest)
      ensures WalksTable(cut, length, (cuts + [piece]) + rest)
    {
      var longer := [piece] + rest;
      assert longer[1..] == rest;
      assert WalksTable(cut, remaining, longer);
      assert (cuts + [piece]) + rest == cuts + longer;
    }
  }

  /** The back-walk of `rod_cutting_table` that reads off the pieces. */
  method Reconstruct(cut: seq<int>, length: nat) returns (cuts: seq<int>)
    requires length < |cut|
    requires forall k :: 1 <= k <= length ==> 1 <= cut[k] <= k
    ensures WalksTable(cut, length, cuts)
    ensures IsPartition(cuts, length)
  {
    cuts := [];
    var remaining := length;
    forall rest | WalksTable(cut, remaining, rest) ensures WalksTable(cut, length, cuts + rest) {
      assert cuts + rest == rest;
    }
    while remaining > 0
      invariant 0 <= remaining <= length
      invariant forall rest :: WalksTable(cut, remaining, rest) ==> WalksTable(cut, length, cuts + rest)
      decreases remaining
    {
      var piece := cut[remaining];
      WalkStep(cut, length, cuts, remaining);
      cuts := cuts + [piece];
      remaining := remaining - piece;
    }
    assert WalksTable(cut, 0, []);
    assert cuts + [] == cuts;
    WalkIsPartition(cut, length, cuts);
  }

  /** Walking a table whose choices are `find_cuts`' first pieces yields
      exactly the memoised cut list. */
  lemma {:induction false} WalkIsMemoCuts(prices: PriceTable, cut: seq<int>, n: nat, pieces: seq<int>)
    requires n < |cut|
    requires n <= |prices|
    requires forall k :: 1 <= k <= n ==> cut[k] == FirstCut(prices, k)
    requires WalksTable(cut, n, pieces)
    ensures pieces == MemoCuts(prices, n)
    decreases |pieces|
  {
    if |pieces| > 0 {
      var c := pieces[0];
      assert 1 <= c <= n && c == cut[n];
      assert c == FirstCut(prices, n);
      WalkIsMemoCuts(prices, cut, n - c, pieces[1..]);
      MemoCutsUnfold(prices, n);
      assert pieces == [c] + pieces[1..];
    }
  }

  /** `rod_cutting_table(length, prices)`: it returns exactly the result of
      `rod_cutting_memo`, profit and cut list alike, and fails on the same
      inputs. */
  method RodCuttingTable(length: int, prices: PriceTable) returns (r: Result<Solution, SolveError>)
    ensures r == SolveMemo(length, prices)
    ensures r.Failure? <==> length < 0 || |prices| < length
    ensures r.Success? ==>
      && IsPartition(r.value.cuts, length)
      && r.value.maxProfit == MaxProfit(prices, length)
  {
    if length < 0 {
      return Failure(NegativeLength);
    }
    if |prices| < length {
      return Failure(MissingPrice);
    }
    var dp, cut := FillTable(length, prices);
    forall k | 0 <= k <= length
      ensures dp[k] == MaxProfit(prices, k)
      ensures 1 <= k ==> cut[k] == FirstCut(prices, k)
    {
      RecurrenceTableIsMemo(prices, dp, cut, length, k);
    }
    forall k | 1 <= k <= length ensures 1 <= cut[k] <= k {
      assert FirstArgMax(prices, dp, k, k, cut[k], dp[k]);
    }
    var cuts := Reconstruct(cut, length);
    WalkIsMemoCuts(prices, cut, length, cuts);
    r := Success(Solution(dp[length], cuts, CutCount(cuts)));
  }
}
