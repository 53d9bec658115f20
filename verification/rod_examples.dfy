/**
 * The inputs of `run_tests` in task2/main.py, with the results both
 * strategies return for them.
 */
module RodExamples {
  import opened Wrappers
  import opened RodModel
  import opened RodMemo

  /** Length 1 at prices [2, 5, 7, 8, 10]: profit 2, first piece 1. */
  lemma BasicCaseRow1()
    ensures MaxProfit([2, 5, 7, 8, 10], 1) == 2 && FirstCut([2, 5, 7, 8, 10], 1) == 1
  {
    var p: PriceTable := [2, 5, 7, 8, 10];
    assert Gain(p, 1, 1) == 2;
    assert CutScan(p, 1, 1) == Choice(2, 1);
    ScanAgrees(p, 1, 1);
  }

  /** Length 2 at prices [2, 5, 7, 8, 10]: profit 5, first piece 2. */
  lemma BasicCaseRow2()
    ensures MaxProfit([2, 5, 7, 8, 10], 2) == 5 && FirstCut([2, 5, 7, 8, 10], 2) == 2
  {
    BasicCaseRow1();
    var p: PriceTable := [2, 5, 7, 8, 10];
    assert Gain(p, 2, 1) == 4;
    assert CutScan(p, 2, 1) == Choice(4, 1);
    assert Gain(p, 2, 2) == 5;
    assert CutScan(p, 2, 2) == Choice(5, 2);
    ScanAgrees(p, 2, 2);
  }

  /** Length 3 at prices [2, 5, 7, 8, 10]: profit 7, first piece 1. */
  lemma BasicCaseRow3()
    ensures MaxProfit([2, 5, 7, 8, 10], 3) == 7 && FirstCut([2, 5, 7, 8, 10], 3) == 1
  {
    BasicCaseRow1();
    BasicCaseRow2();
    var p: PriceTable := [2, 5, 7, 8, 10];
    assert Gain(p, 3, 1) == 7;
    assert CutScan(p, 3, 1) == Choice(7, 1);
    assert Gain(p, 3, 2) == 7;
    assert CutScan(p, 3, 2) == Choice(7, 1);
    assert Gain(p, 3, 3) == 7;
    assert CutScan(p, 3, 3) == Choice(7, 1);
    ScanAgrees(p, 3, 3);
  }

  /** Length 4 at prices [2, 5, 7, 8, 10]: profit 10, first piece 2. */
  lemma BasicCaseRow4()
    ensures MaxProfit([2, 5, 7, 8, 10], 4) == 10 && FirstCut([2, 5, 7, 8, 10], 4) == 2
  {
    BasicCaseRow1();
    BasicCaseRow2();
    BasicCaseRow3();
    var p: PriceTable := [2, 5, 7, 8, 10];
    assert Gain(p, 4, 1) == 9;
    assert CutScan(p, 4, 1) == Choice(9, 1);
    assert Gain(p, 4, 2) == 10;
    assert CutScan(p, 4, 2) == Choice(10, 2);
    assert Gain(p, 4, 3) == 9;
    assert CutScan(p, 4, 3) == Choice(10, 2);
    assert Gain(p, 4, 4) == 8;
    assert CutScan(p, 4, 4) == Choice(10, 2);
    ScanAgrees(p, 4, 4);
  }

  /** Length 5 at prices [2, 5, 7, 8, 10]: profit 12, first piece 1. */
  lemma BasicCaseRow5()
    ensures MaxProfit([2, 5, 7, 8, 10], 5) == 12 && FirstCut([2, 5, 7, 8, 10], 5) == 1
  {
    BasicCaseRow1();
    BasicCaseRow2();
    BasicCaseRow3();
    BasicCaseRow4();
    var p: PriceTable := [2, 5, 7, 8, 10];
    assert Gain(p, 5, 1) == 12;
    assert CutScan(p, 5, 1) == Choice(12, 1);
    assert Gain(p, 5, 2) == 12;
    assert CutScan(p, 5, 2) == Choice(12, 1);
    assert Gain(p, 5, 3) == 12;
    assert CutScan(p, 5, 3) == Choice(12, 1);
    assert Gain(p, 5, 4) == 10;
    assert CutScan(p, 5, 4) == Choice(12, 1);
    assert Gain(p, 5, 5) == 10;
    assert CutScan(p, 5, 5) == Choice(12, 1);
    ScanAgrees(p, 5, 5);
  }

  /** "Basic case": five units at [2, 5, 7, 8, 10] earn 12, as 1 + 2 + 2. */
  lemma BasicCase()
    ensures SolveMemo(5, [2, 5, 7, 8, 10]) == Success(Solution(12, [1, 2, 2], 2))
  {
    BasicCaseRow1();
    BasicCaseRow2();
    BasicCaseRow3();
    BasicCaseRow4();
    BasicCaseRow5();
    var p: PriceTable := [2, 5, 7, 8, 10];
    assert MemoCuts(p, 2) == [2];
    assert MemoCuts(p, 4) == [2, 2];
    assert MemoCuts(p, 5) == [1, 2, 2];
  }

  /** Length 1 at prices [1, 3, 8]: profit 1, first piece 1. */
  lemma NoCutCaseRow1()
    ensures MaxProfit([1, 3, 8], 1) == 1 && FirstCut([1, 3, 8], 1) == 1
  {
    var p: PriceTable := [1, 3, 8];
    assert Gain(p, 1, 1) == 1;
    assert CutScan(p, 1, 1) == Choice(1, 1);
    ScanAgrees(p, 1, 1);
  }

  /** Length 2 at prices [1, 3, 8]: profit 3, first piece 2. */
  lemma NoCutCaseRow2()
    ensures MaxProfit([1, 3, 8], 2) == 3 && FirstCut([1, 3, 8], 2) == 2
  {
    NoCutCaseRow1();
    var p: PriceTable := [1, 3, 8];
    assert Gain(p, 2, 1) == 2;
    assert CutScan(p, 2, 1) == Choice(2, 1);
    assert Gain(p, 2, 2) == 3;
    assert CutScan(p, 2, 2) == Choice(3, 2);
    ScanAgrees(p, 2, 2);
  }

  /** Length 3 at prices [1, 3, 8]: profit 8, first piece 3. */
  lemma NoCutCaseRow3()
    ensures MaxProfit([1, 3, 8], 3) == 8 && FirstCut([1, 3, 8], 3) == 3
  {
    NoCutCaseRow1();
    NoCutCaseRow2();
    var p: PriceTable := [1, 3, 8];
    assert Gain(p, 3, 1) == 4;
    assert CutScan(p, 3, 1) == Choice(4, 1);
    assert Gain(p, 3, 2) == 4;
    assert CutScan(p, 3, 2) == Choice(4, 1);
    assert Gain(p, 3, 3) == 8;
    assert CutScan(p, 3, 3) == Choice(8, 3);
    ScanAgrees(p, 3, 3);
  }

  /** "Better not to cut": the whole rod of three sells for 8, with no cut. */
  lemma NoCutCase()
    ensures SolveMemo(3, [1, 3, 8]) == Success(Solution(8, [3], 0))
  {
    NoCutCaseRow1();
    NoCutCaseRow2();
    NoCutCaseRow3();
    var p: PriceTable := [1, 3, 8];
    assert MemoCuts(p, 3) == [3];
  }

  /** Length 1 at prices [3, 5, 6, 7]: profit 3, first piece 1. */
  lemma UniformCaseRow1()
    ensures MaxProfit([3, 5, 6, 7], 1) == 3 && FirstCut([3, 5, 6, 7], 1) == 1
  {
    var p: PriceTable := [3, 5, 6, 7];
    assert Gain(p, 1, 1) == 3;
    assert CutScan(p, 1, 1) == Choice(3, 1);
    ScanAgrees(p, 1, 1);
  }

  /** Length 2 at prices [3, 5, 6, 7]: profit 6, first piece 1. */
  lemma UniformCaseRow2()
    ensures MaxProfit([3, 5, 6, 7], 2) == 6 && FirstCut([3, 5, 6, 7], 2) == 1
  {
    UniformCaseRow1();
    var p: PriceTable := [3, 5, 6, 7];
    assert Gain(p, 2, 1) == 6;
    assert CutScan(p, 2, 1) == Choice(6, 1);
    assert Gain(p, 2, 2) == 5;
    assert CutScan(p, 2, 2) == Choice(6, 1);
    ScanAgrees(p, 2, 2);
  }

  /** Length 3 at prices [3, 5, 6, 7]: profit 9, first piece 1. */
  lemma UniformCaseRow3()
    ensures MaxProfit([3, 5, 6, 7], 3) == 9 && FirstCut([3, 5, 6, 7], 3) == 1
  {
    UniformCaseRow1();
    UniformCaseRow2();
    var p: PriceTable := [3, 5, 6, 7];
    assert Gain(p, 3, 1) == 9;
    assert CutScan(p, 3, 1) == Choice(9, 1);
    assert Gain(p, 3, 2) == 8;
    assert CutScan(p, 3, 2) == Choice(9, 1);
    assert Gain(p, 3, 3) == 6;
    assert CutScan(p, 3, 3) == Choice(9, 1);
    ScanAgrees(p, 3, 3);
  }

  /** Length 4 at prices [3, 5, 6, 7]: profit 12, first piece 1. */
  lemma UniformCaseRow4()
    ensures MaxProfit([3, 5, 6, 7], 4) == 12 && FirstCut([3, 5, 6, 7], 4) == 1
  {
    UniformCaseRow1();
    UniformCaseRow2();
    UniformCaseRow3();
    var p: PriceTable := [3, 5, 6, 7];
    assert Gain(p, 4, 1) == 12;
    assert CutScan(p, 4, 1) == Choice(12, 1);
    assert Gain(p, 4, 2) == 11;
    assert CutScan(p, 4, 2) == Choice(12, 1);
    assert Gain(p, 4, 3) == 9;
    assert CutScan(p, 4, 3) == Choice(12, 1);
    assert Gain(p, 4, 4) == 7;
    assert CutScan(p, 4, 4) == Choice(12, 1);
    ScanAgrees(p, 4, 4);
  }

  /** "Uniform cuts": four unit pieces at 3 each earn 12, with three cuts. */
  lemma UniformCase()
    ensures SolveMemo(4, [3, 5, 6, 7]) == Success(Solution(12, [1, 1, 1, 1], 3))
  {
    UniformCaseRow1();
    UniformCaseRow2();
    UniformCaseRow3();
    UniformCaseRow4();
    var p: PriceTable := [3, 5, 6, 7];
    assert MemoCuts(p, 1) == [1];
    assert MemoCuts(p, 2) == [1, 1];
    assert MemoCuts(p, 3) == [1, 1, 1];
    assert MemoCuts(p, 4) == [1, 1, 1, 1];
  }
}
