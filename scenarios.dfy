/**
 * The repository's test vectors, stated over the model: the range both scans
 * report, its exact mean, and (for the reference scan) that it is the first
 * range of least mean. One more vector shows the linear scan can miss the
 * minimum.
 */
module Scenarios {
  import opened Slices
  import opened SmartScan
  import opened Decisions
  import opened NaiveScan

  /**
   * Checks, pair by pair in row-major order from `(i, j)`, that `(l, r)`,
   * whose sum is `m`, is no worse than each range and strictly better than
   * each range before it; `s` is the running sum of `list[i..=j]` and means
   * are compared by cross-multiplication.
   */
  function CheckFrom(list: seq<int>, l: nat, r: nat, m: int, i: nat, j: nat, s: int): bool
    requires l < r < |list| && i < j
    decreases |list| - i, |list| - j
  {
    if i + 1 >= |list| then true
    else if j >= |list| then CheckFrom(list, l, r, m, i + 1, i + 2, if i + 2 < |list| then list[i + 1] + list[i + 2] else 0)
    else
      (if Before(i, j, l, r) then m * (j - i + 1) < s * (r - l + 1) else m * (j - i + 1) <= s * (r - l + 1))
      && CheckFrom(list, l, r, m, i, j + 1, if j + 1 < |list| then s + list[j + 1] else 0)
  }

  lemma CrossMultiply(a: int, b: int, c: int, d: int)
    requires b > 0 && d > 0
    ensures (a as real / b as real <= c as real / d as real) == (a * d <= c * b)
    ensures (a as real / b as real < c as real / d as real) == (a * d < c * b)
  {
  }

  /** A passing check covers every range from `(i, j)` onward. */
  lemma {:induction false} CheckFromSound(list: seq<int>, l: nat, r: nat, m: int, i: nat, j: nat, s: int)
    requires l < r < |list| && i < j && CheckFrom(list, l, r, m, i, j, s)
    requires m == Sum(list, l, r + 1) && (j < |list| ==> s == Sum(list, i, j + 1))
    ensures forall p, q :: 0 <= p < q < |list| && !Before(p, q, i, j) ==>
              Mean(list, l, r) <= Mean(list, p, q) &&
              (Before(p, q, l, r) ==> Mean(list, l, r) < Mean(list, p, q))
    decreases |list| - i, |list| - j
  {
    if i + 1 >= |list| {
    } else if j >= |list| {
      assert i + 2 < |list| ==> Sum(list, i + 1, i + 3) == list[i + 1] + list[i + 2] by {
        if i + 2 < |list| {
          assert Sum(list, i + 1, i + 2) == list[i + 1];
        }
      }
      CheckFromSound(list, l, r, m, i + 1, i + 2, if i + 2 < |list| then list[i + 1] + list[i + 2] else 0);
    } else {
      CrossMultiply(m, r - l + 1, s, j - i + 1);
      CheckFromSound(list, l, r, m, i, j + 1, if j + 1 < |list| then s + list[j + 1] else 0);
    }
  }

  /** A passing check from the first pair establishes the first minimum. */
  lemma FirstMinimumByCheck(list: seq<int>, l: nat, r: nat)
    requires l < r < |list| && CheckFrom(list, l, r, Sum(list, l, r + 1), 0, 1, list[0] + list[1])
    ensures IsFirstMinimum(list, l, r)
  {
    CheckFromSound(list, l, r, Sum(list, l, r + 1), 0, 1, list[0] + list[1]);
  }

  /** A two-element list: the only range is `(0, 1)`. */
  lemma SmartOnPair(a: int, b: int)
    ensures SmartResult([a, b]) == Window(0, 1)
    ensures WindowMean([a, b], SmartResult([a, b])) == (a + b) as real / 2.0
  {
    assert Sum([a, b], 0, 1) == a;
  }

  lemma Scenario1()
    ensures SmartResult([0, 1]) == Window(0, 1) && WindowMean([0, 1], Window(0, 1)) == 0.5
    ensures IsFirstMinimum([0, 1], 0, 1)
  {
    SmartOnPair(0, 1);
    FirstMinimumByCheck([0, 1], 0, 1);
  }

  lemma Scenario2()
    ensures SmartResult([5, 7, 4, 8, 1]) == Window(2, 4)
    ensures WindowMean([5, 7, 4, 8, 1], Window(2, 4)) == 13.0 / 3.0
  {
    var list := [5, 7, 4, 8, 1];
    assert Classify(list, 2, 4) == EndOfList;
    assert Classify(list, 2, 3) == ExtendRange;
    assert Classify(list, 0, 2) == Nothing;
    assert Classify(list, 0, 1) == ExtendRange;
    assert Scan(list, Window(0, 2), 2, 3) == Window(2, 4);
    assert Scan(list, Window(0, 1), 0, 2) == Window(2, 4);
  }

  lemma Scenario2FirstMinimum()
    ensures IsFirstMinimum([5, 7, 4, 8, 1], 2, 4)
  {
    FirstMinimumByCheck([5, 7, 4, 8, 1], 2, 4);
  }

  lemma Scenario3()
    ensures SmartResult([6, 7, 0, 9, 3, 2]) == Window(4, 5)
    ensures WindowMean([6, 7, 0, 9, 3, 2], Window(4, 5)) == 2.5
  {
    var list := [6, 7, 0, 9, 3, 2];
    assert Classify(list, 4, 5) == EndOfList;
    assert Classify(list, 2, 4) == NewPair;
    assert Classify(list, 2, 3) == ExtendRange;
    assert Classify(list, 1, 2) == Nothing;
    assert Classify(list, 0, 1) == NewPair;
    assert Scan(list, Window(1, 2), 2, 3) == Scan(list, Window(1, 2), 2, 4) == Window(4, 5);
    assert Scan(list, Window(0, 1), 0, 1) == Scan(list, Window(0, 1), 1, 2);
  }

  lemma Scenario3FirstMinimum()
    ensures IsFirstMinimum([6, 7, 0, 9, 3, 2], 4, 5)
  {
    FirstMinimumByCheck([6, 7, 0, 9, 3, 2], 4, 5);
  }

  lemma Scenario4()
    ensures SmartResult([4, 8, -2, 5, 1, 2, 3, 4, 5]) == Window(2, 4)
    ensures WindowMean([4, 8, -2, 5, 1, 2, 3, 4, 5], Window(2, 4)) == 4.0 / 3.0
  {
    var list := [4, 8, -2, 5, 1, 2, 3, 4, 5];
    assert Classify(list, 6, 7) == EndOfList;
    assert Classify(list, 5, 6) == Nothing;
    assert Classify(list, 4, 5) == Nothing;
    assert Classify(list, 2, 4) == Nothing;
    assert Classify(list, 2, 3) == ExtendRange;
    assert Classify(list, 1, 2) == NewPair;
    assert Classify(list, 0, 1) == NewPair;
    var w := Window(2, 4);
    assert Scan(list, w, 6, 7) == w;
    assert Scan(list, w, 5, 6) == w;
    assert Scan(list, w, 4, 5) == w;
    assert Scan(list, Window(0, 1), 2, 4) == w;
    assert Scan(list, Window(0, 1), 0, 1) == Scan(list, Window(0, 1), 1, 2) == Scan(list, Window(0, 1), 2, 3);
  }

  lemma Scenario4FirstMinimum()
    ensures IsFirstMinimum([4, 8, -2, 5, 1, 2, 3, 4, 5], 2, 4)
  {
    var list := [4, 8, -2, 5, 1, 2, 3, 4, 5];
    // The check, one row of the scan at a time from the last row back.
    assert CheckFrom(list, 2, 4, 4, 7, 8, 9);
    assert CheckFrom(list, 2, 4, 4, 6, 7, 7);
    assert CheckFrom(list, 2, 4, 4, 5, 6, 5);
    assert CheckFrom(list, 2, 4, 4, 4, 5, 3);
    assert CheckFrom(list, 2, 4, 4, 3, 4, 6);
    assert CheckFrom(list, 2, 4, 4, 2, 3, 3);
    assert CheckFrom(list, 2, 4, 4, 1, 2, 6);
    FirstMinimumByCheck(list, 2, 4);
  }

  /**
   * `[0, 2, -2]`: the working window `(0, 1)` has mean 1; extending it and the
   * final pair both give mean 0, so neither strict rule fires, the next index
   * is the last, and the scan stops. It reports `(0, 1)` with mean 1 while the
   * least mean is 0, first attained by `(0, 2)`.
   */
  lemma SmartMissesFinalPair()
    ensures SmartResult([0, 2, -2]) == Window(0, 1)
    ensures WindowMean([0, 2, -2], Window(0, 1)) == 1.0
    ensures PairMean([0, 2, -2], 1) == 0.0
    ensures Trace([0, 2, -2], 0, 1) == [Window(0, 1)]
  {
    var list := [0, 2, -2];
    assert Classify(list, 0, 1) == EndOfList;
  }

  lemma MissedMinimum()
    ensures IsFirstMinimum([0, 2, -2], 0, 2) && Mean([0, 2, -2], 0, 2) == 0.0
  {
    FirstMinimumByCheck([0, 2, -2], 0, 2);
  }

  /** The brute-force scan on `[0, 1]` returns mean 0.5 and `(0, 1)`. */
  method NaiveVector1() returns (lowest: real, left: nat, right: nat)
    ensures lowest == 0.5 && left == 0 && right == 1
  {
    var list := [0, 1];
    lowest, left, right := MinAbAverageNaive(list);
    Scenario1();
    assert Mean(list, 0, 1) < Sentinel;
    FirstMinimumUnique(list, left, right, 0, 1);
  }

  /** The brute-force scan on `[5, 7, 4, 8, 1]` returns mean 13/3 and `(2, 4)`. */
  method NaiveVector2() returns (lowest: real, left: nat, right: nat)
    ensures lowest == 13.0 / 3.0 && left == 2 && right == 4
  {
    var list := [5, 7, 4, 8, 1];
    lowest, left, right := MinAbAverageNaive(list);
    Scenario2();
    Scenario2FirstMinimum();
    assert Mean(list, 2, 4) < Sentinel;
    FirstMinimumUnique(list, left, right, 2, 4);
  }

  /** The brute-force scan on `[6, 7, 0, 9, 3, 2]` returns mean 2.5 and `(4, 5)`. */
  method NaiveVector3() returns (lowest: real, left: nat, right: nat)
    ensures lowest == 2.5 && left == 4 && right == 5
  {
    var list := [6, 7, 0, 9, 3, 2];
    lowest, left, right := MinAbAverageNaive(list);
    Scenario3();
    Scenario3FirstMinimum();
    assert Mean(list, 4, 5) < Sentinel;
    FirstMinimumUnique(list, left, right, 4, 5);
  }

  /** The brute-force scan on `[4, 8, -2, 5, 1, 2, 3, 4, 5]` returns mean 4/3 and `(2, 4)`. */
  method NaiveVector4() returns (lowest: real, left: nat, right: nat)
    ensures lowest == 4.0 / 3.0 && left == 2 && right == 4
  {
    var list := [4, 8, -2, 5, 1, 2, 3, 4, 5];
    lowest, left, right := MinAbAverageNaive(list);
    Scenario4();
    Scenario4FirstMinimum();
    assert Mean(list, 2, 4) < Sentinel;
    FirstMinimumUnique(list, left, right, 2, 4);
  }

  /** The single pass on `[0, 1]` returns mean 0.5 and `(0, 1)`. */
  method SmartVector1() returns (avg: real, left: nat, right: nat)
    ensures avg == 0.5 && left == 0 && right == 1
  {
    avg, left, right := MinAbAverageSmart([0, 1]);
    Scenario1();
  }

  /** The single pass on `[5, 7, 4, 8, 1]` returns mean 13/3 and `(2, 4)`. */
  method SmartVector2() returns (avg: real, left: nat, right: nat)
    ensures avg == 13.0 / 3.0 && left == 2 && right == 4
  {
    avg, left, right := MinAbAverageSmart([5, 7, 4, 8, 1]);
    Scenario2();
  }

  /** The single pass on `[6, 7, 0, 9, 3, 2]` returns mean 2.5 and `(4, 5)`. */
  method SmartVector3() returns (avg: real, left: nat, right: nat)
    ensures avg == 2.5 && left == 4 && right == 5
  {
    avg, left, right := MinAbAverageSmart([6, 7, 0, 9, 3, 2]);
    Scenario3();
  }

  /** The single pass on `[4, 8, -2, 5, 1, 2, 3, 4, 5]` returns mean 4/3 and `(2, 4)`. */
  method SmartVector4() returns (avg: real, left: nat, right: nat)
    ensures avg == 4.0 / 3.0 && left == 2 && right == 4
  {
    avg, left, right := MinAbAverageSmart([4, 8, -2, 5, 1, 2, 3, 4, 5]);
    Scenario4();
  }
}
