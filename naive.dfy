/**
 * The brute-force reference: the mean of every range `[i..=j]` with `i < j`,
 * keeping the first strictly lowest one.
 */
module NaiveScan {
  import opened Slices

  /** The starting value of the running minimum. */
  const Sentinel: real := 1000000.0

  /** Mean of `list[a..=b]`, accumulated one element at a time as `x / count`. */
  method ComputeAverage(list: seq<int>, a: nat, b: nat) returns (avg: real)
    requires a <= b < |list|
    ensures avg == Mean(list, a, b)
  {
    var count := (b - a + 1) as real;
    avg := 0.0;
    for i := a to b + 1
      invariant avg * count == Sum(list, a, i) as real
    {
      avg := avg + list[i] as real / count;
    }
    assert avg == (avg * count) / count;
  }

  /**
   * Scans all ranges in row-major order. Every range's mean is at least the
   * result; when some range's mean is below the sentinel, the result is the
   * first range of least mean, otherwise it is the sentinel with `(0, 0)`.
   */
  method MinAbAverageNaive(list: seq<int>) returns (lowest: real, left: nat, right: nat)
    ensures lowest <= Sentinel
    ensures forall i, j :: 0 <= i < j < |list| ==> lowest <= Mean(list, i, j)
    ensures (exists i, j :: 0 <= i < j < |list| && Mean(list, i, j) < Sentinel) ==>
              IsFirstMinimum(list, left, right) && lowest == Mean(list, left, right)
    ensures (forall i, j :: 0 <= i < j < |list| ==> Sentinel <= Mean(list, i, j)) ==>
              lowest == Sentinel && left == 0 && right == 0
  {
    lowest := Sentinel;
    left, right := 0, 0;
    for i := 0 to |list|
      invariant Scanned(list, lowest, left, right, i, i + 1)
    {
      for j := i + 1 to |list|
        invariant Scanned(list, lowest, left, right, i, j)
      {
        var avg := ComputeAverage(list, i, j);
        if avg < lowest {
          lowest := avg;
          left, right := i, j;
        }
      }
      assert Scanned(list, lowest, left, right, i + 1, i + 2) by {
        forall p, q | 0 <= p < q < |list| && Before(p, q, i + 1, i + 2)
          ensures Before(p, q, i, |list|)
        {
        }
      }
    }
  }

  /**
   * The state of the scan once every pair before `(i, j)` has been visited:
   * the minimum so far is a lower bound of all of them and is either still the
   * sentinel or the first of them to attain it.
   */
  ghost predicate Scanned(list: seq<int>, lowest: real, left: nat, right: nat, i: nat, j: nat)
  {
    lowest <= Sentinel &&
    (forall p, q :: 0 <= p < q < |list| && Before(p, q, i, j) ==> lowest <= Mean(list, p, q)) &&
    (if lowest == Sentinel then
       left == 0 && right == 0
     else
       left < right < |list| && Before(left, right, i, j) && lowest == Mean(list, left, right) &&
       forall p, q :: 0 <= p < q < |list| && Before(p, q, left, right) ==> lowest < Mean(list, p, q))
  }
}
