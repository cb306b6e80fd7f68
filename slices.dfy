/**
 * Sums and arithmetic means of contiguous slices of the input list.
 *
 * The source computes means in single-precision floating point; here a mean
 * is the exact rational value `sum / length`, and integers are unbounded.
 */
module Slices {

  /** Sum of `list[lo..hi]` (half-open), accumulated from the left as the source's loops do. */
  function Sum(list: seq<int>, lo: nat, hi: nat): int
    requires lo <= hi <= |list|
    decreases hi - lo
  {
    if lo == hi then 0 else Sum(list, lo, hi - 1) + list[hi - 1]
  }

  /** Exact arithmetic mean of the inclusive slice `list[left..=right]`. */
  function Mean(list: seq<int>, left: nat, right: nat): real
    requires left <= right < |list|
  {
    Sum(list, left, right + 1) as real / (right - left + 1) as real
  }

  /** Mean of the adjacent pair `list[i]`, `list[i + 1]`. */
  function PairMean(list: seq<int>, i: nat): real
    requires i + 1 < |list|
  {
    Mean(list, i, i + 1)
  }

  /** A candidate range `[left..=right]`, identified by its two inclusive bounds. */
  datatype Window = Window(left: nat, right: nat)

  /** A window of at least two elements that lies inside `list`. */
  predicate Fits(list: seq<int>, w: Window)
  {
    w.left < w.right < |list|
  }

  function WindowMean(list: seq<int>, w: Window): real
    requires Fits(list, w)
  {
    Mean(list, w.left, w.right)
  }

  /** `(i, j)` is visited before `(l, r)` by a row-major scan over all pairs. */
  predicate Before(i: nat, j: nat, l: nat, r: nat)
  {
    i < l || (i == l && j < r)
  }

  /**
   * `(l, r)` is a window of least mean, and no window visited before it in
   * row-major order has that mean.
   */
  ghost predicate IsFirstMinimum(list: seq<int>, l: nat, r: nat)
  {
    l < r < |list| &&
    (forall i, j :: 0 <= i < j < |list| ==> Mean(list, l, r) <= Mean(list, i, j)) &&
    (forall i, j :: 0 <= i < j < |list| && Before(i, j, l, r) ==> Mean(list, l, r) < Mean(list, i, j))
  }

  /**
   * `(l, r)` is a window of least mean among the windows the row-major scan
   * visits from `(i, j)` on, and is the first of them to attain that mean.
   */
  ghost predicate FirstMinimumFrom(list: seq<int>, l: nat, r: nat, i: nat, j: nat)
  {
    l < r < |list| && !Before(l, r, i, j) &&
    forall p, q :: 0 <= p < q < |list| && !Before(p, q, i, j) ==>
      Mean(list, l, r) <= Mean(list, p, q) &&
      (Before(p, q, l, r) ==> Mean(list, l, r) < Mean(list, p, q))
  }

  /** Among the windows from `(i, j)` on, some window is the first of least mean. */
  lemma {:induction false} FirstMinimumFromExists(list: seq<int>, i: nat, j: nat)
    requires i < j < |list|
    ensures exists l, r :: FirstMinimumFrom(list, l, r, i, j)
    decreases |list| - i, |list| - j
  {
    if j + 1 == |list| && i + 2 >= |list| {
      // `(i, j)` is the last window visited.
      assert FirstMinimumFrom(list, i, j, i, j);
    } else {
      var i', j' := if j + 1 < |list| then i else i + 1, if j + 1 < |list| then j + 1 else i + 2;
      FirstMinimumFromExists(list, i', j');
      var l, r :| FirstMinimumFrom(list, l, r, i', j');
      // The windows from `(i, j)` on are `(i, j)` and those from `(i', j')` on.
      assert forall p, q :: 0 <= p < q < |list| && !Before(p, q, i, j) ==>
        (p == i && q == j) || !Before(p, q, i', j');
      if Mean(list, i, j) <= Mean(list, l, r) {
        assert FirstMinimumFrom(list, i, j, i, j);
      } else {
        assert FirstMinimumFrom(list, l, r, i, j);
      }
    }
  }

  /** Every list of at least two elements has a first window of least mean. */
  lemma FirstMinimumExists(list: seq<int>)
    requires |list| >= 2
    ensures exists l, r :: IsFirstMinimum(list, l, r)
  {
    FirstMinimumFromExists(list, 0, 1);
    var l, r :| FirstMinimumFrom(list, l, r, 0, 1);
    assert IsFirstMinimum(list, l, r);
  }

  /** A first minimum comes no later than any other first minimum. */
  lemma FirstMinimumNotLater(list: seq<int>, l: nat, r: nat, l': nat, r': nat)
    requires IsFirstMinimum(list, l, r) && IsFirstMinimum(list, l', r')
    ensures !Before(l', r', l, r)
  {
    assert Mean(list, l', r') <= Mean(list, l, r);
  }

  /** The first minimum is unique: the tie-break leaves exactly one answer. */
  lemma FirstMinimumUnique(list: seq<int>, l: nat, r: nat, l': nat, r': nat)
    requires IsFirstMinimum(list, l, r) && IsFirstMinimum(list, l', r')
    ensures l == l' && r == r'
  {
    FirstMinimumNotLater(list, l, r, l', r');
    FirstMinimumNotLater(list, l', r', l, r);
  }
}
