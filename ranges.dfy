/**
 * The candidate window of the linear scan: its bounds, a cached sum and a
 * cached mean, updated in place as the scan moves right.
 */
module Ranges {
  import opened Slices
  import Decisions


  class Range {
    const list: seq<int>
    var left: nat
    var right: nat
    var sum: int
    var avg: real

    /** Bounds in the list and the cached sum agree with the slice. */
    ghost predicate SumValid()
      reads this
    {
      left < right < |list| && sum == Sum(list, left, right + 1)
    }

    /** The cached mean agrees too. */
    ghost predicate Valid()
      reads this
    {
      SumValid() && avg == Mean(list, left, right)
    }

    function Bounds(): (w: Window)
      reads this
      ensures w.left == left && w.right == right
    {
      Window(left, right)
    }

    /** Builds the range `[left..=right]`, summing its slice once. */
    constructor (list: seq<int>, left: nat, right: nat)
      requires left < right < |list|
      ensures Valid()
      ensures this.list == list && this.left == left && this.right == right
    {
      var s := 0;
      for i := left to right + 1
        invariant s == Sum(list, left, i)
      {
        s := s + list[i];
      }
      this.list := list;
      this.left := left;
      this.right := right;
      this.sum := s;
      this.avg := 0.0;
      new;
      UpdateAvg();
    }

    /** A field-by-field copy of `other`. */
    constructor Copy(other: Range)
      requires other.Valid()
      ensures Valid()
      ensures list == other.list && left == other.left && right == other.right
      ensures sum == other.sum && avg == other.avg
    {
      list := other.list;
      left := other.left;
      right := other.right;
      sum := other.sum;
      avg := other.avg;
    }

    /** A copy that shares no mutable state with this range. */
    method Clone() returns (c: Range)
      requires Valid()
      ensures fresh(c) && c.Valid()
      ensures c.list == list && c.left == left && c.right == right && c.sum == sum && c.avg == avg
    {
      c := new Range.Copy(this);
    }

    /** Recomputes the cached mean from the cached sum. */
    method UpdateAvg()
      requires SumValid()
      modifies this`avg
      ensures Valid()
    {
      var length := right - left + 1;
      avg := sum as real / length as real;
    }

    /** Grows the window by the next element of the list. */
    method Extend()
      requires Valid() && right + 1 < |list|
      modifies this
      ensures Valid()
      ensures left == old(left) && right == old(right) + 1
      ensures sum == old(sum) + list[right]
    {
      right := right + 1;
      sum := sum + list[right];
      UpdateAvg();
    }

    /** Collapses the window to the pair (current last element, next element). */
    method NewPair()
      requires Valid() && right + 1 < |list|
      modifies this
      ensures Valid()
      ensures left == old(right) && right == old(right) + 1
      ensures sum == list[left] + list[right]
    {
      left := right;
      right := right + 1;
      sum := list[left] + list[right];
      assert Sum(list, left, left + 1) == list[left];
      UpdateAvg();
    }

    /**
     * Looks at the next element, using only the cached sum and mean, and
     * decides exactly as the exact-mean classification does.
     */
    function Peek(): (p: Decisions.Peek)
      reads this
      requires Valid()
      ensures p == Decisions.Classify(list, left, right)
    {
      if right == |list| - 1 then Decisions.Peek.EndOfList
      else
        var next := list[right + 1];
        var currLen := right - left + 1;
        var extAvg := (sum + next) as real / (currLen + 1) as real;
        var pairAvg := (list[right] + next) as real / 2.0;
        assert Sum(list, right, right + 1) == list[right];
        assert extAvg == Mean(list, left, right + 1) && pairAvg == Mean(list, right, right + 1);
        if pairAvg < avg && pairAvg < extAvg then Decisions.Peek.NewPair
        else if extAvg < avg && extAvg < pairAvg then Decisions.Peek.ExtendRange
        else if right + 1 == |list| - 1 then Decisions.Peek.EndOfList
        else Decisions.Peek.Nothing
    }
  }
}
