/**
 * The scan's decision rule: which of the four moves to make next.
 */
module Decisions {
  import opened Slices

  /** What the scan should do with the element after the current window. */
  datatype Peek = ExtendRange | NewPair | Nothing | EndOfList

  /**
   * The scan's decision for the window `[left..=right]`, stated over exact
   * slice means: `cur` is the window's own mean, `ext` the mean with the next
   * element appended, `pair` the mean of the window's last element and the
   * next one.
   */
  function Classify(list: seq<int>, left: nat, right: nat): (p: Peek)
    requires left < right < |list|
    ensures right == |list| - 1 ==> p == EndOfList
    ensures p == ExtendRange || p == NewPair ==> right + 1 < |list|
    ensures p == Nothing ==> right + 2 < |list|
    ensures p == EndOfList ==> right + 2 >= |list|
  {
    if right == |list| - 1 then EndOfList
    else
      var cur, ext, pair := Mean(list, left, right), Mean(list, left, right + 1), Mean(list, right, right + 1);
      if pair < cur && pair < ext then NewPair
      else if ext < cur && ext < pair then ExtendRange
      else if right + 1 == |list| - 1 then EndOfList
      else Nothing
  }

  /** A decision to move on never makes the window's mean larger. */
  lemma ClassifyLowersMean(list: seq<int>, left: nat, right: nat)
    requires left < right < |list|
    ensures Classify(list, left, right) == ExtendRange ==>
              Mean(list, left, right + 1) < Mean(list, left, right) &&
              Mean(list, left, right + 1) < Mean(list, right, right + 1)
    ensures Classify(list, left, right) == NewPair ==>
              Mean(list, right, right + 1) < Mean(list, left, right) &&
              Mean(list, right, right + 1) < Mean(list, left, right + 1)
  {
  }
}
