/**
 * The single left-to-right pass: a working range that is extended, collapsed
 * to a pair, or closed out and restarted, and a best range that is replaced
 * only on strict improvement.
 */
module SmartScan {
  import opened Slices
  import opened Decisions
  import opened Ranges

  /**
   * The windows the scan closes out, in order, when its working window is
   * `[left..=right]`: the window in hand at each `Nothing` and at the final
   * `EndOfList`.
   */
  function Trace(list: seq<int>, left: nat, right: nat): (ws: seq<Window>)
    requires left < right < |list|
    ensures |ws| > 0
    ensures forall k :: 0 <= k < |ws| ==> Fits(list, ws[k])
    decreases |list| - right
  {
    match Classify(list, left, right)
    case ExtendRange => Trace(list, left, right + 1)
    case NewPair => Trace(list, right, right + 1)
    case Nothing => [Window(left, right)] + Trace(list, right, right + 1)
    case EndOfList => [Window(left, right)]
  }

  /** The close-out rule: the new window replaces `best` only if its mean is strictly lower. */
  function Improve(list: seq<int>, best: Window, w: Window): (r: Window)
    requires Fits(list, best) && Fits(list, w)
    ensures r == w || r == best
    ensures WindowMean(list, r) <= WindowMean(list, best) && WindowMean(list, r) <= WindowMean(list, w)
    ensures r == w <==> w == best || WindowMean(list, w) < WindowMean(list, best)
  {
    if WindowMean(list, w) < WindowMean(list, best) then w else best
  }

  /** The best range after comparing `best` with each closed-out window in turn. */
  function KeepBest(list: seq<int>, best: Window, closed: seq<Window>): (r: Window)
    requires Fits(list, best) && forall k :: 0 <= k < |closed| ==> Fits(list, closed[k])
    ensures Fits(list, r) && (r == best || r in closed)
    ensures WindowMean(list, r) <= WindowMean(list, best)
    ensures r != best ==> WindowMean(list, r) < WindowMean(list, best)
    decreases |closed|
  {
    if closed == [] then best
    else
      KeepBest(list, Improve(list, best, closed[0]), closed[1..])
  }

  /**
   * The scan step by step: `best` is the best window so far and
   * `[left..=right]` the working window; the result is what the scan reports.
   */
  function Scan(list: seq<int>, best: Window, left: nat, right: nat): (r: Window)
    requires Fits(list, best) && left < right < |list|
    ensures Fits(list, r) && WindowMean(list, r) <= WindowMean(list, best)
    decreases |list| - right
  {
    match Classify(list, left, right)
    case ExtendRange => Scan(list, best, left, right + 1)
    case NewPair => Scan(list, best, right, right + 1)
    case Nothing => Scan(list, Improve(list, best, Window(left, right)), right, right + 1)
    case EndOfList => Improve(list, best, Window(left, right))
  }

  /** The fold's result is no worse than any of the windows it compared. */
  lemma {:induction false} KeepBestNoWorse(list: seq<int>, best: Window, closed: seq<Window>)
    requires Fits(list, best) && forall k :: 0 <= k < |closed| ==> Fits(list, closed[k])
    ensures forall k :: 0 <= k < |closed| ==>
              WindowMean(list, KeepBest(list, best, closed)) <= WindowMean(list, closed[k])
    decreases |closed|
  {
    if closed != [] {
      var next := Improve(list, best, closed[0]);
      KeepBestNoWorse(list, next, closed[1..]);
      forall k | 0 <= k < |closed|
        ensures WindowMean(list, KeepBest(list, best, closed)) <= WindowMean(list, closed[k])
      {
        if k > 0 {
          assert closed[k] == closed[1..][k - 1];
        }
      }
    }
  }

  /** The range the scan reports for `list`. */
  function SmartResult(list: seq<int>): Window
    requires |list| >= 2
  {
    Scan(list, Window(0, 1), 0, 1)
  }

  /** The scan is the best-so-far fold over the windows it closes out. */
  lemma {:induction false} ScanKeepsBestOfTrace(list: seq<int>, best: Window, left: nat, right: nat)
    requires Fits(list, best) && left < right < |list|
    ensures Scan(list, best, left, right) == KeepBest(list, best, Trace(list, left, right))
    decreases |list| - right
  {
    match Classify(list, left, right)
    case ExtendRange => ScanKeepsBestOfTrace(list, best, left, right + 1);
    case NewPair => ScanKeepsBestOfTrace(list, best, right, right + 1);
    case Nothing =>
      ScanKeepsBestOfTrace(list, Improve(list, best, Window(left, right)), right, right + 1);
      KeepBestCons(list, best, Window(left, right), Trace(list, right, right + 1));
    case EndOfList =>
      KeepBestCons(list, best, Window(left, right), []);
  }

  /** Folding over `[w] + ws` first compares `w`, then folds over `ws`. */
  lemma KeepBestCons(list: seq<int>, best: Window, w: Window, ws: seq<Window>)
    requires Fits(list, best) && Fits(list, w) && forall k :: 0 <= k < |ws| ==> Fits(list, ws[k])
    ensures KeepBest(list, best, [w] + ws) == KeepBest(list, Improve(list, best, w), ws)
  {
    assert ([w] + ws)[1..] == ws;
  }

  /**
   * Ties keep the earlier window: the result is the first of `best` and the
   * closed-out windows that attains the least mean.
   */
  lemma {:induction false} KeepBestIsFirst(list: seq<int>, best: Window, closed: seq<Window>)
    requires Fits(list, best) && forall k :: 0 <= k < |closed| ==> Fits(list, closed[k])
    ensures var all, r := [best] + closed, KeepBest(list, best, closed);
      exists k :: 0 <= k < |all| && all[k] == r &&
        forall j :: 0 <= j < k ==> WindowMean(list, r) < WindowMean(list, all[j])
    decreases |closed|
  {
    var all, r := [best] + closed, KeepBest(list, best, closed);
    if closed == [] {
      assert all[0] == r;
    } else {
      var next := Improve(list, best, closed[0]);
      KeepBestIsFirst(list, next, closed[1..]);
      var rest := [next] + closed[1..];
      var k' :| 0 <= k' < |rest| && rest[k'] == r &&
        forall j :: 0 <= j < k' ==> WindowMean(list, r) < WindowMean(list, rest[j]);
      if next == best && k' == 0 {
        assert all[0] == r;
      } else {
        assert all[k' + 1] == r;
        forall j | 0 <= j < k' + 1
          ensures WindowMean(list, r) < WindowMean(list, all[j])
        {
          if j >= 2 {
            assert all[j] == rest[j - 1];
          } else if next == best {
            assert WindowMean(list, r) < WindowMean(list, rest[0]);
          } else {
            assert WindowMean(list, r) <= WindowMean(list, next) < WindowMean(list, best);
          }
        }
      }
    }
  }

  /** The first window the scan closes out is no worse than the working window it starts from. */
  lemma {:induction false} TraceHeadNoWorse(list: seq<int>, left: nat, right: nat)
    requires left < right < |list|
    ensures WindowMean(list, Trace(list, left, right)[0]) <= Mean(list, left, right)
    decreases |list| - right
  {
    ClassifyLowersMean(list, left, right);
    match Classify(list, left, right)
    case ExtendRange => TraceHeadNoWorse(list, left, right + 1);
    case NewPair => TraceHeadNoWorse(list, right, right + 1);
    case Nothing =>
    case EndOfList =>
  }

  /**
   * Every adjacent pair `(p - 1, p)` whose right end is not the last index is
   * beaten or matched by some closed-out window, provided the working window
   * is no worse than the pair ending at its own right bound.
   */
  lemma {:induction false} TraceBelowPair(list: seq<int>, left: nat, right: nat, p: nat)
    requires left < right <= p && p + 2 <= |list|
    requires Mean(list, left, right) <= Mean(list, right - 1, right)
    ensures exists k :: 0 <= k < |Trace(list, left, right)| &&
              WindowMean(list, Trace(list, left, right)[k]) <= Mean(list, p - 1, p)
    decreases |list| - right
  {
    var ws := Trace(list, left, right);
    if p == right {
      TraceHeadNoWorse(list, left, right);
      assert WindowMean(list, ws[0]) <= Mean(list, p - 1, p);
    } else {
      ClassifyLowersMean(list, left, right);
      match Classify(list, left, right)
      case ExtendRange =>
        TraceBelowPair(list, left, right + 1, p);
      case NewPair =>
        TraceBelowPair(list, right, right + 1, p);
      case Nothing =>
        TraceBelowPair(list, right, right + 1, p);
        var ws' := Trace(list, right, right + 1);
        var k :| 0 <= k < |ws'| && WindowMean(list, ws'[k]) <= Mean(list, p - 1, p);
        assert ws[k + 1] == ws'[k];
      case EndOfList =>
        assert false;
    }
  }

  /**
   * The reported range lies in the list, has at least two elements, and is no
   * worse than the starting window `(0, 1)` or than any window the scan closes
   * out.
   */
  lemma SmartResultBounds(list: seq<int>)
    requires |list| >= 2
    ensures Fits(list, SmartResult(list))
    ensures WindowMean(list, SmartResult(list)) <= Mean(list, 0, 1)
    ensures forall w :: w in Trace(list, 0, 1) ==> WindowMean(list, SmartResult(list)) <= WindowMean(list, w)
  {
    var ws, r := Trace(list, 0, 1), SmartResult(list);
    ScanKeepsBestOfTrace(list, Window(0, 1), 0, 1);
    KeepBestNoWorse(list, Window(0, 1), ws);
    forall w | w in ws
      ensures WindowMean(list, r) <= WindowMean(list, w)
    {
      var k :| 0 <= k < |ws| && ws[k] == w;
    }
  }

  /**
   * The reported mean is no larger than the mean of any adjacent pair, except
   * possibly the last pair of the list, which the scan can skip.
   */
  lemma SmartBelowEarlyPairs(list: seq<int>)
    requires |list| >= 2
    ensures forall i :: 0 <= i && i + 2 < |list| ==> WindowMean(list, SmartResult(list)) <= PairMean(list, i)
  {
    var ws, r := Trace(list, 0, 1), SmartResult(list);
    ScanKeepsBestOfTrace(list, Window(0, 1), 0, 1);
    KeepBestNoWorse(list, Window(0, 1), ws);
    forall i | 0 <= i && i + 2 < |list|
      ensures WindowMean(list, r) <= PairMean(list, i)
    {
      TraceBelowPair(list, 0, 1, i + 1);
      var k :| 0 <= k < |ws| && WindowMean(list, ws[k]) <= Mean(list, i, i + 1);
      assert WindowMean(list, r) <= WindowMean(list, ws[k]);
    }
  }

  /**
   * The scan: returns the mean and the bounds of the range it settles on,
   * which is the range `SmartResult` describes.
   */
  method MinAbAverageSmart(list: seq<int>) returns (avg: real, left: nat, right: nat)
    requires |list| >= 2
    ensures Window(left, right) == SmartResult(list)
    ensures left < right < |list| && avg == Mean(list, left, right)
  {
    var range := new Range(list, 0, 1);
    var best := range.Clone();
    // The working window and the best window, as values.
    ghost var work, kept := Window(0, 1), Window(0, 1);
    ghost var goal := SmartResult(list);
    while true
      invariant range.Valid() && best.Valid() && range != best
      invariant fresh(range) && fresh(best)
      invariant range.list == list && best.list == list
      invariant range.Bounds() == work && best.Bounds() == kept
      invariant Scan(list, kept, work.left, work.right) == goal
      decreases |list| - range.right
    {
      var next := range.Peek();
      match next
      case ExtendRange =>
        range.Extend();
        work := Window(work.left, work.right + 1);
      case NewPair =>
        range.NewPair();
        work := Window(work.right, work.right + 1);
      case Nothing =>
        if range.avg < best.avg {
          best := range.Clone();
        }
        kept := Improve(list, kept, work);
        range := new Range(list, range.right, range.right + 1);
        work := Window(work.right, work.right + 1);
      case EndOfList =>
        if range.avg < best.avg {
          best := range.Clone();
        }
        kept := Improve(list, kept, work);
        break;
    }
    avg, left, right := best.avg, best.left, best.right;
  }
}
