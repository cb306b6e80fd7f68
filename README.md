# ab-average, modelled in Dafny

ab-average looks for the contiguous slice `list[left..=right]` of an integer
list with `left < right` whose arithmetic mean is smallest. It offers two
answers:

- a brute-force scan over every pair `(i, j)` with `i < j`;
- a single left-to-right pass. This pass drives a mutable candidate window,
  a `Range` with bounds, a cached sum and a cached mean. At each step it
  peeks at the next element and does one of four things:
  - extends the window by that element;
  - collapses the window to the pair (last element, next element);
  - closes the window out and restarts with that pair;
  - stops at the end of the list.

  It keeps a copy of the best window closed out so far and replaces that
  copy only on strict improvement.

The model follows the program's structure:

- `slices.dfy` (`Slices`): slice sums, exact means, windows, and the
  row-major order of the brute-force scan. It also defines the "first window
  of least mean" predicate and proves that every list of at least two
  elements has exactly one such window.
- `decisions.dfy` (`Decisions`): the `Peek` enumeration and `Classify`, the
  decision rule stated over exact slice means.
- `ranges.dfy` (`Ranges`): the `Range` class, with its fields updated in
  place by `UpdateAvg`, `Extend` and `NewPair`. Its read-only `Peek` is proved
  to decide exactly as `Classify` does.
- `smart.dfy` (`SmartScan`): the single pass.
  - `Scan` is its step-by-step specification.
  - `Trace` lists the windows it closes out.
  - `KeepBest` folds the strict-improvement rule over them.
  - `MinAbAverageSmart` is the loop over `Range` objects, proved to return
    `SmartResult`.
- `naive.dfy` (`NaiveScan`): the brute-force scan as nested loops. It is
  proved to return the first window of least mean whenever some mean lies
  below its sentinel start value.
- `scenarios.dfy` (`Scenarios`): the repository's four test vectors. Both
  scans are shown to report the expected window and mean. One more input
  shows where the single pass and the brute-force scan part ways.

Means are exact rationals (`real`), and sums are unbounded integers.

### The final pair

In `peek`, when neither strict rule fires and the next element is the last
one (src/main.rs:128-129), the code returns `EndOfList`. The scan then stops
without ever examining the final pair `(len-2, len-1)` on its own. This
branch reads as if it were meant to make sure that final pair is not left
out, but it does not. The model follows the code.

- `Scenarios.SmartMissesFinalPair` proves that on `[0, 2, -2]` the pass
  reports `(0, 1)`, whose mean is 1, while the final pair has mean 0.
- `Scenarios.MissedMinimum` proves that `(0, 2)`, with mean 0, is the first
  window of least mean there.
- `SmartScan.SmartBelowEarlyPairs` proves the bound that does hold: the
  reported mean is at most the mean of every adjacent pair except the last.

## Model

| member | source | states |
|---|---|---|
| Slices.FirstMinimumNotLater | src/main.rs:59-66 | Of two windows that both satisfy the "first of least mean" property, neither comes strictly before the other in the scan's row-major order. |
| Slices.FirstMinimumFromExists | src/main.rs:59-66 | Among the windows the row-major scan visits from `(i, j)` on, some window has the least mean and is the first of them to attain it. |
| Slices.FirstMinimumExists | src/main.rs:59-66 | Every list of at least two elements has a first window of least mean. |
| Slices.FirstMinimumUnique | src/main.rs:59-66 | At most one window is the first of least mean; with `FirstMinimumExists`, exactly one, so the brute-force scan's answer is fully determined by its contract. |
| Decisions.Classify | src/main.rs:115-133 | `EndOfList` whenever `right` is the last index. `ExtendRange`/`NewPair` only when `right + 1` is in bounds. `Nothing` only when at least two more elements follow. `EndOfList` otherwise only when `right + 1` is the last index. |
| Decisions.ClassifyLowersMean | src/main.rs:124-127 | `ExtendRange` only when the extended mean is strictly below both the current mean and the pair mean. `NewPair` only when the pair mean is strictly below both the current mean and the extended mean. |
| Ranges.Range.constructor | src/main.rs:83-91 | The new range has the given bounds, its `sum` equals the slice sum of `list[left..=right]`, and its `avg` equals the exact mean (`Valid`). |
| Ranges.Range.UpdateAvg | src/main.rs:94-97 | Given bounds and a slice-consistent `sum`, only `avg` changes, and it becomes `sum / (right - left + 1)`. |
| Ranges.Range.Extend | src/main.rs:100-104 | `right` grows by exactly one, `left` is unchanged, `sum` gains the new element, and the range stays slice-consistent. |
| Ranges.Range.NewPair | src/main.rs:107-112 | The range becomes `(old right, old right + 1)`, `sum == list[left] + list[right]`, and it stays slice-consistent. |
| Ranges.Range.Peek | src/main.rs:115-134 | Working only from the cached `sum` and `avg`, it returns exactly `Classify(list, left, right)`. |
| Ranges.Range.Copy | src/main.rs:72 | The copied range has the same list, bounds, sum and mean as the original, and stays slice-consistent. |
| Ranges.Range.Clone | src/main.rs:72 | The copy is a fresh object with the same list, bounds, sum and mean. |
| SmartScan.Trace | src/main.rs:159-185 | The scan closes out at least one window, and every closed-out window lies in the list and has at least two elements. |
| SmartScan.Improve | src/main.rs:172-174 | The best window changes to `w` exactly when `w`'s mean is strictly lower. The result is no worse than either input. |
| SmartScan.KeepBest | src/main.rs:172-174 | After the closed-out windows are compared in turn, the best is the starting window or one of them. It is no worse than the start, and strictly better whenever it changed. |
| SmartScan.KeepBestNoWorse | src/main.rs:172-174 | The kept window's mean is at most the mean of every closed-out window. |
| SmartScan.KeepBestIsFirst | src/main.rs:172-174 | Ties keep the earlier window: the result is the first of the compared windows to attain its mean, and every window before it has a strictly larger mean. |
| SmartScan.KeepBestCons | src/main.rs:172-174 | Folding over `[w] + ws` compares `w` first and then folds over `ws`. |
| SmartScan.Scan | src/main.rs:159-185 | The pass ends on a window that lies in the list and is no worse than the best window it started with. |
| SmartScan.ScanKeepsBestOfTrace | src/main.rs:159-185 | The step-by-step pass equals the strict-improvement fold over the windows it closes out. |
| SmartScan.TraceHeadNoWorse | src/main.rs:160-168 | Extending and collapsing never raise the mean, so the first closed-out window is no worse than the window the pass started from. |
| SmartScan.TraceBelowPair | src/main.rs:115-134 | For each adjacent pair `(p-1, p)` with `p` before the last index, some closed-out window has a mean at most that pair's. |
| SmartScan.SmartResultBounds | src/main.rs:157 | The reported window lies in the list. Its mean is at most that of `(0, 1)` and at most that of every closed-out window. |
| SmartScan.SmartBelowEarlyPairs | src/main.rs:152-189 | The reported mean is at most the mean of every adjacent pair except possibly the last one. |
| SmartScan.MinAbAverageSmart | src/main.rs:152-189 | The loop keeps both ranges slice-consistent and terminates because `right` grows. It returns exactly `SmartResult(list)`, with `left < right < len` and the mean of that slice. |
| NaiveScan.ComputeAverage | src/main.rs:45-52 | Accumulating `list[i] / count` over `a..=b` yields the exact mean of `list[a..=b]`. |
| NaiveScan.MinAbAverageNaive | src/main.rs:55-69 | The result is at most the sentinel and at most every window's mean. If some mean is below the sentinel, it returns the first window of least mean and its mean. Otherwise it returns the sentinel and `(0, 0)`, which also covers lists shorter than two. |
| Scenarios.CheckFromSound | src/main.rs:59-66 | A passing integer cross-multiplied check, run from pair `(i, j)` onward in row-major order, establishes the least-mean and first-in-order bounds for all those pairs. |
| Scenarios.FirstMinimumByCheck | src/main.rs:59-66 | A passing check from `(0, 1)` establishes that the window is the first of least mean. |
| Scenarios.SmartOnPair | src/main.rs:115-117 | On a two-element list the pass reports `(0, 1)` with mean `(a + b) / 2`. |
| Scenarios.Scenario1 | src/main.rs:196-201 | `[0, 1]`: the pass reports `(0, 1)` with mean 0.5, and `(0, 1)` is the first window of least mean. |
| Scenarios.Scenario2 | src/main.rs:234-239 | `[5, 7, 4, 8, 1]`: the pass reports `(2, 4)` with mean 13/3. |
| Scenarios.Scenario2FirstMinimum | src/main.rs:204-209 | `[5, 7, 4, 8, 1]`: `(2, 4)` is the first window of least mean, so the brute-force scan reports it. |
| Scenarios.Scenario3 | src/main.rs:241-246 | `[6, 7, 0, 9, 3, 2]`: the pass reports `(4, 5)` with mean 2.5. |
| Scenarios.Scenario3FirstMinimum | src/main.rs:211-216 | `[6, 7, 0, 9, 3, 2]`: `(4, 5)` is the first window of least mean. |
| Scenarios.Scenario4 | src/main.rs:248-254 | `[4, 8, -2, 5, 1, 2, 3, 4, 5]`: the pass reports `(2, 4)` with mean 4/3. |
| Scenarios.Scenario4FirstMinimum | src/main.rs:218-223 | `[4, 8, -2, 5, 1, 2, 3, 4, 5]`: `(2, 4)` is the first window of least mean. |
| Scenarios.SmartMissesFinalPair | src/main.rs:128-129 | `[0, 2, -2]`: the pass closes out only `(0, 1)`, with mean 1, and stops; the final pair, whose mean is 0, is never examined. |
| Scenarios.MissedMinimum | src/main.rs:55-69 | `[0, 2, -2]`: the first window of least mean is `(0, 2)`, with mean 0. |
| Scenarios.NaiveVector1 | src/main.rs:196-202 | The brute-force scan on `[0, 1]` returns mean 0.5 and `(0, 1)`. |
| Scenarios.NaiveVector2 | src/main.rs:204-209 | The brute-force scan on `[5, 7, 4, 8, 1]` returns mean 13/3 and `(2, 4)`. |
| Scenarios.NaiveVector3 | src/main.rs:211-216 | The brute-force scan on `[6, 7, 0, 9, 3, 2]` returns mean 2.5 and `(4, 5)`. |
| Scenarios.NaiveVector4 | src/main.rs:218-223 | The brute-force scan on `[4, 8, -2, 5, 1, 2, 3, 4, 5]` returns mean 4/3 and `(2, 4)`. |
| Scenarios.SmartVector1 | src/main.rs:226-232 | The single pass on `[0, 1]` returns mean 0.5 and `(0, 1)`. |
| Scenarios.SmartVector2 | src/main.rs:234-239 | The single pass on `[5, 7, 4, 8, 1]` returns mean 13/3 and `(2, 4)`. |
| Scenarios.SmartVector3 | src/main.rs:241-246 | The single pass on `[6, 7, 0, 9, 3, 2]` returns mean 2.5 and `(4, 5)`. |
| Scenarios.SmartVector4 | src/main.rs:248-254 | The single pass on `[4, 8, -2, 5, 1, 2, 3, 4, 5]` returns mean 4/3 and `(2, 4)`. |

## Left out

- Floating point: `avg`, `ext_avg`, `pair_avg` and `compute_average` are
  single-precision floats in the source. Here every mean is the exact
  rational `sum / length`, so rounding effects are not modelled. These
  include the order-dependent rounding of `compute_average`'s per-element
  division, and ties or strict comparisons that rounding could flip.
- 32-bit integers: `sum` is an `i32` in the source and can overflow. Here
  sums are unbounded integers.
- `main` (src/main.rs:6-42): random list generation, timing and printing
  are I/O and are not part of the model.
- The borrowed-slice lifetime of `Range`: the list is an immutable
  `seq<int>` constant of the class.
- Lists shorter than two elements: the single pass indexes out of bounds in
  `Range::new` and panics. `MinAbAverageSmart` therefore requires at least
  two elements. The brute-force scan handles every length.
- SmartScan.MinAbAverageSmart: does not claim the reported window has the
  least mean of all windows. The code gives no such guarantee, and
  `Scenarios.SmartMissesFinalPair` shows an input where it does not.
- SmartScan.Trace: the order of the closed-out windows (left to right,
  non-overlapping except at shared endpoints) is not stated. The model
  states only that there is at least one and that each lies in the list.
- The test macros `assert_eq!` and `assert_approx_eq!`: the expected values
  are stated as exact reals. For example, the source's `4.3333335` and
  `1.3333333` are `13/3` and `4/3` here.
