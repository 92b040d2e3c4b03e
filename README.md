# Instrumented quicksort, modelled and proved in Dafny

The repository implements quicksort twice in one class, `QuicksortAnalyzer`:
- a deterministic version that partitions around the last element (Lomuto scheme);
- a randomized version that first swaps a uniformly drawn element of the range into the last slot.

Every comparison inside the partition loop raises `comparison_count`. Every element exchange raises `swap_count`. The test script carries a copy of the same class. Its `test_sorting_correctness` lists six fixed inputs and sorts five of them (the empty one is skipped) with both versions, comparing each result with `sorted(input)`. In the model, the constants `TestQuicksort.Cases` and `TestQuicksort.Expected` hold the inputs and their `sorted` values.

The project has three modules:

- `QuicksortSpec` (`quicksort_spec.dfy`) is a value-level model on `seq<int>`.
  - `Partition`, `SelectPivot` and `QuickSort` return the rearranged sequence together with the amounts by which the two counters rise.
  - Lemmas state what the code promises: the partition shape, permutation, frame, sortedness and exact counter arithmetic.
  - One `QuickSort` function serves both versions. `Strategy.Randomized(draws)` stands for Python's `random` module as an arbitrary stream of naturals. The k-th call of `randint(low, high)` returns `low + draws(k) % (high - low + 1)`.
  - Every choice of indices comes from some stream, so a property proved for every stream holds for every outcome of the draws.
- `Quicksort` (`quicksort.dfy`) is the class `QuicksortAnalyzer`.
  - It has the two counters as fields and the methods over an `array<int>`, sorted in place.
  - Each method's postcondition says that the array and the counters end in exactly the state the `QuicksortSpec` functions compute from the old state. The predicates `PartitionReaches`, `PivotReaches` and `SortReaches` name that state.
  - `RandomSource` is the random module: a stream of draws and the index of the next one.
- `TestQuicksort` (`test_quicksort.dfy`) covers the concrete cases of `test_sorting_correctness`, for every stream of draws.

The class in `test_quicksort.py` is the same code as the one in `quicksort.py`, except for comments and a blank line. Each member of the class models both copies: the rows cite quicksort.py, and the copies sit at test_quicksort.py:15-17 (`__init__`), 19-21 (`reset_counters`), 23-37 (`partition`), 39-51 (`quicksort_deterministic`), 53-57 (`randomized_partition`) and 59-71 (`quicksort_randomized`).

## Model

| member | source | states |
|---|---|---|
| Quicksort.QuicksortAnalyzer.constructor | quicksort.py:18-20 | both counters start at 0 |
| Quicksort.QuicksortAnalyzer.ResetCounters | quicksort.py:22-24 | both counters are 0 afterwards |
| Quicksort.QuicksortAnalyzer.Partition | quicksort.py:26-40 | the array, the returned index and both counters end as `QuicksortSpec.Partition` of the old array says (`PartitionReaches`) |
| QuicksortSpec.PartitionReachesShape | quicksort.py:26-40 | after partition: the pivot `arr[high]` sits at the returned index p, with low <= p <= high; the values before p inside the range are `<= pivot` and the values after p are `> pivot`; the range is permuted and nothing outside it moves; comparisons rise by high-low; swaps rise by the number of scanned elements `<= pivot`, plus one for the final exchange, which is unconditional |
| QuicksortSpec.Swap | quicksort.py:34 | the tuple exchange swaps positions i and j and changes nothing else |
| QuicksortSpec.SwapPermutes | quicksort.py:34 | the exchange is a permutation |
| QuicksortSpec.Scan | quicksort.py:30-35 | the loop's boundary i stays in [i0, high) and the length is kept |
| QuicksortSpec.ScanPermutes | quicksort.py:30-35 | the loop permutes the sequence |
| QuicksortSpec.ScanFrame | quicksort.py:30-35 | the loop moves only elements of (i0, high) |
| QuicksortSpec.ScanSplits | quicksort.py:30-35 | the loop invariant: [low, i] holds values `<= pivot` and (i, high) holds values `> pivot` |
| QuicksortSpec.ScanCounts | quicksort.py:30-35 | the loop swaps once per scanned element `<= pivot`, and the boundary advances by the same number |
| QuicksortSpec.ScanAllAtMost | quicksort.py:30-35 | when every scanned element is `<= pivot`, each is swapped with itself and the boundary reaches high-1 |
| QuicksortSpec.ScanAllAbove | quicksort.py:30-35 | when every scanned element is `> pivot`, the loop swaps nothing |
| QuicksortSpec.Partition | quicksort.py:26-40 | the length is kept and the returned index lies in [low, high] |
| QuicksortSpec.PartitionSplits | quicksort.py:26-40 | the pivot lands at the returned index, smaller-or-equal values go before it and larger ones after it |
| QuicksortSpec.PartitionPermutes | quicksort.py:26-40 | partition permutes and leaves indices outside [low, high] unchanged |
| QuicksortSpec.PartitionCounts | quicksort.py:26-40 | index = low + #(elements `<= pivot`); comparisons = high-low; swaps = #(elements `<= pivot`) + 1 |
| QuicksortSpec.PartitionAllAtMost | quicksort.py:26-40 | a range whose last element is its maximum is left as it is, with p = high and high-low+1 swaps |
| QuicksortSpec.PartitionAllAbove | quicksort.py:26-40 | a range whose last element is its strict minimum swaps only the ends, with p = low and one swap |
| Quicksort.QuicksortAnalyzer.QuicksortDeterministic | quicksort.py:42-51 | returns the same array; the array and the counters end as `QuicksortSpec.QuickSort` with the last-element pivot says (`SortReaches`); high defaults to len-1; it terminates on high-low |
| QuicksortSpec.QuickSort | quicksort.py:42-71 | both sorts, one per strategy: the length is kept and the deterministic strategy reads no draws |
| QuicksortSpec.PartitionAndRecurse | quicksort.py:46-49 | the `if low < high` branch of both sorts (also quicksort.py:63-69): a pivot is chosen, the range is partitioned, then both sides are sorted; the length is kept and the deterministic strategy reads no draws |
| QuicksortSpec.SortSides | quicksort.py:48-49 | the two recursive calls, left side first and then right side (also quicksort.py:68-69), the second reading the draws after the first's; the length is kept and the deterministic strategy reads no draws |
| QuicksortSpec.QuickSortBase | quicksort.py:46 | when low >= high, nothing moves, no counter rises and no draw is read; this covers the empty and one-element inputs |
| QuicksortSpec.QuickSortCorrect | quicksort.py:42-71 | both sorts, for every stream of draws, sort [low, high], permute the sequence and leave everything outside the range unchanged |
| QuicksortSpec.SortReachesSorted | quicksort.py:42-71 | the state both methods reach is sorted on [low, high], a permutation of the input, unchanged outside, with counters not lower than before |
| QuicksortSpec.SortReachesMonotone | quicksort.py:42-71 | no sort lowers either counter |
| QuicksortSpec.StepReaches | quicksort.py:46-49 | choosing the pivot, partitioning, sorting the left side and then the right side, chained in that order, give the outcome of the whole call |
| QuicksortSpec.QuickSortStep | quicksort.py:46-49 | one level of the recursion: the counts of the call are the partition's plus those of the two recursive calls |
| QuicksortSpec.QuickSortPermutes | quicksort.py:42-71 | both sorts permute the sequence |
| QuicksortSpec.QuickSortFrame | quicksort.py:42-71 | both sorts leave indices outside [low, high] unchanged |
| QuicksortSpec.SortedAfterSides | quicksort.py:46-49 | a partitioned range whose two sides are sorted in place is sorted |
| QuicksortSpec.SortSidesSorts | quicksort.py:48-49 | sorting both sides of a partitioned range sorts the range |
| QuicksortSpec.SortedUnique | quicksort.py:42-71 | a sorted arrangement of given elements is unique, so both sorts give the same result as Python's `sorted` |
| QuicksortSpec.QuickSortIdempotent | quicksort.py:42-71 | sorting an already sorted range changes nothing, for both strategies and every stream of draws |
| QuicksortSpec.SortedWindowUnique | quicksort.py:42-71 | two sorted rearrangements of a range that agree outside it are equal |
| QuicksortSpec.SortedInputCosts | quicksort.py:42-71 | on a sorted range (deterministic) or a constant one (either strategy) of n+1 elements: unchanged, n(n+1)/2 comparisons, (n+1)(n+2)/2 - 1 swaps, plus n more swaps and n draws when randomized, no draws otherwise |
| QuicksortSpec.DescendingInputComparisons | quicksort.py:42-51 | on a strictly descending range of n+1 elements the deterministic sort compares n(n+1)/2 times |
| QuicksortSpec.MaxLastComparisons | quicksort.py:42-51 | a descending range followed by its maximum also costs n(n+1)/2 comparisons |
| QuicksortSpec.DrawIndex | quicksort.py:54 | `random.randint(low, high)` lies in [low, high] |
| Quicksort.RandomSource.constructor | quicksort.py:8 | the state of Python's `random` module: an arbitrary stream of draws, with none read yet |
| Quicksort.RandomSource.RandInt | quicksort.py:54 | gives the next draw's index in [low, high] and advances the stream by one |
| QuicksortSpec.SelectPivot | quicksort.py:53-56 | deterministic: nothing changes; randomized: the drawn element goes to `high`, exactly one swap is counted and one draw is read |
| QuicksortSpec.SelectPivotPermutes | quicksort.py:53-56 | the pre-partition exchange permutes only inside [low, high] |
| Quicksort.QuicksortAnalyzer.RandomizedPartition | quicksort.py:53-57 | the array, the index, the draw counter and both counters end as partitioning after the drawn swap says (`PivotReaches`) |
| QuicksortSpec.PivotReachesShape | quicksort.py:53-57 | randomized_partition ends with the drawn element at the returned index and counts one swap more than the partition of the swapped array; comparisons rise by high-low |
| Quicksort.QuicksortAnalyzer.QuicksortRandomized | quicksort.py:59-71 | returns the same array; the array, the draws and the counters end as `QuicksortSpec.QuickSort` with drawn pivots says (`SortReaches`) |
| TestQuicksort.SortsTo | test_quicksort.py:92-99 | sorting a whole input with either strategy and any stream of draws gives its sorted permutation, which is `sorted(test_case)` |
| TestQuicksort.FirstCaseSorts | test_quicksort.py:78 | [64, 34, 25, 12, 22, 11, 90] sorts to [11, 12, 22, 25, 34, 64, 90] under both strategies |
| TestQuicksort.SecondCaseSorts | test_quicksort.py:79 | [5, 2, 8, 1, 9] sorts to [1, 2, 5, 8, 9] |
| TestQuicksort.ReverseCaseSorts | test_quicksort.py:83 | [9, 8, ..., 1] sorts to [1, 2, ..., 9] |
| TestQuicksort.ReverseCaseComparisons | test_quicksort.py:83 | the deterministic sort of [9, 8, ..., 1] makes 36 comparisons |
| TestQuicksort.ConstantCaseCounts | test_quicksort.py:82 | [3, 3, 3, 3] is left unchanged, with 6 comparisons and 9 swaps (12 when randomized) |
| TestQuicksort.SingletonCaseUntouched | test_quicksort.py:80 | [1] is left as it is and no counter moves |
| TestQuicksort.EmptyInputUntouched | quicksort.py:43-46 | an empty input (high defaults to -1) is left as it is and no counter moves; the test skips it |
| TestQuicksort.ExpectedIsSorted | test_quicksort.py:97 | each entry of `Expected` is `sorted(test_case)` of the matching input in `Cases` (test_quicksort.py:77-84): sorted, with the same elements |
| TestQuicksort.CopyOf | test_quicksort.py:92 | `test_case.copy()` (also line 95): a fresh array holding the input |
| TestQuicksort.SortCopyDeterministic | test_quicksort.py:92-93 | a copy of the input sorted deterministically ends as `QuickSort` says, and the analyzer's counters rise by its counts |
| TestQuicksort.SortCopies | test_quicksort.py:92-96 | the body of the test loop: both copies end as `QuickSort` with each strategy says, the randomized one reading the draws from where the stream stood; the analyzer's counters rise by both sorts' counts and the stream advances by the draws the randomized sort read, so counts accumulate across the cases of the loop |
| TestQuicksort.CaseSorts | test_quicksort.py:77-99 | each input sorts to `sorted(test_case)` under both strategies, for every stream of draws |
| TestQuicksort.CasePasses | test_quicksort.py:92-99 | both results of a case equal the expected list |
| TestQuicksort.TestSortingCorrectness | test_quicksort.py:74-106 | running the test with one analyzer and any stream of draws reports no failed case |
| TestQuicksort.CountersAccumulate | quicksort.py:18-51 | a fresh analyzer's comparison count reads 36 after one deterministic sort of [9, ..., 1], 72 after a second, and 0 after reset_counters |

## Left out

- `generate_test_data`, `measure_performance`, `empirical_analysis`, `theoretical_analysis`, `demonstrate_algorithms`, `simple_performance_test` and both `main` functions: they generate inputs, time the sorts and print, and are not part of the sorting core; the `matplotlib` and `numpy` imports are unused.
- Printing in `test_sorting_correctness`: the model returns the list of failing cases instead of printing a line per case.
- `random.randint`'s uniform distribution and the expected O(n log n) running time: the draws are an arbitrary stream, so only properties that hold for every draw are stated.
- `sys.setrecursionlimit` and Python's recursion depth limit: these are not modelled.
- Python's negative indexing and `IndexError`: `partition` requires 0 <= low <= high < len. The sorts only call it with low < high. Both sorts require 0 <= low and high < len whenever low < high, which is every index the code itself reaches.
- `randint`'s `ValueError` when low > high: `RandInt` requires low <= high, and randomized_partition only calls it that way.
- Quicksort.QuicksortAnalyzer.Partition: its postcondition ties the new array, index and counters to `QuicksortSpec.Partition` and does not restate the partition shape. `PartitionReachesShape` proves that shape from the postcondition.
- Quicksort.QuicksortAnalyzer.RandomizedPartition: its postcondition ties the new state to `SelectPivot` followed by `Partition`. `PivotReachesShape` proves from it that the range is permuted, that nothing outside it moves, that values `<=` the drawn pivot come before it and larger ones after it, and the exact counts.
- Quicksort.QuicksortAnalyzer.QuicksortDeterministic: its postcondition ties the new array and counters to `QuickSort`. `SortReachesSorted` proves that the range is sorted and permuted and that nothing outside it moves.
- Quicksort.QuicksortAnalyzer.QuicksortRandomized: as for QuicksortDeterministic, with the draws.
