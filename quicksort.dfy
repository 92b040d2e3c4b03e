/** The instrumented in-place quicksort of quicksort.py (class
    QuicksortAnalyzer), over a Dafny array. Every method is proved against
    the functions of QuicksortSpec: its new state is the state those
    functions compute from the old one (the predicates PartitionReaches,
    PivotReaches, SortReaches), and the lemmas PartitionReachesShape,
    PivotReachesShape and SortReachesSorted turn that state into the
    properties the source promises (sorted, permutation, frame, counter
    arithmetic). */
module Quicksort {
  import opened QuicksortSpec

  /** Stands for Python's global `random` module: the k-th call of
      `RandInt` reads the k-th entry of an arbitrary stream of draws. */
  class RandomSource {
    const draws: nat -> nat
    var next: nat

    constructor (draws: nat -> nat)
      ensures this.draws == draws && next == 0
    {
      this.draws := draws;
      next := 0;
    }

    /** `random.randint(low, high)`: some index of [low, high]. */
    method RandInt(low: int, high: int) returns (r: int)
      requires low <= high
      modifies this
      ensures r == DrawIndex(draws, old(next), low, high) && low <= r <= high
      ensures next == old(next) + 1
    {
      r := DrawIndex(draws, next, low, high);
      next := next + 1;
    }
  }

  class QuicksortAnalyzer {
    var comparisonCount: nat
    var swapCount: nat

    constructor ()
      ensures comparisonCount == 0 && swapCount == 0
    {
      comparisonCount := 0;
      swapCount := 0;
    }

    method ResetCounters()
      modifies this
      ensures comparisonCount == 0 && swapCount == 0
    {
      comparisonCount := 0;
      swapCount := 0;
    }

    /** Lomuto partition of arr[low..high] around the pivot arr[high]. */
    method Partition(arr: array<int>, low: int, high: int) returns (p: int)
      requires 0 <= low <= high < arr.Length
      modifies this, arr
      ensures PartitionReaches(old(arr[..]), low, high, old(comparisonCount), old(swapCount),
                               arr[..], p, comparisonCount, swapCount)
    {
      ghost var s0 := arr[..];
      ghost var goal := Scan(s0, s0[high], low - 1, low, high);
      var pivot := arr[high];
      var i := low - 1;
      for j := low to high
        invariant low - 1 <= i < j
        invariant arr[high] == pivot
        invariant Scan(arr[..], pivot, i, j, high).arr == goal.arr
        invariant Scan(arr[..], pivot, i, j, high).boundary == goal.boundary
        invariant swapCount - old(swapCount) + Scan(arr[..], pivot, i, j, high).swaps == goal.swaps
        invariant comparisonCount == old(comparisonCount) + (j - low)
      {
        comparisonCount := comparisonCount + 1;
        if arr[j] <= pivot {
          ghost var before := arr[..];
          i := i + 1;
          arr[i], arr[j] := arr[j], arr[i];
          swapCount := swapCount + 1;
          assert arr[..] == Swap(before, i, j);
        } else {
          assert Scan(arr[..], pivot, i, j, high) == Scan(arr[..], pivot, i, j + 1, high);
        }
      }
      assert arr[..] == goal.arr && i == goal.boundary;
      arr[i + 1], arr[high] := arr[high], arr[i + 1];
      swapCount := swapCount + 1;
      p := i + 1;
      assert arr[..] == Swap(goal.arr, goal.boundary + 1, high);
    }

    /** quicksort_deterministic: sort arr[low..high] in place, pivot arr[high]. */
    method QuicksortDeterministic(arr: array<int>, low: int := 0, high: int := arr.Length - 1)
      returns (res: array<int>)
      requires low < high ==> 0 <= low && high < arr.Length
      modifies this, arr
      ensures res == arr
      ensures SortReaches(old(arr[..]), low, high, Deterministic, 0,
                          old(comparisonCount), old(swapCount), arr[..], comparisonCount, swapCount, 0)
      decreases high - low
    {
      ghost var s0, c0, w0 := arr[..], comparisonCount, swapCount;
      if low < high {
        var p := Partition(arr, low, high);
        ghost var t, c1, w1 := arr[..], comparisonCount, swapCount;
        var _ := QuicksortDeterministic(arr, low, p - 1);
        ghost var u, c2, w2 := arr[..], comparisonCount, swapCount;
        var _ := QuicksortDeterministic(arr, p + 1, high);
        StepReaches(s0, low, high, Deterministic, 0, c0, w0, t, p, 0, c1, w1, u, 0, c2, w2,
                    arr[..], 0, comparisonCount, swapCount);
      }
      res := arr;
    }

    /** randomized_partition: exchange a drawn index of [low, high] with
        `high` (one counted swap), then partition. */
    method RandomizedPartition(arr: array<int>, rng: RandomSource, low: int, high: int) returns (p: int)
      requires 0 <= low <= high < arr.Length
      modifies this, arr, rng
      ensures PivotReaches(old(arr[..]), low, high, Randomized(rng.draws), old(rng.next),
                           old(comparisonCount), old(swapCount), arr[..], p, rng.next, comparisonCount, swapCount)
    {
      ghost var s0 := arr[..];
      var pivotIndex := rng.RandInt(low, high);
      arr[pivotIndex], arr[high] := arr[high], arr[pivotIndex];
      swapCount := swapCount + 1;
      assert arr[..] == Swap(s0, pivotIndex, high);
      p := Partition(arr, low, high);
    }

    /** quicksort_randomized: as quicksort_deterministic, with the pivot
        drawn from [low, high] before each partition. */
    method QuicksortRandomized(arr: array<int>, rng: RandomSource, low: int := 0, high: int := arr.Length - 1)
      returns (res: array<int>)
      requires low < high ==> 0 <= low && high < arr.Length
      modifies this, arr, rng
      ensures res == arr
      ensures SortReaches(old(arr[..]), low, high, Randomized(rng.draws), old(rng.next),
                          old(comparisonCount), old(swapCount), arr[..], comparisonCount, swapCount, rng.next)
      decreases high - low
    {
      ghost var s0, n0, c0, w0 := arr[..], rng.next, comparisonCount, swapCount;
      if low < high {
        var p := RandomizedPartition(arr, rng, low, high);
        ghost var t, n1, c1, w1 := arr[..], rng.next, comparisonCount, swapCount;
        var _ := QuicksortRandomized(arr, rng, low, p - 1);
        ghost var u, n2, c2, w2 := arr[..], rng.next, comparisonCount, swapCount;
        var _ := QuicksortRandomized(arr, rng, p + 1, high);
        StepReaches(s0, low, high, Randomized(rng.draws), n0, c0, w0, t, p, n1, c1, w1, u, n2, c2, w2,
                    arr[..], rng.next, comparisonCount, swapCount);
      }
      res := arr;
    }
  }
}
