/*
 * First-free allocation, as every index scan of the shells does it: walk
 * `range(1048576)` and take the first value that the existing objects do not
 * use (backstore indexes from 0, TPG tags from 1, LUNs from 0).
 */
module Allocation {
  import opened Common

  /** The bound of every scan: `range(1048576)`. */
  const IndexBound: nat := 1048576

  /** The smallest k with lo <= k < bound that is not in `used`. */
  function LowestFree(used: set<int>, lo: int, bound: int): (r: Option<int>)
    ensures r.Some? ==> lo <= r.value < bound && r.value !in used
    decreases bound - lo
  {
    if lo >= bound then None
    else if lo !in used then Some(lo)
    else LowestFree(used, lo + 1, bound)
  }

  ghost predicate IsLowestFree(used: set<int>, lo: int, bound: int, k: int) {
    lo <= k < bound && k !in used && forall j :: lo <= j < k ==> j in used
  }

  ghost predicate AllUsed(used: set<int>, lo: int, bound: int) {
    forall j :: lo <= j < bound ==> j in used
  }

  /** `LowestFree` finds the least free value, and fails only when the whole range is used. */
  lemma {:induction false} LowestFreeCorrect(used: set<int>, lo: int, bound: int)
    ensures LowestFree(used, lo, bound).Some? ==> IsLowestFree(used, lo, bound, LowestFree(used, lo, bound).value)
    ensures LowestFree(used, lo, bound).None? <==> AllUsed(used, lo, bound)
    decreases bound - lo
  {
    if lo < bound && lo in used {
      LowestFreeCorrect(used, lo + 1, bound);
    }
  }

  /** Conversely, the least free value is what `LowestFree` returns. */
  lemma {:induction false} LowestFreeUnique(used: set<int>, lo: int, bound: int, k: int)
    requires IsLowestFree(used, lo, bound, k)
    ensures LowestFree(used, lo, bound) == Some(k)
    decreases bound - lo
  {
    if lo != k {
      LowestFreeUnique(used, lo + 1, bound, k);
    }
  }

  /**
   * Freeing a value below which everything is taken makes it the next one
   * allocated: with {0, 1, 2} in use, deleting 1 makes 1 the next index.
   */
  lemma FreedValueIsReused(used: set<int>, lo: int, bound: int, k: int)
    requires lo <= k < bound
    requires forall j :: lo <= j < k ==> j in used
    ensures LowestFree(used - {k}, lo, bound) == Some(k)
  {
    LowestFreeUnique(used - {k}, lo, bound, k);
  }

  /** Taking the allocated value moves the next allocation strictly above it. */
  lemma AllocationAdvances(used: set<int>, lo: int, bound: int)
    requires LowestFree(used, lo, bound).Some?
    ensures var k := LowestFree(used, lo, bound).value;
            LowestFree(used + {k}, lo, bound).None? || LowestFree(used + {k}, lo, bound).value > k
  {
    var k := LowestFree(used, lo, bound).value;
    LowestFreeCorrect(used, lo, bound);
    LowestFreeCorrect(used + {k}, lo, bound);
  }

  /** Values outside the scanned range never influence the scan. */
  lemma {:induction false} OutOfRangeIgnored(used: set<int>, other: set<int>, lo: int, bound: int)
    requires forall j :: j in other ==> j < lo || j >= bound
    ensures LowestFree(used + other, lo, bound) == LowestFree(used, lo, bound)
    decreases bound - lo
  {
    if lo < bound {
      OutOfRangeIgnored(used, other, lo + 1, bound);
    }
  }

  /**
   * The scan itself: `for index in range(bound): if index >= lo and index not
   * in used: found = index; break`. None when every value in [lo, bound) is used.
   */
  method FirstFree(used: set<int>, lo: nat, bound: nat) returns (r: Option<int>)
    ensures r == LowestFree(used, lo, bound)
    ensures r.Some? ==> IsLowestFree(used, lo, bound, r.value)
    ensures r.None? ==> AllUsed(used, lo, bound)
  {
    r := None;
    var index := 0;
    while index < bound
      invariant 0 <= index <= bound
      invariant forall j :: lo <= j < index ==> j in used
    {
      if index >= lo && index !in used {
        r := Some(index);
        break;
      }
      index := index + 1;
    }
    LowestFreeCorrect(used, lo, bound);
    if r.Some? {
      LowestFreeUnique(used, lo, bound, r.value);
    }
  }

  /**
   * What the caller of a backstore-index scan gets. As the three trees write
   * the scan, the variable it assigns is never initialised before the loop,
   * so an exhausted range raises UnboundLocalError before the
   * "Cannot find an available backstore index." test is reached.
   */
  datatype ScanOutcome = Found(index: nat) | ReportedFull | UnboundLocal

  /** The scan followed by `if backstore_index is None`, as written. */
  function ScanAsWritten(used: set<int>, bound: nat): (r: ScanOutcome)
    ensures r != ReportedFull
  {
    match LowestFree(used, 0, bound)
    case None => UnboundLocal
    case Some(k) => Found(k)
  }

  /** The scan with `backstore_index = None` first, as the test after it intends. */
  function ScanCorrected(used: set<int>, bound: nat): (r: ScanOutcome)
    ensures r != UnboundLocal
    ensures r.Found? ==> IsLowestFree(used, 0, bound, r.index)
    ensures r == ReportedFull <==> AllUsed(used, 0, bound)
  {
    LowestFreeCorrect(used, 0, bound);
    match LowestFree(used, 0, bound)
    case None => ReportedFull
    case Some(k) => Found(k)
  }

  /**
   * With every index in [0, 1048576) taken, the scan as written raises
   * instead of reporting; the corrected scan reports. Otherwise the two agree.
   */
  lemma ExhaustedScanRaises(used: set<int>)
    ensures AllUsed(used, 0, IndexBound) ==>
      ScanAsWritten(used, IndexBound) == UnboundLocal && ScanCorrected(used, IndexBound) == ReportedFull
    ensures !AllUsed(used, 0, IndexBound) ==> ScanAsWritten(used, IndexBound) == ScanCorrected(used, IndexBound)
  {
    LowestFreeCorrect(used, 0, IndexBound);
  }

  /** The indexes 0 .. n-1. */
  function Below(n: nat): (s: set<int>)
    ensures forall i :: i in s <==> 0 <= i < n
  {
    if n == 0 then {} else Below(n - 1) + {n - 1}
  }

  /** The concrete input: all 1048576 indexes of a plugin in use. */
  lemma FullRangeRaises()
    ensures ScanAsWritten(Below(IndexBound), IndexBound) == UnboundLocal
    ensures ScanCorrected(Below(IndexBound), IndexBound) == ReportedFull
  {
    ExhaustedScanRaises(Below(IndexBound));
  }
}
