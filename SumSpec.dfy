/** What the array-sum kernel computes, independently of any encoding:
    the sum of the first `count` elements, with the accumulator either
    checked for signed overflow (`add nsw`, overflow is poison) or wrapping
    (`add`). `KernelSpec` is the kernel's control flow read as a recursive
    function; the lemmas tie it to `Sum`. */
module SumSpec {
  import opened Ir
  import I64
  import opened Interp

  /** Left-to-right sum, in the order the loop accumulates. */
  function Sum(s: seq<int>): int {
    if |s| == 0 then 0 else Sum(s[..|s| - 1]) + s[|s| - 1]
  }

  lemma SumPrefixStep(s: seq<int>, k: nat)
    requires k < |s|
    ensures Sum(s[..k + 1]) == Sum(s[..k]) + s[k]
  {
    assert s[..k + 1][..k] == s[..k];
  }

  /** An array the kernel can be called on: i64 elements, and a length
      whose indices fit in i64 (so the induction variable never wraps). */
  predicate ArrayOfI64(a: seq<int>) {
    |a| <= I64.Max && forall k :: 0 <= k < |a| ==> I64.InRange(a[k])
  }

  /** Every running sum `a[0] + ... + a[j-1]`, `1 <= j <= n`, is an i64. */
  predicate PartialSumsFit(a: seq<int>, n: nat)
    requires n <= |a|
  {
    forall j :: 1 <= j <= n ==> I64.InRange(Sum(a[..j]))
  }

  /** The accumulator after `k` iterations: the exact sum while no running sum
      has overflowed and poison after that under `nsw`; the sum modulo 2^64
      with a plain `add`. */
  function Acc(a: seq<int>, k: nat, nsw: bool): RVal
    requires k <= |a|
  {
    if nsw then
      (if PartialSumsFit(a, k) then IntV(Sum(a[..k])) else PoisonV)
    else IntV(I64.Wrap(Sum(a[..k])))
  }

  /** One iteration adds the next element to the accumulator. */
  lemma AccStep(a: seq<int>, k: nat, nsw: bool)
    requires k < |a|
    ensures AddValues(Acc(a, k, nsw), IntV(a[k]), nsw) == Some(Acc(a, k + 1, nsw))
  {
    SumPrefixStep(a, k);
    if nsw {
      if PartialSumsFit(a, k + 1) {
        assert PartialSumsFit(a, k);
        assert I64.InRange(Sum(a[..k + 1]));
      } else if PartialSumsFit(a, k) {
        assert !I64.InRange(Sum(a[..k + 1]));
      }
    } else {
      I64.WrapAdd(Sum(a[..k]), a[k]);
    }
  }

  /** The loop of the kernel entered with induction variable `k` and
      accumulator `s`: load `a[k]` (undefined past the end of the array),
      add it, and leave when the incremented index equals `count`. */
  function LoopSpec(a: seq<int>, count: int, k: nat, s: RVal, nsw: bool): Outcome
    decreases |a| - k
  {
    if k >= |a| then Faulted(OutOfBounds)
    else
      match AddValues(s, IntV(a[k]), nsw)
      case None => Faulted(Malformed)
      case Some(s') => if k + 1 == count then Returned(s', k + 1) else LoopSpec(a, count, k + 1, s', nsw)
  }

  /** The kernel: 0 without touching the array when `count == 0`, the loop
      from `i = 0, sum = 0` otherwise. */
  function KernelSpec(a: seq<int>, count: int, nsw: bool): Outcome {
    if count == 0 then Returned(IntV(0), 0) else LoopSpec(a, count, 0, IntV(0), nsw)
  }

  /** One unfolding of the loop: past the end of the array it faults;
      otherwise it returns the new accumulator when `k + 1 == count` and
      goes on from `k + 1` when not. */
  lemma LoopSpecUnfold(a: seq<int>, count: int, k: nat, s: RVal, nsw: bool)
    requires s.IntV? || s.PoisonV?
    ensures k >= |a| ==> LoopSpec(a, count, k, s, nsw) == Faulted(OutOfBounds)
    ensures k < |a| ==> AddValues(s, IntV(a[k]), nsw).Some?
    ensures k < |a| && k + 1 == count ==>
              LoopSpec(a, count, k, s, nsw) == Returned(AddValues(s, IntV(a[k]), nsw).value, k + 1)
    ensures k < |a| && k + 1 != count ==>
              LoopSpec(a, count, k, s, nsw) == LoopSpec(a, count, k + 1, AddValues(s, IntV(a[k]), nsw).value, nsw)
  {
  }

  lemma {:induction false} LoopReachesCount(a: seq<int>, count: int, k: nat, nsw: bool)
    requires k < count <= |a|
    ensures LoopSpec(a, count, k, Acc(a, k, nsw), nsw) == Returned(Acc(a, count, nsw), count)
    decreases count - k
  {
    AccStep(a, k, nsw);
    if k + 1 < count {
      LoopReachesCount(a, count, k + 1, nsw);
    }
  }

  lemma {:induction false} LoopRunsOffEnd(a: seq<int>, count: int, k: nat, s: RVal, nsw: bool)
    requires count <= k || count > |a|
    requires s.IntV? || s.PoisonV?
    ensures LoopSpec(a, count, k, s, nsw) == Faulted(OutOfBounds)
    decreases |a| - k
  {
    if k < |a| {
      var s' := AddValues(s, IntV(a[k]), nsw);
      assert s'.Some? && (s'.value.IntV? || s'.value.PoisonV?);
      LoopRunsOffEnd(a, count, k + 1, s'.value, nsw);
    }
  }

  /** For `0 <= count <= |a|` the kernel returns the accumulated sum of
      `a[..count]` and reads exactly `count` elements. */
  lemma KernelSpecSum(a: seq<int>, count: int, nsw: bool)
    requires 0 <= count <= |a|
    ensures KernelSpec(a, count, nsw) == Returned(Acc(a, count, nsw), count)
  {
    assert a[..0] == [];
    if count > 0 {
      LoopReachesCount(a, count, 0, nsw);
    }
  }

  /** A negative `count`, or one past the array, never meets the exit test
      `i + 1 == count`: the loop reads past the end of the array. */
  lemma KernelSpecOutOfRange(a: seq<int>, count: int, nsw: bool)
    requires count < 0 || count > |a|
    ensures KernelSpec(a, count, nsw) == Faulted(OutOfBounds)
  {
    LoopRunsOffEnd(a, count, 0, IntV(0), nsw);
  }

  // ---------------------------------------------------------------------
  // The data `main` passes: an arithmetic sequence starting at 0

  lemma {:induction false} IotaSum(a: seq<int>, n: nat)
    requires n <= |a| && forall k :: 0 <= k < n ==> a[k] == k
    ensures 2 * Sum(a[..n]) == n * (n - 1)
  {
    if n > 0 {
      IotaSum(a, n - 1);
      SumPrefixStep(a, n - 1);
    }
  }

  lemma {:induction false} IotaBounded(a: seq<int>, n: nat)
    requires n <= |a| && n <= 0x8000_0000 && forall k :: 0 <= k < n ==> a[k] == k
    ensures 0 <= Sum(a[..n]) <= n * 0x8000_0000
  {
    if n > 0 {
      IotaBounded(a, n - 1);
      SumPrefixStep(a, n - 1);
    }
  }

  /** For up to 2^31 elements of the sequence 0, 1, 2, ... no running sum
      overflows, and the sum is n(n-1)/2. */
  lemma IotaFits(a: seq<int>, n: nat)
    requires n <= |a| && n <= 0x8000_0000 && forall k :: 0 <= k < n ==> a[k] == k
    ensures PartialSumsFit(a, n)
    ensures Sum(a[..n]) == n * (n - 1) / 2
  {
    forall j | 1 <= j <= n
      ensures I64.InRange(Sum(a[..j]))
    {
      IotaBounded(a, j);
    }
    IotaSum(a, n);
  }
}
