/**
 * The list computations shared by the two Python statistics routines
 * (logger/tools/run_benchmark_report.py `_analyze`, logger/tools/logger.py `calculate_statistics`):
 * `list.sort()`, `sum`, `min`, `max`, the even/odd median and the count of samples above a bound.
 * Round-trip times are whole milliseconds (`t_recv - t_send` of two integer timestamps).
 */
module SampleStats {

  predicate Sorted(s: seq<int>) {
    forall i, j :: 0 <= i <= j < |s| ==> s[i] <= s[j]
  }

  /** Inserting `x` into a sorted list keeps it sorted and adds exactly `x`. */
  function Insert(x: int, s: seq<int>): (r: seq<int>)
    requires Sorted(s)
    ensures Sorted(r)
    ensures multiset(r) == multiset(s) + multiset{x}
    ensures |r| == |s| + 1
    ensures r[0] == x || (s != [] && r[0] == s[0])
  {
    if s == [] || x <= s[0] then [x] + s
    else
      var tail := Insert(x, s[1..]);
      assert s == [s[0]] + s[1..];
      assert s[0] <= tail[0];
      [s[0]] + tail
  }

  /** Python's `list.sort()` on integers: an ascending permutation of the input. */
  function Sort(s: seq<int>): (r: seq<int>)
    ensures Sorted(r)
    ensures multiset(r) == multiset(s)
    ensures |r| == |s|
  {
    if s == [] then []
    else
      assert s == [s[0]] + s[1..];
      Insert(s[0], Sort(s[1..]))
  }

  function Sum(s: seq<int>): int {
    if s == [] then 0 else s[0] + Sum(s[1..])
  }

  /** `sum(s) / len(s)` */
  function Mean(s: seq<int>): real
    requires |s| > 0
  {
    Sum(s) as real / |s| as real
  }

  /** `min(s)` */
  function SeqMin(s: seq<int>): (m: int)
    requires |s| > 0
    ensures m in s
    ensures forall k :: 0 <= k < |s| ==> m <= s[k]
  {
    if |s| == 1 then s[0]
    else
      var rest := SeqMin(s[1..]);
      assert forall k :: 1 <= k < |s| ==> s[k] == s[1..][k - 1];
      if s[0] <= rest then s[0] else rest
  }

  /** `max(s)` */
  function SeqMax(s: seq<int>): (m: int)
    requires |s| > 0
    ensures m in s
    ensures forall k :: 0 <= k < |s| ==> s[k] <= m
  {
    if |s| == 1 then s[0]
    else
      var rest := SeqMax(s[1..]);
      assert forall k :: 1 <= k < |s| ==> s[k] == s[1..][k - 1];
      if s[0] >= rest then s[0] else rest
  }

  /** `rtts[n // 2] if n % 2 == 1 else (rtts[n//2 - 1] + rtts[n//2]) / 2` on the sorted samples:
      a value between the two middle samples, and the middle sample itself when `n` is odd. */
  function Median(s: seq<int>): (m: real)
    requires |s| > 0 && Sorted(s)
    ensures s[(|s| - 1) / 2] as real <= m <= s[|s| / 2] as real
    ensures |s| % 2 == 1 ==> m == s[|s| / 2] as real
    ensures |s| % 2 == 0 ==> m - s[|s| / 2 - 1] as real == s[|s| / 2] as real - m
  {
    var n := |s|;
    if n % 2 == 1 then s[n / 2] as real
    else (s[n / 2 - 1] + s[n / 2]) as real / 2.0
  }

  /** `sum(1 for r in s if r > bound)` */
  function CountAbove(s: seq<int>, bound: real): (c: nat)
    ensures c <= |s|
  {
    if s == [] then 0
    else (if s[0] as real > bound then 1 else 0) + CountAbove(s[1..], bound)
  }

  /** When every sample is above the bound, all of them are counted. */
  lemma {:induction false} CountAboveAll(s: seq<int>, bound: real)
    requires forall k :: 0 <= k < |s| ==> s[k] as real > bound
    ensures CountAbove(s, bound) == |s|
  {
    if s != [] {
      CountAboveAll(s[1..], bound);
    }
  }

  /** On sorted samples the counted ones are exactly the top `CountAbove` samples: everything
      before them is at most the bound, everything from them on is above it. */
  lemma {:induction false} CountAboveIsTopSuffix(s: seq<int>, bound: real)
    requires Sorted(s)
    ensures var c := CountAbove(s, bound);
      (forall k :: 0 <= k < |s| - c ==> s[k] as real <= bound) &&
      (forall k :: |s| - c <= k < |s| ==> s[k] as real > bound)
  {
    if s != [] {
      if s[0] as real > bound {
        CountAboveAll(s, bound);
      } else {
        CountAboveIsTopSuffix(s[1..], bound);
        var c := CountAbove(s, bound);
        assert c == CountAbove(s[1..], bound);
        forall k | 1 <= k < |s|
          ensures s[k] == s[1..][k - 1]
        {
        }
      }
    }
  }
}
