/**
 * The CSV analyser (logger/tools/analyze_results.py): delivery counts and the guarded loss rate
 * over the `rtt_ms` column, the threshold verdict and the exit code. A row's `rtt_ms` is
 * `None` when the cell is empty; the distribution figures pandas computes over the non-empty
 * cells are passed in as `Metrics`.
 */
module AnalyzeResults {
  import opened Wrappers

  /** `min`, `max`, `mean`, `median`, `std` and the quantiles of the non-empty `rtt_ms` cells. */
  datatype Metrics = Metrics(
    min: real, max: real, mean: real, median: real, std: real,
    p50: real, p75: real, p90: real, p95: real, p99: real)

  /** The dict `calculate_statistics` returns; `metrics` is `None` when every figure is `None`. */
  datatype Stats = Stats(totalSent: nat, totalReceived: nat, totalLost: int, lossRate: real, metrics: Option<Metrics>)

  /** `--threshold-mean`, `--threshold-p95`, `--threshold-loss` */
  datatype Thresholds = Thresholds(mean: real, p95: real, loss: real)

  /** `df['rtt_ms'].notna().sum()` */
  function Received(rtt: seq<Option<real>>): (n: nat)
    ensures n <= |rtt|
  {
    if rtt == [] then 0 else (if rtt[0].Some? then 1 else 0) + Received(rtt[1..])
  }

  /** `lost / total * 100 if total > 0 else 0` */
  function GuardedLossRate(total: nat, lost: int): real {
    if total > 0 then lost as real / total as real * 100.0 else 0.0
  }

  /** `calculate_statistics(df)`, where `metrics` are the figures pandas gives for the samples. */
  function CalculateStatistics(rtt: seq<Option<real>>, metrics: Metrics): Stats {
    var received := Received(rtt);
    Stats(|rtt|, received, |rtt| - received, GuardedLossRate(|rtt|, |rtt| - received),
          if received > 0 then Some(metrics) else None)
  }

  /** The value `print_statistics` returns: false without figures, otherwise whether the mean, the
      95th percentile and the loss rate are each at most their threshold. */
  function Passed(st: Stats, th: Thresholds): bool {
    match st.metrics
    case None => false
    case Some(m) => m.mean <= th.mean && m.p95 <= th.p95 && st.lossRate <= th.loss
  }

  /** `sys.exit(0 if passed else 1)` */
  function ExitCode(st: Stats, th: Thresholds): (code: int)
    ensures code == 0 || code == 1
  {
    if Passed(st, th) then 0 else 1
  }

  /** Every row has a round-trip time exactly when the received count is the row count. */
  lemma {:induction false} ReceivedAll(rtt: seq<Option<real>>)
    ensures Received(rtt) == |rtt| <==> forall i :: 0 <= i < |rtt| ==> rtt[i].Some?
  {
    if rtt != [] {
      ReceivedAll(rtt[1..]);
      if forall i :: 1 <= i < |rtt| ==> rtt[i].Some? {
        assert forall i :: 0 <= i < |rtt| - 1 ==> rtt[1..][i] == rtt[i + 1];
      }
      if forall i :: 0 <= i < |rtt[1..]| ==> rtt[1..][i].Some? {
        assert forall i :: 1 <= i < |rtt| ==> rtt[i] == rtt[1..][i - 1];
      }
    }
  }

  /** No row has a round-trip time exactly when the received count is zero. */
  lemma {:induction false} ReceivedNone(rtt: seq<Option<real>>)
    ensures Received(rtt) == 0 <==> forall i :: 0 <= i < |rtt| ==> rtt[i].None?
  {
    if rtt != [] {
      ReceivedNone(rtt[1..]);
      if forall i :: 1 <= i < |rtt| ==> rtt[i].None? {
        assert forall i :: 0 <= i < |rtt| - 1 ==> rtt[1..][i] == rtt[i + 1];
      }
      if forall i :: 0 <= i < |rtt[1..]| ==> rtt[1..][i].None? {
        assert forall i :: 1 <= i < |rtt| ==> rtt[i] == rtt[1..][i - 1];
      }
    }
  }

  /** The received count of two blocks of rows is the sum of theirs. */
  lemma {:induction false} ReceivedAppend(a: seq<Option<real>>, b: seq<Option<real>>)
    ensures Received(a + b) == Received(a) + Received(b)
  {
    if a != [] {
      assert (a + b)[1..] == a[1..] + b;
      ReceivedAppend(a[1..], b);
    } else {
      assert a + b == b;
    }
  }

  /** Received and lost add up to the row count and neither is negative; the loss rate is 0 for an
      empty file and otherwise lost over total in percent, between 0 and 100. */
  lemma CountsAndLoss(rtt: seq<Option<real>>, metrics: Metrics)
    ensures var st := CalculateStatistics(rtt, metrics);
      st.totalSent == |rtt| && st.totalReceived + st.totalLost == st.totalSent && 0 <= st.totalLost &&
      (|rtt| == 0 ==> st.lossRate == 0.0) &&
      (|rtt| > 0 ==> st.lossRate == st.totalLost as real / st.totalSent as real * 100.0 &&
                     0.0 <= st.lossRate <= 100.0)
  {
    var st := CalculateStatistics(rtt, metrics);
    if |rtt| > 0 {
      var r := st.totalLost as real / st.totalSent as real;
      assert 0.0 <= r <= 1.0 by {
        assert 0.0 <= st.totalLost as real <= st.totalSent as real;
      }
    }
  }

  /** The figures are present exactly when some row has a round-trip time, and then they are
      the given ones. */
  lemma FiguresIffSamples(rtt: seq<Option<real>>, metrics: Metrics)
    ensures var st := CalculateStatistics(rtt, metrics);
      (st.metrics.None? <==> forall i :: 0 <= i < |rtt| ==> rtt[i].None?) &&
      (st.metrics.Some? ==> st.metrics.value == metrics)
  {
    ReceivedNone(rtt);
  }

  /** The run passes exactly when there are figures and the mean, the 95th percentile and the loss
      rate each reach at most their threshold (bounds included); the exit code is 0 exactly then.
      A file without any round-trip time never passes. */
  lemma VerdictAndExitCode(rtt: seq<Option<real>>, metrics: Metrics, th: Thresholds)
    ensures var st := CalculateStatistics(rtt, metrics);
      (ExitCode(st, th) == 0 <==> Passed(st, th)) &&
      (Passed(st, th) <==>
        (exists i :: 0 <= i < |rtt| && rtt[i].Some?) &&
        metrics.mean <= th.mean && metrics.p95 <= th.p95 && st.lossRate <= th.loss)
  {
    ReceivedNone(rtt);
  }

  /** An empty CSV has no figures and a 0% loss rate, and still fails with exit code 1. */
  lemma EmptyFileFails(metrics: Metrics, th: Thresholds)
    ensures var st := CalculateStatistics([], metrics);
      st == Stats(0, 0, 0, 0.0, None) && ExitCode(st, th) == 1
  {
  }
}
