/**
 * The experiment runner's analysis (logger/tools/run_experiments.py): the per-case figures and
 * status of `analyze_case`, and the overall verdict of the threshold-validation table in
 * `generate_summary`. Rows and pandas figures are as in `AnalyzeResults`.
 */
module RunExperiments {
  import opened Wrappers
  import AnalyzeResults

  const MeanLimitMs := 200.0
  const P95LimitMs := 500.0
  const LossLimitPct := 1.0

  /** The pandas figures `analyze_case` keeps. */
  datatype Figures = Figures(min: real, max: real, mean: real, median: real, std: real, p95: real, p99: real)

  /** The dict `analyze_case` returns for a CSV file that could be read. */
  datatype CaseStats = CaseStats(
    sent: nat, received: nat, lost: int, lossRate: real, figures: Option<Figures>, status: string, reason: string)

  /** `(len(df) - len(rtts)) / len(df) * 100`, unguarded as in the status test. */
  function LossPct(rows: nat, received: nat): real
    requires rows > 0
  {
    (rows - received) as real / rows as real * 100.0
  }

  /** `analyze_case` on the rows `rtt` of a case file, with the figures pandas computes. */
  function AnalyzeCase(rtt: seq<Option<real>>, figures: Figures): CaseStats {
    var received := AnalyzeResults.Received(rtt);
    if received == 0 then CaseStats(|rtt|, 0, |rtt|, 100.0, None, "FAIL", "Timeout/no-ack")
    else
      var passed := LossPct(|rtt|, received) < LossLimitPct;
      CaseStats(|rtt|, received, |rtt| - received, AnalyzeResults.GuardedLossRate(|rtt|, |rtt| - received),
                Some(figures), if passed then "PASS" else "FAIL", if passed then "" else "Loss >= 1%")
  }

  /** The Overall and reason cells of the threshold-validation table. */
  function Overall(r: CaseStats): (string, string) {
    match r.figures
    case None => ("FAIL", "Timeout/no-ack")
    case Some(f) =>
      if f.mean < MeanLimitMs && f.p95 < P95LimitMs && r.lossRate < LossLimitPct then ("PASS", "-")
      else ("FAIL", "Thresholds not met")
  }

  /** A case without any round-trip time fails as a timeout, with every row lost and a 100% loss
      rate, whatever the row count. */
  lemma NoSamplesCase(rtt: seq<Option<real>>, figures: Figures)
    requires forall i :: 0 <= i < |rtt| ==> rtt[i].None?
    ensures AnalyzeCase(rtt, figures) == CaseStats(|rtt|, 0, |rtt|, 100.0, None, "FAIL", "Timeout/no-ack")
  {
    AnalyzeResults.ReceivedNone(rtt);
  }

  /** With some round-trip time (`len(rtts) > 0`) the file has rows, received counts the
      non-empty cells, lost is the rest, and the loss rate is lost over sent in percent. */
  lemma SampledCase(rtt: seq<Option<real>>, figures: Figures)
    requires AnalyzeResults.Received(rtt) > 0
    ensures var r := AnalyzeCase(rtt, figures);
      |rtt| > 0 && r.sent == |rtt| && r.received == AnalyzeResults.Received(rtt) > 0 &&
      r.lost == |rtt| - r.received >= 0 &&
      r.lossRate == r.lost as real / r.sent as real * 100.0 && r.figures == Some(figures)
  {
    var received := AnalyzeResults.Received(rtt);
    var r := AnalyzeCase(rtt, figures);
    assert r.sent == |rtt| && r.received == received && r.lost == |rtt| - received;
    assert r.lossRate == AnalyzeResults.GuardedLossRate(|rtt|, |rtt| - received);
  }

  /** A case passes exactly when some row has a round-trip time and its loss rate is strictly
      below 1%; a case with samples that fails gives the reason "Loss >= 1%". */
  lemma CaseStatus(rtt: seq<Option<real>>, figures: Figures)
    ensures var r := AnalyzeCase(rtt, figures);
      (r.status == "PASS" <==> r.received > 0 && r.lossRate < 1.0) &&
      (r.status == "PASS" ==> r.reason == "") &&
      (r.status != "PASS" ==> r.status == "FAIL") &&
      (r.status != "PASS" && r.received > 0 ==> r.reason == "Loss >= 1%")
  {
  }

  /** The overall verdict passes exactly when there are figures and the mean is below 200 ms, the
      95th percentile below 500 ms and the loss rate below 1%, all strictly; without figures it is
      a timeout. */
  lemma OverallVerdict(r: CaseStats)
    ensures Overall(r).0 == "PASS" <==>
      r.figures.Some? && r.figures.value.mean < 200.0 && r.figures.value.p95 < 500.0 && r.lossRate < 1.0
    ensures r.figures.None? ==> Overall(r) == ("FAIL", "Timeout/no-ack")
    ensures Overall(r).0 == "PASS" ==> Overall(r).1 == "-"
    ensures r.figures.Some? && Overall(r).0 != "PASS" ==> Overall(r) == ("FAIL", "Thresholds not met")
  {
  }

  /** A case that passes overall has also passed its own loss check. */
  lemma OverallPassImpliesCasePass(rtt: seq<Option<real>>, figures: Figures)
    ensures Overall(AnalyzeCase(rtt, figures)).0 == "PASS" ==> AnalyzeCase(rtt, figures).status == "PASS"
  {
  }

  /** On the same rows the two analysers agree on the counts, and on the loss rate whenever the
      file has rows; for an empty file the analyser reports 0% and the runner 100%. */
  lemma AnalysersAgree(rtt: seq<Option<real>>, figures: Figures, metrics: AnalyzeResults.Metrics)
    ensures var a := AnalyzeResults.CalculateStatistics(rtt, metrics);
      var r := AnalyzeCase(rtt, figures);
      a.totalSent == r.sent && a.totalReceived == r.received && a.totalLost == r.lost &&
      (|rtt| > 0 ==> a.lossRate == r.lossRate) &&
      (|rtt| == 0 ==> a.lossRate == 0.0 && r.lossRate == 100.0)
  {
    var received := AnalyzeResults.Received(rtt);
    if received == 0 && |rtt| > 0 {
      assert (|rtt| - received) as real / |rtt| as real == 1.0;
    }
  }

  /** A loss of exactly 1% meets the analyser's `<=` threshold of 1 but fails the runner's strict
      `< 1`: with 100 rows and one missing ack the analyser passes the run (exit code 0) when the
      mean and 95th percentile are within their thresholds, while the runner fails the case. */
  lemma OnePercentBoundary(metrics: AnalyzeResults.Metrics, figures: Figures)
    ensures var rtt := [None] + seq(99, _ => Some(1.0));
      var a := AnalyzeResults.CalculateStatistics(rtt, metrics);
      a.lossRate == 1.0 &&
      AnalyzeResults.ExitCode(a, AnalyzeResults.Thresholds(metrics.mean, metrics.p95, 1.0)) == 0 &&
      AnalyzeCase(rtt, figures).status == "FAIL" &&
      Overall(AnalyzeCase(rtt, figures)).0 == "FAIL"
  {
    var tail: seq<Option<real>> := seq(99, _ => Some(1.0));
    var rtt := [None] + tail;
    AnalyzeResults.ReceivedAll(tail);
    var lost: seq<Option<real>> := [None];
    assert AnalyzeResults.Received(lost) == 0 by {
      assert lost[1..] == [];
    }
    AnalyzeResults.ReceivedAppend(lost, tail);
    assert AnalyzeResults.Received(rtt) == 99;
  }
}
