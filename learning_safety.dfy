/** The circuit breaker of `server/learning-safety.ts`: learning adjustments are switched off
    when the most recent feedback is poor. The feedback table is a newest-first sequence. */
module LearningSafety {
  import opened Common

  /** The two columns of a feedback row the breaker reads. */
  datatype FeedbackRecord = FeedbackRecord(overallRating: int, specificIssues: Option<map<string, bool>>)

  /** The query's `limit`. */
  const WindowSize: nat := 5
  /** Fewer rows than this leave learning on. */
  const MinWindow: nat := 3

  /** The rows the query returns from a newest-first log: the first five. */
  function RecentWindow(log: seq<FeedbackRecord>): (w: seq<FeedbackRecord>)
    ensures |w| == Min(|log|, WindowSize)
    ensures w == log[..|w|]
  {
    if |log| <= WindowSize then log else log[..WindowSize]
  }

  /** The reduce `sum + f.overallRating`. */
  function RatingSum(w: seq<FeedbackRecord>): (sum: int)
    ensures (forall i :: 0 <= i < |w| ==> 1 <= w[i].overallRating <= 5) ==> |w| <= sum <= 5 * |w|
  {
    if w == [] then 0
    else
      assert forall i :: 0 <= i < |w| - 1 ==> w[..|w| - 1][i] == w[i];
      RatingSum(w[..|w| - 1]) + w[|w| - 1].overallRating
  }

  /** `issues[key]` is set to `true`; a missing key reads as `undefined`. */
  predicate Flagged(issues: map<string, bool>, key: string) {
    key in issues && issues[key]
  }

  /** `specificIssues || {}` carries one of the three critical flags. */
  predicate HasCriticalIssue(f: FeedbackRecord) {
    var issues := if f.specificIssues.Some? then f.specificIssues.value else map[];
    Flagged(issues, "morphing") || Flagged(issues, "object_distortion") || Flagged(issues, "temporal_inconsistency")
  }

  /** The length of the `filter` for critical issues. */
  function CriticalCount(w: seq<FeedbackRecord>): (n: nat)
    ensures n <= |w|
  {
    if w == [] then 0 else CriticalCount(w[..|w| - 1]) + (if HasCriticalIssue(w[|w| - 1]) then 1 else 0)
  }

  /** `avgRating < 2.0`, multiplied out by the window length. */
  predicate LowAverage(w: seq<FeedbackRecord>) {
    RatingSum(w) < 2 * |w|
  }

  /** `criticalIssueCount / length > 0.6`, multiplied out by `5 * length`. */
  predicate MostlyCritical(w: seq<FeedbackRecord>) {
    5 * CriticalCount(w) > 3 * |w|
  }

  /** `shouldDisableLearning` over the feedback log. */
  function ShouldDisableLearning(log: seq<FeedbackRecord>): (off: bool)
    ensures off ==> |log| >= MinWindow
  {
    var w := RecentWindow(log);
    if |w| < MinWindow then false else LowAverage(w) || MostlyCritical(w)
  }

  /** `getSafeParameters`. */
  function GetSafeParameters(): (p: ParameterAdjustments)
    ensures p.guidanceAdjustment == 0 && p.stepsAdjustment == 0 && p.condAugAdjustment == 0
    ensures p.promptEnhancements == ["high quality", "professional", "detailed"]
  {
    ParameterAdjustments(0, 0, 0, ["high quality", "professional", "detailed"])
  }

  // ---------------------------------------------------------------------------
  // The integer tests against the source's arithmetic

  /** For `n > 0`, `a / n < b` exactly when `a < b * n`. */
  lemma RealQuotientBelow(a: real, n: real, b: real)
    requires n > 0.0
    ensures a / n < b <==> a < b * n
  {
    var q := a / n;
    assert q * n == a;
    assert (b - q) * n == b * n - a;
    if a < b * n {
      assert (b - q) * n > 0.0;
    } else {
      assert (b - q) * n <= 0.0;
    }
  }

  lemma QuotientBelow(a: int, n: int, k: int)
    requires n > 0
    ensures (a as real / n as real < k as real) <==> a < k * n
  {
    RealQuotientBelow(a as real, n as real, k as real);
    assert (k * n) as real == k as real * n as real;
  }

  lemma QuotientAbove(c: int, n: int)
    requires n > 0
    ensures (c as real / n as real > 0.6) <==> 5 * c > 3 * n
  {
    RealQuotientBelow(c as real, n as real, 0.6);
    var q := c as real / n as real;
    assert q * n as real == c as real;
    if q == 0.6 {
      assert 5.0 * c as real == 3.0 * n as real;
    }
  }

  /** The source's mean and fraction over exact rationals. */
  ghost predicate RealVerdict(w: seq<FeedbackRecord>)
    requires |w| > 0
  {
    RatingSum(w) as real / |w| as real < 2.0
    || CriticalCount(w) as real / |w| as real > 0.6
  }

  /** The integer verdict is the source's mean-and-fraction verdict. */
  lemma VerdictMatchesSourceArithmetic(log: seq<FeedbackRecord>)
    ensures var w := RecentWindow(log);
      ShouldDisableLearning(log) <==> |w| >= MinWindow && RealVerdict(w)
  {
    var w := RecentWindow(log);
    if |w| >= MinWindow {
      QuotientBelow(RatingSum(w), |w|, 2);
      QuotientAbove(CriticalCount(w), |w|);
    }
  }

  // ---------------------------------------------------------------------------
  // Properties of the verdict

  /** With fewer than three rows learning stays on, whatever they say. */
  lemma FewRowsKeepLearning(log: seq<FeedbackRecord>)
    requires |log| < MinWindow
    ensures !ShouldDisableLearning(log)
  {
  }

  /** Only the five newest rows count: older feedback never changes the verdict. */
  lemma OlderFeedbackIgnored(recent: seq<FeedbackRecord>, older: seq<FeedbackRecord>)
    requires |recent| >= WindowSize
    ensures ShouldDisableLearning(recent + older) == ShouldDisableLearning(recent)
  {
    assert RecentWindow(recent + older) == RecentWindow(recent);
  }

  /** A row without issue flags is never critical. */
  lemma MissingIssuesAreNotCritical(f: FeedbackRecord)
    requires f.specificIssues.None?
    ensures !HasCriticalIssue(f)
  {
  }

  /** In a full window the fraction rule fires from four critical rows on: three of five do not. */
  lemma FullWindowFractionRule(w: seq<FeedbackRecord>)
    requires |w| == WindowSize
    ensures MostlyCritical(w) <==> CriticalCount(w) >= 4
  {
  }

  /** A mean of exactly 2 does not fire the low-average rule. */
  lemma MeanOfTwoIsNotLow(w: seq<FeedbackRecord>)
    requires RatingSum(w) == 2 * |w|
    ensures !LowAverage(w)
  {
  }

  /** A verdict for a full window that has no critical rows rests on the ratings alone. */
  lemma NoCriticalRowsMeansRatingsDecide(log: seq<FeedbackRecord>)
    requires |log| >= MinWindow
    requires CriticalCount(RecentWindow(log)) == 0
    ensures ShouldDisableLearning(log) <==> LowAverage(RecentWindow(log))
  {
  }

  /** Every row of a window being critical fires the fraction rule. */
  lemma {:induction false} AllCriticalCounted(w: seq<FeedbackRecord>)
    requires forall i :: 0 <= i < |w| ==> HasCriticalIssue(w[i])
    ensures CriticalCount(w) == |w|
  {
    if w != [] {
      AllCriticalCounted(w[..|w| - 1]);
    }
  }

  /** So three or more rows that all carry a critical flag switch learning off. */
  lemma AllCriticalDisables(log: seq<FeedbackRecord>)
    requires |log| >= MinWindow
    requires forall i :: 0 <= i < |log| ==> HasCriticalIssue(log[i])
    ensures ShouldDisableLearning(log)
  {
    var w := RecentWindow(log);
    AllCriticalCounted(w);
  }
}
