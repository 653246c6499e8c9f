/** The valuation engine: five sub-scores drawn from an MOT history, their
    weighted overall score, the immediate-repair estimate for the latest
    test, the purchase recommendation and the lists of risk and positive
    factors, all gathered into one valuation report. Scores are exact
    rationals; the one-decimal rounding of the report is not modelled. */
module ValuationEngine {
  import opened MotData
  import opened Seqs
  import opened Text
  import opened RepairCosts

  // ---------------------------------------------------------------------
  // Weights and the overall score

  const MotHistoryWeight: real := 0.25
  const RecentFailuresWeight: real := 0.30
  const DangerousDefectsWeight: real := 0.20
  const MileageConsistencyWeight: real := 0.15
  const AgeFactorWeight: real := 0.10

  datatype Scores = Scores(
    motHistory: real,
    recentFailures: real,
    dangerousDefects: real,
    mileageConsistency: real,
    ageFactor: real)

  predicate Percentage(x: real) { 0.0 <= x <= 100.0 }

  predicate AllPercentages(s: Scores)
  {
    && Percentage(s.motHistory) && Percentage(s.recentFailures) && Percentage(s.dangerousDefects)
    && Percentage(s.mileageConsistency) && Percentage(s.ageFactor)
  }

  function OverallScore(s: Scores): real
  {
    s.motHistory * MotHistoryWeight
    + s.recentFailures * RecentFailuresWeight
    + s.dangerousDefects * DangerousDefectsWeight
    + s.mileageConsistency * MileageConsistencyWeight
    + s.ageFactor * AgeFactorWeight
  }

  /** The weights add up to one, so the overall score is a weighted mean:
      it lies between the smallest and the largest sub-score, and within
      [0, 100] when every sub-score does. */
  lemma OverallScoreIsMean(s: Scores, lo: real, hi: real)
    requires lo <= s.motHistory <= hi && lo <= s.recentFailures <= hi && lo <= s.dangerousDefects <= hi
    requires lo <= s.mileageConsistency <= hi && lo <= s.ageFactor <= hi
    ensures MotHistoryWeight + RecentFailuresWeight + DangerousDefectsWeight
            + MileageConsistencyWeight + AgeFactorWeight == 1.0
    ensures lo <= OverallScore(s) <= hi
  {
  }

  lemma OverallScoreRange(s: Scores)
    requires AllPercentages(s)
    ensures Percentage(OverallScore(s))
  {
    OverallScoreIsMean(s, 0.0, 100.0);
  }

  // ---------------------------------------------------------------------
  // Test and defect classifications

  predicate IsPassedTest(t: MotTest) { HasResult(t, "PASSED") }
  predicate IsFailedTest(t: MotTest) { HasResult(t, "FAILED") }

  /** Defect types counted as failures in the recent-failures score. */
  predicate IsSerious(d: Defect) { d.kind == "FAIL" || d.kind == "MAJOR" || d.kind == "DANGEROUS" }

  predicate IsDangerousDefect(d: Defect) { d.dangerous || d.kind == "DANGEROUS" }

  /** Defect types included in the immediate-repair estimate. */
  predicate IsImmediate(d: Defect)
  {
    d.kind == "FAIL" || d.kind == "MAJOR" || d.kind == "DANGEROUS" || d.kind == "ADVISORY" || d.kind == "MINOR"
  }

  predicate IsMajorOrFail(d: Defect) { d.kind == "MAJOR" || d.kind == "FAIL" }

  predicate IsMinorAdvisory(d: Defect) { d.kind == "ADVISORY" || d.kind == "MINOR" }

  predicate MentionsCorrosion(d: Defect) { Contains(Lower(d.text), "corrosion") }

  predicate HasCorrosion(t: MotTest)
  {
    exists k :: 0 <= k < |t.defects| && MentionsCorrosion(t.defects[k])
  }

  function SeriousCount(t: MotTest): int { |Filter(t.defects, IsSerious)| }
  function DangerCount(t: MotTest): int { |Filter(t.defects, IsDangerousDefect)| }

  // ---------------------------------------------------------------------
  // History score

  /** 50 with fewer than two tests, otherwise the percentage of tests
      passed. */
  function HistoryScore(tests: seq<MotTest>): (r: real)
    ensures Percentage(r)
    ensures |tests| < 2 ==> r == 50.0
  {
    if |tests| < 2 then 50.0
    else
      var passes := |Filter(tests, IsPassedTest)|;
      PercentOf(passes, |tests|);
      (passes as real / |tests| as real) * 100.0
  }

  lemma PercentOf(part: nat, whole: nat)
    requires 0 < whole && part <= whole
    ensures 0.0 <= (part as real / whole as real) * 100.0 <= 100.0
    ensures (part as real / whole as real) * 100.0 == 100.0 <==> part == whole
    ensures (part as real / whole as real) * 100.0 == 0.0 <==> part == 0
  {
    var p, w := part as real, whole as real;
    QuotientBounds(p, w);
  }

  /** The quotient of a part by its whole lies in [0, 1], and is 1 exactly
      for the whole and 0 exactly for nothing. */
  lemma QuotientBounds(p: real, w: real)
    requires 0.0 < w && 0.0 <= p <= w
    ensures 0.0 <= p / w <= 1.0
    ensures p / w == 1.0 <==> p == w
    ensures p / w == 0.0 <==> p == 0.0
  {
    var q := p / w;
    assert q * w == p;
    assert (1.0 - q) * w == w - p;
  }

  /** With two tests or more, the history score is 100 exactly when every
      test passed and 0 exactly when none did. */
  lemma HistoryScoreExtremes(tests: seq<MotTest>)
    requires |tests| >= 2
    ensures HistoryScore(tests) == 100.0 <==> forall i :: 0 <= i < |tests| ==> IsPassedTest(tests[i])
    ensures HistoryScore(tests) == 0.0 <==> forall i :: 0 <= i < |tests| ==> !IsPassedTest(tests[i])
  {
    var passes := |Filter(tests, IsPassedTest)|;
    PercentOf(passes, |tests|);
    FilterKeepsAll(tests, IsPassedTest);
    FilterKeepsNone(tests, IsPassedTest);
  }

  // ---------------------------------------------------------------------
  // Recent failures score

  function FailureBand(failures: int): (r: real)
  {
    if failures == 0 then 100.0
    else if failures <= 2 then 80.0
    else if failures <= 5 then 60.0
    else if failures <= 10 then 40.0
    else 20.0
  }

  /** More failures never raise the score, and the score stays in
      [20, 100]. */
  lemma FailureBandNonIncreasing(n: nat, m: nat)
    requires n <= m
    ensures 20.0 <= FailureBand(m) <= FailureBand(n) <= 100.0
  {
  }

  /** The number of serious defects in the three most recent tests. */
  function RecentSeriousCount(tests: seq<MotTest>): int
  {
    SumOf(Take(tests, 3), SeriousCount)
  }

  function RecentFailuresScoreOf(tests: seq<MotTest>): real
  {
    if tests == [] then 50.0 else FailureBand(RecentSeriousCount(tests))
  }

  method RecentFailuresScore(tests: seq<MotTest>) returns (r: real)
    ensures r == RecentFailuresScoreOf(tests)
    ensures 20.0 <= r <= 100.0
  {
    var recentTests := Take(tests, 3);
    if recentTests == [] {
      return 50.0;
    }
    var totalFailures := 0;
    for i := 0 to |recentTests|
      invariant totalFailures == SumOf(recentTests[..i], SeriousCount)
    {
      var failures := Filter(recentTests[i].defects, IsSerious);
      assert recentTests[..i + 1][..i] == recentTests[..i];
      totalFailures := totalFailures + |failures|;
    }
    assert recentTests[..|recentTests|] == recentTests;
    r := FailureBand(totalFailures);
  }

  // ---------------------------------------------------------------------
  // Dangerous defects score

  function DangerBand(dangerous: int): (r: real)
  {
    if dangerous == 0 then 100.0
    else if dangerous == 1 then 70.0
    else if dangerous == 2 then 40.0
    else 10.0
  }

  lemma DangerBandNonIncreasing(n: nat, m: nat)
    requires n <= m
    ensures 10.0 <= DangerBand(m) <= DangerBand(n) <= 100.0
  {
  }

  function RecentDangerCount(tests: seq<MotTest>): int
  {
    SumOf(Take(tests, 3), DangerCount)
  }

  method DangerousDefectsScore(tests: seq<MotTest>) returns (r: real)
    ensures r == DangerBand(RecentDangerCount(tests))
  {
    var recentTests := Take(tests, 3);
    var dangerousCount := 0;
    for i := 0 to |recentTests|
      invariant dangerousCount == SumOf(recentTests[..i], DangerCount)
    {
      var defects := recentTests[i].defects;
      ghost var before := dangerousCount;
      for j := 0 to |defects|
        invariant dangerousCount == before + |Filter(defects[..j], IsDangerousDefect)|
      {
        assert defects[..j + 1][..j] == defects[..j];
        if defects[j].dangerous || defects[j].kind == "DANGEROUS" {
          dangerousCount := dangerousCount + 1;
        }
      }
      assert defects[..|defects|] == defects;
      assert recentTests[..i + 1][..i] == recentTests[..i];
    }
    assert recentTests[..|recentTests|] == recentTests;
    r := DangerBand(dangerousCount);
  }

  // ---------------------------------------------------------------------
  // Mileage score

  /** A test that carries both an odometer reading and a completion date. */
  datatype Reading = Reading(mileage: int, date: string)

  /** The readings of the tests that have both, most recent first. */
  function Readings(tests: seq<MotTest>): (r: seq<Reading>)
    ensures |r| <= |tests|
  {
    if tests == [] then []
    else
      var t := tests[|tests| - 1];
      Readings(tests[..|tests| - 1]) +
        (if TruthyNumber(t.odometerValue) && TruthyText(t.completedDate)
         then [Reading(t.odometerValue.value, t.completedDate.value)] else [])
  }

  /** Plain projections: the mileages and the dates of the readings. */
  function Mileages(rs: seq<Reading>): (r: seq<int>)
    ensures |r| == |rs| && forall k :: 0 <= k < |rs| ==> r[k] == rs[k].mileage
  {
    seq(|rs|, k requires 0 <= k < |rs| => rs[k].mileage)
  }

  function Dates(rs: seq<Reading>): (r: seq<string>)
    ensures |r| == |rs| && forall k :: 0 <= k < |rs| ==> r[k] == rs[k].date
  {
    seq(|rs|, k requires 0 <= k < |rs| => rs[k].date)
  }

  /** Some reading is lower than the next, older, one. */
  predicate RollsBack(mileages: seq<int>)
  {
    exists i :: 0 <= i < |mileages| - 1 && mileages[i] < mileages[i + 1]
  }

  function MileageBand(annualMileage: real): (r: real)
  {
    if annualMileage < 5000.0 then 90.0
    else if annualMileage < 12000.0 then 100.0
    else if annualMileage < 20000.0 then 70.0
    else 50.0
  }

  /** The mileage score. `yearsBetween(first, last)` is the time from the
      date `first` to the date `last` in years, or `None` when a date does
      not parse. */
  function MileageScoreOf(tests: seq<MotTest>, yearsBetween: (string, string) -> Option<real>): (r: real)
  {
    var mileages, dates := Mileages(Readings(tests)), Dates(Readings(tests));
    if |mileages| < 2 then 50.0
    else if RollsBack(mileages) then 0.0
    else match yearsBetween(dates[|dates| - 1], dates[0])
      case Some(years) =>
        if years > 0.0 then MileageBand((mileages[0] - mileages[|mileages| - 1]) as real / years) else 75.0
      case None => 75.0
  }

  method MileageScore(tests: seq<MotTest>, yearsBetween: (string, string) -> Option<real>) returns (r: real)
    ensures r == MileageScoreOf(tests, yearsBetween)
  {
    var mileages, dates := CollectReadings(tests);
    if |mileages| < 2 {
      return 50.0;
    }
    var rollsBack := FindRollback(mileages);
    if rollsBack {
      return 0.0;
    }
    match yearsBetween(dates[|dates| - 1], dates[0])
    case Some(years) =>
      if years > 0.0 {
        var annualMileage := (mileages[0] - mileages[|mileages| - 1]) as real / years;
        if annualMileage < 5000.0 {
          return 90.0;
        } else if annualMileage < 12000.0 {
          return 100.0;
        } else if annualMileage < 20000.0 {
          return 70.0;
        } else {
          return 50.0;
        }
      }
      return 75.0;
    case None =>
      return 75.0;
  }

  /** The first loop of the mileage score: the mileage and the date of
      every test that has both, in order. */
  method CollectReadings(tests: seq<MotTest>) returns (mileages: seq<int>, dates: seq<string>)
    ensures mileages == Mileages(Readings(tests))
    ensures dates == Dates(Readings(tests))
  {
    mileages, dates := [], [];
    for i := 0 to |tests|
      invariant mileages == Mileages(Readings(tests[..i]))
      invariant dates == Dates(Readings(tests[..i]))
    {
      var test := tests[i];
      assert tests[..i + 1][..i] == tests[..i];
      if TruthyNumber(test.odometerValue) && TruthyText(test.completedDate) {
        mileages := mileages + [test.odometerValue.value];
        dates := dates + [test.completedDate.value];
      }
    }
    assert tests[..|tests|] == tests;
  }

  /** The second loop of the mileage score: is some reading lower than
      the next, older, one? */
  method FindRollback(mileages: seq<int>) returns (rollsBack: bool)
    ensures rollsBack <==> RollsBack(mileages)
  {
    if |mileages| < 2 {
      return false;
    }
    for i := 0 to |mileages| - 1
      invariant forall k :: 0 <= k < i ==> mileages[k] >= mileages[k + 1]
    {
      if mileages[i] < mileages[i + 1] {
        return true;
      }
    }
    return false;
  }

  /** Without a rollback the oldest reading is not above the newest. */
  lemma {:induction false} NoRollbackDescends(mileages: seq<int>)
    requires |mileages| >= 1 && !RollsBack(mileages)
    ensures mileages[|mileages| - 1] <= mileages[0]
  {
    if |mileages| > 1 {
      var init := mileages[..|mileages| - 1];
      assert !RollsBack(init) by {
        forall i | 0 <= i < |init| - 1 ensures init[i] >= init[i + 1] {
          assert init[i] == mileages[i] && init[i + 1] == mileages[i + 1];
        }
      }
      NoRollbackDescends(init);
      assert mileages[|mileages| - 2] >= mileages[|mileages| - 1];
    }
  }

  /** The mileage score is 50 with fewer than two readings and 0 after a
      rollback; a consistent history scores at least 50, whatever the
      dates; every score is one of 0, 50, 70, 75, 90 and 100. */
  lemma MileageScoreCases(tests: seq<MotTest>, yearsBetween: (string, string) -> Option<real>)
    ensures var r, mileages := MileageScoreOf(tests, yearsBetween), Mileages(Readings(tests));
      && (|mileages| < 2 ==> r == 50.0)
      && (|mileages| >= 2 && RollsBack(mileages) ==> r == 0.0)
      && (!RollsBack(mileages) ==> 50.0 <= r)
      && r in {0.0, 50.0, 70.0, 75.0, 90.0, 100.0}
  {
    var mileages := Mileages(Readings(tests));
    if |mileages| >= 2 && !RollsBack(mileages) {
      NoRollbackDescends(mileages);
    }
  }

  // ---------------------------------------------------------------------
  // Age score

  function AgeScore(tests: seq<MotTest>): (r: real)
  {
    if |tests| <= 2 then 90.0
    else if |tests| <= 5 then 80.0
    else if |tests| <= 10 then 70.0
    else 60.0
  }

  /** More tests never raise the age score, which stays in [60, 90]. */
  lemma AgeScoreNonIncreasing(a: seq<MotTest>, b: seq<MotTest>)
    requires |a| <= |b|
    ensures 60.0 <= AgeScore(b) <= AgeScore(a) <= 90.0
  {
  }

  // ---------------------------------------------------------------------
  // Immediate repairs and recent failures

  /** The latest test's defects that need repair: failures, majors,
      dangerous items, advisories and minors. */
  function ImmediateIssues(tests: seq<MotTest>): (r: seq<Defect>)
    requires tests != []
    ensures forall d :: d in r <==> d in tests[0].defects && IsImmediate(d)
  {
    FilterMembers(tests[0].defects, IsImmediate);
    Filter(tests[0].defects, IsImmediate)
  }

  method EstimateImmediateRepairs(tests: seq<MotTest>) returns (r: RepairTotals)
    requires tests != []
    ensures r.totalMinCost == SumOf(ImmediateIssues(tests), MinCostOf)
    ensures r.totalMaxCost == SumOf(ImmediateIssues(tests), MaxCostOf)
    ensures r.totalAverageCost == SumOf(ImmediateIssues(tests), AverageCostOf)
    ensures r.totalMinCost <= r.totalAverageCost <= r.totalMaxCost
    ensures r.breakdown == Breakdown(ImmediateIssues(tests))
    ensures r.dangerousItemsCount == |Filter(ImmediateIssues(tests), IsDangerous)|
  {
    var latestTest := tests[0];
    var defects := latestTest.defects;
    var immediateIssues := Filter(defects, IsImmediate);
    r := CalculateTotalRepairCosts(immediateIssues);
  }

  function RecentFailedCount(tests: seq<MotTest>): int
  {
    |Filter(Take(tests, 3), IsFailedTest)|
  }

  method CountRecentFailures(tests: seq<MotTest>) returns (count: nat)
    ensures count == RecentFailedCount(tests)
    ensures count <= 3 && count <= |tests|
  {
    var recent := Take(tests, 3);
    count := 0;
    for i := 0 to |recent|
      invariant count == |Filter(recent[..i], IsFailedTest)|
    {
      assert recent[..i + 1][..i] == recent[..i];
      if recent[i].testResult == Some("FAILED") {
        count := count + 1;
      }
    }
    assert recent[..|recent|] == recent;
  }

  // ---------------------------------------------------------------------
  // Recommendation

  datatype Verdict =
    | HighlyRecommended
    | Recommended
    | AcceptableWithCaution
    | Risky
    | NotRecommended
    | InsufficientData

  /** The category string the report carries. */
  function Tag(v: Verdict): string
  {
    match v
    case HighlyRecommended => "highly_recommended"
    case Recommended => "recommended"
    case AcceptableWithCaution => "acceptable_with_caution"
    case Risky => "risky"
    case NotRecommended => "not_recommended"
    case InsufficientData => "insufficient_data"
  }

  /** How favourable a verdict is, from 0 (not recommended) to 4. */
  function Rank(v: Verdict): int
  {
    match v
    case HighlyRecommended => 4
    case Recommended => 3
    case AcceptableWithCaution => 2
    case Risky => 1
    case NotRecommended => 0
    case InsufficientData => -1
  }

  /** A recommendation: its category and the two figures its message
      quotes, the average repair estimate and the total cost. */
  datatype Recommendation = Recommendation(category: Verdict, averageRepairs: int, totalCost: real)

  function GenerateRecommendation(overallScore: real, askingPrice: real, averageRepairs: int): (r: Recommendation)
    ensures r.totalCost == askingPrice + averageRepairs as real
    ensures r.averageRepairs == averageRepairs
    ensures r.category != InsufficientData
  {
    var totalCost := askingPrice + averageRepairs as real;
    var category :=
      if overallScore >= 80.0 && averageRepairs < 500 then HighlyRecommended
      else if overallScore >= 70.0 && averageRepairs < 1000 then Recommended
      else if overallScore >= 60.0 then AcceptableWithCaution
      else if overallScore >= 40.0 then Risky
      else NotRecommended;
    Recommendation(category, averageRepairs, totalCost)
  }

  /** A higher score never gives a worse verdict, and neither do lower
      repair costs. */
  lemma RecommendationMonotone(score1: real, score2: real, repairs1: int, repairs2: int, asking: real)
    requires score1 <= score2 && repairs2 <= repairs1
    ensures Rank(GenerateRecommendation(score1, asking, repairs1).category)
            <= Rank(GenerateRecommendation(score2, asking, repairs2).category)
  {
  }

  /** The ends of the chain: a score of 80 or more with average repairs
      under 500 is highly recommended, a score under 40 is never
      recommended, and a highly recommended vehicle always had both. */
  lemma RecommendationExtremes(score: real, asking: real, repairs: int)
    ensures (GenerateRecommendation(score, asking, repairs).category == HighlyRecommended)
              <==> (score >= 80.0 && repairs < 500)
    ensures score < 40.0 <==> GenerateRecommendation(score, asking, repairs).category == NotRecommended
    ensures GenerateRecommendation(score, asking, repairs).category == Recommended ==> score >= 70.0 && repairs < 1000
  {
  }

  // ---------------------------------------------------------------------
  // Risk factors

  /** One line of the risk list; the amounts are those its text quotes. */
  datatype RiskFactor =
    | DangerousDefects(count: nat)
    | HighRepairCosts(amount: int)
    | ModerateRepairCosts(amount: int)
    | MultipleRecentFailures
    | MajorIssues(count: nat)
    | CorrosionIssues
    | NoMajorRisks

  predicate IsCorrosionNote(f: RiskFactor) { f == CorrosionIssues }

  function CorrosionNotes(tests: seq<MotTest>): (r: seq<RiskFactor>)
  {
    if tests == [] then []
    else CorrosionNotes(tests[..|tests| - 1]) + (if HasCorrosion(tests[|tests| - 1]) then [CorrosionIssues] else [])
  }

  function DangerNote(dangerousItemsCount: nat): seq<RiskFactor>
  {
    if dangerousItemsCount > 0 then [DangerousDefects(dangerousItemsCount)] else []
  }

  function CostNote(totalAverageCost: int): seq<RiskFactor>
  {
    if totalAverageCost > 1000 then [HighRepairCosts(totalAverageCost)]
    else if totalAverageCost > 500 then [ModerateRepairCosts(totalAverageCost)]
    else []
  }

  function FailuresNote(tests: seq<MotTest>): seq<RiskFactor>
  {
    if RecentFailedCount(tests) >= 2 then [MultipleRecentFailures] else []
  }

  function MajorNote(tests: seq<MotTest>): seq<RiskFactor>
    requires tests != []
  {
    var majorCount := |Filter(tests[0].defects, IsMajorOrFail)|;
    if majorCount > 0 then [MajorIssues(majorCount)] else []
  }

  /** The risks found before the fallback line is considered. */
  function RisksFound(tests: seq<MotTest>, dangerousItemsCount: nat, totalAverageCost: int): seq<RiskFactor>
    requires tests != []
  {
    DangerNote(dangerousItemsCount) + CostNote(totalAverageCost) + FailuresNote(tests) + MajorNote(tests)
    + CorrosionNotes(Take(tests, 2))
  }

  function RiskFactorsOf(tests: seq<MotTest>, dangerousItemsCount: nat, totalAverageCost: int): (r: seq<RiskFactor>)
    requires tests != []
  {
    var found := RisksFound(tests, dangerousItemsCount, totalAverageCost);
    if found == [] then [NoMajorRisks] else found
  }

  method IdentifyRiskFactors(tests: seq<MotTest>, repairCosts: RepairTotals) returns (risks: seq<RiskFactor>)
    requires tests != []
    ensures risks == RiskFactorsOf(tests, repairCosts.dangerousItemsCount, repairCosts.totalAverageCost)
  {
    risks := [];
    if repairCosts.dangerousItemsCount > 0 {
      risks := risks + [DangerousDefects(repairCosts.dangerousItemsCount)];
    }
    assert risks == DangerNote(repairCosts.dangerousItemsCount);
    ghost var notes := risks;
    if repairCosts.totalAverageCost > 1000 {
      risks := risks + [HighRepairCosts(repairCosts.totalAverageCost)];
    } else if repairCosts.totalAverageCost > 500 {
      risks := risks + [ModerateRepairCosts(repairCosts.totalAverageCost)];
    }
    assert risks == notes + CostNote(repairCosts.totalAverageCost);
    notes := risks;
    var recentFailures := CountRecentFailures(tests);
    if recentFailures >= 2 {
      risks := risks + [MultipleRecentFailures];
    }
    assert risks == notes + FailuresNote(tests);
    notes := risks;
    var latestDefects := tests[0].defects;
    var majorCount := |Filter(latestDefects, IsMajorOrFail)|;
    if majorCount > 0 {
      risks := risks + [MajorIssues(majorCount)];
    }
    assert risks == notes + MajorNote(tests);
    risks := NoteRecentCorrosion(risks, Take(tests, 2));
    if risks == [] {
      risks := risks + [NoMajorRisks];
    }
  }

  /** The corrosion check over the two most recent tests: one note per
      test that has a defect mentioning corrosion. */
  method NoteRecentCorrosion(risks: seq<RiskFactor>, recent: seq<MotTest>) returns (risks': seq<RiskFactor>)
    ensures risks' == risks + CorrosionNotes(recent)
  {
    risks' := risks;
    for i := 0 to |recent|
      invariant risks' == risks + CorrosionNotes(recent[..i])
    {
      risks' := NoteCorrosion(risks', recent[i]);
      CorrosionNotesStep(recent, i);
    }
    assert recent[..|recent|] == recent;
  }

  /** The inner loop of the corrosion check: the note is added once, at
      the first defect of the test that mentions corrosion. */
  method NoteCorrosion(risks: seq<RiskFactor>, test: MotTest) returns (risks': seq<RiskFactor>)
    ensures risks' == risks + (if HasCorrosion(test) then [CorrosionIssues] else [])
  {
    risks' := risks;
    var defects := test.defects;
    for j := 0 to |defects|
      invariant risks' == risks
      invariant forall k :: 0 <= k < j ==> !MentionsCorrosion(defects[k])
    {
      if Contains(Lower(defects[j].text), "corrosion") {
        risks' := risks' + [CorrosionIssues];
        break;
      }
    }
  }

  lemma CorrosionNotesStep(tests: seq<MotTest>, i: int)
    requires 0 <= i < |tests|
    ensures CorrosionNotes(tests[..i + 1]) ==
              CorrosionNotes(tests[..i]) + (if HasCorrosion(tests[i]) then [CorrosionIssues] else [])
  {
    assert tests[..i + 1][..i] == tests[..i];
  }

  lemma {:induction false} CorrosionNotesCount(tests: seq<MotTest>)
    ensures |CorrosionNotes(tests)| == |Filter(tests, HasCorrosion)| <= |tests|
    ensures forall f :: f in CorrosionNotes(tests) ==> f == CorrosionIssues
  {
    if tests != [] {
      CorrosionNotesCount(tests[..|tests| - 1]);
    }
  }

  /** The risk list is never empty; the fallback line appears exactly when
      nothing else was found, and then alone; the corrosion note appears
      once for each of the two latest tests that mentions corrosion, so at
      most twice. */
  lemma RiskFactorsFacts(tests: seq<MotTest>, dangerousItemsCount: nat, totalAverageCost: int)
    requires tests != []
    ensures var r := RiskFactorsOf(tests, dangerousItemsCount, totalAverageCost);
      && r != []
      && (NoMajorRisks in r <==> r == [NoMajorRisks])
      && (r == [NoMajorRisks] <==>
            && dangerousItemsCount == 0
            && totalAverageCost <= 500
            && RecentFailedCount(tests) < 2
            && |Filter(tests[0].defects, IsMajorOrFail)| == 0
            && Filter(Take(tests, 2), HasCorrosion) == [])
      && (r != [NoMajorRisks] ==> |Filter(r, IsCorrosionNote)| == |Filter(Take(tests, 2), HasCorrosion)| <= 2)
  {
    var recent := Take(tests, 2);
    var notes := CorrosionNotes(recent);
    CorrosionNotesCount(recent);
    var head := RuleNotes(tests, dangerousItemsCount, totalAverageCost);
    RuleNotesFacts(tests, dangerousItemsCount, totalAverageCost);
    assert RisksFound(tests, dangerousItemsCount, totalAverageCost) == head + notes;
    NotesAfterHead(head, notes);
    assert notes == [] <==> Filter(recent, HasCorrosion) == [];
  }

  /** The risk lines of the four rules that precede the corrosion check. */
  function RuleNotes(tests: seq<MotTest>, dangerousItemsCount: nat, totalAverageCost: int): seq<RiskFactor>
    requires tests != []
  {
    DangerNote(dangerousItemsCount) + CostNote(totalAverageCost) + FailuresNote(tests) + MajorNote(tests)
  }

  /** The four rules add neither a corrosion note nor the fallback line,
      and add nothing exactly when none of their conditions holds. */
  lemma RuleNotesFacts(tests: seq<MotTest>, dangerousItemsCount: nat, totalAverageCost: int)
    requires tests != []
    ensures forall f :: f in RuleNotes(tests, dangerousItemsCount, totalAverageCost) ==>
              f != NoMajorRisks && f != CorrosionIssues
    ensures RuleNotes(tests, dangerousItemsCount, totalAverageCost) == [] <==>
              && dangerousItemsCount == 0
              && totalAverageCost <= 500
              && RecentFailedCount(tests) < 2
              && |Filter(tests[0].defects, IsMajorOrFail)| == 0
  {
  }

  /** The corrosion notes come last, after lines that are neither corrosion
      notes nor the fallback line. */
  lemma NotesAfterHead(head: seq<RiskFactor>, notes: seq<RiskFactor>)
    requires forall f :: f in head ==> f != NoMajorRisks && f != CorrosionIssues
    requires forall f :: f in notes ==> f == CorrosionIssues
    ensures NoMajorRisks !in head + notes
    ensures |Filter(head + notes, IsCorrosionNote)| == |notes|
  {
    FilterAppend(head, notes, IsCorrosionNote);
    assert forall i :: 0 <= i < |head| ==> head[i] in head;
    NoneKept(head, IsCorrosionNote);
    assert forall i :: 0 <= i < |notes| ==> notes[i] in notes;
    FilterKeepsAll(notes, IsCorrosionNote);
  }

  // ---------------------------------------------------------------------
  // Positive factors

  /** One line of the positives list; the counts are those its text quotes. */
  datatype PositiveFactor =
    | ExcellentCondition
    | RecentPasses(count: nat)
    | CleanLatestTest
    | OnlyMinorAdvisories(count: nat)
    | SomePositives

  function ExcellentNote(overallScore: real): seq<PositiveFactor>
  {
    if overallScore >= 80.0 then [ExcellentCondition] else []
  }

  function PassesNote(tests: seq<MotTest>): seq<PositiveFactor>
  {
    var recentPasses := |Filter(Take(tests, 3), IsPassedTest)|;
    if recentPasses >= 2 then [RecentPasses(recentPasses)] else []
  }

  /** The line about the latest test's defects: none at all, or only
      advisories and minors. */
  function LatestNote(defects: seq<Defect>): seq<PositiveFactor>
  {
    var advisoryCount := |Filter(defects, IsMinorAdvisory)|;
    if |defects| == 0 then [CleanLatestTest]
    else if advisoryCount > 0 && |defects| == advisoryCount then [OnlyMinorAdvisories(advisoryCount)]
    else []
  }

  function PositivesFound(tests: seq<MotTest>, overallScore: real): seq<PositiveFactor>
    requires tests != []
  {
    ExcellentNote(overallScore) + PassesNote(tests) + LatestNote(tests[0].defects)
  }

  function PositiveFactorsOf(tests: seq<MotTest>, overallScore: real): seq<PositiveFactor>
    requires tests != []
  {
    var found := PositivesFound(tests, overallScore);
    if found == [] then [SomePositives] else found
  }

  method IdentifyPositiveFactors(tests: seq<MotTest>, overallScore: real) returns (positives: seq<PositiveFactor>)
    requires tests != []
    ensures positives == PositiveFactorsOf(tests, overallScore)
  {
    positives := [];
    if overallScore >= 80.0 {
      positives := positives + [ExcellentCondition];
    }
    var recentPasses := |Filter(Take(tests, 3), IsPassedTest)|;
    if recentPasses >= 2 {
      positives := positives + [RecentPasses(recentPasses)];
    }
    var latestTest := tests[0];
    var defects := latestTest.defects;
    var advisoryCount := |Filter(defects, IsMinorAdvisory)|;
    if |defects| == 0 {
      positives := positives + [CleanLatestTest];
    } else if advisoryCount > 0 && |defects| == advisoryCount {
      positives := positives + [OnlyMinorAdvisories(advisoryCount)];
    }
    if positives == [] {
      positives := positives + [SomePositives];
    }
  }

  /** The positives list is never empty; the fallback line appears exactly
      when nothing else was found; the excellent-condition line appears
      exactly when the overall score is at least 80; a recent-passes line
      quotes two or three passes; "only advisories" means every defect of
      the latest test is an advisory or a minor. */
  lemma PositiveFactorsFacts(tests: seq<MotTest>, overallScore: real)
    requires tests != []
    ensures var r := PositiveFactorsOf(tests, overallScore);
      && r != []
      && (SomePositives in r <==> r == [SomePositives])
      && (ExcellentCondition in r <==> overallScore >= 80.0)
      && (forall n :: RecentPasses(n) in r ==> 2 <= n <= 3)
      && !(CleanLatestTest in r && exists n :: OnlyMinorAdvisories(n) in r)
      && (forall n :: OnlyMinorAdvisories(n) in r ==>
            n > 0 && forall d :: d in tests[0].defects ==> IsMinorAdvisory(d))
  {
    var passes := Take(tests, 3);
    assert |Filter(passes, IsPassedTest)| <= 3;
    LatestNoteFacts(tests[0].defects);
    PositiveParts(ExcellentNote(overallScore), PassesNote(tests), LatestNote(tests[0].defects),
                  tests[0].defects, overallScore >= 80.0);
  }

  lemma LatestNoteFacts(defects: seq<Defect>)
    ensures |LatestNote(defects)| <= 1
    ensures forall f :: f in LatestNote(defects) ==>
              || f == CleanLatestTest
              || (f.OnlyMinorAdvisories? && f.count > 0 && forall d :: d in defects ==> IsMinorAdvisory(d))
  {
    var advisoryCount := |Filter(defects, IsMinorAdvisory)|;
    FilterKeepsAll(defects, IsMinorAdvisory);
    if |defects| != 0 && advisoryCount > 0 && |defects| == advisoryCount {
      forall d | d in defects ensures IsMinorAdvisory(d) {
        var k :| 0 <= k < |defects| && defects[k] == d;
      }
    }
  }

  /** How the three parts of the positives list combine with the fallback
      line. */
  lemma PositiveParts(e: seq<PositiveFactor>, p: seq<PositiveFactor>, l: seq<PositiveFactor>,
                      defects: seq<Defect>, excellent: bool)
    requires e == (if excellent then [ExcellentCondition] else [])
    requires forall f :: f in p ==> f.RecentPasses? && 2 <= f.count <= 3
    requires |l| <= 1
    requires forall f :: f in l ==>
               || f == CleanLatestTest
               || (f.OnlyMinorAdvisories? && f.count > 0 && forall d :: d in defects ==> IsMinorAdvisory(d))
    ensures var r := if e + p + l == [] then [SomePositives] else e + p + l;
      && r != []
      && (SomePositives in r <==> r == [SomePositives])
      && (ExcellentCondition in r <==> excellent)
      && (forall n :: RecentPasses(n) in r ==> 2 <= n <= 3)
      && !(CleanLatestTest in r && exists n :: OnlyMinorAdvisories(n) in r)
      && (forall n :: OnlyMinorAdvisories(n) in r ==>
            n > 0 && forall d :: d in defects ==> IsMinorAdvisory(d))
  {
    var found := e + p + l;
    assert forall f :: f in found <==> f in e || f in p || f in l;
    if CleanLatestTest in found {
      assert l == [CleanLatestTest];
    }
  }

  // ---------------------------------------------------------------------
  // The valuation report

  datatype FinancialAnalysis = FinancialAnalysis(
    askingPrice: real,
    estimatedRepairs: int,
    estimatedRepairsMin: int,
    estimatedRepairsMax: int,
    totalEstimatedCost: real,
    repairBreakdown: seq<BreakdownItem>)

  /** The summary of the history; a missing date or result of the latest
      test is reported as "Unknown". */
  datatype MotSummary = MotSummary(
    totalTests: nat,
    recentFailures: nat,
    dangerousDefectsFound: nat,
    lastMotDate: string,
    lastMotResult: string)

  datatype Valuation =
    | NoHistory(score: int)
    | Assessed(
        overallScore: real,
        recommendation: Recommendation,
        scores: Scores,
        financialAnalysis: FinancialAnalysis,
        motSummary: MotSummary,
        riskFactors: seq<RiskFactor>,
        positiveFactors: seq<PositiveFactor>)

  function OrUnknown(o: Option<string>): string
  {
    match o
    case Some(s) => s
    case None => "Unknown"
  }

  /** The five sub-scores of a non-empty history. */
  function ScoresOf(tests: seq<MotTest>, yearsBetween: (string, string) -> Option<real>): (r: Scores)
    ensures AllPercentages(r)
  {
    MileageScoreCases(tests, yearsBetween);
    Scores(HistoryScore(tests), RecentFailuresScoreOf(tests), DangerBand(RecentDangerCount(tests)),
           MileageScoreOf(tests, yearsBetween), AgeScore(tests))
  }

  method CalculateValuation(tests: seq<MotTest>, askingPrice: real, yearsBetween: (string, string) -> Option<real>)
    returns (r: Valuation)
    ensures tests == [] <==> r.NoHistory?
    ensures r.NoHistory? ==> r.score == 0
    ensures r.Assessed? ==>
      && r.scores == ScoresOf(tests, yearsBetween)
      && r.overallScore == OverallScore(r.scores)
      && Percentage(r.overallScore)
      && r.financialAnalysis.estimatedRepairs == SumOf(ImmediateIssues(tests), AverageCostOf)
      && r.financialAnalysis.estimatedRepairsMin == SumOf(ImmediateIssues(tests), MinCostOf)
      && r.financialAnalysis.estimatedRepairsMax == SumOf(ImmediateIssues(tests), MaxCostOf)
      && r.financialAnalysis.repairBreakdown == Breakdown(ImmediateIssues(tests))
      && r.financialAnalysis.totalEstimatedCost == askingPrice + r.financialAnalysis.estimatedRepairs as real
      && r.recommendation == GenerateRecommendation(r.overallScore, askingPrice, r.financialAnalysis.estimatedRepairs)
      && r.motSummary == MotSummary(|tests|, RecentFailedCount(tests),
                                    |Filter(ImmediateIssues(tests), IsDangerous)|,
                                    OrUnknown(tests[0].completedDate), OrUnknown(tests[0].testResult))
      && r.riskFactors == RiskFactorsOf(tests, r.motSummary.dangerousDefectsFound, r.financialAnalysis.estimatedRepairs)
      && r.positiveFactors == PositiveFactorsOf(tests, r.overallScore)
  {
    if tests == [] {
      return NoHistory(0);
    }
    var historyScore := HistoryScore(tests);
    var failureScore := RecentFailuresScore(tests);
    var dangerScore := DangerousDefectsScore(tests);
    var mileageScore := MileageScore(tests, yearsBetween);
    var ageScore := AgeScore(tests);
    var scores := Scores(historyScore, failureScore, dangerScore, mileageScore, ageScore);
    assert scores == ScoresOf(tests, yearsBetween);
    var overallScore := OverallScore(scores);
    OverallScoreRange(scores);
    var repairCosts := EstimateImmediateRepairs(tests);
    var totalCost := askingPrice + repairCosts.totalAverageCost as real;
    var recommendation := GenerateRecommendation(overallScore, askingPrice, repairCosts.totalAverageCost);
    var recentFailures := CountRecentFailures(tests);
    var risks := IdentifyRiskFactors(tests, repairCosts);
    var positives := IdentifyPositiveFactors(tests, overallScore);
    r := Assessed(
      overallScore,
      recommendation,
      scores,
      FinancialAnalysis(askingPrice, repairCosts.totalAverageCost, repairCosts.totalMinCost,
                        repairCosts.totalMaxCost, totalCost, repairCosts.breakdown),
      MotSummary(|tests|, recentFailures, repairCosts.dangerousItemsCount,
                 OrUnknown(tests[0].completedDate), OrUnknown(tests[0].testResult)),
      risks,
      positives);
  }
}
