/** The decisions the browser client makes when it turns the API's
    responses into a report: which defects are listed as failures and
    which as advisories, the badge of a test result, the label of a
    recommendation, the defaults for missing financial figures, the score
    rows, and the timeline of past tests. The HTML itself is not modelled;
    each report is a value holding what the page shows. */
module Report {
  import opened MotData
  import opened Seqs
  import opened Text
  import opened ScoreLabels
  import VE = ValuationEngine

  // ---------------------------------------------------------------------
  // Reasons for rejection

  /** A defect listed under "Failures". */
  predicate IsFailureItem(d: Defect)
  {
    d.kind == "FAIL" || d.kind == "PRS" || d.kind == "MAJOR" || d.kind == "DANGEROUS"
  }

  /** A defect listed under "Advisories". */
  predicate IsAdvisoryItem(d: Defect)
  {
    d.kind == "ADVISORY" || d.kind == "USER ENTERED" || d.kind == "MINOR"
  }

  /** A defect of any other type, which is not listed at all. */
  predicate IsUnlistedItem(d: Defect)
  {
    !IsFailureItem(d) && !IsAdvisoryItem(d)
  }

  /** The reasons-for-rejection block of a test: nothing when the list is
      empty, a "no advisories or failures" note when no item has a listed
      type, otherwise the two lists in their original order. */
  datatype RfrSection =
    | NoItems
    | NoIssues
    | Issues(failures: seq<Defect>, advisories: seq<Defect>)

  function RfrSectionOf(items: seq<Defect>): RfrSection
  {
    if |items| == 0 then NoItems
    else
      var failures := Filter(items, IsFailureItem);
      var advisories := Filter(items, IsAdvisoryItem);
      if |failures| == 0 && |advisories| == 0 then NoIssues
      else Issues(failures, advisories)
  }

  /** The block is empty exactly for an empty list, and the "no issues"
      note appears exactly when the list is not empty but no item has a
      listed type. */
  lemma RfrSectionCases(items: seq<Defect>)
    ensures RfrSectionOf(items) == NoItems <==> items == []
    ensures RfrSectionOf(items) == NoIssues <==>
              items != [] && forall i :: 0 <= i < |items| ==> IsUnlistedItem(items[i])
  {
    FilterKeepsNone(items, IsFailureItem);
    FilterKeepsNone(items, IsAdvisoryItem);
  }

  /** The two lists keep exactly the items of their types, in order; no
      item is in both; items of other types are dropped, so together the
      lists hold no more than the input. */
  lemma RfrPartition(items: seq<Defect>)
    requires RfrSectionOf(items).Issues?
    ensures var s := RfrSectionOf(items);
      && (forall d :: d in s.failures <==> d in items && IsFailureItem(d))
      && (forall d :: d in s.advisories <==> d in items && IsAdvisoryItem(d))
      && (forall d :: !(d in s.failures && d in s.advisories))
      && IsSubsequence(s.failures, items)
      && IsSubsequence(s.advisories, items)
      && |s.failures| + |s.advisories| + |Filter(items, IsUnlistedItem)| == |items|
      && (|s.failures| > 0 || |s.advisories| > 0)
  {
    FilterMembers(items, IsFailureItem);
    FilterMembers(items, IsAdvisoryItem);
    FilterIsSubsequence(items, IsFailureItem);
    FilterIsSubsequence(items, IsAdvisoryItem);
    FilterPartitionCount(items, IsFailureItem, IsAdvisoryItem, IsUnlistedItem);
  }

  // ---------------------------------------------------------------------
  // Badges and recommendation labels

  datatype BadgeClass = Success | Danger | Warning

  /** The badge of a test result. */
  function ResultBadgeClass(result: Option<string>): (r: BadgeClass)
    ensures r == Success <==> result == Some("PASSED")
    ensures r == Danger <==> result == Some("FAILED")
  {
    if result == Some("PASSED") then Success
    else if result == Some("FAILED") then Danger
    else Warning
  }

  datatype RecommendationDetails = Details(caption: string, badge: BadgeClass)

  /** The client's table of recommendation tags, by its own keys. */
  function KnownDetails(tag: string): Option<RecommendationDetails>
  {
    if tag == "highly_recommended" then Some(Details("Highly Recommended", Success))
    else if tag == "recommended" then Some(Details("Recommended", Success))
    else if tag == "acceptable_with_caution" then Some(Details("Acceptable with Caution", Warning))
    else if tag == "risky" then Some(Details("Risky Purchase", Warning))
    else if tag == "not_recommended" then Some(Details("Not Recommended", Danger))
    else if tag == "insufficient_data" then Some(Details("Insufficient Data", Warning))
    else None
  }

  const DefaultDetails := Details("Insufficient Data", Warning)

  /** The corrected lookup: a tag outside the table, or a missing one,
      gets the insufficient-data entry. */
  function RecommendationDetailsOf(recommendation: Option<string>): RecommendationDetails
  {
    if recommendation.Some? && KnownDetails(recommendation.value).Some? then KnownDetails(recommendation.value).value
    else DefaultDetails
  }

  /** The label and badge the client shows for each verdict the backend
      can give. */
  function VerdictDetails(v: VE.Verdict): RecommendationDetails
  {
    match v
    case HighlyRecommended => Details("Highly Recommended", Success)
    case Recommended => Details("Recommended", Success)
    case AcceptableWithCaution => Details("Acceptable with Caution", Warning)
    case Risky => Details("Risky Purchase", Warning)
    case NotRecommended => Details("Not Recommended", Danger)
    case InsufficientData => Details("Insufficient Data", Warning)
  }

  /** Every tag the backend sends is found under its own verdict, and
      anything else falls back to the insufficient-data entry. */
  lemma RecommendationDetailsOfTags(recommendation: Option<string>)
    ensures forall v :: RecommendationDetailsOf(Some(VE.Tag(v))) == VerdictDetails(v)
    ensures (recommendation.None? || forall v :: recommendation.value != VE.Tag(v)) ==>
              RecommendationDetailsOf(recommendation) == VerdictDetails(VE.InsufficientData)
  {
    if recommendation.Some? && KnownDetails(recommendation.value).Some? {
      var t := recommendation.value;
      if t == "highly_recommended" { assert t == VE.Tag(VE.HighlyRecommended); }
      else if t == "recommended" { assert t == VE.Tag(VE.Recommended); }
      else if t == "acceptable_with_caution" { assert t == VE.Tag(VE.AcceptableWithCaution); }
      else if t == "risky" { assert t == VE.Tag(VE.Risky); }
      else if t == "not_recommended" { assert t == VE.Tag(VE.NotRecommended); }
      else { assert t == VE.Tag(VE.InsufficientData); }
    }
  }

  /** The badge follows the verdict's rank: green for the two best
      verdicts, red only for "not recommended". */
  lemma VerdictBadges(v: VE.Verdict)
    ensures VerdictDetails(v).badge == Success <==> VE.Rank(v) >= 3
    ensures VerdictDetails(v).badge == Danger <==> v == VE.NotRecommended
  {
  }

  /** What the lookup as written yields: an entry of the table, or the
      member a plain JavaScript object inherits under that name. */
  datatype LookupResult = Found(details: RecommendationDetails) | InheritedMember(name: string)

  /** Names every plain JavaScript object answers to through its
      prototype; each is a function or an object, so it is truthy. */
  const PrototypeNames: set<string> := {
    "constructor", "toString", "toLocaleString", "valueOf", "hasOwnProperty",
    "isPrototypeOf", "propertyIsEnumerable", "__proto__", "__defineGetter__",
    "__defineSetter__", "__lookupGetter__", "__lookupSetter__"}

  /** `details[recommendation] || details['insufficient_data']` on an
      object literal. */
  function RecommendationDetailsAsWritten(recommendation: Option<string>): (r: LookupResult)
    ensures r.InheritedMember? ==> recommendation.Some? && recommendation.value in PrototypeNames
  {
    if recommendation.Some? && KnownDetails(recommendation.value).Some? then Found(KnownDetails(recommendation.value).value)
    else if recommendation.Some? && recommendation.value in PrototypeNames then InheritedMember(recommendation.value)
    else Found(DefaultDetails)
  }

  /** "toString" is not a recommendation tag, yet the lookup as written
      returns the inherited method instead of the insufficient-data entry. */
  lemma InheritedNameEscapesDefault()
    ensures RecommendationDetailsAsWritten(Some("toString")) == InheritedMember("toString")
    ensures RecommendationDetailsOf(Some("toString")) == DefaultDetails
  {
    assert "toString" in PrototypeNames;
  }

  /** Away from the inherited names, the lookup as written agrees with the
      corrected one. */
  lemma LookupAgreesOffPrototype(recommendation: Option<string>)
    requires recommendation.None? || recommendation.value !in PrototypeNames
    ensures RecommendationDetailsAsWritten(recommendation) == Found(RecommendationDetailsOf(recommendation))
  {
  }

  // ---------------------------------------------------------------------
  // Financial figures

  /** The financial figures of a valuation response; a missing key or a
      JSON null is `None`. */
  datatype FinancialJson = FinancialJson(
    askingPrice: Option<real>,
    estimatedRepairs: Option<real>,
    totalEstimatedCost: Option<real>,
    estimatedRepairsMin: Option<real>,
    estimatedRepairsMax: Option<real>)

  datatype FinancialView = FinancialView(
    askingPrice: real,
    estimatedRepairs: real,
    totalCost: real,
    repairsMin: real,
    repairsMax: real)

  /** `x || fallback` on a number: a missing value and zero are falsy. */
  function OrElse(x: Option<real>, fallback: real): (r: real)
    ensures x.Some? && x.value != 0.0 ==> r == x.value
    ensures x.None? ==> r == fallback
    ensures x == Some(0.0) ==> r == fallback
  {
    if x.Some? && x.value != 0.0 then x.value else fallback
  }

  function FinancialViewOf(financial: Option<FinancialJson>): FinancialView
  {
    var f := if financial.Some? then financial.value else FinancialJson(None, None, None, None, None);
    var askingPrice := OrElse(f.askingPrice, 0.0);
    FinancialView(
      askingPrice,
      OrElse(f.estimatedRepairs, 0.0),
      OrElse(f.totalEstimatedCost, askingPrice),
      OrElse(f.estimatedRepairsMin, 0.0),
      OrElse(f.estimatedRepairsMax, 0.0))
  }

  /** Missing figures show as zero, and a missing or zero total shows the
      asking price alone, whatever the repairs are. */
  lemma FinancialDefaults(financial: Option<FinancialJson>)
    ensures financial.None? ==> FinancialViewOf(financial) == FinancialView(0.0, 0.0, 0.0, 0.0, 0.0)
    ensures financial.Some? && financial.value.totalEstimatedCost.None? ==>
              FinancialViewOf(financial).totalCost == FinancialViewOf(financial).askingPrice
    ensures financial.Some? && financial.value.totalEstimatedCost == Some(0.0) ==>
              FinancialViewOf(financial).totalCost == FinancialViewOf(financial).askingPrice
    ensures financial.Some? && financial.value.askingPrice == Some(0.0) ==>
              FinancialViewOf(financial).askingPrice == 0.0
  {
  }

  /** The figures the valuation engine sends, as JSON. */
  function FinancialJsonOf(fa: VE.FinancialAnalysis): FinancialJson
  {
    FinancialJson(Some(fa.askingPrice), Some(fa.estimatedRepairs as real), Some(fa.totalEstimatedCost),
                  Some(fa.estimatedRepairsMin as real), Some(fa.estimatedRepairsMax as real))
  }

  /** For a positive asking price the engine's total is positive, so the
      client shows the engine's total and never the fallback; every other
      figure is shown as sent (a zero shows as zero either way). */
  lemma EngineFiguresShown(fa: VE.FinancialAnalysis)
    requires fa.askingPrice > 0.0 && fa.estimatedRepairs >= 0
    requires fa.totalEstimatedCost == fa.askingPrice + fa.estimatedRepairs as real
    ensures FinancialViewOf(Some(FinancialJsonOf(fa))) ==
              FinancialView(fa.askingPrice, fa.estimatedRepairs as real, fa.totalEstimatedCost,
                            fa.estimatedRepairsMin as real, fa.estimatedRepairsMax as real)
  {
  }

  // ---------------------------------------------------------------------
  // Score breakdown

  /** A score value as received: only numbers are shown as themselves. */
  datatype ScoreValue = Number(n: real) | NotNumber

  datatype ScoreRow = ScoreRow(caption: string, value: real)

  /** One row per entry of the scores object, in its order; no rows for a
      missing or empty object. */
  function ScoreBreakdown(scores: Option<seq<(string, ScoreValue)>>): (r: seq<ScoreRow>)
    ensures scores.None? ==> r == []
    ensures scores.Some? ==> |r| == |scores.value|
    ensures forall i :: 0 <= i < |r| ==>
              && r[i].caption == FormatScoreLabel(scores.value[i].0)
              && r[i].value == (if scores.value[i].1.Number? then scores.value[i].1.n else 0.0)
  {
    if scores.None? then []
    else
      var entries := scores.value;
      seq(|entries|, i requires 0 <= i < |entries| =>
        ScoreRow(FormatScoreLabel(entries[i].0), if entries[i].1.Number? then entries[i].1.n else 0.0))
  }

  /** Each row's caption is its key humanised: as long as the key, each
      underscore a space and the first letter of each word upper-cased;
      a value that is not a number shows as 0, so the rows are
      percentages whenever the numeric values are. */
  lemma ScoreRowsFacts(scores: seq<(string, ScoreValue)>)
    ensures var rows := ScoreBreakdown(Some(scores));
      && |rows| == |scores|
      && (forall i :: 0 <= i < |rows| ==>
            && |rows[i].caption| == |scores[i].0|
            && (forall j :: 0 <= j < |scores[i].0| ==> rows[i].caption[j] == LabelChar(scores[i].0, j))
            && (scores[i].1 == NotNumber ==> rows[i].value == 0.0))
      && ((forall i :: 0 <= i < |scores| && scores[i].1.Number? ==> VE.Percentage(scores[i].1.n)) ==>
            forall i :: 0 <= i < |rows| ==> VE.Percentage(rows[i].value))
  {
    var rows := ScoreBreakdown(Some(scores));
    forall i | 0 <= i < |rows|
      ensures |rows[i].caption| == |scores[i].0|
      ensures forall j :: 0 <= j < |scores[i].0| ==> rows[i].caption[j] == LabelChar(scores[i].0, j)
    {
      FormatScoreLabelPointwise(scores[i].0);
    }
  }

  /** The keys of the scores object the valuation engine sends. */
  const ScoreKeys: seq<string> := ["mot_history", "recent_failures", "dangerous_defects", "mileage_consistency", "age_factor"]

  /** The scores object the valuation engine sends. */
  function ScoresJsonOf(s: VE.Scores): seq<(string, ScoreValue)>
  {
    var values := [s.motHistory, s.recentFailures, s.dangerousDefects, s.mileageConsistency, s.ageFactor];
    seq(5, i requires 0 <= i < 5 => (ScoreKeys[i], Number(values[i])))
  }

  /** The engine's five scores give five rows, in the engine's order, each
      showing its score, and each a percentage when the scores are. */
  lemma EngineScoreRows(s: VE.Scores)
    requires VE.AllPercentages(s)
    ensures var rows := ScoreBreakdown(Some(ScoresJsonOf(s)));
      && |rows| == 5
      && (forall i :: 0 <= i < 5 ==> rows[i].caption == FormatScoreLabel(ScoreKeys[i]))
      && rows[0].value == s.motHistory && rows[1].value == s.recentFailures
      && rows[2].value == s.dangerousDefects && rows[3].value == s.mileageConsistency
      && rows[4].value == s.ageFactor
      && forall i :: 0 <= i < 5 ==> VE.Percentage(rows[i].value)
  {
    var entries := ScoresJsonOf(s);
    var values := [s.motHistory, s.recentFailures, s.dangerousDefects, s.mileageConsistency, s.ageFactor];
    assert forall i :: 0 <= i < 5 ==> entries[i].1 == Number(values[i]);
    assert forall i :: 0 <= i < 5 ==> VE.Percentage(values[i]);
  }

  // ---------------------------------------------------------------------
  // The MOT history report

  datatype Marker = Pass | Fail

  /** One entry of the timeline; the reasons block is present only when
      the test has any. */
  datatype TimelineEntry = TimelineEntry(
    id: string,
    marker: Marker,
    completedDate: Option<string>,
    showMileage: bool,
    result: Option<string>,
    details: Option<RfrSection>)

  function TimelineEntryOf(t: MotTest, index: nat): TimelineEntry
  {
    TimelineEntry(
      "test-" + NatToString(index),
      if t.testResult == Some("PASSED") then Pass else Fail,
      t.completedDate,
      TruthyNumber(t.odometerValue),
      t.testResult,
      if |t.rfrAndComments| > 0 then Some(RfrSectionOf(t.rfrAndComments)) else None)
  }

  /** One entry per test, in the order received. */
  function Timeline(tests: seq<MotTest>): (r: seq<TimelineEntry>)
    ensures |r| == |tests|
  {
    seq(|tests|, i requires 0 <= i < |tests| => TimelineEntryOf(tests[i], i))
  }

  /** Entry `i` is built from test `i` alone, with the id "test-i": its
      marker is "pass" exactly for a PASSED result, its details exist
      exactly when it has reasons for rejection, and no two entries share
      an id. */
  lemma TimelineFacts(tests: seq<MotTest>)
    ensures var r := Timeline(tests);
      && (forall i :: 0 <= i < |tests| ==>
            && (r[i].marker == Pass <==> tests[i].testResult == Some("PASSED"))
            && (r[i].details.Some? <==> tests[i].rfrAndComments != [])
            && (r[i].details.Some? ==> r[i].details.value != NoItems)
            && r[i].completedDate == tests[i].completedDate
            && r[i].result == tests[i].testResult
            && r[i].id == "test-" + NatToString(i)
            && r[i] == TimelineEntryOf(tests[i], i))
      && forall i, j :: 0 <= i < j < |tests| ==> r[i].id != r[j].id
  {
    var r := Timeline(tests);
    forall i | 0 <= i < |tests| ensures r[i].details.Some? ==> r[i].details.value != NoItems {
      RfrSectionCases(tests[i].rfrAndComments);
    }
    forall i, j | 0 <= i < j < |tests| ensures r[i].id != r[j].id {
      var pi, pj := NatToString(i), NatToString(j);
      if r[i].id == r[j].id {
        assert ("test-" + pi)[5..] == pi;
        assert ("test-" + pj)[5..] == pj;
        NatToStringInjective(i, j);
      }
    }
  }

  /** The MOT report: the latest test is the first one received. */
  datatype MotReport = MotReport(
    badge: BadgeClass,
    latest: MotTest,
    showExpiry: bool,
    showMileage: bool,
    totalTests: nat,
    latestItems: RfrSection,
    timeline: seq<TimelineEntry>)

  const NoHistoryMessage := "No MOT history found for this vehicle"

  /** `motData.motTests || []`: a missing list is empty. */
  function BuildMotReport(motTests: Option<seq<MotTest>>): (r: Result<MotReport, string>)
    ensures r.Err? <==> motTests.None? || motTests.value == []
    ensures r.Err? ==> r.error == NoHistoryMessage
    ensures r.Ok? ==>
      && r.value.latest == motTests.value[0]
      && r.value.totalTests == |motTests.value|
      && |r.value.timeline| == |motTests.value|
  {
    var tests := if motTests.Some? then motTests.value else [];
    if |tests| == 0 then Err(NoHistoryMessage)
    else
      var latest := tests[0];
      Ok(MotReport(
        ResultBadgeClass(latest.testResult),
        latest,
        TruthyText(latest.expiryDate),
        TruthyNumber(latest.odometerValue),
        |tests|,
        RfrSectionOf(latest.rfrAndComments),
        Timeline(tests)))
  }

  /** The badge and the listed defects are the latest test's; the first
      timeline entry is the latest test too. */
  lemma MotReportLatest(motTests: seq<MotTest>)
    requires motTests != []
    ensures var r := BuildMotReport(Some(motTests)).value;
      && (r.badge == Success <==> motTests[0].testResult == Some("PASSED"))
      && r.latestItems == RfrSectionOf(motTests[0].rfrAndComments)
      && r.timeline[0] == TimelineEntryOf(motTests[0], 0)
  {
  }

  // ---------------------------------------------------------------------
  // The valuation report

  /** The parts of a valuation response the client reads; the messages of
      the factor lists are kept as they arrive. */
  datatype ValuationJson = ValuationJson(
    recommendation: Option<string>,
    financial: Option<FinancialJson>,
    scores: Option<seq<(string, ScoreValue)>>,
    riskFactors: Option<seq<string>>,
    positiveFactors: Option<seq<string>>)

  datatype ValuationView = ValuationView(
    details: RecommendationDetails,
    financial: FinancialView,
    scoreRows: seq<ScoreRow>,
    risks: seq<string>,
    positives: seq<string>)

  /** `factors || []`: a missing list is shown as no list. */
  function OrNone(factors: Option<seq<string>>): seq<string>
  {
    if factors.Some? then factors.value else []
  }

  function BuildValuationReport(v: ValuationJson): ValuationView
  {
    ValuationView(
      RecommendationDetailsOf(v.recommendation),
      FinancialViewOf(v.financial),
      ScoreBreakdown(v.scores),
      OrNone(v.riskFactors),
      OrNone(v.positiveFactors))
  }

  /** The response for a vehicle without history carries only the
      insufficient-data tag: the page shows that label, zero figures, no
      score rows and no factor lists. */
  lemma NoHistoryValuationView()
    ensures BuildValuationReport(ValuationJson(Some(VE.Tag(VE.InsufficientData)), None, None, None, None))
            == ValuationView(VerdictDetails(VE.InsufficientData), FinancialView(0.0, 0.0, 0.0, 0.0, 0.0), [], [], [])
  {
    FinancialDefaults(None);
  }
}
