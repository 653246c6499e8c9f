/** The repair-cost database: a fixed table of defect categories with text
    patterns and GBP cost ranges, the first-match estimate for one defect
    text, the totals over a list of defects, the category listing and the
    recurring-issue summary over a whole MOT history. */
module RepairCosts {
  import opened MotData
  import opened Seqs
  import opened Text

  datatype CostEntry = CostEntry(
    category: string,
    patterns: seq<Pattern>,
    minCost: nat,
    maxCost: nat,
    averageCost: nat,
    description: string)

  /** The categories in the order the lookup tries them. */
  const Table: seq<CostEntry> := [
    CostEntry("brake",
      [["brake", "pad"], ["brake", "disc"], ["brake", "worn"], ["brake", "efficiency"],
       ["handbrake"], ["parking brake"]],
      80, 400, 180, "Brake pads/discs replacement"),
    CostEntry("tyre",
      [["tyre", "tread"], ["tyre", "worn"], ["tyre", "damaged"], ["tyre", "illegal"], ["tire"]],
      50, 200, 100, "Tyre replacement (per tyre)"),
    CostEntry("suspension",
      [["suspension"], ["shock absorber"], ["spring", "worn"], ["bush", "worn"]],
      150, 600, 350, "Suspension component replacement"),
    CostEntry("lights",
      [["headlamp"], ["headlight"], ["light", "not", "work"], ["bulb"], ["lamp", "inoperative"],
       ["indicator"]],
      10, 150, 40, "Light/bulb replacement"),
    CostEntry("exhaust",
      [["exhaust", "leak"], ["exhaust", "excessive"], ["exhaust", "insecure"], ["silencer"]],
      80, 800, 250, "Exhaust system repair/replacement"),
    CostEntry("steering",
      [["steering", "play"], ["steering", "loose"], ["track rod"], ["steering", "worn"]],
      100, 500, 250, "Steering component repair"),
    CostEntry("windscreen",
      [["windscreen", "damaged"], ["wiper", "inoperative"], ["wiper", "blade"],
       ["windscreen", "washer"]],
      15, 300, 50, "Windscreen/wiper repair"),
    CostEntry("emissions",
      [["emission", "excessive"], ["emission", "control"], ["lambda"], ["catalytic converter"]],
      100, 1500, 400, "Emissions system repair"),
    CostEntry("body",
      [["body", "corrosion"], ["chassis", "corrosion"], ["rust"], ["structure", "corrosion"],
       ["sill", "corroded"]],
      200, 2000, 800, "Bodywork/corrosion repair"),
    CostEntry("mirrors",
      [["mirror", "missing"], ["mirror", "insecure"], ["mirror", "damaged"]],
      20, 150, 60, "Mirror replacement"),
    CostEntry("seatbelts",
      [["seat belt"], ["seatbelt"], ["restraint"]],
      50, 300, 120, "Seatbelt repair/replacement"),
    CostEntry("registration_plate",
      [["registration plate"], ["number plate"]],
      15, 50, 25, "Registration plate replacement"),
    CostEntry("oil_leak",
      [["oil", "leak"], ["fluid", "leak"]],
      50, 500, 200, "Oil/fluid leak repair"),
    CostEntry("horn",
      [["horn", "inoperative"], ["horn", "not", "work"]],
      20, 80, 40, "Horn repair"),
    CostEntry("doors",
      [["door", "insecure"], ["door", "not", "close"]],
      50, 300, 150, "Door mechanism repair")
  ]

  const UnknownCategory: string := "unknown"

  /** Every row of the table has an ordered cost range, the categories are
      distinct and none of them is the default category. */
  lemma TableWellFormed()
    ensures |Table| == 15
    ensures forall k :: 0 <= k < |Table| ==> Table[k].minCost <= Table[k].averageCost <= Table[k].maxCost
    ensures forall k :: 0 <= k < |Table| ==> Table[k].category != UnknownCategory
    ensures forall k, l :: 0 <= k < l < |Table| ==> Table[k].category != Table[l].category
  {
  }

  /** The result of looking one defect text up. */
  datatype Estimate = Estimate(
    category: string,
    minCost: nat,
    maxCost: nat,
    averageCost: nat,
    description: string,
    matchedText: string)

  /** Some pattern of the entry is found in the (lower-cased) text. */
  predicate EntryMatches(e: CostEntry, lower: string)
  {
    exists k :: 0 <= k < |e.patterns| && Matches(lower, e.patterns[k])
  }

  /** The index of the first table entry, from `k` on, that matches. */
  function FirstMatchFrom(lower: string, k: nat): (r: Option<nat>)
    requires k <= |Table|
    ensures r.Some? ==> k <= r.value < |Table| && EntryMatches(Table[r.value], lower)
    ensures r.Some? ==> forall j :: k <= j < r.value ==> !EntryMatches(Table[j], lower)
    ensures r.None? ==> forall j :: k <= j < |Table| ==> !EntryMatches(Table[j], lower)
    decreases |Table| - k
  {
    if k == |Table| then None
    else if EntryMatches(Table[k], lower) then Some(k)
    else FirstMatchFrom(lower, k + 1)
  }

  /** The entry that decides the estimate of `text`: the first one in table
      order with a pattern found in the lower-cased text. */
  ghost predicate IsDecidingEntry(text: string, k: int)
  {
    && 0 <= k < |Table|
    && EntryMatches(Table[k], Lower(text))
    && forall j :: 0 <= j < k ==> !EntryMatches(Table[j], Lower(text))
  }

  function EstimateRepairCost(text: string): (r: Estimate)
    ensures r.matchedText == text
    ensures r.minCost <= r.averageCost <= r.maxCost
  {
    TableWellFormed();
    match FirstMatchFrom(Lower(text), 0)
    case None => Estimate(UnknownCategory, 50, 500, 200, "General repair", text)
    case Some(k) =>
      var e := Table[k];
      Estimate(e.category, e.minCost, e.maxCost, e.averageCost, e.description, text)
  }

  /** The estimate is the default exactly when no pattern of any category
      is found in the lower-cased text; otherwise it carries the costs and
      description of the first category, in table order, with a pattern
      found there. */
  lemma EstimateIsFirstMatch(text: string)
    ensures var r := EstimateRepairCost(text);
      && (r.category == UnknownCategory <==>
            forall j :: 0 <= j < |Table| ==> !EntryMatches(Table[j], Lower(text)))
      && (r.category == UnknownCategory ==>
            r == Estimate(UnknownCategory, 50, 500, 200, "General repair", text))
      && (r.category != UnknownCategory ==>
            exists k :: IsDecidingEntry(text, k) &&
              r == Estimate(Table[k].category, Table[k].minCost, Table[k].maxCost,
                            Table[k].averageCost, Table[k].description, text))
  {
    TableWellFormed();
    match FirstMatchFrom(Lower(text), 0)
    case None =>
    case Some(k) => assert IsDecidingEntry(text, k);
  }

  function MinCostOf(d: Defect): int { EstimateRepairCost(d.text).minCost }
  function MaxCostOf(d: Defect): int { EstimateRepairCost(d.text).maxCost }
  function AverageCostOf(d: Defect): int { EstimateRepairCost(d.text).averageCost }
  predicate IsDangerous(d: Defect) { d.dangerous }

  /** The texts of the defects flagged dangerous, in input order. */
  function DangerousTexts(items: seq<Defect>): (r: seq<string>)
  {
    var flagged := Filter(items, IsDangerous);
    seq(|flagged|, i requires 0 <= i < |flagged| => flagged[i].text)
  }

  datatype BreakdownItem = BreakdownItem(issue: string, estimate: Estimate, dangerous: bool)

  /** The totals report; its constant currency, disclaimer and date strings
      are not modelled. */
  datatype RepairTotals = RepairTotals(
    totalMinCost: int,
    totalMaxCost: int,
    totalAverageCost: int,
    breakdown: seq<BreakdownItem>,
    dangerousItemsCount: nat,
    dangerousItems: seq<string>)

  /** The three totals are ordered, since every estimate is. */
  lemma TotalsOrdered(items: seq<Defect>)
    ensures SumOf(items, MinCostOf) <= SumOf(items, AverageCostOf) <= SumOf(items, MaxCostOf)
  {
    SumOfMonotone(items, MinCostOf, AverageCostOf);
    SumOfMonotone(items, AverageCostOf, MaxCostOf);
  }

  /** No estimate is below 10 (the cheapest minimum of the table) or above
      2000 (its dearest maximum), so the totals are bounded by the number
      of defects. */
  lemma TotalsBounds(items: seq<Defect>)
    ensures 10 * |items| <= SumOf(items, MinCostOf)
    ensures SumOf(items, MaxCostOf) <= 2000 * |items|
  {
    forall d | d in items ensures 10 <= MinCostOf(d) <= 2000 && 10 <= MaxCostOf(d) <= 2000 {
      DefectCostRange(d);
    }
    SumOfBounds(items, MinCostOf, 10, 2000);
    SumOfBounds(items, MaxCostOf, 10, 2000);
  }

  /** Every estimate's figures lie between the cheapest minimum and the
      dearest maximum of the table. */
  lemma DefectCostRange(d: Defect)
    ensures 10 <= MinCostOf(d) <= MaxCostOf(d) <= 2000
  {
    var e := EstimateRepairCost(d.text);
    EstimateIsFirstMatch(d.text);
    if e.category != UnknownCategory {
      var k :| IsDecidingEntry(d.text, k) && e.minCost == Table[k].minCost && e.maxCost == Table[k].maxCost;
      TableCostRange(k);
    }
  }

  lemma TableCostRange(k: int)
    requires 0 <= k < |Table|
    ensures 10 <= Table[k].minCost && Table[k].maxCost <= 2000
  {
  }

  /** One breakdown row per defect, in input order. */
  function Breakdown(items: seq<Defect>): (r: seq<BreakdownItem>)
    ensures |r| == |items|
  {
    if items == [] then []
    else
      var d := items[|items| - 1];
      Breakdown(items[..|items| - 1]) + [BreakdownItem(d.text, EstimateRepairCost(d.text), d.dangerous)]
  }

  /** Row `i` of the breakdown is the estimate of defect `i`. */
  lemma {:induction false} BreakdownAt(items: seq<Defect>, i: int)
    requires 0 <= i < |items|
    ensures Breakdown(items)[i] ==
              BreakdownItem(items[i].text, EstimateRepairCost(items[i].text), items[i].dangerous)
  {
    if i < |items| - 1 {
      BreakdownAt(items[..|items| - 1], i);
    }
  }

  /** How each quantity of the totals report grows by one defect. */
  lemma TotalsStep(failures: seq<Defect>, i: int)
    requires 0 <= i < |failures|
    ensures var d, e, s, s' := failures[i], EstimateRepairCost(failures[i].text), failures[..i], failures[..i + 1];
      && SumOf(s', MinCostOf) == SumOf(s, MinCostOf) + e.minCost
      && SumOf(s', MaxCostOf) == SumOf(s, MaxCostOf) + e.maxCost
      && SumOf(s', AverageCostOf) == SumOf(s, AverageCostOf) + e.averageCost
      && Breakdown(s') == Breakdown(s) + [BreakdownItem(d.text, e, d.dangerous)]
      && DangerousTexts(s') == DangerousTexts(s) + (if d.dangerous then [d.text] else [])
  {
    var s, s' := failures[..i], failures[..i + 1];
    assert s'[..i] == s;
    var f, f' := Filter(s, IsDangerous), Filter(s', IsDangerous);
    assert f' == f + (if failures[i].dangerous then [failures[i]] else []);
  }

  method CalculateTotalRepairCosts(failures: seq<Defect>) returns (r: RepairTotals)
    ensures r.totalMinCost == SumOf(failures, MinCostOf)
    ensures r.totalMaxCost == SumOf(failures, MaxCostOf)
    ensures r.totalAverageCost == SumOf(failures, AverageCostOf)
    ensures r.totalMinCost <= r.totalAverageCost <= r.totalMaxCost
    ensures failures == [] ==> r.totalMinCost == r.totalMaxCost == r.totalAverageCost == 0
    ensures r.breakdown == Breakdown(failures) && |r.breakdown| == |failures|
    ensures r.dangerousItems == DangerousTexts(failures)
    ensures r.dangerousItemsCount == |Filter(failures, IsDangerous)| <= |failures|
  {
    var totalMin, totalMax, totalAverage := 0, 0, 0;
    var breakdown: seq<BreakdownItem> := [];
    var dangerousItems: seq<string> := [];
    for i := 0 to |failures|
      invariant totalMin == SumOf(failures[..i], MinCostOf)
      invariant totalMax == SumOf(failures[..i], MaxCostOf)
      invariant totalAverage == SumOf(failures[..i], AverageCostOf)
      invariant breakdown == Breakdown(failures[..i])
      invariant dangerousItems == DangerousTexts(failures[..i])
    {
      totalMin, totalMax, totalAverage, breakdown, dangerousItems :=
        AddFailure(failures, i, totalMin, totalMax, totalAverage, breakdown, dangerousItems);
    }
    assert failures[..|failures|] == failures;
    TotalsOrdered(failures);
    r := RepairTotals(totalMin, totalMax, totalAverage, breakdown, |dangerousItems|, dangerousItems);
  }

  /** One turn of the totals loop: failure `i` is estimated and added to
      every running quantity. */
  method AddFailure(failures: seq<Defect>, i: int, totalMin: int, totalMax: int, totalAverage: int,
                    breakdown: seq<BreakdownItem>, dangerousItems: seq<string>)
    returns (totalMin': int, totalMax': int, totalAverage': int,
             breakdown': seq<BreakdownItem>, dangerousItems': seq<string>)
    requires 0 <= i < |failures|
    requires totalMin == SumOf(failures[..i], MinCostOf)
    requires totalMax == SumOf(failures[..i], MaxCostOf)
    requires totalAverage == SumOf(failures[..i], AverageCostOf)
    requires breakdown == Breakdown(failures[..i])
    requires dangerousItems == DangerousTexts(failures[..i])
    ensures totalMin' == SumOf(failures[..i + 1], MinCostOf)
    ensures totalMax' == SumOf(failures[..i + 1], MaxCostOf)
    ensures totalAverage' == SumOf(failures[..i + 1], AverageCostOf)
    ensures breakdown' == Breakdown(failures[..i + 1])
    ensures dangerousItems' == DangerousTexts(failures[..i + 1])
  {
    var failure := failures[i];
    var estimate := EstimateRepairCost(failure.text);
    TotalsStep(failures, i);
    totalMin' := totalMin + estimate.minCost;
    totalMax' := totalMax + estimate.maxCost;
    totalAverage' := totalAverage + estimate.averageCost;
    breakdown' := breakdown + [BreakdownItem(failure.text, estimate, failure.dangerous)];
    dangerousItems' := dangerousItems;
    if failure.dangerous {
      dangerousItems' := dangerousItems + [failure.text];
    }
  }

  /** A category's costs and description, as the category listing gives them. */
  datatype CategoryCost = CategoryCost(minCost: nat, maxCost: nat, averageCost: nat, description: string)

  function GetAllRepairCosts(): (r: map<string, CategoryCost>)
    ensures forall k :: 0 <= k < |Table| ==>
              Table[k].category in r &&
              r[Table[k].category] == CategoryCost(Table[k].minCost, Table[k].maxCost, Table[k].averageCost, Table[k].description)
    ensures forall c :: c in r ==> exists k :: 0 <= k < |Table| && Table[k].category == c
    ensures forall c :: c in r ==> r[c].minCost <= r[c].averageCost <= r[c].maxCost
    ensures UnknownCategory !in r
  {
    TableWellFormed();
    map k | 0 <= k < |Table| :: Table[k].category :=
      CategoryCost(Table[k].minCost, Table[k].maxCost, Table[k].averageCost, Table[k].description)
  }
}
