/** The recurring-issue summary over an MOT history: every reason for
    rejection or comment of every test is looked up in the repair-cost
    table, the hits are bucketed by category (a count, the description and
    at most three example texts per category), failures and advisories are
    counted, and the buckets are sorted by count, largest first, to give
    the top five and the full list. */
module RepairHistory {
  import opened MotData
  import opened Seqs
  import opened RepairCosts

  /** One bucket of the frequency table. */
  datatype IssueStats = IssueStats(count: nat, description: string, examples: seq<string>)

  /** A category and its bucket; a sequence of these stands for a Python
      dict, whose keys keep their insertion order. */
  datatype IssueEntry = IssueEntry(category: string, stats: IssueStats)

  datatype HistorySummary = HistorySummary(
    totalFailures: nat,
    totalAdvisories: nat,
    recurringIssues: seq<IssueEntry>,
    allIssues: seq<IssueEntry>)

  /** Every reason for rejection or comment of every test, tests in order. */
  function AllRfrItems(tests: seq<MotTest>): seq<Defect>
  {
    if tests == [] then [] else AllRfrItems(tests[..|tests| - 1]) + tests[|tests| - 1].rfrAndComments
  }

  function EstimateOf(d: Defect): Estimate
  {
    EstimateRepairCost(d.text)
  }

  /** The estimate `est` gives each item, in order. */
  function EstimatesBy(items: seq<Defect>, est: Defect -> Estimate): (r: seq<Estimate>)
    ensures |r| == |items|
  {
    if items == [] then []
    else EstimatesBy(items[..|items| - 1], est) + [est(items[|items| - 1])]
  }

  /** The repair-cost estimate of each item, in order. */
  function EstimatesOf(items: seq<Defect>): (r: seq<Estimate>)
  {
    EstimatesBy(items, EstimateOf)
  }

  function HasCategory(c: string): Estimate -> bool
  {
    (e: Estimate) => e.category == c
  }

  /** The estimates that fall in category `c`, in the order seen. */
  function InCategory(estimates: seq<Estimate>, c: string): seq<Estimate>
  {
    Filter(estimates, HasCategory(c))
  }

  /** A plain projection: the matched text of each estimate. */
  function TextsOf(estimates: seq<Estimate>): (r: seq<string>)
    ensures |r| == |estimates| && forall i :: 0 <= i < |r| ==> r[i] == estimates[i].matchedText
  {
    seq(|estimates|, i requires 0 <= i < |estimates| => estimates[i].matchedText)
  }

  /** The categories met, each once, in the order of their first item. */
  function FirstSeen(estimates: seq<Estimate>): (r: seq<string>)
    ensures forall c :: c in r <==> InCategory(estimates, c) != []
    ensures forall i, j :: 0 <= i < j < |r| ==> r[i] != r[j]
  {
    if estimates == [] then []
    else
      var before := FirstSeen(estimates[..|estimates| - 1]);
      var c := estimates[|estimates| - 1].category;
      if c in before then before else before + [c]
  }

  /** The bucket of category `c` once all of `estimates` have been seen: the
      number of items in the category, the description of its first item,
      and the texts of its first three items. */
  function StatsFor(estimates: seq<Estimate>, c: string): IssueStats
    requires InCategory(estimates, c) != []
  {
    var hits := InCategory(estimates, c);
    IssueStats(|hits|, hits[0].description, TextsOf(Take(hits, 3)))
  }

  /** The frequency table in insertion order. */
  function FrequencyTable(estimates: seq<Estimate>): (r: seq<IssueEntry>)
  {
    var keys := FirstSeen(estimates);
    seq(|keys|, i requires 0 <= i < |keys| => IssueEntry(keys[i], StatsFor(estimates, keys[i])))
  }

  predicate IsFail(d: Defect) { d.kind == "FAIL" }
  predicate IsAdvisory(d: Defect) { d.kind == "ADVISORY" || d.kind == "USER ENTERED" }
  predicate IsNeitherFailNorAdvisory(d: Defect) { !IsFail(d) && !IsAdvisory(d) }

  function CountOf(e: IssueEntry): int { e.stats.count }

  /** Python's `sorted(entries, key=count, reverse=True)`, which is stable:
      an insertion sort that puts each entry after every entry with a count
      at least as large. */
  function SortByCount(entries: seq<IssueEntry>): (r: seq<IssueEntry>)
  {
    if entries == [] then []
    else InsertByCount(SortByCount(entries[..|entries| - 1]), entries[|entries| - 1])
  }

  function InsertByCount(sorted: seq<IssueEntry>, e: IssueEntry): (r: seq<IssueEntry>)
  {
    if sorted == [] then [e]
    else if sorted[0].stats.count >= e.stats.count then [sorted[0]] + InsertByCount(sorted[1..], e)
    else [e] + sorted
  }

  ghost predicate NonIncreasing(s: seq<IssueEntry>)
  {
    forall i, j :: 0 <= i < j < |s| ==> s[i].stats.count >= s[j].stats.count
  }

  function CountIs(n: int): IssueEntry -> bool
  {
    (e: IssueEntry) => e.stats.count == n
  }

  /** The dict `frequency`, with key order `order`, is the frequency table
      of the estimates `seen` so far. */
  ghost predicate Tracks(frequency: map<string, IssueStats>, order: seq<string>, seen: seq<Estimate>)
  {
    && order == FirstSeen(seen)
    && (forall c :: c in frequency <==> c in order)
    && (forall c :: c in frequency ==> InCategory(seen, c) != [] && frequency[c] == StatsFor(seen, c))
  }

  /** The state of the summary loop after the items `seenItems`: the dict
      and its key order are the frequency table of their estimates, and
      the two counters count their failures and advisories. */
  ghost predicate Summarises(est: Defect -> Estimate, frequency: map<string, IssueStats>, order: seq<string>,
                             totalFailures: int, totalAdvisories: int, seenItems: seq<Defect>)
  {
    && Tracks(frequency, order, EstimatesBy(seenItems, est))
    && totalFailures == |Filter(seenItems, IsFail)|
    && totalAdvisories == |Filter(seenItems, IsAdvisory)|
  }

  method GetRepairHistorySummary(tests: seq<MotTest>) returns (r: HistorySummary)
    ensures r.totalFailures == |Filter(AllRfrItems(tests), IsFail)|
    ensures r.totalAdvisories == |Filter(AllRfrItems(tests), IsAdvisory)|
    ensures r.allIssues == SortByCount(FrequencyTable(EstimatesOf(AllRfrItems(tests))))
    ensures r.recurringIssues == Take(r.allIssues, 5)
  {
    var frequency: map<string, IssueStats> := map[];
    var order: seq<string> := [];
    var totalFailures, totalAdvisories := 0, 0;
    for i := 0 to |tests|
      invariant Summarises(EstimateOf, frequency, order, totalFailures, totalAdvisories, AllRfrItems(tests[..i]))
    {
      frequency, order, totalFailures, totalAdvisories :=
        RecordTest(frequency, order, totalFailures, totalAdvisories, AllRfrItems(tests[..i]), tests[i].rfrAndComments);
      TestStep(tests, i);
    }
    assert tests[..|tests|] == tests;
    var entries := seq(|order|, k requires 0 <= k < |order| => IssueEntry(order[k], frequency[order[k]]));
    EntriesAreFrequencyTable(entries, frequency, order, EstimatesOf(AllRfrItems(tests)));
    var sorted := SortByCount(entries);
    r := HistorySummary(totalFailures, totalAdvisories, Take(sorted, 5), sorted);
  }

  /** The inner loop: every item of one test is recorded in turn. */
  method RecordTest(frequency: map<string, IssueStats>, order: seq<string>, totalFailures: int, totalAdvisories: int,
                    ghost before: seq<Defect>, items: seq<Defect>)
    returns (frequency': map<string, IssueStats>, order': seq<string>, totalFailures': int, totalAdvisories': int)
    requires Summarises(EstimateOf, frequency, order, totalFailures, totalAdvisories, before)
    ensures Summarises(EstimateOf, frequency', order', totalFailures', totalAdvisories', before + items[..|items|])
  {
    frequency', order', totalFailures', totalAdvisories' := frequency, order, totalFailures, totalAdvisories;
    assert before + items[..0] == before;
    for j := 0 to |items|
      invariant Summarises(EstimateOf, frequency', order', totalFailures', totalAdvisories', before + items[..j])
    {
      frequency', order', totalFailures', totalAdvisories' :=
        RecordItem(frequency', order', totalFailures', totalAdvisories', before, items, j);
    }
  }

  /** The body of the inner loop: one item is looked up, its bucket is
      created if the category is new and then bumped, and the item is
      counted as a failure or an advisory. */
  method RecordItem(frequency: map<string, IssueStats>, order: seq<string>, totalFailures: int, totalAdvisories: int,
                    ghost before: seq<Defect>, items: seq<Defect>, j: int)
    returns (frequency': map<string, IssueStats>, order': seq<string>, totalFailures': int, totalAdvisories': int)
    requires 0 <= j < |items|
    requires Summarises(EstimateOf, frequency, order, totalFailures, totalAdvisories, before + items[..j])
    ensures Summarises(EstimateOf, frequency', order', totalFailures', totalAdvisories', before + items[..j + 1])
  {
    frequency', order', totalFailures', totalAdvisories' := frequency, order, totalFailures, totalAdvisories;
    var item := items[j];
    var estimate := EstimateRepairCost(item.text);
    var category := estimate.category;
    if category !in frequency' {
      frequency' := frequency'[category := IssueStats(0, estimate.description, [])];
      order' := order' + [category];
    }
    var stats := frequency'[category];
    stats := stats.(count := stats.count + 1);
    if |stats.examples| < 3 {
      stats := stats.(examples := stats.examples + [item.text]);
    }
    frequency' := frequency'[category := stats];
    if item.kind == "FAIL" {
      totalFailures' := totalFailures' + 1;
    } else if item.kind == "ADVISORY" || item.kind == "USER ENTERED" {
      totalAdvisories' := totalAdvisories' + 1;
    }
    ItemStep(EstimateOf, frequency, order, totalFailures, totalAdvisories, before, items, j,
             frequency', order', totalFailures', totalAdvisories');
  }

  /** One pass of the inner loop body keeps the loop state summarising the
      items seen. */
  lemma ItemStep(est: Defect -> Estimate,
                 frequency: map<string, IssueStats>, order: seq<string>, totalFailures: int, totalAdvisories: int,
                 before: seq<Defect>, items: seq<Defect>, j: int,
                 frequency': map<string, IssueStats>, order': seq<string>, totalFailures': int, totalAdvisories': int)
    requires 0 <= j < |items|
    requires Summarises(est, frequency, order, totalFailures, totalAdvisories, before + items[..j])
    requires var e := est(items[j]);
      && order' == (if e.category in frequency then order else order + [e.category])
      && var added := if e.category in frequency then frequency
                     else frequency[e.category := IssueStats(0, e.description, [])];
         frequency' == added[e.category := Bump(added[e.category], e.matchedText)]
    requires totalFailures' == totalFailures + (if IsFail(items[j]) then 1 else 0)
    requires totalAdvisories' == totalAdvisories + (if !IsFail(items[j]) && IsAdvisory(items[j]) then 1 else 0)
    ensures Summarises(est, frequency', order', totalFailures', totalAdvisories', before + items[..j + 1])
  {
    var item := items[j];
    var seenItems := before + items[..j];
    PrefixExtend(before, items, j);
    FrequencyStep(frequency, order, EstimatesBy(seenItems, est), est(item), frequency', order');
    CountStep(seenItems, item);
  }

  /** The dict update of the loop body, a new bucket first when the
      category is new, keeps the dict tracking the estimates seen. */
  lemma FrequencyStep(frequency: map<string, IssueStats>, order: seq<string>, seen: seq<Estimate>, e: Estimate,
                      frequency': map<string, IssueStats>, order': seq<string>)
    requires Tracks(frequency, order, seen)
    requires order' == (if e.category in frequency then order else order + [e.category])
    requires var added := if e.category in frequency then frequency
                          else frequency[e.category := IssueStats(0, e.description, [])];
             frequency' == added[e.category := Bump(added[e.category], e.matchedText)]
    ensures Tracks(frequency', order', seen + [e])
  {
    var c := e.category;
    if c !in frequency {
      var blank := IssueStats(0, e.description, []);
      assert frequency[c := blank][c := Bump(blank, e.matchedText)] == frequency[c := Bump(blank, e.matchedText)];
    }
    RecordStep(frequency, order, seen, e, frequency', order');
  }

  lemma TestStep(tests: seq<MotTest>, i: int)
    requires 0 <= i < |tests|
    ensures AllRfrItems(tests[..i + 1]) == AllRfrItems(tests[..i]) + tests[i].rfrAndComments[..|tests[i].rfrAndComments|]
  {
    assert tests[..i + 1][..i] == tests[..i];
    assert tests[i].rfrAndComments[..|tests[i].rfrAndComments|] == tests[i].rfrAndComments;
  }

  /** The bucket after one more item of its category: the count goes up
      and the text joins the examples while there are fewer than three. */
  function Bump(current: IssueStats, text: string): IssueStats
  {
    IssueStats(current.count + 1, current.description,
               if |current.examples| < 3 then current.examples + [text] else current.examples)
  }

  /** One pass of the inner loop body keeps the dict equal to the frequency
      table of the estimates seen. */
  lemma RecordStep(frequency: map<string, IssueStats>, order: seq<string>, seen: seq<Estimate>, e: Estimate,
                   frequency': map<string, IssueStats>, order': seq<string>)
    requires Tracks(frequency, order, seen)
    requires order' == if e.category in frequency then order else order + [e.category]
    requires frequency' == frequency[e.category :=
               Bump(if e.category in frequency then frequency[e.category]
                    else IssueStats(0, e.description, []), e.matchedText)]
    ensures Tracks(frequency', order', seen + [e])
  {
    var c := e.category;
    var seen' := seen + [e];
    FirstSeenStep(seen, e);
    if c in frequency {
      BumpExisting(seen, e);
    } else {
      BumpFresh(seen, e);
    }
    forall c' | c' in frequency'
      ensures InCategory(seen', c') != [] && frequency'[c'] == StatsFor(seen', c')
    {
      if c' != c {
        InCategoryStep(seen, e, c');
        assert c' in frequency;
        assert frequency'[c'] == frequency[c'] == StatsFor(seen, c');
        assert InCategory(seen', c') == InCategory(seen, c');
      }
    }
  }

  lemma BumpExisting(seen: seq<Estimate>, e: Estimate)
    requires InCategory(seen, e.category) != []
    ensures InCategory(seen + [e], e.category) != []
    ensures Bump(StatsFor(seen, e.category), e.matchedText) == StatsFor(seen + [e], e.category)
  {
    var c := e.category;
    InCategoryStep(seen, e, c);
    var hits := InCategory(seen, c);
    var hits' := InCategory(seen + [e], c);
    assert hits' == hits + [e];
    assert hits'[0] == hits[0];
    if |hits| < 3 {
      assert Take(hits', 3) == Take(hits, 3) + [e];
      assert TextsOf(Take(hits', 3)) == TextsOf(Take(hits, 3)) + [e.matchedText];
    } else {
      assert Take(hits', 3) == Take(hits, 3);
    }
  }

  lemma BumpFresh(seen: seq<Estimate>, e: Estimate)
    requires InCategory(seen, e.category) == []
    ensures InCategory(seen + [e], e.category) == [e]
    ensures Bump(IssueStats(0, e.description, []), e.matchedText) == StatsFor(seen + [e], e.category)
  {
    InCategoryStep(seen, e, e.category);
    assert TextsOf(Take([e], 3)) == [e.matchedText];
  }

  lemma CountStep(seen: seq<Defect>, item: Defect)
    ensures Filter(seen + [item], IsFail) == Filter(seen, IsFail) + (if IsFail(item) then [item] else [])
    ensures Filter(seen + [item], IsAdvisory) == Filter(seen, IsAdvisory) + (if IsAdvisory(item) then [item] else [])
  {
    assert (seen + [item])[..|seen|] == seen;
  }

  lemma EntriesAreFrequencyTable(entries: seq<IssueEntry>, frequency: map<string, IssueStats>, order: seq<string>, seen: seq<Estimate>)
    requires Tracks(frequency, order, seen)
    requires |entries| == |order|
    requires forall k :: 0 <= k < |order| ==> order[k] in frequency && entries[k] == IssueEntry(order[k], frequency[order[k]])
    ensures entries == FrequencyTable(seen)
  {
  }

  /** How seeing one more estimate changes the hits of a category. */
  lemma InCategoryStep(seen: seq<Estimate>, e: Estimate, c: string)
    ensures InCategory(seen + [e], c) == InCategory(seen, c) + (if e.category == c then [e] else [])
  {
    assert (seen + [e])[..|seen|] == seen;
  }

  /** How seeing one more estimate changes the key order. */
  lemma FirstSeenStep(seen: seq<Estimate>, e: Estimate)
    ensures FirstSeen(seen + [e]) ==
              if e.category in FirstSeen(seen) then FirstSeen(seen) else FirstSeen(seen) + [e.category]
  {
    assert (seen + [e])[..|seen|] == seen;
  }

  // ---------------------------------------------------------------------
  // Properties of the summary

  /** Inserting keeps every entry and adds `e`. */
  lemma {:induction false} InsertByCountElements(sorted: seq<IssueEntry>, e: IssueEntry)
    ensures forall x :: x in InsertByCount(sorted, e) <==> x in sorted || x == e
    ensures |InsertByCount(sorted, e)| == |sorted| + 1
  {
    if sorted != [] && sorted[0].stats.count >= e.stats.count {
      InsertByCountElements(sorted[1..], e);
      assert sorted == [sorted[0]] + sorted[1..];
    }
  }

  /** Inserting into a list sorted by decreasing count keeps it sorted. */
  lemma {:induction false} InsertByCountSorted(sorted: seq<IssueEntry>, e: IssueEntry)
    requires NonIncreasing(sorted)
    ensures NonIncreasing(InsertByCount(sorted, e))
  {
    if sorted != [] && sorted[0].stats.count >= e.stats.count {
      var rest := InsertByCount(sorted[1..], e);
      InsertByCountSorted(sorted[1..], e);
      InsertByCountElements(sorted[1..], e);
      forall x | x in rest ensures sorted[0].stats.count >= x.stats.count {
        assert x in sorted[1..] || x == e;
      }
      var r := [sorted[0]] + rest;
      forall i, j | 0 <= i < j < |r| ensures r[i].stats.count >= r[j].stats.count {
        if i == 0 {
          assert r[j] == rest[j - 1];
        } else {
          assert r[i] == rest[i - 1] && r[j] == rest[j - 1];
        }
      }
    }
  }

  /** Insertion goes after every entry with the same count. */
  lemma {:induction false} InsertByCountStable(sorted: seq<IssueEntry>, e: IssueEntry, n: int)
    requires NonIncreasing(sorted)
    ensures Filter(InsertByCount(sorted, e), CountIs(n)) ==
              Filter(sorted, CountIs(n)) + (if e.stats.count == n then [e] else [])
  {
    if sorted == [] {
      assert [e][..0] == [];
    } else if sorted[0].stats.count >= e.stats.count {
      NonIncreasingTail(sorted);
      InsertByCountStable(sorted[1..], e, n);
      StableSkip(sorted, e, n);
    } else {
      StableFront(sorted, e, n);
    }
  }

  lemma NonIncreasingTail(sorted: seq<IssueEntry>)
    requires sorted != [] && NonIncreasing(sorted)
    ensures NonIncreasing(sorted[1..])
  {
    var tail := sorted[1..];
    forall i, j | 0 <= i < j < |tail| ensures tail[i].stats.count >= tail[j].stats.count {
      assert tail[i] == sorted[i + 1] && tail[j] == sorted[j + 1];
    }
  }

  /** The step of the insertion that passes over the first entry. */
  lemma StableSkip(sorted: seq<IssueEntry>, e: IssueEntry, n: int)
    requires sorted != [] && sorted[0].stats.count >= e.stats.count
    requires Filter(InsertByCount(sorted[1..], e), CountIs(n)) ==
               Filter(sorted[1..], CountIs(n)) + (if e.stats.count == n then [e] else [])
    ensures Filter(InsertByCount(sorted, e), CountIs(n)) ==
              Filter(sorted, CountIs(n)) + (if e.stats.count == n then [e] else [])
  {
    var p := CountIs(n);
    var head, tail := sorted[0], sorted[1..];
    var rest := InsertByCount(tail, e);
    var kept := if p(head) then [head] else [];
    var added := if e.stats.count == n then [e] else [];
    assert InsertByCount(sorted, e) == [head] + rest;
    HeadTail(sorted);
    FilterCons(head, rest, p);
    FilterCons(head, tail, p);
    calc {
      Filter(InsertByCount(sorted, e), p);
      kept + Filter(rest, p);
      kept + (Filter(tail, p) + added);
      (kept + Filter(tail, p)) + added;
      Filter(sorted, p) + added;
    }
  }

  /** The step of the insertion that puts `e` in front: every entry after
      it has a smaller count. */
  lemma StableFront(sorted: seq<IssueEntry>, e: IssueEntry, n: int)
    requires sorted != [] && sorted[0].stats.count < e.stats.count
    requires NonIncreasing(sorted)
    ensures Filter(InsertByCount(sorted, e), CountIs(n)) ==
              Filter(sorted, CountIs(n)) + (if e.stats.count == n then [e] else [])
  {
    var p := CountIs(n);
    FilterCons(e, sorted, p);
    if e.stats.count == n {
      forall i | 0 <= i < |sorted| ensures !p(sorted[i]) {
        assert sorted[i].stats.count <= sorted[0].stats.count;
      }
      NoneKept(sorted, p);
    }
  }

  /** The sort orders by decreasing count and is stable: the entries of
      any one count keep their relative order. Since every entry has some
      count, this makes the result a permutation of the input. */
  lemma {:induction false} SortByCountCorrect(entries: seq<IssueEntry>)
    ensures NonIncreasing(SortByCount(entries))
    ensures forall x :: x in SortByCount(entries) <==> x in entries
    ensures |SortByCount(entries)| == |entries|
    ensures forall n :: Filter(SortByCount(entries), CountIs(n)) == Filter(entries, CountIs(n))
  {
    if entries != [] {
      var init, last := entries[..|entries| - 1], entries[|entries| - 1];
      SortByCountCorrect(init);
      InsertByCountSorted(SortByCount(init), last);
      InsertByCountElements(SortByCount(init), last);
      assert entries == init + [last];
      forall n ensures Filter(SortByCount(entries), CountIs(n)) == Filter(entries, CountIs(n)) {
        InsertByCountStable(SortByCount(init), last, n);
      }
    }
  }

  /** Sorting does not change a sum over the entries. */
  lemma {:induction false} InsertByCountSum(sorted: seq<IssueEntry>, e: IssueEntry, f: IssueEntry -> int)
    ensures SumOf(InsertByCount(sorted, e), f) == SumOf(sorted, f) + f(e)
  {
    if sorted == [] {
      assert [e][..0] == [];
    } else if sorted[0].stats.count >= e.stats.count {
      InsertByCountSum(sorted[1..], e, f);
      SumOfCons(sorted[0], InsertByCount(sorted[1..], e), f);
      SumOfCons(sorted[0], sorted[1..], f);
      assert sorted == [sorted[0]] + sorted[1..];
    } else {
      SumOfCons(e, sorted, f);
    }
  }

  lemma {:induction false} SortByCountSum(entries: seq<IssueEntry>, f: IssueEntry -> int)
    ensures SumOf(SortByCount(entries), f) == SumOf(entries, f)
  {
    if entries != [] {
      SortByCountSum(entries[..|entries| - 1], f);
      InsertByCountSum(SortByCount(entries[..|entries| - 1]), entries[|entries| - 1], f);
    }
  }

  function HitsIn(estimates: seq<Estimate>): string -> int
  {
    (c: string) => |InCategory(estimates, c)|
  }

  /** One more estimate adds one hit to the total over distinct keys that
      include its category, and none otherwise. */
  lemma {:induction false} HitsStep(estimates: seq<Estimate>, e: Estimate, keys: seq<string>)
    requires forall i, j :: 0 <= i < j < |keys| ==> keys[i] != keys[j]
    ensures SumOf(keys, HitsIn(estimates + [e])) ==
              SumOf(keys, HitsIn(estimates)) + (if e.category in keys then 1 else 0)
  {
    if keys != [] {
      var init, k := keys[..|keys| - 1], keys[|keys| - 1];
      HitsStep(estimates, e, init);
      InCategoryStep(estimates, e, k);
      assert keys == init + [k];
      assert e.category in keys <==> e.category in init || e.category == k;
      if e.category == k {
        assert e.category !in init by {
          forall i | 0 <= i < |init| ensures init[i] != k {
            assert keys[i] != keys[|keys| - 1];
          }
        }
      }
    }
  }

  /** The categories first seen carry, between them, every estimate. */
  lemma {:induction false} HitsCoverAll(estimates: seq<Estimate>)
    ensures SumOf(FirstSeen(estimates), HitsIn(estimates)) == |estimates|
  {
    if estimates != [] {
      var init, e := estimates[..|estimates| - 1], estimates[|estimates| - 1];
      var keys := FirstSeen(init);
      HitsCoverAll(init);
      assert estimates == init + [e];
      HitsStep(init, e, keys);
      FirstSeenStep(init, e);
      if e.category !in keys {
        InCategoryStep(init, e, e.category);
        SumOfAppend(keys, [e.category], HitsIn(estimates));
        assert [e.category][..0] == [];
      }
    }
  }

  /** Every estimate is counted once: the counts of the frequency table add
      up to the number of items looked up. */
  lemma CountsCoverAll(estimates: seq<Estimate>)
    ensures SumOf(FrequencyTable(estimates), CountOf) == |estimates|
  {
    var keys := FirstSeen(estimates);
    SumOfPointwise(FrequencyTable(estimates), CountOf, keys, HitsIn(estimates));
    HitsCoverAll(estimates);
  }

  /** Each bucket: its category was met, the categories are distinct, the
      count is the number of items in the category (at least one), the
      description is that of the first such item, and the examples are
      the texts of the first items, at most three of them. */
  lemma FrequencyTableEntries(estimates: seq<Estimate>)
    ensures forall i, j :: 0 <= i < j < |FrequencyTable(estimates)| ==>
              FrequencyTable(estimates)[i].category != FrequencyTable(estimates)[j].category
    ensures forall i :: 0 <= i < |FrequencyTable(estimates)| ==>
              var entry := FrequencyTable(estimates)[i];
              var hits := InCategory(estimates, entry.category);
              && 1 <= entry.stats.count == |hits|
              && entry.stats.description == hits[0].description
              && |entry.stats.examples| == Min(entry.stats.count, 3)
              && forall k :: 0 <= k < |entry.stats.examples| ==> entry.stats.examples[k] == hits[k].matchedText
  {
  }

  /** The summary's issue lists: the full list is the frequency table
      sorted by decreasing count, ties in first-seen order; the recurring
      list is its first five entries; their counts add up to the number of
      items of the history. */
  lemma SummaryIssues(tests: seq<MotTest>)
    ensures var all := SortByCount(FrequencyTable(EstimatesOf(AllRfrItems(tests))));
      && NonIncreasing(all)
      && (forall n :: Filter(all, CountIs(n)) == Filter(FrequencyTable(EstimatesOf(AllRfrItems(tests))), CountIs(n)))
      && SumOf(all, CountOf) == |AllRfrItems(tests)|
      && |Take(all, 5)| <= 5
  {
    var table := FrequencyTable(EstimatesOf(AllRfrItems(tests)));
    SortByCountCorrect(table);
    SortByCountSum(table, CountOf);
    CountsCoverAll(EstimatesOf(AllRfrItems(tests)));
  }

  /** No item is both a failure and an advisory, so failures, advisories
      and the other items split the history. */
  lemma SummaryTotals(tests: seq<MotTest>)
    ensures var items := AllRfrItems(tests);
      |Filter(items, IsFail)| + |Filter(items, IsAdvisory)| + |Filter(items, IsNeitherFailNorAdvisory)| == |items|
  {
    FilterPartitionCount(AllRfrItems(tests), IsFail, IsAdvisory, IsNeitherFailNorAdvisory);
  }
}
