# MOT history checker: repair costs, valuation and report building in Dafny

This project models the analysis core of an MOT (UK roadworthiness test)
history checker and proves properties of it:

- **Repair-cost database** (`repair_costs.dfy`, module `RepairCosts`). It holds a
  fixed table of 15 defect categories. The first category, in table order,
  one of whose text patterns occurs in the lower-cased defect text gives the
  estimate; a text that no category matches gets the default "unknown"
  estimate. The module also gives the totals over a list of defects and the
  category listing.
- **Recurring-issue summary** (`repair_history.dfy`, module `RepairHistory`). A
  loop over all reasons for rejection of all tests builds a frequency table
  keyed by category, in insertion order, counting failures and advisories as
  it goes. A stable sort by decreasing count then gives the full list and
  the top five.
- **Valuation engine** (`valuation_engine.dfy`, module `ValuationEngine`). It
  computes five sub-scores (pass rate, recent failures, dangerous defects,
  mileage consistency, age) and their weighted overall score. It also
  computes the repair estimate for the latest test, the purchase
  recommendation, the risk factors, the positive factors and the whole
  valuation report.
- **Request validation** (`registration.dfy`, module `Registration`). The
  registration field is checked for length, spaces are removed, the rest is
  uppercased, and the result must match the plate pattern.
- **Rate limiter** (`rate_limit.dfy`, module `RateLimit`). It is a class
  holding a per-client map of request times. `Check` prunes the client's
  list to the last 60 seconds and allows the request, recording it, while
  fewer than 10 requests remain.
- **Browser client's view models** (`report.dfy` and `score_labels.dfy`). These
  cover:
  - how the MOT report and the valuation report are built from the JSON
    responses;
  - the split of reasons for rejection into failures and advisories;
  - badge classes and recommendation labels;
  - defaulted financial figures;
  - the score breakdown with its humanised labels;
  - the test timeline.

Shared pieces:

- `mot_data.dfy` holds the MOT test and defect records.
- `text.dfy` holds ASCII case mapping, substring search, the `w1.*w2`
  patterns of the cost table, and decimal rendering.
- `seqs.dfy` holds filtering, summing and subsequence lemmas.

Two behaviours of the browser client are easy to miss:

- **Financial fallbacks.** The client reads each financial figure with
  JavaScript `||`, so a zero falls back just as a missing figure does. A
  total cost of zero, for instance, shows the asking price.
- **Score labels.** Score labels split only on `_`.

The clock of the rate limiter is the parameter `now`. The calendar years
between two test dates, which the mileage score reads from the date
strings, are a function parameter `yearsBetween` that answers `None` when a
date does not parse.

## Model

| member | source | states |
|---|---|---|
| Text.LowerFacts | mot-checker/backend/repair_costs.py:230 | lower-casing leaves no ASCII capital, changes no other character, maps each capital to the small letter that upper-cases back to it, is idempotent, and ignores a prior upper-casing |
| Text.MatchesCorrect | mot-checker/backend/repair_costs.py:233-234 | a pattern `w1.*w2.*…` is found in a text exactly when its words occur there in order, without overlapping |
| RepairCosts.TableWellFormed | mot-checker/backend/repair_costs.py:11-217 | the table has 15 categories, all distinct, none named "unknown", each with min ≤ average ≤ max |
| RepairCosts.TableCostRange | mot-checker/backend/repair_costs.py:11-217 | every category's costs lie between £10 and £2000 |
| RepairCosts.FirstMatchFrom | mot-checker/backend/repair_costs.py:232-242 | the index found is the first, from the start index on, whose category has a pattern found in the text; none is found only when no later category matches |
| RepairCosts.EstimateRepairCost | mot-checker/backend/repair_costs.py:220-252 | the estimate carries the original text (not the lower-cased one) and an ordered cost range |
| RepairCosts.EstimateIsFirstMatch | mot-checker/backend/repair_costs.py:230-252 | the estimate is "unknown" (50/500/200, "General repair") exactly when no category matches the lower-cased text; otherwise it is the first matching category's figures and description |
| RepairCosts.DefectCostRange | mot-checker/backend/repair_costs.py:220-252 | any defect's estimate lies between £10 and £2000, with min ≤ max |
| RepairCosts.CalculateTotalRepairCosts | mot-checker/backend/repair_costs.py:255-300 | the three totals are the sums of the items' estimates, ordered min ≤ average ≤ max and all 0 for no items; the breakdown has one row per item in order; the dangerous list holds the texts of the dangerous items and its count is their number |
| RepairCosts.AddFailure | mot-checker/backend/repair_costs.py:271-288 | one turn of the loop adds failure i's estimate to the three totals, its row to the breakdown and, when it is dangerous, its text to the dangerous list, keeping each equal to its value over the first i + 1 failures |
| RepairCosts.BreakdownAt | mot-checker/backend/repair_costs.py:271-285 | row i of the breakdown is item i's text, its estimate and its dangerous flag |
| RepairCosts.TotalsOrdered | mot-checker/backend/repair_costs.py:276-279 | summed minimum ≤ summed average ≤ summed maximum for every list of items |
| RepairCosts.TotalsBounds | mot-checker/backend/repair_costs.py:271-279 | n items cost at least £10·n in total and at most £2000·n |
| RepairCosts.GetAllRepairCosts | mot-checker/backend/repair_costs.py:303-318 | the listing has exactly the table's categories, each with its own figures and description, and no "unknown" entry |
| RepairHistory.GetRepairHistorySummary | mot-checker/backend/repair_costs.py:321-374 | the failure and advisory totals count the FAIL items and the ADVISORY/USER ENTERED items of all tests; the full list is the frequency table sorted by count; the recurring list is its first five entries |
| RepairHistory.RecordTest | mot-checker/backend/repair_costs.py:336-360 | recording one test's items keeps the dict, its key order and the two counters equal to the summary of all items seen so far |
| RepairHistory.RecordItem | mot-checker/backend/repair_costs.py:339-360 | recording one item creates its category's bucket on first sight, bumps its count, keeps at most three examples and bumps the matching counter, preserving the summary invariant |
| RepairHistory.FirstSeen | mot-checker/backend/repair_costs.py:345-350 | the dict's keys are exactly the categories met, each once |
| RepairHistory.FrequencyTableEntries | mot-checker/backend/repair_costs.py:345-355 | each bucket counts the items of its category (at least one), has the description of the first of them and the texts of the first min(count, 3) of them as examples |
| RepairHistory.SortByCountCorrect | mot-checker/backend/repair_costs.py:363-367 | the sort gives non-increasing counts, the same entries and length, and keeps entries of equal count in their original order (stability) |
| RepairHistory.SortByCountSum | mot-checker/backend/repair_costs.py:363-367 | sorting does not change any sum over the entries |
| RepairHistory.CountsCoverAll | mot-checker/backend/repair_costs.py:336-355 | the counts of the frequency table add up to the number of items seen |
| RepairHistory.SummaryIssues | mot-checker/backend/repair_costs.py:363-374 | the full issue list is sorted by count with ties in first-seen order and its counts add up to the number of items; the recurring list has at most five entries |
| RepairHistory.SummaryTotals | mot-checker/backend/repair_costs.py:357-360 | failures, advisories and other items split the items of the history |
| ValuationEngine.OverallScoreIsMean | mot-checker/backend/valuation_engine.py:16-22 | the weights add up to 1, so the overall score lies between the smallest and the largest sub-score |
| ValuationEngine.OverallScoreRange | mot-checker/backend/valuation_engine.py:56-62 | the weighted score of five percentages is a percentage |
| ValuationEngine.HistoryScore | mot-checker/backend/valuation_engine.py:108-116 | the history score is a percentage, and 50 for fewer than two tests |
| ValuationEngine.HistoryScoreExtremes | mot-checker/backend/valuation_engine.py:113-116 | with two or more tests the score is 100 exactly when every test passed, and 0 exactly when none did |
| ValuationEngine.FailureBandNonIncreasing | mot-checker/backend/valuation_engine.py:131-141 | more failures never give a higher band, and every band lies in 20..100 |
| ValuationEngine.RecentFailuresScore | mot-checker/backend/valuation_engine.py:118-141 | the loop's count of FAIL/MAJOR/DANGEROUS defects of the last three tests gives the band for that count, between 20 and 100 |
| ValuationEngine.DangerBandNonIncreasing | mot-checker/backend/valuation_engine.py:153-160 | more dangerous defects never give a higher band, and every band lies in 10..100 |
| ValuationEngine.DangerousDefectsScore | mot-checker/backend/valuation_engine.py:143-160 | the loop counts the defects of the last three tests flagged dangerous or typed DANGEROUS, and returns the band for that count |
| ValuationEngine.MileageScore | mot-checker/backend/valuation_engine.py:162-200 | the loops compute the mileage score of the history (readings, roll-back check, annual-mileage band) |
| ValuationEngine.CollectReadings | mot-checker/backend/valuation_engine.py:164-170 | the first loop collects the mileage and date of exactly the tests that have both, in order |
| ValuationEngine.FindRollback | mot-checker/backend/valuation_engine.py:176-178 | the second loop reports a roll-back exactly when some reading is lower than the next, older, one |
| ValuationEngine.NoRollbackDescends | mot-checker/backend/valuation_engine.py:176-178 | when no reading is below the one after it, the oldest reading is no greater than the newest |
| ValuationEngine.MileageScoreCases | mot-checker/backend/valuation_engine.py:162-200 | fewer than two readings give 50; a roll-back gives 0; no roll-back gives at least 50; the score is one of 0, 50, 70, 75, 90 and 100 |
| ValuationEngine.AgeScoreNonIncreasing | mot-checker/backend/valuation_engine.py:202-214 | more tests never give a higher age score, and every age score lies in 60..90 |
| ValuationEngine.ImmediateIssues | mot-checker/backend/valuation_engine.py:216-225 | a defect is an immediate issue exactly when it is a defect of the latest test of type FAIL, MAJOR, DANGEROUS, ADVISORY or MINOR |
| ValuationEngine.EstimateImmediateRepairs | mot-checker/backend/valuation_engine.py:216-227 | the estimate is the repair totals of the latest test's immediate issues |
| ValuationEngine.CountRecentFailures | mot-checker/backend/valuation_engine.py:229-235 | the loop counts the FAILED tests among the last three, a number of at most 3 |
| ValuationEngine.GenerateRecommendation | mot-checker/backend/valuation_engine.py:315-349 | the total cost is the asking price plus the average repairs, and the category is never "insufficient data" |
| ValuationEngine.RecommendationMonotone | mot-checker/backend/valuation_engine.py:325-349 | a higher score with lower repairs never gives a worse recommendation |
| ValuationEngine.RecommendationExtremes | mot-checker/backend/valuation_engine.py:325-349 | highly recommended exactly when score ≥ 80 and repairs < 500; not recommended exactly when score < 40; recommended only with score ≥ 70 and repairs < 1000 |
| ValuationEngine.IdentifyRiskFactors | mot-checker/backend/valuation_engine.py:237-279 | the loop builds the risk list of the report: danger, cost, failures, major issues, then one corrosion note per recent test that has one, or the "no major risks" line alone |
| ValuationEngine.NoteRecentCorrosion | mot-checker/backend/valuation_engine.py:269-274 | the loop appends one corrosion note per test with a defect mentioning corrosion, in order |
| ValuationEngine.NoteCorrosion | mot-checker/backend/valuation_engine.py:270-274 | the inner loop, with its early exit, appends at most one corrosion note: exactly when some defect's lower-cased text contains "corrosion" |
| ValuationEngine.CorrosionNotesCount | mot-checker/backend/valuation_engine.py:269-274 | there is one corrosion note per test that has corrosion, and nothing else |
| ValuationEngine.RiskFactorsFacts | mot-checker/backend/valuation_engine.py:237-279 | the list is never empty; the fallback line appears only alone, exactly when no rule fires; there are as many corrosion notes as corroded tests among the last two |
| ValuationEngine.RuleNotesFacts | mot-checker/backend/valuation_engine.py:245-266 | the four rules before the corrosion check add neither a corrosion note nor the fallback line, and add nothing exactly when no dangerous item, average repairs of at most 500, fewer than two recent failures and no major issue |
| ValuationEngine.IdentifyPositiveFactors | mot-checker/backend/valuation_engine.py:281-313 | the method builds the positive list of the report |
| ValuationEngine.LatestNoteFacts | mot-checker/backend/valuation_engine.py:300-308 | at most one note about the latest test; "only minor advisories" needs a positive count and every defect minor/advisory |
| ValuationEngine.PositiveFactorsFacts | mot-checker/backend/valuation_engine.py:281-313 | the list is never empty; the fallback only alone; "excellent" exactly when the score is at least 80; recent passes counted 2..3; the clean-test and minor-advisory notes never both |
| ValuationEngine.ScoresOf | mot-checker/backend/valuation_engine.py:48-53 | all five sub-scores are percentages |
| ValuationEngine.CalculateValuation | mot-checker/backend/valuation_engine.py:24-106 | an empty history gives the insufficient-data result with score 0; otherwise the report holds the five scores, their weighted mean, the immediate-repair figures, a total of asking price plus average repairs, the recommendation, the summary with "Unknown" for a missing date or result, and the two factor lists |
| Registration.ValidateRegistration | mot-checker/backend/main.py:69-78 | an accepted registration matches `[A-Z0-9]{2,8}` in full and has no spaces |
| Registration.ValidateRegistrationAccepts | mot-checker/backend/main.py:69-78 | accepted exactly when the raw field has 2..8 characters, at least two of them non-spaces, all non-spaces ASCII letters or digits; too short and too long exactly for the field length; the value has the non-space count as its length |
| Registration.ValidateRegistrationIdempotent | mot-checker/backend/main.py:72-78 | validating an accepted value again gives it back unchanged |
| Registration.ValidateRegistrationAsWritten | mot-checker/backend/main.py:76-77 | the validator as written accepts what the pattern with Python's `$` matches |
| Registration.TrailingNewlineAccepted | mot-checker/backend/main.py:76 | "AB\n" is accepted as written, with the newline kept; the corrected validator refuses it |
| Registration.AsWrittenAgreesWithoutNewline | mot-checker/backend/main.py:74-77 | without a newline in the input, the validator as written and the corrected one agree |
| RateLimit.PruneIdempotent | mot-checker/backend/main.py:110-113 | pruning twice at the same time keeps the same list |
| RateLimit.PruneLater | mot-checker/backend/main.py:110-113 | pruning later never keeps more timestamps |
| RateLimit.RateLimiter.constructor | mot-checker/backend/main.py:47 | the storage starts empty, within the limit |
| RateLimit.RateLimiter.Check | mot-checker/backend/main.py:105-121 | allowed exactly when fewer than 10 of the client's timestamps are within 60 s; the client's list becomes the pruned list, plus `now` when allowed; other clients are unchanged; no client ever stores more than 10 timestamps |
| ScoreLabels.SplitJoin | mot-checker/frontend/app.js:497-501 | joining the pieces of `split` gives back the key, and no piece contains the separator |
| ScoreLabels.FormatScoreLabelPointwise | mot-checker/frontend/app.js:497-501 | the label has the key's length; each underscore becomes a space; the first character of each piece is uppercased; nothing else changes |
| Report.RfrSectionCases | mot-checker/frontend/app.js:301-312 | no block exactly for an empty list; the "no issues" note exactly when the list is not empty and no item has a listed type |
| Report.RfrPartition | mot-checker/frontend/app.js:306-307 | each list holds exactly the items of its types, in order; the lists are disjoint; with the unlisted items they count the input |
| Report.ResultBadgeClass | mot-checker/frontend/app.js:459-463 | "success" exactly for PASSED, "danger" exactly for FAILED |
| Report.RecommendationDetailsOfTags | mot-checker/frontend/app.js:465-476 | every tag the valuation engine emits gets its own label and class; any other or missing value gets the insufficient-data entry |
| Report.VerdictBadges | mot-checker/frontend/app.js:466-473 | the badge is "success" exactly for the two recommended verdicts and "danger" exactly for not recommended |
| Report.RecommendationDetailsAsWritten | mot-checker/frontend/app.js:475 | the lookup as written returns an inherited object member only for a name of the object prototype |
| Report.InheritedNameEscapesDefault | mot-checker/frontend/app.js:475 | "toString" returns an inherited member as written, while the corrected lookup gives the default entry |
| Report.LookupAgreesOffPrototype | mot-checker/frontend/app.js:465-476 | for a value that is not a prototype name, the lookup as written and the corrected one agree |
| Report.OrElse | mot-checker/frontend/app.js:210-214 | a present non-zero number is kept; a missing one and a zero both become the fallback |
| Report.FinancialDefaults | mot-checker/frontend/app.js:209-214 | missing figures show as zero; a missing or zero total shows the asking price, whatever the repairs; a zero asking price shows as zero |
| Report.EngineFiguresShown | mot-checker/frontend/app.js:209-214 | for a positive asking price, the engine's figures are shown as sent and the fallback is never used |
| Report.ScoreRowsFacts | mot-checker/frontend/app.js:397-421 | one row per score entry, in order; each caption is as long as its key, with every `_` a space and the first letter of each word upper-cased; a non-number shows as 0; the rows are percentages whenever the numeric values are |
| Report.EngineScoreRows | mot-checker/frontend/app.js:406-407 | the engine's five scores give five rows in its order, each showing its own score as a percentage |
| Report.Timeline | mot-checker/frontend/app.js:341-378 | one timeline entry per test |
| Report.TimelineFacts | mot-checker/frontend/app.js:348-370 | entry i is built from test i alone, with id "test-i", its date and its result; "pass" marker exactly for PASSED; details exactly when the test has reasons for rejection, and never the empty block; no two entries share an id |
| Report.BuildMotReport | mot-checker/frontend/app.js:133-201 | an error exactly for a missing or empty list, with the no-history message; otherwise the latest test is the first one, the total is the list's length and the timeline has one entry per test |
| Report.MotReportLatest | mot-checker/frontend/app.js:142-195 | the badge and the listed defects are the latest test's, and the timeline starts with it |
| Report.NoHistoryValuationView | mot-checker/frontend/app.js:204-288 | the engine's no-history response shows the insufficient-data label, zero figures, and no score rows or factor lists |

## Left out

- HTTP endpoints, the OAuth token fetch, the API-key check, CORS and trusted-host middleware, and the calls to the DVLA API are transport. They are not modelled.
- The client id hash (`get_client_id`, SHA-256 of address and user agent) is not modelled. A client is an opaque string key of the rate limiter.
- The wall clock (`time.time()`) becomes the `now` parameter of `RateLimit.RateLimiter.Check`. Concurrent requests sharing the dict are not modelled.
- ValuationEngine.CalculateValuation: does not model `round(x, 1)` / `round(x, 2)` on the reported scores and totals. The reported figures are the exact values before rounding, because floating-point rounding is not modelled.
- RepairCosts.CalculateTotalRepairCosts: does not model `round(total, 2)`. The totals are integer sums there, so rounding does not change them. The constant currency, disclaimer and date strings of the returned dict are left out.
- ValuationEngine.MileageScore: the date arithmetic (`strptime` on "%Y.%m.%d", days / 365.25) is the parameter `yearsBetween`. A date that does not parse is `None`, which takes the `except` path to 75.
- The odometer value is an integer in the model. The source compares whatever JSON type arrives, for example strings compared lexicographically.
- The human-readable messages of the recommendation, the risk factors and the positive factors are datatype values carrying their figures. The formatted strings with emoji and `:.2f` amounts are not modelled.
- Text.Lower and Text.Upper map ASCII letters only. Python's and JavaScript's full Unicode case mapping (for example `'ı'.upper() == 'I'`) is not modelled.
- The regular expressions of the cost table are modelled as words that must occur in order (`a.*b`). The fact that `.` does not match a newline is not modelled.
- RepairCosts.GetAllRepairCosts: the returned dict is a map, so its key order is not modelled.
- In the model, JSON `null` and a missing key are the same thing (`None`, the empty string or the empty list). The backend reads keys with `dict.get(key, default)`, which gives the default only for a missing key, so a present `null` behaves differently there:
  - ValuationEngine.CalculateValuation: a present `null` `completedDate` or `testResult` of the latest test is reported as `null` by the source. The model reports "Unknown".
  - RepairCosts.CalculateTotalRepairCosts, RepairHistory.GetRepairHistorySummary and ValuationEngine.NoteCorrosion: a present `"text": null` makes the source raise an error when it lower-cases the text. The model treats it as the empty text.
  - ValuationEngine.RecentFailuresScore, ValuationEngine.DangerousDefectsScore, ValuationEngine.EstimateImmediateRepairs, ValuationEngine.IdentifyRiskFactors, ValuationEngine.IdentifyPositiveFactors and RepairHistory.GetRepairHistorySummary: a present `null` `defects` or `rfrAndComments` list makes the source raise an error when it iterates the list. The model treats it as an empty list.
  - The browser client tests these values for truthiness, so for it `null` and absent agree with the model.
- `NaN` scores are not modelled.
- The client's HTML strings, `escapeHtml`, `formatDate`, `toLocaleString`, DOM updates, event handlers and `console.log` are rendering. The view models stop at the data each block shows.
- The vehicle make/model/colour line of the report is pass-through display. It is not modelled.
- `displayFactors` shows the factor strings it receives, in order. The view keeps the lists as received, and the markup is not modelled.
- The marketing-site script `scripts/main.js` is not part of this model.

## Findings

| source | as written | input that shows it | evidently intended | confidence | as-written member | corrected member |
|---|---|---|---|---|---|---|
| mot-checker/backend/main.py:76 | `re.match(r'^[A-Z0-9]{2,8}$', v)`: Python's `$` also matches just before a final newline, so a registration ending in a newline passes and keeps the newline | `"AB\n"` is accepted and returned as `"AB\n"` | only 2 to 8 letters and digits are accepted (`\Z` or `re.fullmatch`) | not executed | Registration.TrailingNewlineAccepted | Registration.ValidateRegistration |
| mot-checker/frontend/app.js:475 | the tag is looked up with `details[recommendation]` on a plain object, so names inherited from `Object.prototype` are found and the default is skipped | `"toString"` yields the inherited function instead of the insufficient-data entry | any value that is not one of the six tags gets the insufficient-data entry (an own-property lookup) | not executed | Report.InheritedNameEscapesDefault | Report.RecommendationDetailsOfTags |
