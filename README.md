# Fareway grocery-shopper survey, modelled in Dafny

This project models the logic of a branching grocery-shopper survey and proves
properties of it. The survey is a Next.js web app. Respondents are screened in
block 1 (ZIP code, decision maker, purchase funnel, share of wallet, switching,
income, age, household), and the quota for their segment is checked. They are
then assigned up to three retailers (R1, R2, R3) and answer blocks 2 to 8 about
them: NPS, attribute importance and performance, share-of-wallet trends,
loyalty, trips, the economy and a profile. An admin dashboard and an analysis
page summarise the collected records and export them as CSV.

The model keeps the parts that decide things: the rules, the flags, the
counters and the record layouts. It treats storage, session storage, `fetch`
and routing as inputs and outputs.

- **Derivations and reference tables** (`SegmentLogic`, `Constants`, `DeviceDetect`, `QualityFlags`):
  - the segment classifier and the income, age, household and channel collapsers;
  - the NPS category;
  - the retailer and attribute catalogues, quotas and termination messages;
  - the User-Agent classifier;
  - the six quality-control flags, including the three-part gibberish heuristic written as predicates over characters.
- **Shuffling** (`Randomize`): the in-place Fisher–Yates loop runs over an `array`. The random draws are a parameter.
- **Input widgets** (`MultiSelect`, `RankingQuestion`, `SowAllocation`, `MatrixQuestion`):
  - pure transition functions;
  - small classes for the state a widget keeps between events (drag state, phone-view page).
- **Survey pages** (`SurveyFlow`, `ScreenerPages`, `FunnelPage`, `SowPages`, `QuotaPage`, `NpsPage`, `KpcPages`, `RetroPage`, `LoyaltyPage`, `TripsPage`, `MacroPage`, `ProfilePage`):
  - Each click handler is a pure function from the page state to an `Outcome`. The outcome is ignored, an error message, a move to the next step, or the list of API requests sent and the path navigated to.
  - Each multi-step page is also a class whose fields are the page's state hooks, and whose `HandleNext` is proved equal to that function.
  - A route predicate, preserved by every click, shows that a block is saved only when every step on its route has been answered.
- **API routes** (`Respondents`, `AssignRetailers`):
  - The respondent table is a class over a map from respondent id to record.
  - `init`, `submit-block`, `terminate`, `complete` and the ZIP lookup are operations on that table.
  - In retailer assignment, the `least_fill_select` database function is an oracle over a fill-count table. It returns a member of the list it is given, or fails, and it bumps that member's count.
- **Analysis** (`AnalysisTypes`, `AnalysisDashboard`, `FilterPanel`, `QuestionFilterCard`, `Labels`, `CsvFormat`, `CsvExport`, `AdminDashboard`):
  - the row filter and the filter-state edits;
  - `countBy` and percentage text;
  - CSV quoting per section 2 of RFC 4180, with a reader that recovers every field;
  - the count-based CSV builders;
  - the admin dashboard's metrics.

Record fields are a `Value` (null, integer, string or boolean). A record is a
map from field name to value, and an absent key stands for JavaScript's
`undefined`. JavaScript behaviour that matters is written out:

- `String(v)` keys;
- falsy `||` fallbacks;
- `trim()` white space (every WhiteSpace and LineTerminator character of ECMA-262);
- `Math.round` on millisecond differences;
- `toFixed(1)` as exact rounding to tenths.

A text of repeated syllables such as `asdasdasd` is not flagged as
gibberish: it has a run of three letters, no character repeated five times in
a row, and it contains a vowel (`QualityFlags.RepeatedSyllablesNotFlagged`).

When the least-fill call for R2 fails, R2 stays empty while R3 is still drawn,
so R3 can be set without R2 (`AssignRetailers.ThirdWithoutSecond`).

## Model

| member | source | states |
|---|---|---|
| SegmentLogic.ClassifySegment | src/lib/segment-logic.ts:7-24 | funnel values 1..6 give a segment and anything else the thrown error with its message; the segment fits the funnel band, and at funnel 6 it is primary_shopper exactly when the primary store is fareway |
| SegmentLogic.ClassifySegmentExact | src/lib/segment-logic.ts:11-21 | every segment is returned for each funnel value of its band (6 with fareway, 6 without, 4-5, 2-3, 1) |
| SegmentLogic.FunnelFitsUnique | src/lib/segment-logic.ts:11-21 | the funnel bands do not overlap: two segments fitting one funnel value are equal or are the two shopper segments |
| SegmentLogic.CollapseIncomeMatchesBands | src/lib/segment-logic.ts:29-34 | 1-2, 3-4 and 5-6 map to under_50k, 50_to_100k and over_100k, both directions, and every other value to null |
| SegmentLogic.CollapseAgeMatchesBands | src/lib/segment-logic.ts:39-44 | 2-3, 4-5 and 6-7 map to under_35, 35_to_54 and 55_plus, both directions, and every other value (1 and 8 included) to null |
| SegmentLogic.CollapseHouseholdTotal | src/lib/segment-logic.ts:49-54 | the result is always one of the four types: single exactly for 1, couple exactly for 2, family exactly for 3 and 4, other exactly outside 1..4 |
| SegmentLogic.CollapseChannelTotal | src/lib/segment-logic.ts:59-63 | the result is always one of the three channels: in_store exactly for 1 and 2, hybrid exactly for 3, online exactly outside 1..3; the channel never moves back towards in-store as the answer grows |
| SegmentLogic.NpsCategoryMonotone | src/lib/segment-logic.ts:68-72 | the category is one of the three, passive exactly for 7-8, and it never falls as the score rises |
| Constants.RetailersShape | src/lib/constants.ts:6-22 | fifteen distinct retailer codes, fareway first and other last |
| Constants.Find | src/lib/constants.ts:26-32 | `find` by code: the first matching index, or none when no retailer has the code |
| Constants.GetRetailerDisplay | src/lib/constants.ts:26-28 | the display name of the retailer with that code, or the code itself when there is none |
| Constants.GetRetailerShort | src/lib/constants.ts:30-32 | the short name of the retailer with that code, or the code itself when there is none |
| Constants.KpcShape | src/lib/constants.ts:35-49 | thirteen distinct attribute codes |
| Constants.FunnelLabelsAreOneToSix | src/lib/constants.ts:52-59 | six funnel labels valued 1..6 in order |
| Constants.SegmentNameRoundTrip | src/lib/constants.ts:89-97 | segment names and segments convert both ways without loss |
| Constants.QuotaTableShape | src/lib/constants.ts:89-95 | the quota table has exactly the five segment keys, each with min below max |
| Constants.TerminationMessagesCover | src/lib/constants.ts:129-138 | messages exist for exactly S1, S2, S3, S6_PNTS, S7, S7_PNTS, quota_full and default |
| DeviceDetect.Lower | src/lib/device-detect.ts:5 | `toLowerCase` on the characters that lower to one ASCII letter (A–Z and the Kelvin sign): same length, each such character lowered, the others kept |
| DeviceDetect.LowerIdempotent | src/lib/device-detect.ts:5 | lowering twice is lowering once |
| DeviceDetect.ContainsMeaning | src/lib/device-detect.ts:8-12 | the substring test holds exactly when the pattern occurs at some position |
| DeviceDetect.DetectDeviceCaseInsensitive | src/lib/device-detect.ts:4-5 | the result does not depend on letter case |
| DeviceDetect.DetectDeviceClasses | src/lib/device-detect.ts:7-14 | a tablet word, or android without mobile, gives tablet even beside mobile; mobile exactly when a mobile word is present and neither tablet rule applies; desktop exactly when no word of either list occurs |
| QualityFlags.NonNull | src/lib/quality-flags.ts:15 | the non-null filter keeps exactly the values that are present, and no null |
| QualityFlags.NonNullInOrder | src/lib/quality-flags.ts:15 | the filter keeps the present values in the input's order and with their repetitions: as entries, the result is a subsequence of the input |
| QualityFlags.NonNullLength | src/lib/quality-flags.ts:15-16 | the filtered list is as long as the number of present answers |
| QualityFlags.AllIdenticalMeaning | src/lib/quality-flags.ts:14-18 | a list is straight-lined exactly when it holds at least two present answers and every two present answers are equal |
| QualityFlags.HasLetterRunMeaning | src/lib/quality-flags.ts:22 | `/[a-zA-Z]{3,}/` matches exactly when three ASCII letters stand together somewhere |
| QualityFlags.HasRepeatRunMeaning | src/lib/quality-flags.ts:23 | `/(.)\1{4,}/` matches exactly when one character (other than a line terminator) stands five times in a row somewhere |
| QualityFlags.LettersOnly | src/lib/quality-flags.ts:24 | stripping non-letters keeps exactly the ASCII letters of the text and nothing else |
| QualityFlags.LettersOnlyCounts | src/lib/quality-flags.ts:24-25 | the strip keeps each ASCII letter as many times as the text has it and drops every other character, so `stripped.length` is the text's letter count |
| QualityFlags.LettersOnlyInOrder | src/lib/quality-flags.ts:24 | the strip keeps the letters in the text's order: its result is a subsequence of the text |
| QualityFlags.LettersOnlyKeepsLetters | src/lib/quality-flags.ts:24 | a text made of letters only is left as it is by the strip |
| QualityFlags.IsGibberishMeaning | src/lib/quality-flags.ts:20-27 | a missing or shorter-than-five text is never gibberish; otherwise gibberish exactly when no three letters stand together, or a character repeats five times, or at least five letters remain and none is a vowel |
| QualityFlags.RepeatedSyllablesNotFlagged | src/lib/quality-flags.ts:22-26 | "asdasdasd" is not flagged: it has real-word letter runs, no five-fold repeat, and vowels |
| QualityFlags.FiveFoldRepeatFlagged | src/lib/quality-flags.ts:23 | "aaaaa" is flagged by the repeat rule |
| QualityFlags.ConsonantsFlagged | src/lib/quality-flags.ts:24-26 | any text of five or more consonant letters is flagged |
| QualityFlags.FlagKeysMatchCatalogue | src/lib/quality-flags.ts:33-46 | the thirteen K2 attributes are the catalogue's attribute codes in order, and each K1 key is `k1_imp_` before the attribute at the same position |
| QualityFlags.K1KeysArePrefixed | src/lib/quality-flags.ts:33-46 | the K1 list and the attribute list line up key for key under the `k1_imp_` prefix |
| QualityFlags.Lookup | src/lib/quality-flags.ts:39 | one read of the respondent per key, in the keys' order |
| QualityFlags.ComputeQualityFlags | src/lib/quality-flags.ts:29-65 | every flag is 0 or 1; speeder exactly for a duration under 180; K1 straight-lining exactly for identical K1 answers; K2 straight-lining exactly when one of the three retailer rows is identical; NPS gibberish exactly when one of the three verbatims is; L1a and L2a exactly when their verbatim is |
| Randomize.SwapIndex | src/lib/randomize.ts:16 | `Math.floor(Math.random() * (i + 1))` picks an index no greater than i |
| Randomize.Swap | src/lib/randomize.ts:17 | the destructuring swap exchanges the two positions and keeps every other one |
| Randomize.SwapPermutes | src/lib/randomize.ts:17 | a swap neither loses nor duplicates an item |
| Randomize.Shuffled | src/lib/randomize.ts:28-31 | the list after the loop has come down to index i has the input's length |
| Randomize.ShuffledPermutes | src/lib/randomize.ts:28-31 | every intermediate state of the loop is a permutation of the input |
| Randomize.FisherYates | src/lib/randomize.ts:15-18 | the Fisher-Yates pass returns a permutation of its input, of the same length |
| Randomize.LoopStep | src/lib/randomize.ts:29-30 | one iteration, exchanging positions i and j, moves the loop's state from index i to index i - 1 |
| Randomize.ShortListUnchanged | src/lib/randomize.ts:28 | a list of at most one item draws nothing and comes back unchanged |
| Randomize.ShuffleInPlace | src/lib/randomize.ts:28-31 | the in-place loop leaves the array holding the Fisher-Yates result for the draws, a permutation of the old contents |
| Randomize.Shuffle | src/lib/randomize.ts:26-33 | the copy is shuffled and returned: a permutation of the input, the input itself untouched |
| Randomize.Filter | src/lib/randomize.ts:11-12 | each filter keeps only items of the wanted anchoring |
| Randomize.FilterSplits | src/lib/randomize.ts:11-12 | the two filters together hold every item exactly once |
| Randomize.RandomizeWithAnchors | src/lib/randomize.ts:10-21 | the free items, shuffled, come first and the anchored items follow in their original order; the result is a permutation of the input |
| Labels.RetailerLabelsCover | src/components/analysis/constants/labels.ts:3-13 | the dashboard's retailer list equals the survey catalogue's codes, in order, and every code has a label |
| Labels.LabelFor | src/components/analysis/csvExport.ts:45 | the label shown for a value is its non-empty entry in the label table, or the value itself when there is no table or no non-empty entry |
| Labels.Tenths | src/components/analysis/constants/labels.ts:78 | `(n / total * 100).toFixed(1)` in tenths: the nearest tenth of the percentage, halves rounded up |
| Labels.PctGuards | src/components/analysis/constants/labels.ts:77-79 | a zero total gives "0.0"; with a positive total, none of it gives "0.0" and all of it "100.0" |
| Labels.Add | src/components/analysis/constants/labels.ts:92 | counting a key keeps the keys in first-seen order and appends a key seen for the first time |
| Labels.AddCounts | src/components/analysis/constants/labels.ts:92 | counting a key adds one to that key only and to the total, and keeps every count positive |
| Labels.CountByMeaning | src/components/analysis/constants/labels.ts:86-96 | each key's count is the number of rows whose non-blank field reads as that key; the counts sum to the non-blank rows, and every listed key has a positive count |
| Labels.NumberAndStringShareBucket | src/components/analysis/constants/labels.ts:91 | the number 1 and the string "1" fall in one bucket, because keys are `String(v)` |
| Labels.CountBy | src/components/analysis/constants/labels.ts:86-96 | the `forEach` loop builds exactly the counts of the specification |
| MultiSelect.NonExclusive | src/components/survey/MultiSelect.tsx:29-32 | the filter keeps exactly the chosen values that are not exclusive options, and keeps them distinct |
| MultiSelect.HandleToggle | src/components/survey/MultiSelect.tsx:17-40 | an exclusive option clears everything (when chosen) or becomes the only choice; a plain option drops the exclusive choices and is removed if chosen, else appended unless the limit is reached, in which case nothing is emitted |
| MultiSelect.ToggleKeepsDistinct | src/components/survey/MultiSelect.tsx:17-40 | a click never makes a value appear twice |
| MultiSelect.ToggleDropsExclusive | src/components/survey/MultiSelect.tsx:28-39 | after a click on a plain option no exclusive option stays chosen |
| MultiSelect.FirstOptionDecides | src/components/survey/MultiSelect.tsx:30-31 | with distinct option values, `find` reports the clicked option's own exclusivity |
| MultiSelect.ToggleTwiceRestores | src/components/survey/MultiSelect.tsx:34-39 | choosing a plain option and clicking it again gives back the earlier choices |
| CsvFormat.EscapeCsv | src/components/analysis/csvExport.ts:11-17 | a field without comma, quote or newline is kept as it is; any other is wrapped in quotes |
| CsvFormat.Records | src/components/analysis/csvExport.ts:19-23 | the header record first, then one record per row, in order, each cell as its string |
| CsvFormat.FieldRoundTrip | src/components/analysis/csvExport.ts:11-17 | reading an escaped field back, as section 2 of RFC 4180 reads it, gives the original text |
| CsvFormat.QuotedFieldRoundTrip | src/components/analysis/csvExport.ts:13-15 | a field holding a comma, quote or line feed is quoted with its quotes doubled, and reads back as the original text |
| CsvFormat.PlainFieldRoundTrip | src/components/analysis/csvExport.ts:16 | a field with none of those characters is written as is and reads back up to the next comma or line feed |
| CsvFormat.RecordRoundTrip | src/components/analysis/csvExport.ts:20-21 | reading a comma-joined record of escaped fields gives back the fields |
| CsvFormat.CsvRoundTrip | src/components/analysis/csvExport.ts:19-23 | reading the newline-joined records gives back every record |
| CsvFormat.ToCsvStringRoundTrip | src/components/analysis/csvExport.ts:19-23 | the CSV text reads back as the header and the rows' cell strings |
| CsvExport.SortDesc | src/components/analysis/csvExport.ts:42 | the sort returns a permutation of its input |
| CsvExport.SortDescSorted | src/components/analysis/csvExport.ts:42 | the sort's result is in descending order of the key and a permutation of the input |
| CsvExport.FrequencyCsvOrder | src/components/analysis/csvExport.ts:39-51 | one row per bucket in descending count order, then the total row with the non-blank count and 100.0% |
| CsvExport.FrequencyCsvBuckets | src/components/analysis/csvExport.ts:40-49 | every bucket has its row (label, count, share of non-blank rows) and every body row is some bucket's row |
| CsvExport.FunnelRetailersMeaning | src/components/analysis/csvExport.ts:54 | the funnel table lists the fourteen catalogue retailers other than "other" |
| CsvExport.FunnelTallies | src/components/analysis/csvExport.ts:58-62 | six counts, the v-th counting the rows whose funnel answer for the retailer is v |
| CsvExport.FunnelTalliesBounded | src/components/analysis/csvExport.ts:58-62 | a row counts towards at most one stage, so the six counts sum to at most the rows |
| CsvExport.CountFunnel | src/components/analysis/csvExport.ts:57-62 | the `forEach` loop computes exactly the six tallies |
| CsvExport.BuildFunnelCsv | src/components/analysis/csvExport.ts:53-70 | the header is Retailer, the six stage names and the 3-month share; one row per retailer, in catalogue order, from its tallies over all rows |
| CsvExport.AddPointsCounts | src/components/analysis/csvExport.ts:237-256 | awarding points to a key raises that key's score and the total by the points and nothing else |
| CsvExport.TallyTotal | src/components/analysis/csvExport.ts:234-239 | the scores sum to the points the rows award |
| CsvExport.Tally | src/components/analysis/csvExport.ts:234-239 | the nested `forEach` loops build exactly the tally of the specification |
| CsvExport.BuildBestValueCsv | src/components/analysis/csvExport.ts:233-246 | one row per mentioned retailer in descending mention order, each share taken over the rows with a first pick |
| CsvExport.BestValueMentions | src/components/analysis/csvExport.ts:236-240 | the mentions sum to the truthy first picks plus the truthy second picks |
| CsvExport.BestValuePoints | src/components/analysis/csvExport.ts:236-238 | each row awards one point per truthy pick |
| CsvExport.RankPoints | src/components/analysis/csvExport.ts:252-256 | ranks 1, 2 and 3 earn 3, 2 and 1 points, in each list, when filled |
| CsvExport.UnionKeys | src/components/analysis/csvExport.ts:259 | the store list holds exactly the stores scored in either list |
| CsvExport.BuildPriceRankCsv | src/components/analysis/csvExport.ts:248-265 | one row per store scored in either list, with both weighted scores (0 when absent), in descending order of the stable score |
| CsvExport.ParseQuestionType | src/components/analysis/csvExport.ts:348-380 | a type string is recognised only as the name of a question type |
| CsvExport.QuestionTypeRoundTrip | src/components/analysis/csvExport.ts:348-380 | every question type's name is recognised as that type, and an unrecognised string is the name of none |
| CsvExport.ExportKinds | src/components/analysis/csvExport.ts:348-381 | an unknown type exports nothing (the `default: return`), the categorical, funnel, best-value and price-rank types export CSV text, and every other known type is one whose builder lies outside the model |
| CsvExport.ExportQuestionCsv | src/components/analysis/csvExport.ts:345-386 | the `switch` as a method: an unknown type produces nothing; "categorical" produces the frequency table's CSV, "funnel_matrix" the funnel table's, "custom_best_value" the best-value table's and "custom_price_rank" the price-rank table's; the other known types are exactly the ones reported as not modelled |
| RankingQuestion.GetRank | src/components/survey/RankingQuestion.tsx:33-36 | 0 exactly for an unranked item; otherwise the 1-based position of the item's first occurrence |
| RankingQuestion.HandleTap | src/components/survey/RankingQuestion.tsx:39-48 | a ranked item is removed; an unranked one is appended at the next rank when fewer than the maximum are ranked, and nothing is emitted otherwise |
| RankingQuestion.HandleRemoveRank | src/components/survey/RankingQuestion.tsx:65-67 | the item is gone and every other ranked item stays |
| RankingQuestion.RemoveMovesUp | src/components/survey/RankingQuestion.tsx:43-66 | removing an item moves each item ranked below it up by one and leaves those above it in place |
| RankingQuestion.TapTwiceRestores | src/components/survey/RankingQuestion.tsx:39-48 | tapping an unranked item twice, with room for it, gives back the ranking |
| RankingQuestion.UnrankedItems | src/components/survey/RankingQuestion.tsx:69 | the tray holds exactly the items not yet ranked |
| RankingQuestion.DroppedShape | src/components/survey/RankingQuestion.tsx:58-61 | the dragged item is taken out and put in at the slot (at the end when the slot is past it), the others keep their order, and the list is cut to the maximum rank |
| RankingQuestion.DroppedOnce | src/components/survey/RankingQuestion.tsx:58-61 | after a drop the dragged item is ranked at most once, and a ranking without repeats stays without repeats |
| RankingQuestion.DragState.HandleDragStart | src/components/survey/RankingQuestion.tsx:51-53 | the dragged item is remembered |
| RankingQuestion.DragState.HandleDrop | src/components/survey/RankingQuestion.tsx:55-63 | with no (or an empty) dragged item nothing happens; otherwise the new ranking is emitted and the dragged item is cleared |
| SowAllocation.Clamp | src/components/survey/SOWAllocation.tsx:30 | the stored share is always in 0..100: the entry itself when in range, 0 for a missing (NaN) or negative entry, 100 above |
| SowAllocation.Put | src/components/survey/SOWAllocation.tsx:31 | the spread sets one store's share and leaves every other store's as it was |
| SowAllocation.HandleChange | src/components/survey/SOWAllocation.tsx:29-32 | the changed store holds the clamped entry, every other store keeps its share, and no store is listed twice |
| SowAllocation.ChangeMovesTotal | src/components/survey/SOWAllocation.tsx:26-32 | the running total moves by exactly the new clamped share minus the store's old share |
| SowAllocation.PutTotal | src/components/survey/SOWAllocation.tsx:26-31 | setting one share changes the total by the difference for that store |
| SowAllocation.TotalHint | src/components/survey/SOWAllocation.tsx:52-56 | no hint at exactly 100 or at 0 and below; otherwise the remaining or the excess amount, which with the total makes 100 |
| SowAllocation.FillRemainingCompletes | src/components/survey/SOWAllocation.tsx:26-56 | typing the shown remaining amount into an empty store makes the allocation valid |
| MatrixQuestion.HandleChange | src/components/survey/MatrixQuestion.tsx:42-44 | the row's answer becomes the column's value and every other row keeps its answer |
| MatrixQuestion.TotalGroups | src/components/survey/MatrixQuestion.tsx:100 | `Math.ceil`: the fewest groups of the given size that hold all rows |
| MatrixQuestion.CurrentRows | src/components/survey/MatrixQuestion.tsx:101-103 | the shown rows are the group's slice of the rows, never more than the group size |
| MatrixQuestion.GroupsCoverRows | src/components/survey/MatrixQuestion.tsx:100-103 | paging through every group shows every row once, in order |
| MatrixQuestion.GroupsPrefix | src/components/survey/MatrixQuestion.tsx:100-103 | the first g groups show exactly the first g times size rows |
| MatrixQuestion.Pager.Prev | src/components/survey/MatrixQuestion.tsx:116 | the group index goes back one and never below 0, staying on a group |
| MatrixQuestion.Pager.Next | src/components/survey/MatrixQuestion.tsx:124 | the group index goes forward one and never past the last group, staying on a group |
| MatrixQuestion.Pager.Goto | src/components/survey/MatrixQuestion.tsx:163-175 | the i-th dot puts group i on screen, which is one of the groups |
| AnalysisTypes.FindDef | src/components/analysis/AnalysisDashboard.tsx:55 | `find` by id: a definition with that id when there is one, nothing exactly when no definition has it |
| AnalysisTypes.Toggle | src/components/analysis/FilterPanel.tsx:42 | a chosen value is removed and every other kept; an unchosen one is appended |
| AnalysisTypes.ToggleTwice | src/components/analysis/FilterPanel.tsx:42 | toggling twice gives back the same values, and the very same list when the value was not chosen |
| AnalysisDashboard.FilteredData | src/components/analysis/AnalysisDashboard.tsx:44-88 | the shown rows are exactly the rows passing every quick filter and every question filter, in their original order |
| AnalysisDashboard.UnfilteredKeepsAll | src/components/analysis/AnalysisDashboard.tsx:47-104 | with no quick value chosen and no question filter, every row is shown |
| AnalysisDashboard.NumericBlankAndNaN | src/components/analysis/AnalysisDashboard.tsx:63-66 | a blank numeric filter passes every row; a set one rejects a row whose field is not a number |
| AnalysisDashboard.NumericCompares | src/components/analysis/AnalysisDashboard.tsx:63-77 | a filled numeric box on a row whose field is a number keeps the row exactly when the operator (default gte) compares that number with the bounds |
| AnalysisDashboard.BetweenMeaning | src/components/analysis/AnalysisDashboard.tsx:72-76 | "between" keeps a row from the lower bound up, and up to the upper bound only when that is a number |
| AnalysisDashboard.NeutralFilterKeepsData | src/components/analysis/AnalysisDashboard.tsx:54-86 | adding a question filter that every row passes shows the same rows |
| AnalysisDashboard.UnknownQuestionKeepsData | src/components/analysis/AnalysisDashboard.tsx:55-56 | a question filter whose id has no definition filters nothing |
| FilterPanel.PutValues | src/components/analysis/FilterPanel.tsx:43 | `{ ...prev, [key]: next }`: that key gets the new list and every other key keeps its own |
| FilterPanel.ToggleFilter | src/components/analysis/FilterPanel.tsx:39-45 | the key's chosen values are toggled and every other key's are kept |
| FilterPanel.ToggleFilterTwice | src/components/analysis/FilterPanel.tsx:39-45 | clicking a chip twice restores that key's values and touches no other key |
| FilterPanel.ClearAll | src/components/analysis/FilterPanel.tsx:47 | after clearing, nothing is filtered |
| FilterPanel.DemoCountZero | src/components/analysis/FilterPanel.tsx:49 | the quick-filter count is 0 exactly when no key has a chosen value |
| FilterPanel.QfActiveCount | src/components/analysis/FilterPanel.tsx:50-56 | counts the active question filters: at most their number, and 0 exactly when none is active |
| FilterPanel.InactivePasses | src/components/analysis/FilterPanel.tsx:50-56 | a question filter that is not counted as active lets every row through the dashboard |
| FilterPanel.Ids | src/components/analysis/FilterPanel.tsx:59 | the set of ids holds exactly the ids of the question filters |
| FilterPanel.AvailableQuestions | src/components/analysis/FilterPanel.tsx:59-60 | the picker offers exactly the definitions not yet in use |
| FilterPanel.AddQuestionFilter | src/components/analysis/FilterPanel.tsx:65-69 | a fresh filter for the definition is appended after the existing ones and its id joins the used ids |
| FilterPanel.AddedFilterIsNeutral | src/components/analysis/FilterPanel.tsx:65-69 | the added definition leaves the picker, the active count is unchanged, and the shown rows are the same |
| FilterPanel.ActiveCountSnoc | src/components/analysis/FilterPanel.tsx:50-56 | one more filter adds one to the active count exactly when it is active |
| FilterPanel.UpdateQf | src/components/analysis/FilterPanel.tsx:71-73 | the filter at the index is replaced and every other kept |
| FilterPanel.RemoveQf | src/components/analysis/FilterPanel.tsx:75-77 | the filter at the index is dropped and the rest close up in order; an index out of range changes nothing |
| FilterPanel.AddThenRemove | src/components/analysis/FilterPanel.tsx:65-77 | removing the filter just added gives back the filters |
| QuestionFilterCard.StrLeTotal | src/components/analysis/QuestionFilterCard.tsx:18 | the default `sort` order on strings compares any two strings |
| QuestionFilterCard.SortByString | src/components/analysis/QuestionFilterCard.tsx:18 | the sort returns a permutation of the values |
| QuestionFilterCard.SortByStringSorted | src/components/analysis/QuestionFilterCard.tsx:18 | the sort's result is in string order |
| QuestionFilterCard.DistinctTruthy | src/components/analysis/QuestionFilterCard.tsx:18 | `new Set` over the truthy values: each truthy field value once, in first-seen order |
| QuestionFilterCard.DynamicValues | src/components/analysis/QuestionFilterCard.tsx:18 | exactly the truthy values some row holds in the field, each once |
| QuestionFilterCard.DynamicValuesSorted | src/components/analysis/QuestionFilterCard.tsx:18 | the dynamic values are in string order |
| QuestionFilterCard.DynamicOptions | src/components/analysis/QuestionFilterCard.tsx:19 | one chip per dynamic value, in order, showing its label or the value itself |
| QuestionFilterCard.ClickChip | src/components/analysis/QuestionFilterCard.tsx:32-35 | a chip click toggles its value and changes nothing else in the filter |
| QuestionFilterCard.ClickBinary | src/components/analysis/QuestionFilterCard.tsx:98 | clicking the chosen option clears it, clicking another chooses it; nothing else changes |
| QuestionFilterCard.ClickBinaryTwice | src/components/analysis/QuestionFilterCard.tsx:98 | two clicks on one option clear it, or restore the filter when it was already chosen |
| AdminDashboard.StatusCount | src/app/api/admin/dashboard/route.ts:30-32 | the rows with that completion status, never more than all rows |
| AdminDashboard.CountStatus | src/app/api/admin/dashboard/route.ts:30-32 | the loop counts exactly the rows with that status |
| AdminDashboard.StatusCountsWithinTotal | src/app/api/admin/dashboard/route.ts:29-32 | complete, terminated and in-progress together never exceed the total |
| AdminDashboard.BucketOf | src/app/api/admin/dashboard/route.ts:36-69 | which rows each breakdown counts: termination points only terminated rows, devices every row, segments rows with a segment, income and age completed rows with a value |
| AdminDashboard.BreakdownMeaning | src/app/api/admin/dashboard/route.ts:35-69 | each bucket's count is the number of rows falling in it, the counts sum to the rows counted, and every listed bucket is positive |
| AdminDashboard.BreakdownTotals | src/app/api/admin/dashboard/route.ts:35-69 | the termination breakdown sums to the terminated count, the device breakdown to the total, and income and age to at most the completed count |
| AdminDashboard.UnknownBuckets | src/app/api/admin/dashboard/route.ts:39-54 | a terminated row without a termination point, and a row without a device, count as "unknown" |
| AdminDashboard.CountBuckets | src/app/api/admin/dashboard/route.ts:35-69 | the `forEach` loop builds exactly the breakdown of the specification |
| AdminDashboard.FlagCountWithinComplete | src/app/api/admin/dashboard/route.ts:80-87 | a QC flag is counted among completed rows only, so never more than the completed count |
| AdminDashboard.CountFlag | src/app/api/admin/dashboard/route.ts:81-86 | the loop counts exactly the completed rows whose flag is 1 |
| AdminDashboard.Durations | src/app/api/admin/dashboard/route.ts:72-74 | the truthy durations of completed rows, at most one per completed row |
| AdminDashboard.RoundedMean | src/app/api/admin/dashboard/route.ts:76 | `Math.round(sum / n)`: the mean rounded to the nearest whole number, halves up |
| AdminDashboard.AvgDuration | src/app/api/admin/dashboard/route.ts:75-77 | 0 with no durations, otherwise the rounded mean of the durations |
| AdminDashboard.AverageDuration | src/app/api/admin/dashboard/route.ts:72-77 | the loop computes the rounded mean duration of the completed rows |
| AdminDashboard.QcFlagsSpec | src/app/api/admin/dashboard/route.ts:80-87 | one count per QC flag column, six in all |
| AdminDashboard.CountQcFlags | src/app/api/admin/dashboard/route.ts:80-87 | the loop builds exactly the six flag counts |
| AdminDashboard.Dashboard | src/app/api/admin/dashboard/route.ts:8-113 | no admin cookie gives 401; no respondent list gives the quota rows with empty metrics; otherwise the quota rows and the fill counts as selected, with the metrics of the specification |
| AdminDashboard.MetricsConsistent | src/app/api/admin/dashboard/route.ts:29-87 | the metrics agree with each other: breakdown totals match their counts, status counts fit the total, and flag counts fit the completed count |
| Respondents.RoundToSeconds | src/app/api/survey/terminate/route.ts:29 | `Math.round(ms / 1000)`: the nearest whole second, halves up |
| Respondents.RoundToSecondsNearest | src/app/api/survey/complete/route.ts:35 | whole seconds come back exactly and every duration is within half a second of its rounding |
| Respondents.DurationSeconds | src/app/api/survey/complete/route.ts:33-35 | a number exactly when the start is a timestamp, and then the elapsed time rounded to seconds |
| Respondents.SubmitPatch | src/app/api/survey/submit-block/route.ts:13-18 | the update holds the block's fields, with current_block overridden only by a truthy value |
| Respondents.TerminatePatch | src/app/api/survey/terminate/route.ts:12-30 | status terminated, the termination point and the end time always override the block's fields; the duration is set when the record was found; every other field of the block is kept |
| Respondents.CompleteSpeederUsesNewDuration | src/app/api/survey/complete/route.ts:33-39 | the speeder flag is set by the duration just computed: exactly when less than 179.5 seconds passed |
| Respondents.RespondentTable.Update | src/app/api/survey/submit-block/route.ts:20-23 | an update merges the patch into the record with that id when there is one, and fails only when the store fails |
| Respondents.RespondentTable.Init | src/app/api/survey/init/route.ts:5-53 | a missing id or phase gives 400; an existing id gives 409; otherwise the new row is inserted, or a unique violation gives 409 and any other failure 500, leaving the table unchanged |
| Respondents.RespondentTable.SubmitBlock | src/app/api/survey/submit-block/route.ts:4-35 | a missing id or block gives 400; otherwise the patch is merged into the record, with 500 and no change on a store failure; the prior status is not checked |
| Respondents.RespondentTable.Terminate | src/app/api/survey/terminate/route.ts:4-47 | a missing id or termination point gives 400; otherwise the terminate patch is merged, with the duration from the stored start exactly when the start could be read; a failed update gives 500 and changes nothing |
| Respondents.RespondentTable.MergeLastBlock | src/app/api/survey/complete/route.ts:13-19 | a non-empty last block is merged into an existing row unless the merge fails; an empty block, a failed merge or an unknown id leaves the table unchanged |
| Respondents.RespondentTable.Complete | src/app/api/survey/complete/route.ts:5-63 | a missing id gives 400; an unknown id, or a failed read of the record, gives 404; the last block is merged first, and stays merged when the read or the final update fails; then status complete, the duration and the six QC flags are written and the duration returned |
| Respondents.ZipLookup | src/app/api/zip-lookup/route.ts:5-27 | valid exactly for a five-digit code found in the table, with its DMA and state; a code that is not five digits gives the format error; a five-digit code that is missing or whose lookup fails gives a bare invalid answer |
| SurveyFlow.Advance | src/app/survey/block6/page.tsx:97-109 | a save is one submit-block call carrying the next current_block, followed by the route of that block's page |
| SurveyFlow.Terminate | src/app/survey/block1/s2/page.tsx:31-43 | a termination is one terminate call with the point and the answers, followed by the terminated page for that point |
| SurveyFlow.PagePaths | src/app/survey/block8/page.tsx:127-132 | the route a page pushes is the page of the current_block it has just saved, "complete" leading to the thank-you page |
| SurveyFlow.ScreenerPaths | src/app/survey/block1/s4a/page.tsx:66-77 | each screener current_block names the screener page that is pushed next |
| SurveyFlow.LaterPaths | src/app/survey/block6/page.tsx:97-109 | each later block's current_block names the page pushed next, and "complete" the thank-you page |
| SurveyFlow.FilledMeaning | src/app/survey/block1/s4a/page.tsx:60-64 | filling `data` key by key gives each key its own value and leaves every other key as it was |
| SurveyFlow.Fill | src/app/survey/block1/s4a/page.tsx:60-64 | the `forEach` loop that fills `data` builds exactly the filled record |
| SurveyFlow.Missing | src/app/survey/block1/s3/page.tsx:42 | the unanswered rows: exactly the rows without an answer, in row order, empty exactly when every row is answered |
| SurveyFlow.MissingMultiset | src/app/survey/block3/k1/page.tsx:41 | each unanswered row appears as often as in the row list |
| SurveyFlow.MissingCountOrderFree | src/app/survey/block3/k1/page.tsx:20-41 | the number of unanswered rows does not depend on the order the rows are shown in |
| SurveyFlow.AtLevel | src/app/survey/block1/s3/page.tsx:101-103 | the rows answered with the given level, in row order |
| SurveyFlow.AnswersOrNull | src/app/survey/block8/page.tsx:114-116 | each key's answer, or null when unanswered |
| SurveyFlow.Keyed | src/app/survey/block1/s3/page.tsx:64-66 | the column names: prefix, code and suffix, one per code |
| SurveyFlow.KeyedDistinct | src/app/survey/block1/s3/page.tsx:64-66 | distinct codes give distinct column names |
| SurveyFlow.NumberedInjective | src/app/survey/block3/k2/page.tsx:82-87 | numbered column names for positions 1 to 9 never collide across positions or fields |
| SurveyFlow.WithText | src/app/survey/block8/page.tsx:117-119 | a non-blank text is saved trimmed under its key; a blank one adds nothing; every other key is kept |
| SurveyFlow.Session.SetItem | src/app/survey/block1/s8/page.tsx:98-100 | `sessionStorage.setItem` replaces that key's item and keeps every other |
| SurveyFlow.AssignedRetailers | src/app/survey/block2/page.tsx:29-38 | the non-empty r1, r2 and r3, each once, in slot order, with the slot it came from |
| SurveyFlow.PositionNotSlot | src/app/survey/block2/page.tsx:82-89 | with r2 empty, the r3 retailer is the second in the list and its answers are saved under position 2 |
| FunnelPage.FunnelDataMeaning | src/app/survey/block1/s3/page.tsx:87-91 | the save holds every retailer's funnel answer under `funnel_<code>`, and the other-store text exactly when it is not blank |
| FunnelPage.StoresLast3m | src/app/survey/block1/s3/page.tsx:101-103 | exactly the retailers answered 6 (shopped in the last three months), in catalogue order |
| FunnelPage.FunnelNumbers | src/app/survey/block1/s3/page.tsx:94-97 | the session copy holds exactly the catalogue retailers' answers |
| FunnelPage.S3Outcome | src/app/survey/block1/s3/page.tsx:40-123 | unanswered retailers give the count message; an answered "other" needs two characters of text; otherwise a respondent with no retailer at 5 or more terminates at S3 and anyone else saves and goes to s4 |
| FunnelPage.OtherAloneKeepsRespondent | src/app/survey/block1/s3/page.tsx:55-57 | a recent answer for "other" alone is enough to continue |
| FunnelPage.S3Submit | src/app/survey/block1/s3/page.tsx:40-123 | the click gives the outcome of the specification and, on continuing, stores the funnel answers and the last-three-month stores in the session |
| KpcPages.K1Rows | src/app/survey/block3/k1/page.tsx:20-32 | the rows are a shuffle of the thirteen attributes, and that order is stored as k1_order |
| KpcPages.ShuffledRowsCoverAttributes | src/app/survey/block3/k1/page.tsx:20-26 | the shuffled rows show every attribute and nothing else |
| KpcPages.K1Outcome | src/app/survey/block3/k1/page.tsx:40-67 | unrated rows give the count message; when all are rated the block is saved and the page goes to k2 |
| KpcPages.K1OrderIrrelevant | src/app/survey/block3/k1/page.tsx:41-54 | the click's outcome does not depend on the shuffled order |
| KpcPages.K1KeysAreFlagged | src/app/survey/block3/k1/page.tsx:52-54 | the saved K1 columns are the ones the straight-lining flag reads |
| KpcPages.K1DataMeaning | src/app/survey/block3/k1/page.tsx:51-54 | a save holds every attribute's rating under `k1_imp_<code>` and nothing else |
| KpcPages.K1Submit | src/app/survey/block3/k1/page.tsx:40-67 | the handler, with its `forEach` loop, gives the outcome of the specification |
| KpcPages.K2RowKeys | src/app/survey/block3/k2/page.tsx:85-87 | one column per attribute for a retailer position: `k2_perf_r<num>_<code>` |
| KpcPages.K2RowKeysDistinct | src/app/survey/block3/k2/page.tsx:85-87 | a position's columns are distinct |
| KpcPages.K2RowMeaning | src/app/survey/block3/k2/page.tsx:84-87 | one position's loop writes each attribute's rating or null and touches no other position |
| KpcPages.K2DataValues | src/app/survey/block3/k2/page.tsx:81-88 | every position's column holds that retailer's rating, or null |
| KpcPages.K2DataKeys | src/app/survey/block3/k2/page.tsx:81-88 | the save holds no column other than a position's attribute columns |
| KpcPages.K2FlagsReadGrid | src/app/survey/block3/k2/page.tsx:81-88 | the K2 straight-lining flag reads back exactly the ratings given to each retailer |
| KpcPages.K2Next | src/app/survey/block3/k2/page.tsx:59-101 | no retailer does nothing; unrated attributes give the count message; a rated retailer moves on, and the last one saves and goes to block 4 |
| KpcPages.K2NextKeepsRated | src/app/survey/block3/k2/page.tsx:59-74 | the page only moves past rated retailers, so a save comes after every retailer is fully rated |
| KpcPages.K2SaveHasNoNulls | src/app/survey/block3/k2/page.tsx:81-88 | a save reached that way holds a number in every position's columns |
| KpcPages.K2Page.constructor | src/app/survey/block3/k2/page.tsx:25-43 | the retailers are the non-empty slots and the attribute order is k1's, or the catalogue's when none was stored |
| KpcPages.K2Page.SetValues | src/app/survey/block3/k2/page.tsx:46 | the grid edits the current retailer's ratings only |
| KpcPages.K2Page.HandleNext | src/app/survey/block3/k2/page.tsx:59-105 | the click applied to the page: the outcome, index and error of the specification |
| KpcPages.BuildK2Data | src/app/survey/block3/k2/page.tsx:81-88 | the nested `forEach` loops build exactly the save record |
| ScreenerPages.DigitsOnly | src/app/survey/block1/s1/page.tsx:104 | `replace(/\D/g, '')` keeps only digits and leaves an all-digit entry unchanged |
| ScreenerPages.SanitizeZip | src/app/survey/block1/s1/page.tsx:104 | the ZIP box holds at most five digits |
| ScreenerPages.SanitizeZipMeaning | src/app/survey/block1/s1/page.tsx:104-118 | sanitising twice is sanitising once; the box holds a valid ZIP exactly when it has five characters; a short all-digit entry is kept |
| ScreenerPages.S1Submit | src/app/survey/block1/s1/page.tsx:30-81 | anything but five digits shows the ZIP message; a ZIP the lookup rejects terminates at S1; an accepted one saves the ZIP and its DMA and goes to s2 |
| ScreenerPages.S1WithLookup | src/app/survey/block1/s1/page.tsx:42-81 | with the lookup route's reply, a ZIP in the table continues with its DMA, and a missing ZIP or a failed lookup terminates |
| ScreenerPages.S2Submit | src/app/survey/block1/s2/page.tsx:21-58 | no choice shows the message; choice 3 terminates at S2; any other saves the choice and goes to s3 |
| ScreenerPages.S5Submit | src/app/survey/block1/s5/page.tsx:20-41 | no choice shows the message; otherwise the choice is saved and the page goes to s5a exactly for 1, to s6 otherwise |
| ScreenerPages.RetailerItems | src/app/survey/block1/s5a/page.tsx:18-24 | the options are the catalogue's retailers in order, only "other" anchored |
| ScreenerPages.OnlyLastAnchored | src/lib/randomize.ts:11-12 | with only the last item anchored, the split puts it alone at the end and keeps the others in order |
| ScreenerPages.RetailerRows | src/app/survey/block1/s5a/page.tsx:18-25 | the shown options are the fifteen retailers in some order, with "other" last |
| ScreenerPages.SwitchedFlags | src/app/survey/block1/s5a/page.tsx:45-47 | one flag per catalogue retailer |
| ScreenerPages.NoCodeIsOtherText | src/app/survey/block1/s5a/page.tsx:46-49 | no retailer code collides with the other-text column |
| ScreenerPages.SwitchedDataMeaning | src/app/survey/block1/s5a/page.tsx:44-50 | every retailer's flag is 1 exactly when chosen and 0 otherwise; the other text is present exactly when not blank; nothing else is saved |
| ScreenerPages.S5aOutcome | src/app/survey/block1/s5a/page.tsx:29-63 | no store chosen shows its message; "other" without two characters of text shows the other message; otherwise the flags are saved and the page goes to s6 |
| ScreenerPages.S5aSubmit | src/app/survey/block1/s5a/page.tsx:29-63 | the handler with its `forEach` loop gives the outcome of the specification |
| ScreenerPages.S6Submit | src/app/survey/block1/s6/page.tsx:29-70 | no choice shows the message; 7 (prefer not to say) terminates at S6_PNTS; any other saves the band and its collapsed band and goes to s7 |
| ScreenerPages.S6OffersCollapse | src/app/survey/block1/s6/page.tsx:54-66 | every income band offered (1 to 6) continues with a non-null collapsed band |
| ScreenerPages.S7Submit | src/app/survey/block1/s7/page.tsx:27-83 | no choice shows the message; 1 (under 18) terminates at S7 and 8 at S7_PNTS; any other saves the cohort and its collapse and goes to s8 |
| ScreenerPages.S7ContinueCollapses | src/app/survey/block1/s7/page.tsx:67-83 | every age cohort that continues is saved with a non-null collapsed cohort |
| SowPages.EligibleStores | src/app/survey/block1/s4/page.tsx:26-31 | the retailers shopped in the last three months, "other" excluded, in catalogue order, then "All other stores" last |
| SowPages.ZeroShares | src/app/survey/block1/s4/page.tsx:35-37 | every listed store starts at 0 |
| SowPages.S4Load | src/app/survey/block1/s4/page.tsx:20-39 | with funnel answers in the session the eligible stores are listed at 0 each; without them nothing is listed; either way the total starts at 0 |
| SowPages.TotalSnoc | src/app/survey/block1/s4/page.tsx:41 | one more store adds its share to the running total |
| SowPages.StoreEntries | src/app/survey/block1/s4/page.tsx:54-56 | the entries to rank: each listed store except "All other stores", with its share or 0 |
| SowPages.RankByShare | src/app/survey/block1/s4/page.tsx:57-60 | a ranking is a permutation of the entries |
| SowPages.RankByShareIsRanking | src/app/survey/block1/s4/page.tsx:57-60 | some order of the entries meets the comparator: shares never rise, ties in any order |
| SowPages.RankingHeadIsLargest | src/app/survey/block1/s4/page.tsx:57-62 | the first ranked store has the largest share |
| SowPages.SowTie | src/app/survey/block1/s4/page.tsx:72 | the tie flag is 1 exactly when the first two ranked shares are equal, else 0 |
| SowPages.FarewayFunnel | src/app/survey/block1/s4/page.tsx:75-77 | Fareway's stored funnel answer, or 1 when it is missing or 0 |
| SowPages.S4Outcome | src/app/survey/block1/s4/page.tsx:43-110 | a total other than 100 shows the message; otherwise a segment the classifier rejects shows the retry message (the thrown error), and a classified one saves the top three, the tie flag and the segment and goes to s4a |
| SowPages.S4Meaning | src/app/survey/block1/s4/page.tsx:54-91 | for a Fareway funnel of 6, the saved primary store has the largest share, the tie flag marks equal top shares, and the segment is primary shopper exactly when Fareway ranks first |
| SowPages.S4Submit | src/app/survey/block1/s4/page.tsx:43-115 | the click gives the outcome of the specification and, on saving, stores the shares, the ranking, the primary store and the segment in the session |
| SowPages.TopCodes | src/app/survey/block1/s4a/page.tsx:28-35 | the first three ranked stores, or fewer when fewer were ranked |
| SowPages.S4aRows | src/app/survey/block1/s4a/page.tsx:26-38 | the rows are a shuffle of the top three stores |
| SowPages.FreqKeys | src/app/survey/block1/s4a/page.tsx:62-64 | the column names `freq_store1` to `freq_store3`, distinct |
| SowPages.S4aOutcome | src/app/survey/block1/s4a/page.tsx:46-77 | an unanswered row shows the message; otherwise the frequencies are saved and the page goes to s5 |
| SowPages.FreqDataMeaning | src/app/survey/block1/s4a/page.tsx:60-64 | each `freq_store<n>` holds the answer for the n-th ranked store, not the n-th displayed row |
| SowPages.DisplayOrderIrrelevant | src/app/survey/block1/s4a/page.tsx:36-48 | the click's outcome does not depend on the shuffled display order |
| SowPages.S4aSubmit | src/app/survey/block1/s4a/page.tsx:46-77 | the handler gives the outcome of the specification from the stored ranking |
| QuotaPage.S8Outcome | src/app/survey/block1/s8/page.tsx:25-120 | no choice shows the message; a choice saves the household answers, then asks the quota for the stored segment; a full quota terminates at `quota_full` with no assignment, an admitted one assigns retailers, saves the segment with the picks and goes to block 2 |
| QuotaPage.AssignmentDataMeaning | src/app/survey/block1/s8/page.tsx:106-115 | the saved assignment patch is the segment plus the three `nps_r<n>_store` picks returned, or the segment alone when the assignment reply is missing |
| QuotaPage.StoredPicksFeedLaterBlocks | src/app/survey/block1/s8/page.tsx:98-100 | the picks stored with `\|\| ''` give block 2 the first pick first, one step per present pick, and a missing second pick moves the third one up |
| QuotaPage.S8Submit | src/app/survey/block1/s8/page.tsx:25-126 | the click gives the specified outcome from the stored segment, stores and primary store; only an admitted respondent's session gains r1, r2 and r3 |
| NpsPage.NpsKeyInjective | src/app/survey/block2/page.tsx:84-88 | the column names `nps_r<n>_score`, `_category` and `_verbatim` never collide for different positions or fields |
| NpsPage.PositionDataMeaning | src/app/survey/block2/page.tsx:84-88 | one position writes its score, category and verbatim columns and leaves every other column as it was |
| NpsPage.NpsDataValues | src/app/survey/block2/page.tsx:82-89 | the n-th shown retailer's answers land in the `nps_r<n>_…` columns |
| NpsPage.NpsDataKeys | src/app/survey/block2/page.tsx:82-89 | the saved data holds no column other than those of the shown positions |
| NpsPage.VerbatimKeysAreFlagged | src/lib/quality-flags.ts:58-60 | the verbatim columns written here are exactly the ones the gibberish flag reads |
| NpsPage.ThirdSlotSavedSecond | src/app/survey/block2/page.tsx:34-86 | when the second pick is empty, the third retailer's score is saved under position 2 and no position 3 column is written |
| NpsPage.BuildData | src/app/survey/block2/page.tsx:82-89 | the loop builds the data the specification describes |
| NpsPage.ScoreStepKeepsAnswered | src/app/survey/block2/page.tsx:51-59 | leaving a rating step with a rating keeps every passed step answered |
| NpsPage.ReasonStepKeepsAnswered | src/app/survey/block2/page.tsx:62-74 | leaving a reason step with a reason of 5+ trimmed characters keeps every passed step answered |
| NpsPage.EditKeepsAnswered | src/app/survey/block2/page.tsx:146-162 | editing the current retailer's rating or reason does not undo an earlier step |
| NpsPage.Next | src/app/survey/block2/page.tsx:47-108 | no current retailer is ignored; a missing rating or a reason under 5 trimmed characters shows its message; otherwise the page moves one step, or after the last reason saves everything and goes to k1 |
| NpsPage.NextKeepsAnswered | src/app/survey/block2/page.tsx:47-108 | every step passed was answered, so the save happens only when every shown retailer has a rating and a reason |
| NpsPage.SavedAnswersComplete | src/app/survey/block2/page.tsx:82-89 | when all answers are in, each position saves its rating, its NPS category and a reason of 5+ trimmed characters |
| NpsPage.Block2.constructor | src/app/survey/block2/page.tsx:29-39 | the steps are the non-empty picks r1, r2, r3 in order, starting at step 0 with nothing answered |
| NpsPage.Block2.SetScore | src/app/survey/block2/page.tsx:146-149 | the current retailer's rating is set and the message cleared; nothing else changes |
| NpsPage.Block2.SetVerbatim | src/app/survey/block2/page.tsx:159-162 | the current retailer's reason is set and the message cleared; nothing else changes |
| NpsPage.Block2.HandleNext | src/app/survey/block2/page.tsx:47-108 | the step, the message and the outcome become those of the specification; the answers stay as they were |
| RetroPage.Positive | src/app/survey/block4/page.tsx:62 | keeps exactly the stores with a share above 0 |
| RetroPage.PositiveKeepsOrder | src/app/survey/block4/page.tsx:61-63 | the filter keeps the stored order |
| RetroPage.StoreKeyInjective | src/app/survey/block4/page.tsx:65 | the keys `store1` to `store9` are distinct |
| RetroPage.RetroStores | src/app/survey/block4/page.tsx:57-71 | no stored shares give no stores; otherwise at most the first three stores with a positive share, keyed `store<n>` in order |
| RetroPage.RetroStoresDistinct | src/app/survey/block4/page.tsx:61-68 | at most three stores, with distinct keys |
| RetroPage.PositiveOfRankedIsPrefix | src/app/survey/block4/page.tsx:61-63 | on shares ranked largest first, the positive ones are a prefix and all the rest are 0 or less |
| RetroPage.RetroAsksLargestShares | src/app/survey/block1/s4/page.tsx:94-97 | with the ranking s4 stores, block 4 asks about the stores with the largest positive shares, and a positive store is left out only when three are already asked |
| RetroPage.SaveKeyInjective | src/app/survey/block4/page.tsx:160-169 | the column names `sow_<retro\|fwd>_store<n>_<part>` never collide for different stores or fields |
| RetroPage.FieldsListed | src/app/survey/block4/page.tsx:160-169 | each store writes ten distinct fields |
| RetroPage.SaveValue | src/app/survey/block4/page.tsx:160-169 | a reason or reason text missing is saved as null; a present answer is saved as given |
| RetroPage.StoreKeysDistinct | src/app/survey/block4/page.tsx:159-169 | one store's ten column names are distinct |
| RetroPage.StoreWritesMeaning | src/app/survey/block4/page.tsx:158-169 | one store writes its ten columns from its answers and no other store's columns |
| RetroPage.RetroDataValues | src/app/survey/block4/page.tsx:156-170 | the n-th store's answers land in the `store<n>` columns |
| RetroPage.RetroDataKeys | src/app/survey/block4/page.tsx:156-170 | no column outside the shown stores' columns is written |
| RetroPage.BuildData | src/app/survey/block4/page.tsx:156-170 | the loop builds the data the specification describes |
| RetroPage.Next | src/app/survey/block4/page.tsx:85-183 | no current store is ignored; a missing direction or reason, or an "Other" reason under 3 trimmed characters, shows its message; an increase or decrease asks the reason, "about the same" skips it; after the last sub-step the next store starts at W2, or after the last store everything is saved and the page goes to block 5 |
| RetroPage.NextKeepsProgress | src/app/survey/block4/page.tsx:85-183 | every passed sub-step was answered, so the save happens only when every store's answers are complete |
| RetroPage.SavedAnswersComplete | src/app/survey/block4/page.tsx:156-170 | when all answers are in, each store's two directions are saved and, where a direction asked for one, its reason too |
| RetroPage.EditKeepsProgress | src/app/survey/block4/page.tsx:76-83 | changing an answer shown on the current sub-step does not undo a passed one |
| RetroPage.Block4.constructor | src/app/survey/block4/page.tsx:57-71 | the stores come from the stored shares; the page starts at the first store's W2 with no answers |
| RetroPage.Block4.UpdateStoreAnswer | src/app/survey/block4/page.tsx:76-83 | with a current store, that store's answer is set and the message cleared; without one nothing changes |
| RetroPage.Block4.HandleNext | src/app/survey/block4/page.tsx:85-149 | store, sub-step, message and outcome become those of the specification; stores and answers stay |
| LoyaltyPage.FirstStep | src/app/survey/block5/page.tsx:67-80 | Fareway customers (primary or secondary shoppers) start at L1, aware non-customers and lapsed shoppers at L2, everyone else at the L3 signpost |
| LoyaltyPage.SegmentsExclusive | src/app/survey/block5/page.tsx:72-75 | no segment is both a customer and a prospect |
| LoyaltyPage.LoyaltyDataKeys | src/app/survey/block5/page.tsx:138-154 | the saved columns are the channel ones, plus the churn ones for customers or the acquisition ones for prospects, and nothing else |
| LoyaltyPage.ImproveTextFlagged | src/app/survey/block5/page.tsx:147 | the improvement text reaches the gibberish check trimmed, and only for customers |
| LoyaltyPage.TryMeTextFlagged | src/app/survey/block5/page.tsx:153 | the try-me text reaches the gibberish check trimmed, and only for prospects |
| LoyaltyPage.Next | src/app/survey/block5/page.tsx:82-174 | a step whose answer is missing, whose "Other" text has under 3 trimmed characters, or whose open text has under 5, shows its message and stays; otherwise it moves to the step that follows, and L4 saves the block and goes to block 6 |
| LoyaltyPage.NextKeepsRoute | src/app/survey/block5/page.tsx:82-131 | the page only reaches a step after passing every earlier step on its segment's route |
| LoyaltyPage.ChannelValues | src/app/survey/block5/page.tsx:138-142 | the channel answers are saved as chosen whatever other columns are added |
| LoyaltyPage.SavedChoiceValues | src/app/survey/block5/page.tsx:138-154 | the channel answers and the segment's own reason are saved as chosen |
| LoyaltyPage.SavedChoices | src/app/survey/block5/page.tsx:130-154 | when the save happens on the route, both channel answers and the segment's reason are numbers, never null |
| LoyaltyPage.Block5.constructor | src/app/survey/block5/page.tsx:57-80 | the segment is the stored one or empty; the page starts at the segment's first step with no answers |
| LoyaltyPage.Block5.SetChurnRiskReason | src/app/survey/block5/page.tsx:212 | sets the churn reason and clears the message; nothing else changes |
| LoyaltyPage.Block5.SetChurnRiskReasonText | src/app/survey/block5/page.tsx:217 | sets the churn "Other" text; the message stays |
| LoyaltyPage.Block5.SetFarewayImprove | src/app/survey/block5/page.tsx:233 | sets the improvement text and clears the message |
| LoyaltyPage.Block5.SetAcquisitionTrigger | src/app/survey/block5/page.tsx:247 | sets the acquisition trigger and clears the message |
| LoyaltyPage.Block5.SetAcquisitionTriggerText | src/app/survey/block5/page.tsx:252 | sets the trigger "Other" text; the message stays |
| LoyaltyPage.Block5.SetFarewayTryMe | src/app/survey/block5/page.tsx:267 | sets the try-me text and clears the message |
| LoyaltyPage.Block5.SetChannelCurrent | src/app/survey/block5/page.tsx:282 | sets the current channel and clears the message |
| LoyaltyPage.Block5.SetChannelChange | src/app/survey/block5/page.tsx:295 | sets the anticipated channel change and clears the message |
| LoyaltyPage.Block5.ContinueSignpost | src/app/survey/block5/page.tsx:188-198 | the L3 signpost moves on to L3; any other step is unchanged |
| LoyaltyPage.Block5.HandleNext | src/app/survey/block5/page.tsx:82-174 | step, message and outcome become those of the specification; segment and answers stay |
| TripsPage.Bracket | src/app/survey/block6/page.tsx:26-33 | the six basket brackets of f3 exist for answers 1 to 6 only |
| TripsPage.Midpoint | src/lib/constants.ts:79-86 | a midpoint is defined exactly for the six basket brackets |
| TripsPage.MidpointsInBrackets | src/lib/constants.ts:79-86 | each midpoint lies inside its bracket, is the centre of a bounded one, is above 0, and the midpoints rise with the bracket |
| TripsPage.MidpointValue | src/app/survey/block6/page.tsx:94 | the saved midpoint is a number exactly for a basket answer 1 to 6, that answer's midpoint, and null otherwise |
| TripsPage.Next | src/app/survey/block6/page.tsx:62-116 | a step without its answer shows "Please select one option." and stays; otherwise f1 goes to f2 for customers and f3 for others, f2 to f3, f3 to f4, and f4 saves the block and goes to block 7 |
| TripsPage.NextKeepsRoute | src/app/survey/block6/page.tsx:62-84 | the page reaches a step only after answering every earlier step on the segment's route |
| TripsPage.SavedTrips | src/app/survey/block6/page.tsx:83-96 | when the save happens on the route, the total frequency, basket and trend are numbers, the Fareway frequency is a number exactly for customers, and the midpoint is a number exactly for a basket answer 1 to 6 |
| TripsPage.Block6.constructor | src/app/survey/block6/page.tsx:43-58 | the segment is the stored one or empty; the page starts at f1 with no answers |
| TripsPage.Block6.SetFreqTotal | src/app/survey/block6/page.tsx:142 | sets the total trip frequency and clears the message |
| TripsPage.Block6.SetFreqFareway | src/app/survey/block6/page.tsx:155 | sets the Fareway trip frequency and clears the message |
| TripsPage.Block6.SetAvgBasket | src/app/survey/block6/page.tsx:168 | sets the basket bracket and clears the message |
| TripsPage.Block6.SetTripTrend | src/app/survey/block6/page.tsx:181 | sets the spending trend and clears the message |
| TripsPage.Block6.HandleNext | src/app/survey/block6/page.tsx:62-116 | step, message and outcome become those of the specification; segment and answers stay |
| MacroPage.M3Options | src/app/survey/block7/page.tsx:26-34 | the seven trade-down options in order, with "None of the above" the only exclusive one |
| MacroPage.TradedownCodesDistinct | src/app/survey/block7/page.tsx:141-142 | the seven trade-down codes are distinct |
| MacroPage.M3ValuesDistinct | src/app/survey/block7/page.tsx:26-34 | no two M3 options share a value |
| MacroPage.M3Exclusive | src/app/survey/block7/page.tsx:33 | an M3 value is exclusive exactly when it is `tradedown_none` |
| MacroPage.ToggleLeavesNoneAlone | src/components/survey/MultiSelect.tsx:17-40 | any toggle on the M3 list leaves "None of the above" either absent or the only choice |
| MacroPage.TradedownCountCountsActions | src/app/survey/block7/page.tsx:124 | with "none" alone, the trade-down count is the number of actual trade-down actions chosen |
| MacroPage.Considered | src/app/survey/block7/page.tsx:60-79 | without funnel answers nothing is offered; otherwise exactly the catalogue retailers, "other" excluded, considered or better (funnel 2+), in catalogue order |
| MacroPage.AtLeastTwo | src/app/survey/block7/page.tsx:65 | keeps exactly the codes with a funnel answer of 2 or more, "other" excluded, in order |
| MacroPage.Slots | src/app/survey/block7/page.tsx:130-137 | position i holds the i-th pick, or null when there is none or it is falsy |
| MacroPage.Unslot | src/app/survey/block7/page.tsx:130-137 | reading slots back drops the nulls and keeps only truthy picks |
| MacroPage.SlotsRoundTrip | src/app/survey/block7/page.tsx:130-137 | up to n truthy picks survive being spread over n slots and read back |
| MacroPage.SaveKeysDistinct | src/app/survey/block7/page.tsx:126-145 | the eleven answer columns and seven flag columns are distinct |
| MacroPage.Flags | src/app/survey/block7/page.tsx:143-145 | each trade-down flag is 1 when its code was chosen and 0 otherwise |
| MacroPage.SavedFields | src/app/survey/block7/page.tsx:126-145 | the saved record holds each flag and each answer column as specified |
| MacroPage.SavedPicks | src/app/survey/block7/page.tsx:130-137 | the best-value picks and both price rankings can be read back from their slot columns unchanged |
| MacroPage.CountMatchesNoneFlag | src/app/survey/block7/page.tsx:124-144 | with a non-empty choice, the count is 0 exactly when the "none" flag is 1 |
| MacroPage.Next | src/app/survey/block7/page.tsx:81-165 | each step shows its own message when unanswered (M4 also past two stores) and stays; otherwise it moves to the next step, and M5b saves the block and goes to block 8 |
| MacroPage.NextKeepsRoute | src/app/survey/block7/page.tsx:81-116 | the page reaches a step only after passing every earlier step |
| MacroPage.SavedAnswers | src/app/survey/block7/page.tsx:115-145 | on the save, both ratings, the count (when "none" is not chosen) and the first of each pick list are saved as given |
| MacroPage.Block7.constructor | src/app/survey/block7/page.tsx:38-79 | the offered stores come from the stored funnel answers; the page starts at M1 with no answers |
| MacroPage.Block7.SetBudgetTrend | src/app/survey/block7/page.tsx:189 | sets the M1 answer and clears the message |
| MacroPage.Block7.SetMacroResponse | src/app/survey/block7/page.tsx:199 | sets the M2 answer and clears the message |
| MacroPage.Block7.SetTradedowns | src/app/survey/block7/page.tsx:208-209 | on M3, sets the trade-down list and clears the message |
| MacroPage.Block7.SetBestValue | src/app/survey/block7/page.tsx:218-219 | on M4, sets the best-value picks and clears the message |
| MacroPage.Block7.SetPriceRaisedRanked | src/app/survey/block7/page.tsx:228-232 | on M5a, sets the price-raised ranking and clears the message |
| MacroPage.Block7.SetPriceStableRanked | src/app/survey/block7/page.tsx:242-246 | on M5b, sets the price-stable ranking and clears the message |
| MacroPage.Block7.HandleNext | src/app/survey/block7/page.tsx:81-165 | step, message and outcome become those of the specification; answers and stores stay |
| ProfilePage.QuestionKeysDistinct | src/app/survey/block8/page.tsx:77-85 | the seven question keys are distinct and none is the "other" text column |
| ProfilePage.CurrentValue | src/app/survey/block8/page.tsx:96-97 | the shown value is the stored answer to the current question, or none |
| ProfilePage.ProfileDataFields | src/app/survey/block8/page.tsx:113-119 | every question is saved, as its answer or null; the trimmed "other" text is saved only when not blank; nothing else is saved |
| ProfilePage.ProfileRoundTrip | src/app/survey/block8/page.tsx:113-116 | reading the saved numbers back gives exactly the answers to the seven questions |
| ProfilePage.QuestionSaved | src/app/survey/block8/page.tsx:114-116 | one question's column holds its answer, or null when skipped |
| ProfilePage.StaleOtherTextSaved | src/app/survey/block8/page.tsx:117-193 | "other" text typed while option 6 was chosen is still saved after the answer changes to another option |
| ProfilePage.Next | src/app/survey/block8/page.tsx:99-138 | no question blocks: before the last one the page always moves on, and the last one saves the block with `current_block` "complete" and goes to the thank-you page |
| ProfilePage.EveryQuestionOptional | src/app/survey/block8/page.tsx:102-106 | from any question, the survey finishes after exactly as many clicks as questions remain, whatever was answered |
| ProfilePage.Block8.constructor | src/app/survey/block8/page.tsx:87-94 | the page starts at the first question with no answers and no "other" text |
| ProfilePage.Block8.SetAnswer | src/app/survey/block8/page.tsx:186-189 | the current question's answer is set and becomes the shown value; nothing else changes |
| ProfilePage.Block8.SetOtherText | src/app/survey/block8/page.tsx:193-198 | while the input is shown, sets the "other" text; nothing else changes |
| ProfilePage.Block8.HandleNext | src/app/survey/block8/page.tsx:99-138 | question index and outcome become those of the specification; answers and text stay |
| ProfilePage.Block8.HandleSkip | src/app/survey/block8/page.tsx:140-146 | Skip has the same effect as Next |
| AssignRetailers.Chosen | src/app/api/survey/assign-retailers/route.ts:25-32 | the least-fill call yields a store exactly when it does not fail, and the store is one of those offered |
| AssignRetailers.Bump | src/app/api/survey/assign-retailers/route.ts:23-48 | counting a store adds one to its count, starting from 0, and leaves every other count |
| AssignRetailers.FillTable.LeastFillSelect | src/app/api/survey/assign-retailers/route.ts:25-26 | the call yields the chosen store and counts it once; a failed call changes no count |
| AssignRetailers.SelectDistinct | src/app/api/survey/assign-retailers/route.ts:12-45 | R1 is the primary store; R2 and R3 come from the stores shopped, differ from R1 and from each other |
| AssignRetailers.FarewayOverrideHolds | src/app/api/survey/assign-retailers/route.ts:18-23 | a secondary shopper who shops Fareway (not primary) always gets Fareway as R2, never as R3, and Fareway is counted first |
| AssignRetailers.SecondIsOraclePick | src/app/api/survey/assign-retailers/route.ts:24-33 | without the override, R2 is the least-fill pick among the stores other than R1, or none when none remain or the call fails |
| AssignRetailers.ThirdWithoutSecond | src/app/api/survey/assign-retailers/route.ts:27-43 | when the R2 call fails, R3 is still drawn from the same remaining stores, so R3 can be set while R2 is not |
| AssignRetailers.PrimaryBumpedLast | src/app/api/survey/assign-retailers/route.ts:47-48 | the primary store is counted exactly once, after the other picks |
| AssignRetailers.BumpAllConcat | src/app/api/survey/assign-retailers/route.ts:23-48 | counting two lists in turn is counting their concatenation |
| AssignRetailers.Assign | src/app/api/survey/assign-retailers/route.ts:4-65 | a missing field answers 400 and changes nothing; otherwise the counts gain the picks, the respondent row (if any) gains the three store columns, and the reply is the assignment, or 500 when the update fails |
| Common.Without | src/app/api/survey/assign-retailers/route.ts:14 | removes every copy of the value and nothing else, keeping order and distinctness; a list without the value is unchanged |
| Common.Trim | src/app/survey/block2/page.tsx:64 | the trimmed text is no longer than the input and neither starts nor ends with white space |
| Common.TrimIsSlice | src/app/survey/block2/page.tsx:64 | `trim()` returns a contiguous slice of the text, and everything it cut off before and after that slice is ECMAScript white space |
| Common.IntToStringRoundTrip | src/components/analysis/AnalysisDashboard.tsx:60-67 | `Number` applied to the text `String` writes for an integer gives the integer back |
| MatrixQuestion.Pager.constructor | src/components/survey/MatrixQuestion.tsx:33 | the phone view starts on the first group |
| RankingQuestion.DragState.constructor | src/components/survey/RankingQuestion.tsx:24 | nothing is being dragged at first |

## Left out

- Network transport is not modelled: the `fetch` calls, JSON bodies and headers. Each request is a value in the outcome, and each reply is an input.
- The `catch` branches that show "Something went wrong. Please try again." are left out, because they happen only when the network or the server fails.
- Loading flags, progress bars, signpost screens, question texts and all rendering are presentation only.
- Session storage holds the decoded values. The JSON encoding and decoding between pages is not modelled.
- `respondent_id` is carried by the requests and nothing more.
- The Supabase client and its queries are represented by the table class. Each query that can fail has a failure flag passed in: the updates, the read-back in terminate (`readFails`, which leaves out the duration) and in complete (`readFails`, which answers 404).
- The check-quota route and the `least_fill_select` SQL function are not part of this model. The admission decision is an input, and `least_fill_select` is an oracle that picks a listed store or fails.
- Clocks and `Math.random` are parameters: millisecond timestamps and a sequence of draws.
- JavaScript object key order is not modelled (integer-like keys are enumerated first). The model uses insertion order, which only affects the order of tied rows in sorted output.
- Strings are sequences of Unicode scalar values (Dafny `char`), whereas JavaScript's `.length`, regular expressions without the `u` flag and the default `sort` work on UTF-16 code units. The two agree on every character of the Basic Multilingual Plane and differ for characters above it, such as emoji, which count as two units in JavaScript. This affects the text-length thresholds of `NpsPage` (5 characters), `RetroPage` and `LoyaltyPage` (3 and 5 characters), the length guard and the repeat run of `QualityFlags.IsGibberish`, and the string order `QuestionFilterCard.StrLe` used by `QuestionFilterCard.SortByString`.
- DeviceDetect.Lower: only A–Z and the Kelvin sign U+212A are lowered. The rest of Unicode's lower-case mapping is not modelled. Every other letter lowers to a non-ASCII character, which no keyword contains, so it cannot make or break a match. The exception is U+0130 (capital I with dot), which JavaScript lowers to 'i' followed by the combining dot U+0307. A user agent such as "OPERA MIN\u0130" is therefore mobile in JavaScript and desktop here.
- Numbers are integers. The analysis filters, the `countBy` buckets and the dashboard metrics are modelled for integer-valued fields only.
- `meanValues`, averages of ratings and the other floating-point statistics of the analysis page are not modelled.
- CsvExport.ExportQuestionCsv: only the frequency, funnel, best-value and price-rank builders are modelled; the other eleven question types return `NotModelled`. Their builders (csvExport.ts:72-231 and 267-341) are outside the modelled scope; the NPS-verbatim, tradedown, completion and QC tables use only counts and `pct`, while the others (share of wallet, share-of-wallet direction, NPS, the two KPC tables, store frequency, overview) divide in floating point and format with `toFixed`.
- The CSV download is not modelled: the Blob, the file name with its date, and the anchor click.
- Labels.Tenths: `toFixed(1)` is modelled as exact rounding to the nearest tenth, with halves rounded up. Binary doubles can round a few halves down.
- TripsPage.Midpoint: the basket midpoints are exact integers of cents rather than doubles.
- SowPages.RankByShareIsRanking: the random tie-break in the s4 sort is modelled as any order the comparator allows. The caller supplies the ranking, and `IsRanking` checks it.
- `AnalysisDashboard`: the open/closed state of question panels (`expandedQ`, `toggleQ`) is not modelled, because it is presentation only.
- `FilterPanel`: the DMA and primary-store option lists (FilterPanel.tsx:24-25) are not repeated. They are derived the same way as `QuestionFilterCard.DynamicValues`.
- `FilterPanel`: the text search over the question list (FilterPanel.tsx:61-63) is not modelled.
- MatrixQuestion.Pager.Next: requires more than one group, because the Next button is not shown otherwise.
- RetroPage.Block4.UpdateStoreAnswer: requires the field to belong to the current sub-step, because the page only shows those inputs.
- MacroPage.Block7.SetTradedowns: requires step M3, where its widget is shown. The other list setters of block 7 likewise require their own step.
- ProfilePage.Block8.SetOtherText: requires the "other" input to be shown (ethnicity answer 6).
- The s3 grid and screener rows are shuffled through `Randomize`. The display order itself is not part of any saved record.
