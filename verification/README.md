# race-db-app: statistics and prediction core in Dafny

race-db-app records horse races (course, distance, surface, going, class,
the entrants with their odds and popularity, and the 1st/2nd/3rd result).
It turns the stored races into win/place/show statistics, win-rate tables
and a weighted win-rate predictor, and it offers betting advice. The same
logic exists twice: once in the Express server (`server/index.js`,
`server/analysisEngine.js`) and once in the browser's local-storage service
(`client/src/services/localStorageApi.ts`). The React components add small
pure helpers around it: option filtering, sorting toggles, roll-ups, bet
payout and two entry forms.

This project models that core as pure Dafny functions over immutable
`Race` and `Horse` values, and proves what the code promises about them.

- `Model`, `Base`, `Text`, `Tables`: the records, and the JavaScript
  vocabulary the code relies on. This covers `Option` for the optional
  `level` and `result` fields of a race and for a `NaN`, `toFixed(1)` as `Round1`, `parseInt`/`parseFloat`, `trim`, `split`,
  `includes`, and plain objects used as insertion-ordered tables.
- `RaceFilter`, `Grouping`, `Aggregation`, `CourseStats`: the race filter and
  the server and client statistics folds. A fold over races into `key →
  counters` is `Grouping.Tabulate`. `Grouping.TabulateGroups` says once and
  for all that each bucket is the fold of exactly the items with that key.
- `Engine`: the analysis engine, meaning the winners, the win-rate tables,
  weight normalisation, the blended prediction, confidence, the ranking and
  the overall summary.
- `ClientPredict`: the client's predictor and its accuracy-based weights.
- `Strategy`: the betting-advice rules and the risk level.
- `Store`: result update, deletion and the import merge.
- `Sorting`: the sort and top-N selection that several pages use.
- `Bet`, `ResultEntry`, `SimpleForm`, `RaceInfoText`, `HorseText`,
  `StatisticsView`, `HorseNumbers`, `AdvancedView`, `Composition`: the
  component helpers.

## Model

| member | source | states |
|---|---|---|
| RaceFilter.FilterRaces | server/index.js:78-100 | The filtered list keeps exactly the stored races that pass, in order, and changes nothing when every race passes. |
| RaceFilter.PassesIff | server/index.js:78-100 | A race passes iff, for each of course, surface, distance and level, the key is absent or empty or the race's value is listed. A race without a level passes only an absent or empty level key. |
| RaceFilter.KeyRejectsIff | server/index.js:80-83 | A string key rejects a value iff its list is non-empty and lacks the value. |
| RaceFilter.LevelRejectsIff | server/index.js:95-98 | The level key rejects a race iff its list is non-empty and the race has no level or a level not in the list. |
| RaceFilter.DistanceRejectsIff | server/index.js:88-93 | A distance key rejects a race iff its `parseInt`-ed list is non-empty and lacks the race's distance. |
| RaceFilter.ScalarIsSingleton | server/index.js:80-81 | A non-empty scalar filter value acts as a one-element list; `''`, `[]` and an absent key reject nothing. |
| RaceFilter.NoFiltersKeepAll | server/index.js:78-100 | With no filter keys every stored race is kept. |
| RaceFilter.DistanceStringSelects | server/index.js:88-93 | A distance filter holding the decimal text of `d` keeps exactly the races of distance `d`. |
| RaceFilter.AndAcrossKeys | client/src/services/localStorageApi.ts:368-388 | Passing all four keys together is the conjunction of passing each key alone. |
| Grouping.TabulateGroups | server/index.js:105-143 | The grouped table has distinct keys, and a key's bucket exists iff some item has that key. The bucket is then the fold of exactly those items, in order. |
| Grouping.HasBucketIff | server/index.js:118-127 | A bucket is created for a key iff some counted item carries it. |
| Grouping.SelectEmptyIff | server/index.js:118-127 | The items selected for a key are empty iff no item has that key. |
| Grouping.SelectAppend | server/index.js:105-143 | Selecting from a concatenation concatenates the selections. |
| Aggregation.Tally | server/index.js:127-143 | Counting an entrant adds one run and keeps `wins ≤ places ≤ shows ≤ total`. |
| Aggregation.TallyChainMatchesTests | client/src/services/localStorageApi.ts:293-301 | The client's three separate disjunctive tests count exactly what the server's chain of tests counts. |
| Aggregation.FoldTallyCounts | server/index.js:118-143 | Folding entrants gives total = their number; wins, places and shows are the numbers named 1st, top-2 and top-3. |
| Aggregation.CountersTableShape | server/index.js:118-143 | Every bucket of a counted table has `total ≥ 1`, nested counters and a key some entrant carries. |
| Aggregation.BucketCounts | server/index.js:118-143 | A key's bucket counts exactly that key's entrants, and their wins, places and shows. |
| Aggregation.Rates | server/index.js:148-153 | Each of the win, place and show rates is its count/total·100 rounded to one decimal (`Percent1`), so within 0.05 of the exact percentage. All three are 0.0 when total is 0, and they are ordered win ≤ place ≤ show ≤ 100 for nested counters. |
| Aggregation.ServerPopularityStats | server/index.js:76-156 | The server's popularity keys are distinct and lie in 1..(largest counted field). Every row is nested with rates in [0, 100]. |
| Aggregation.PendingRaceIgnored | server/index.js:105 | A race without a result adds no counted entrant. |
| Aggregation.ServerJockeyStats | server/index.js:187-260 | Jockey keys are distinct and non-empty, and every row is nested. Every entrant with a jockey of a counted race has a row under the raw jockey string. |
| Aggregation.RiderHasBucket | server/index.js:219-229 | An entrant with a non-empty jockey always gets a row. |
| Aggregation.ClientPopularityStats | client/src/services/localStorageApi.ts:272-314 | Every entrant popularity of a resulted race gets a row, even an invalid one. Rows are nested with rates in [0, 100]. |
| Aggregation.ValidPopularitiesAgree | client/src/services/localStorageApi.ts:276-303 | When every popularity lies in 1..field size, the client's and the server's popularity tables are equal. |
| Aggregation.PopularityCopiesDiffer | server/index.js:113-116 | A resulted race with popularity 5 in a field of 3 gets a client bucket 5 but no server bucket 5. |
| Aggregation.FoldRides | client/src/services/localStorageApi.ts:342-351 | A jockey's ride fold holds the same counters as the server's fold, plus the sum of the field sizes ridden against. |
| Aggregation.ToJockeyRow | client/src/services/localStorageApi.ts:356-362 | `avgField` is totalField/total to one decimal, 0 with no rides, and the rates are the shared rates. |
| Aggregation.ClientJockeyBucket | client/src/services/localStorageApi.ts:317-365 | The client's jockey bucket exists iff the server's does, with the same counters and the summed field size of that jockey's rides. |
| Aggregation.ClientJockeyRowGood | client/src/services/localStorageApi.ts:326-362 | Every client jockey row has a non-empty jockey, `total ≥ 1`, nested counters and rates in [0, 100]. |
| CourseStats.BreakdownSum | server/index.js:284-302 | A count-per-value breakdown of races that all have a value sums to the number of races. |
| CourseStats.BumpSum | server/index.js:288-291 | Bumping one key of a count table raises its sum by one. |
| CourseStats.NextMean | server/index.js:281 | The running-mean update keeps mean·n equal to the running sum. |
| CourseStats.FoldCourse | server/index.js:266-303 | Folding a course's races gives their count, their exact mean field size, and surface, distance and level breakdowns that each sum to the count. A race without a level is counted under `undefined`. |
| CourseStats.CourseBucketMeaning | server/index.js:263-311 | A course has a row iff some resulted race with that non-empty course exists. The row counts exactly those races, its `avgField` is within 0.05 of their mean field size, and each breakdown sums to `totalRaces`. |
| CourseStats.FoldDistance | server/index.js:317-343 | Folding one surface-and-distance group's races gives their count, exact mean field size and a course breakdown summing to the count. |
| CourseStats.DistanceBucketMeaning | server/index.js:314-351 | A (surface, distance) pair has a row iff some resulted race with a non-zero distance has it. The row counts those races, has a rounded mean field size and a course breakdown summing to `totalRaces`. |
| Engine.FindHorse | server/analysisEngine.js:26 | The search returns the first horse with the name, or nothing iff no horse has it. |
| Engine.WinnerOf | server/analysisEngine.js:24-39 | A race contributes at most one winner. It contributes exactly one iff its result names a truthy 1st place matching an entrant, and that entrant is the one contributed. |
| Engine.Winners | server/analysisEngine.js:21-43 | At most one winner per race, each an entrant of its race named 1st in that race's result. |
| Engine.WinnersComplete | server/analysisEngine.js:21-43 | Every race with a named, matching winner contributes an entry. |
| Engine.AddWinGet | server/analysisEngine.js:61-65 | Recording a win raises only that key's win count, and only when the key already has runs. |
| Engine.AddWinsCounts | server/analysisEngine.js:61-65 | After all winners are recorded, a key's wins grew by the number of winners with that key. |
| Engine.WinsAtMostRuns | server/analysisEngine.js:46-74 | For every key, the winners carrying it are no more than the entrants carrying it. |
| Engine.WinRate | server/analysisEngine.js:68-71 | winRate·runs = wins, 0 without runs, and in [0, 1] when wins ≤ runs. |
| Engine.WinTableBucket | server/analysisEngine.js:46-140 | A key has a row iff some entrant of any stored race carries it. Its runs count those entrants (with or without a result), its wins count those winners, and wins ≤ runs with the rate in [0, 1]. |
| Engine.WinTableRates | server/analysisEngine.js:46-140 | Every rate in the jockey, popularity and distance tables lies in [0, 1]. |
| Engine.Normalize | server/analysisEngine.js:159-164 | Normalised weights sum to 1 and stay non-negative; weights already summing to 1 are unchanged. |
| Engine.NormalizeScales | server/analysisEngine.js:161-163 | Each normalised weight times the original sum gives back the original weight. |
| Engine.NormalizeIdempotent | server/analysisEngine.js:156-164 | Normalising a second time, as a reused custom weights object is, changes nothing. |
| Engine.Confidence | server/analysisEngine.js:186-193 | Confidence is samples/130 capped at 1, and equals 1 iff there are at least 130 samples. |
| Engine.PredictHorse | server/analysisEngine.js:143-204 | The rate is the weighted sum of the popularity, jockey and distance rates, plus base/16. A missing row counts as rate 0 and 0 runs. Confidence comes from the summed run counts. |
| Engine.ConvexBound | server/analysisEngine.js:179-183 | A blend of rates in [0, 1] with non-negative weights summing to 1 lies in [0, 1]. |
| Engine.PredictHorseInUnit | server/analysisEngine.js:167-183 | With the stored tables and normalised non-negative weights, the predicted rate lies in [0, 1]. |
| Engine.PredictMonotoneInPopularity | server/analysisEngine.js:167-183 | With the same jockey and distance, a horse whose popularity bucket wins more often is predicted no lower. |
| Engine.PredictAll | server/analysisEngine.js:208-214 | Each entrant gets its own prediction, in entry order. |
| Engine.AverageConfidence | server/analysisEngine.js:222 | The average confidence times the field size is the confidence sum, lies in [0, 1], and is absent (`NaN`) for an empty field. |
| Engine.PredictRace | server/analysisEngine.js:207-224 | The ranking is a permutation of the per-horse predictions, non-increasing by rate. The top recommendations are its first min(3, n) entries. `averageConfidence` is the sum of the confidences divided by n, and `None` for a race without horses. |
| Engine.PredictRaceHorses | server/analysisEngine.js:207-224 | Every ranked prediction is for an entrant, and every recommendation is a ranked prediction. |
| Engine.PredictRaceRates | server/analysisEngine.js:207-224 | With non-negative weights of positive sum, every ranked rate lies in [0, 1]. |
| Engine.Experienced | server/analysisEngine.js:239 | The candidates are exactly the jockey rows with at least 10 runs. |
| Engine.TopJockeys | server/analysisEngine.js:238-242 | At most 10 experienced jockeys, a sub-multiset of the experienced entries (none repeated or invented), sorted by win rate descending. No experienced jockey left out beats a listed one. |
| Engine.OverallStatistics | server/analysisEngine.js:227-244 | The race count, the total of field sizes, and the three tables. `topJockeys` holds min(10, number of jockeys with ≥ 10 runs) entries, each with ≥ 10 runs and a table row, and together a sub-multiset of the experienced entries. They are sorted by win rate descending, and no experienced jockey left out has a higher win rate than one listed. |
| ClientPredict.PopularityScore | client/src/services/localStorageApi.ts:409 | The popularity score is max(0, 1 − (popularity−1)/field): never negative, at most 1 for popularity ≥ 1, and exactly (field−popularity+1)/field within range. |
| ClientPredict.PopularityScoreMonotone | client/src/services/localStorageApi.ts:409 | A more popular horse (smaller number) never scores lower. |
| ClientPredict.OddsScore | client/src/services/localStorageApi.ts:420 | The odds score is max(0, 1 − ln(odds)/ln 20): non-negative, at most 1 for odds ≥ 1, and 0 iff the odds reach 20. |
| ClientPredict.JockeyScore | client/src/services/localStorageApi.ts:413-417 | The jockey term is absent iff the jockey has no row; otherwise it is the row's rounded win percentage over 100. |
| ClientPredict.PredictHorse | client/src/services/localStorageApi.ts:405-435 | The rate is the weighted score clamped to [0, 1], and confidence is 0.6 + 0.3·rate in [0.6, 0.9]. The jockey factor is 0 without history. |
| ClientPredict.PredictMonotone | client/src/services/localStorageApi.ts:406-424 | With the same jockey and odds, a more popular horse is predicted no lower. |
| ClientPredict.PredictAll | client/src/services/localStorageApi.ts:405 | Each entrant is scored against the whole field size, in entry order. |
| ClientPredict.MeanConfidence | client/src/services/localStorageApi.ts:441 | The mean confidence lies in [0.6, 0.9], times n is the sum, and is absent (`NaN`) for an empty field. |
| ClientPredict.Ranked | client/src/services/localStorageApi.ts:438-446 | The ranking is a permutation sorted by rate descending. The top recommendations are its first min(5, n) entries. The average confidence is the sum of the confidences divided by n, lies in [0.6, 0.9], and is `None` without predictions. |
| ClientPredict.PredictRace | client/src/services/localStorageApi.ts:391-452 | Given weights are used as they are, and the defaults 0.4/0.3/0.2/0.1 without them. The output is the sorted permutation of the per-horse predictions, with the top 5. The average confidence is the sum of the confidences divided by the field size, in [0.6, 0.9]. |
| ClientPredict.JockeyFactor | client/src/services/localStorageApi.ts:413-417 | A jockey with no row contributes 0; a jockey with a row has a non-empty name and a factor in [0, 1]. |
| ClientPredict.PopularityAccuracy | client/src/services/localStorageApi.ts:455-474 | The winners' popularity scores summed over the resulted races, divided by the number of entrants of those races (every entrant counts, not only winners). It is 0.3 when there are none, and never negative. |
| ClientPredict.PopularityAccuracyAtMostOne | client/src/services/localStorageApi.ts:467 | With popularities ≥ 1 the popularity accuracy is at most 1. |
| ClientPredict.DistanceAccuracy | client/src/services/localStorageApi.ts:507-526 | The odds accuracy is 0.4 × the winners' odds scores summed over the resulted races and divided by the number of their entrants, or 0.15 with none. It lies in [0, 0.4]. |
| ClientPredict.SeasonedRates | client/src/services/localStorageApi.ts:496-498 | Only jockeys with at least 2 rides give a rate; each such rate lies in [0, 1]. |
| ClientPredict.JockeyAccuracy | client/src/services/localStorageApi.ts:477-504 | The jockey accuracy lies in [0, 0.5]. It is 0.2 when no race has a result or no jockey has two rides. |
| ClientPredict.JockeyAccuracyTracksMean | client/src/services/localStorageApi.ts:500-503 | Otherwise it is min(0.5, 2 × the mean win rate of the seasoned jockeys). |
| ClientPredict.OptimalWeights | client/src/services/localStorageApi.ts:187-211 | The four weights are non-negative, sum to 1, and have a positive base. They are the three accuracies and 0.05 divided by their total. |
| ClientPredict.NoResultsWeights | client/src/services/localStorageApi.ts:192-210 | With no resulted race the weights are 0.3, 0.2, 0.15 and 0.05, each divided by 0.7. |
| Strategy.RiskLevel | server/index.js:735-736 | Risk is low iff the average confidence exceeds 0.8, medium iff it lies in (0.6, 0.8], and high otherwise, including the empty field. |
| Strategy.RiskMonotone | server/index.js:735-736 | A higher average confidence never gives a higher risk. |
| Strategy.WinTip | server/index.js:660-688 | There is at most one win tip, on the top pick. It is a value tip iff EV > 1 and confidence > 0.6. Otherwise it is a safety tip iff confidence > 0.8 and rate > 0.2. |
| Strategy.ShowTip | server/index.js:691-711 | A show tip exists iff there are at least 3 recommendations and their average confidence exceeds 0.65. It names them all, and its confidence is their mean confidence. The expected value is 1.8 × min(2.5 × mean rate, 1): 1.8 when the rates sum to at least 1.2, otherwise 1.5 × the rate sum. |
| Strategy.FindDark | server/index.js:715-718 | Returns the first candidate with EV > 1.5, confidence > 0.5 and odds > 5, or none iff no candidate qualifies. |
| Strategy.DarkHorseTip | server/index.js:714-730 | The dark horse is the first of ranks 2–6 meeting the rule, and there is none iff none of them does. |
| Strategy.Tips | server/index.js:657-730 | The advice holds exactly the win, show and dark-horse tips that exist, and at most three. |
| Strategy.TipsDistinctKinds | server/index.js:657-730 | No two tips in the advice are of the same kind. |
| Strategy.TipTargetsPredicted | server/index.js:669-724 | Every horse a tip names is one of the ranked predictions. |
| Strategy.Advise | server/index.js:646-742 | The advice is built on the engine's ranking, and its risk follows that ranking's average confidence. Every named horse is an entrant of the race. |
| Store.FindIndex | client/src/services/localStorageApi.ts:127 | The index found is the first race with the id, or none iff no race has it. |
| Store.UpdateResult | client/src/services/localStorageApi.ts:124-137 | An unknown id is an error. Otherwise only the first race with the id gets the new result; every other race and field is unchanged. |
| Store.UpdateTwice | server/index.js:434-441 | Updating the same race twice is the same as the last update alone. |
| Store.WithoutId | client/src/services/localStorageApi.ts:143 | Removes exactly the races with the id, and removes nothing iff no race has it. |
| Store.DeleteRace | client/src/services/localStorageApi.ts:140-152 | An id that is nowhere is an error. Otherwise every race with the id is removed and the rest stay in order. |
| Store.DeleteCounts | client/src/services/localStorageApi.ts:143-144 | Deletion shortens the list by the number of races with the id, and deleting again removes nothing more. |
| Store.DeleteAfterUpdate | client/src/services/localStorageApi.ts:124-152 | Deleting a race after updating its result leaves what deleting it directly leaves. |
| Store.FreshId | client/src/services/localStorageApi.ts:250 | A generated id is non-empty and differs from every stored id. |
| Store.MergeAll | server/index.js:579-592 | imported + skipped equals the batch size, the existing races stay first and unchanged, and every appended race has an id. |
| Store.MergeOneOutcome | server/index.js:581-591 | A race is skipped iff its id is already present, including one added earlier in the batch. Otherwise it is appended as given, or with a fresh id when it had none. |
| Store.MergeKeepsIdsDistinct | server/index.js:579-592 | Merging into a store with distinct ids keeps the ids distinct. |
| Store.MergeContainsIds | server/index.js:579-592 | After the merge, every id the batch carried is in the store. |
| Store.ReimportSkipsIdentified | server/index.js:579-592 | Importing the same batch of identified races a second time imports nothing and leaves the store as it was. |
| Store.ImportData | client/src/services/localStorageApi.ts:235-264 | A non-array payload is rejected. Otherwise the report's counts add up to the total and the existing races are kept first. |
| Sorting.SortDesc | server/analysisEngine.js:217 | The result is a permutation of the input, non-increasing by the key. |
| Sorting.SortAsc | client/src/components/Statistics.tsx:24 | The result is a permutation of the input, non-decreasing by the key. |
| Sorting.TopOfSort | server/analysisEngine.js:240-241 | The first n of a descending sort are a sub-multiset of the input, in order, and none left out ranks above one taken. |
| Sorting.Take | server/analysisEngine.js:221 | `slice(0, n)` keeps the first min(n, length) elements unchanged. |
| Bet.OddsForMeaning | client/src/components/BetCalculator.tsx:87-90 | The odds of a name are those of the first horse with it, or 1.0 when no horse has it. |
| Bet.Share | client/src/components/BetCalculator.tsx:68 | The place and show payouts are 0.5 and 0.3 of the stake times the odds, never more than that amount. |
| Bet.FirstPlaced | client/src/components/BetCalculator.tsx:66-70 | Returns the first selected name that finished in the paying places, or none iff no selected name did. |
| Bet.PaidOn | client/src/components/BetCalculator.tsx:54-85 | A bet pays on at most one selected name, and only for a resulted race. |
| Bet.PaidOnMeaning | client/src/components/BetCalculator.tsx:64-80 | Place and show bets pay on the first selected name that finished top-2 or top-3, and on nothing when none did. |
| Bet.PayoutMeaning | client/src/components/BetCalculator.tsx:54-85 | An unresulted race pays 0. Place and show pay share × odds × stake for the first hit, or 0 without one. |
| Bet.WinPayoutMeaning | client/src/components/BetCalculator.tsx:60-62 | A win bet pays odds(1st) × stake iff the winner is selected, else 0, whatever the selection order. |
| Bet.PayoutKeepsEarlierHit | client/src/components/BetCalculator.tsx:66-70 | Adding names after a selection that already hits does not change the payout. |
| Bet.PayoutNonNegative | client/src/components/BetCalculator.tsx:54-85 | With a non-negative stake and odds, the payout is non-negative. |
| Bet.Submit | client/src/components/BetCalculator.tsx:92-102 | A bet without a race or without horses is refused, and an unknown race records nothing. Otherwise the record carries the payout for that resulted race and profit = payout − stake. Its race name is the course and the level, with an absent level spelled `undefined`. |
| Bet.RecordBalances | client/src/components/BetCalculator.tsx:101-102 | A recorded bet has profit + stake = payout and names at least one horse. |
| ResultEntry.InitialResult | client/src/components/ResultForm.tsx:12 | The form starts from the race's result, or from an empty one. |
| ResultEntry.Choose | client/src/components/ResultForm.tsx:29-34 | Choosing sets exactly the given position and leaves the other two as they were. |
| ResultEntry.SecondOptions | client/src/components/ResultForm.tsx:69 | The 2nd-place options are exactly the entrants not named as the current 1st. |
| ResultEntry.ThirdOptions | client/src/components/ResultForm.tsx:88-90 | The 3rd-place options are exactly the entrants named neither as the current 1st nor as the current 2nd. |
| ResultEntry.ChosenInOrderDistinct | client/src/components/ResultForm.tsx:69-90 | Filling 1st, 2nd and 3rd in order from the offered options gives three different entrants. |
| ResultEntry.LaterFirstCanRepeatSecond | client/src/components/ResultForm.tsx:50-69 | The 1st-place options are not filtered, so choosing 1st after 2nd can name the same horse twice. |
| SimpleForm.AddHorse | client/src/components/SimpleRaceForm.tsx:23-32 | With all three inputs filled, exactly one parsed horse is appended and the inputs clear. Otherwise nothing changes. |
| SimpleForm.RemoveHorse | client/src/components/SimpleRaceForm.tsx:34-36 | Removes only the given index and keeps the rest in order; an index outside the list changes nothing. |
| SimpleForm.AddThenRemove | client/src/components/SimpleRaceForm.tsx:23-36 | Removing the horse just added restores the list. |
| SimpleForm.Submit | client/src/components/SimpleRaceForm.tsx:38-80 | Fewer than 2 horses are refused. Otherwise each horse is posted with frame = number and the fixed defaults, keeping its popularity, and a stored race resets the form. |
| RaceInfoText.DistanceOptions | client/src/components/RaceForm.tsx:48-64 | `'ダート'` gets the dirt list and anything else the turf list; every option is four digits. |
| RaceInfoText.SurfaceSpecificDistances | client/src/components/RaceForm.tsx:49-59 | Turf distances are whole hundreds, and 1150 is offered on dirt only. |
| RaceInfoText.LastTrackWins | client/src/components/RaceForm.tsx:109-116 | Surface and distance come from the last part holding `芝` or `ダ`, then digits, then `m`, and are empty iff no part matches. |
| RaceInfoText.LastConditionWins | client/src/components/RaceForm.tsx:117-122 | The going comes from the last part, without a track, that holds `馬場:` followed by 良, 稍重, 重 or 不良. It is empty iff none does. |
| RaceInfoText.FirstIncluded | client/src/components/RaceForm.tsx:130-142 | Returns the first option, in list order, that line 3 contains, or `''` when it contains none. |
| RaceInfoText.ExtractRaceInfo | client/src/components/RaceForm.tsx:92-158 | Line 2 sets surface, distance and going; line 3 sets course and class. Short texts leave them empty, and the date is untouched. A distance not offered for the extracted surface is cleared. |
| RaceInfoText.HandleRaceChange | client/src/components/RaceForm.tsx:243-255 | The chosen field is set and the others are kept. A surface change keeps the distance only if it is offered on the new surface, else clears it. |
| RaceInfoText.ChangeKeepsValid | client/src/components/RaceForm.tsx:243-255 | Starting from a distance valid for the surface, any edit choosing from the offered options keeps it valid. |
| HorseText.IsMarkExactly | client/src/components/RaceForm.tsx:174 | A mark line is exactly one of `--`, ◎, ◯, ▲, △, ☆, ✓, 消 or the empty line. |
| HorseText.Classify | client/src/components/RaceForm.tsx:168-182 | A line carries its text and its mark test, and has info fields iff it splits on tabs into at least six fields. |
| HorseText.Block | client/src/components/RaceForm.tsx:168-214 | A horse is read only from a header, then a mark line, then a non-empty name that becomes the horse's name, then a six-field info line. |
| HorseText.Scan | client/src/components/RaceForm.tsx:167-216 | Accepted headers are at least four lines apart, every one accepted, and the first line is taken when it starts a horse. |
| HorseText.Horses | client/src/components/RaceForm.tsx:167-216 | At most one horse per four lines. |
| HorseText.HorsesNamed | client/src/components/RaceForm.tsx:176-179 | Every emitted name is a non-empty input line. |
| HorseText.ExtractHorses | client/src/components/RaceForm.tsx:161-225 | The number of horses is at most a quarter of the number of lines. |
| HorseText.ExtractedNamesAreLines | client/src/components/RaceForm.tsx:165-179 | Every emitted name is one of the trimmed pasted lines. |
| HorseText.CardRoundTrip | client/src/components/RaceForm.tsx:161-225 | Reading a card printed from entries gives every entry back, in order. Sex and age come from field 0; odds and popularity from fields 4–5, or 5–6 after a body weight. |
| HorseText.HeaderReads | client/src/components/RaceForm.tsx:168-171 | A line `<digits> <digits>` is read as that frame and horse number. |
| Composition.HistogramMeaning | client/src/components/RaceComposition.tsx:56-60 | Each value gets a bar iff some race has it; the bar counts those races, and the bars sum to the number of races. |
| Composition.DistanceChart | client/src/components/RaceComposition.tsx:94-106 | The distance bars are the distance histogram, ordered by ascending distance. |
| Composition.DistanceChartMeaning | client/src/components/RaceComposition.tsx:94-106 | A (distance, count) bar appears iff some race has the distance and the count is the number of such races. |
| Composition.FewerValuesThanRaces | client/src/components/RaceComposition.tsx:194-195 | No more distinct values than races. |
| Composition.CoursesAreBars | client/src/components/RaceComposition.tsx:56-60 | The number of distinct courses equals the number of course bars. |
| Composition.Stats | client/src/components/RaceComposition.tsx:189-195 | The summary holds the race count and total field size. The average is within 0.05 of their quotient, or `'0'` with no races. Distinct courses and distances are at most the race count. |
| StatisticsView.SortedPopularities | client/src/components/Statistics.tsx:24 | The popularity keys, all of them, listed in ascending order. |
| StatisticsView.TotalRaces | client/src/components/Statistics.tsx:26-28 | The "total races" figure is the sum of bucket wins: never negative, and at most the runs when rows are nested. |
| StatisticsView.NestedSums | client/src/components/Statistics.tsx:30-34 | If every row has wins ≤ places ≤ shows ≤ total, the sums keep that chain. |
| StatisticsView.OverallStats | client/src/components/Statistics.tsx:30-45 | The totals are the column sums. Each of the win, place and show rates is its total over the runs as a one-decimal percentage (`Percent1`), within 0.05 of the exact value. All are 0 without runs, and they are ordered and within 100 for nested rows. |
| StatisticsView.ServerOverallNested | client/src/components/Statistics.tsx:30-45 | The roll-up of the server's popularity table is nested, with rates ordered within [0, 100]. |
| StatisticsView.BreakEven | client/src/components/Statistics.tsx:88-89 | Break-even odds are shown iff the win rate is positive, are 100/rate to one decimal, and are at least 1 for rates ≤ 100. |
| HorseNumbers.InitialListingEmpty | client/src/components/HorseNumberStatistics.tsx:26-55 | The initial `{}` table, which a failed fetch leaves in place, lists no gate number under any sort. |
| HorseNumbers.GateNumbers | client/src/components/HorseNumberStatistics.tsx:100-104 | The listed gate numbers are exactly the table keys in 1..18. |
| HorseNumbers.SortedGateNumbers | client/src/components/HorseNumberStatistics.tsx:100-154 | The listing is a permutation of those keys. It is ascending by number with no sort chosen, else ordered by the chosen column and direction. |
| HorseNumbers.HandleSort | client/src/components/HorseNumberStatistics.tsx:182-188 | Clicking a column sorts by it, descending iff it was that column ascending. |
| HorseNumbers.SortClicksAlternate | client/src/components/HorseNumberStatistics.tsx:182-188 | Repeated clicks on one column alternate the direction. |
| HorseNumbers.Toggle | client/src/components/HorseNumberStatistics.tsx:88-90 | Toggling flips the value's membership and appends a new value at the end. Deselecting removes every copy of the value and keeps every other value with its multiplicity. |
| HorseNumbers.RemoveAllConcat | client/src/components/HorseNumberStatistics.tsx:88-90 | Removing a value from a concatenation removes it from each part, so the other values keep their order. |
| HorseNumbers.ToggleTwice | client/src/components/HorseNumberStatistics.tsx:88-90 | Toggling a new value on and off restores the list. |
| HorseNumbers.HandleFilterChange | client/src/components/HorseNumberStatistics.tsx:85-93 | Only the chosen key's list changes, and only in the value's membership. |
| HorseNumbers.Params | client/src/components/HorseNumberStatistics.tsx:79-81 | The request carries exactly the keys with non-empty lists, with those lists. |
| HorseNumbers.ClearedSendsNothing | client/src/components/HorseNumberStatistics.tsx:95-97 | After clearing, the request carries no filter. |
| AdvancedView.HandleFilterChange | client/src/components/AdvancedStatistics.tsx:75-77 | Exactly the chosen key is replaced. |
| AdvancedView.Param | client/src/components/AdvancedStatistics.tsx:69-71 | A key whose value is `''` is left out of the request; any other value is sent as it is. |
| AdvancedView.ParamsSelect | client/src/components/AdvancedStatistics.tsx:68-73 | A race is selected iff it matches every non-empty choice, the distance after `parseInt`. This is the same as sending all four values. |
| AdvancedView.ClearedPassesAll | client/src/components/AdvancedStatistics.tsx:79-81 | Clearing resets the four choices to `''`, which selects every race. |
| AdvancedView.Regulars | client/src/components/AdvancedStatistics.tsx:160 | Only jockeys with total ≥ 3 are listed. |
| AdvancedView.JockeyRanking | client/src/components/AdvancedStatistics.tsx:159-161 | The ranking lists exactly the jockeys with ≥ 3 rides, by win rate descending. |
| AdvancedView.RankingOfServerStats | client/src/components/AdvancedStatistics.tsx:158-161 | Ranked server jockey rows have a name, ≥ 3 rides and nested counters with rates in [0, 100]. |
| Text.SplitJoin | client/src/components/RaceForm.tsx:99 | Joining the parts of a split with the separator gives back the text. |
| Text.ParseIntNatToString | client/src/components/RaceForm.tsx:170-171 | `parseInt` reads back the decimal text of every natural number. |
| Text.ParseFloatNatToString | client/src/components/RaceForm.tsx:198 | `parseFloat` reads back the decimal text of every natural number. |
| Tables.PutGet | client/src/components/RaceComposition.tsx:59 | Writing a key then reading any key gives the written value for that key and the old value for the others. |

## Left out

- Storage and transport are not modelled: file and `localStorage` reads and writes, HTTP routing and status codes, console logging and `alert`. Stored data is a parameter, and the outcomes are `Result`/`Option` values.
- Ids from `Date.now()` and `Math.random()` are replaced by `Store.FreshId`, a deterministic id longer than every stored one. It keeps the property the code relies on, that the new id is unused.
- Floating point is not modelled: rates, weights and odds are exact reals. `toFixed(1)` followed by `parseFloat` is `Round1`, rounding half up. Where the code displays the string, the model keeps the rounded number.
- `NaN` from `parseInt`/`parseFloat` is `None`. Where the code goes on to compute with it, the model reads 0 (`ParseIntOr0`). Division by zero producing `NaN` is `None` for the average confidences.
- `parseInt` does not read the `0x` prefix, so `"0x4B0"` gives 0 where JavaScript gives 1200. `parseFloat` reads no exponent, so `"1e3"` gives 1 where JavaScript gives 1000, and `"Infinity"` gives `None`. This affects the parsed distance filter values and the pasted odds and weights.
- The gate-number statistics table has no producer. `HorseNumberStatistics.tsx` calls `localStorageApi.getHorseNumberStatistics`, which neither the client service nor the server defines, so the call fails and `stats` stays `{}` (`HorseNumbers.InitialListingEmpty`). The other `HorseNumbers` listing members take the table as a hypothetical input, so they describe what the screen would show if a producer existed.
- Engine.Normalize: requires a non-zero weight sum; with a zero sum the code divides by zero and yields `NaN` weights. The same requirement carries to `Engine.PredictRace`, `Engine.PredictRaceHorses` and `Strategy.Advise`.
- Engine.Normalize: the mutation of the caller's weights object is modelled by `Engine.NormalizeIdempotent`: normalising the same weights again yields the same result.
- `Math.log` in the client odds score is the parameter `logRatio` (ln odds / ln 20).
- Sort stability and JavaScript's comparator contract are not modelled. The sorts state a permutation and the order, not which of two equal keys comes first.
- Plain objects are insertion-ordered association lists. JavaScript's rule that integer-like keys enumerate first in ascending order is not modelled. Keys are typed (`int` for popularity) rather than strings, so `"5"` and `5` are one key as in JavaScript.
- `calculateDistanceStats` keys its rows by the string `surface + distance + "m"`. The model keys them by the pair (surface, distance), which identifies the same groups for every distance and surface the forms can produce.
- The regular expressions in the paste parser are modelled directly as functions on the line, not as a general regex engine. `\s` is the whitespace of `Text.IsSpace`, strings are sequences of characters rather than UTF-16 units, and `trim` removes only that whitespace.
- HorseText.CardRoundTrip: proved for printable cards only. Odds and weights are integral, the body weight is printed as `n(0)`, names and jockeys sit on one line without tabs, and the mark is a known one.
- ClientPredict.JockeyAccuracy: the `min(0.5, 2 × mean)` formula is stated by `ClientPredict.JockeyAccuracyTracksMean`, not by the function's own contract.
- Strategy.ShowTip: the code stores the show tip's expected value as a `toFixed(2)` string; the model keeps the exact number.
- A stored race's `distance` is always a number. When no distance is chosen, `RaceForm.tsx` posts `parseInt('')`, which is sent as `null`, and a stored `null` distance is not modelled. The simplified form's posted draft does keep its distance as `Option`.
- A race imported without an `id` is modelled with the empty id `""`. The import merge treats both alike (`!newRace.id`) and gives the race a fresh id.
- Strategy: the `reason` strings and `profitMargin` figures are display text and are not modelled.
- The rendering of every component, the charts, fetching the filter options (`fetchFilterOptions`), `clearAllData`, `exportData` and the CSV export are not modelled. They are I/O or display.
- The `/api/race` save handler and `saveRace` only append a record with a fresh id. `SimpleForm.Submit` models what the form posts, and `Store.FreshId` models the id.
- `handleHorseChange` in `RaceForm.tsx` is not modelled. It is a field-by-field edit with `Number`/`parseFloat` coercion and no property beyond the assignment.
