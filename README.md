# Climate-Guard backend core in Dafny

This project models the decision logic of the Climate-Guard backend: the Express/Mongoose service behind a climate-risk dashboard for Indian cities. It also models the location catalogue of its frontend.

The model covers:

- **Ingestion** (`fetchExternalData`). For each city of a fixed roster the job stores:
  - a heatwave reading, when a weather result exists;
  - an air-quality reading, when a pollution result exists;
  - an alert, when the heatwave level is orange or red, or the AQI category is poor or worse.

  A failure in one city skips the rest of that city only. The heat-index, heatwave-level and AQI converters are pure functions.
- **The models.**
  - The Alert schema: its enums and defaults, and the `pre('find')` hook that ANDs `isActive && validUntil > now` onto every `find`.
  - The AirQuality `getCategory` static and its required `aqi` fields.
  - The Report schema with its `create` validation.
  - The WaterQuality, HeatwaveData and FloodData records, as datatypes.
- **The route handlers** of `alert`, `waterQuality`, `airQuality`, `heatwave`, `flood` and `report`.
  - Each collection is a `Store.Collection` class whose `docs` sequence the updating handlers reassign.
  - Read-only handlers are functions of the stored sequence.

  The handlers model:
  - the query predicates;
  - the "newest record of the city" lookup;
  - the sort orders and pagination;
  - the per-type alert summary;
  - the default tables;
  - the in-place updates (`$push`, positional `$set`, the upvote toggle, status and assignment);
  - the upload `fileFilter`.
- **The location catalogue** (`frontend/src/data/locations.js`):
  - `getAllLocations`, written with nested loops;
  - `searchLocations`;
  - `getLocationByName`.

Conventions used throughout:

- JavaScript numbers are `real`, and times are `int` milliseconds.
- A document's id is its index in the store.
- `new RegExp(city, 'i')` is a case-insensitive substring test with the pattern taken literally (`Text.CityMatches`).
- A query-string or body field is `Option<string>`. A missing or empty field counts as "not given", as JavaScript truthiness reads it.
- `findOne(...).sort({ recordedAt: -1 })` picks a matching record with the greatest `recordedAt`. Among equal timestamps it picks the earliest stored one.
- `find(...).sort(...)` is a stable ordering of the matches.
- A thrown exception that a handler catches is `Err(500)`.

Where the code and its description disagree, the model follows the code. Two places:

- The water-quality category scale lists `very_poor` for an index above 100, but `generateWaterQualityData` never produces it: anything above 75 is `poor` (`WaterQuality.WqiCategoryBands`).
- The `/current` water-quality handler is documented as storing simulated data for a city without records. As written, the generated record fails schema validation (see Findings).

## Model

| member | source | states |
|---|---|---|
| Converters.Round | backend/src/utils/dataFetcher.js:97 | `Math.round` gives the integer within half of its argument, halves rounded up |
| Converters.HeatIndexRounding | backend/src/utils/dataFetcher.js:78-97 | below 27 °C the heat index is the temperature, whatever the humidity; from 27 °C it is the regression rounded to one decimal (within 0.05) |
| Converters.AlertLevelBands | backend/src/utils/dataFetcher.js:101-106 | each level holds exactly in its band: red iff temp >= 45 or HI >= 52, orange and yellow their intervals, green iff temp < 37 and HI < 40; either input alone can raise the level |
| Converters.AlertLevelMonotone | backend/src/utils/dataFetcher.js:101-106 | raising the temperature or the heat index never lowers the level |
| Converters.AlertLevelBoundaries | backend/src/utils/dataFetcher.js:101-106 | exactly 37/40/45 °C or a heat index of exactly 40/45/52 falls in the higher band |
| Converters.ConvertToIndianAqi | backend/src/utils/dataFetcher.js:109-140 | null iff the response has no `list[0]`; otherwise the value is `Math.round` of max(2·PM2.5, PM10), the category is `getCategory` of the unrounded index, and CO is divided by 1000 |
| Converters.RawAqiIsMax | backend/src/utils/dataFetcher.js:117 | the raw index is at least 2·PM2.5 and at least PM10, and equals one of them |
| Converters.RoundedValueCanDisagree | backend/src/utils/dataFetcher.js:117-129 | PM10 = 50.4 is stored as value 50 with category satisfactory, while `getCategory(50)` is good |
| Ingestion.CitiesValid | backend/src/utils/dataFetcher.js:9-20 | the roster has ten cities, each with a non-empty name and state |
| Ingestion.HeatwaveAlertRaised | backend/src/utils/dataFetcher.js:173-187 | a heatwave alert is raised iff the level is red or orange: emergency at red, warning at orange, valid from now for 24 hours, active, issued by system, with the temperature as metadata |
| Ingestion.AirAlertRaised | backend/src/utils/dataFetcher.js:211-226 | an air-quality alert is raised iff the category is poor, very poor or severe: warning, critical and emergency respectively, valid for 12 hours, with the AQI as metadata |
| Ingestion.OutcomeHeatwave | backend/src/utils/dataFetcher.js:149-171 | the heatwave readings a city writes, following the loop's control flow, are those of the step-by-step reference: one reading when it is attempted and no step up to it threw |
| Ingestion.OutcomeAir | backend/src/utils/dataFetcher.js:193-209 | the air-quality readings a city writes agree with the step-by-step reference |
| Ingestion.HeatwaveAlertsAgree | backend/src/utils/dataFetcher.js:173-187 | the heatwave half's alert agrees with the step-by-step reference |
| Ingestion.AirAlertsAgree | backend/src/utils/dataFetcher.js:211-226 | the air-quality half's alert agrees with the reference, and there is none when the heatwave half threw |
| Ingestion.OutcomeAlerts | backend/src/utils/dataFetcher.js:147-236 | the alerts a city writes are its heatwave alert followed by its air-quality alert, as the reference describes |
| Ingestion.Outcomes | backend/src/utils/dataFetcher.js:146 | one outcome per roster city, in roster order |
| Ingestion.RunAround | backend/src/utils/dataFetcher.js:146-237 | fault isolation: whatever happens at city k, the pass writes the cities before k, then city k's own outcome, then the cities after k, each as it would on its own |
| Ingestion.FirstWriteThrows | backend/src/utils/dataFetcher.js:156-171 | when the heatwave reading's write throws, the city writes nothing at all |
| Ingestion.NoWeatherSkipsOnlyHeatwave | backend/src/utils/dataFetcher.js:149-230 | a null weather result writes no heatwave reading, and the AQI reading is still written iff a pollution result converts and its write does not throw |
| Ingestion.WeatherYieldsOneReading | backend/src/utils/dataFetcher.js:150-171 | a weather result whose write succeeds yields exactly one heatwave reading |
| Ingestion.SecondOfThreeThrows | backend/src/utils/dataFetcher.js:146-237 | with three cities whose second throws on its first write, the pass writes what the first and the third write on their own |
| Ingestion.DelhiAtFortySix | backend/src/utils/dataFetcher.js:149-187 | Delhi at 46 °C and 30% humidity with no pollution data gives one red reading and one emergency heatwave alert valid for 24 h, and nothing else |
| Ingestion.ProcessHeatwave | backend/src/utils/dataFetcher.js:149-190 | the heatwave half appends the reading and the alert its outcome prescribes, and reports whether it threw |
| Ingestion.ProcessAir | backend/src/utils/dataFetcher.js:193-230 | the air-quality half appends the reading and the alert its outcome prescribes |
| Ingestion.ProcessCity | backend/src/utils/dataFetcher.js:147-236 | one loop body appends exactly the city's outcome to the three stores |
| Ingestion.FetchExternalData | backend/src/utils/dataFetcher.js:143-240 | the loop appends to each store exactly what the whole roster's run writes, city by city in roster order |
| AirQualityModel.ParseCategory | backend/src/models/AirQuality.model.js:20-24 | a category string is accepted iff it is one of the six enum values, and reads back to that value |
| AirQualityModel.ParseCategoryName | backend/src/models/AirQuality.model.js:22 | each category's enum spelling parses back to the category |
| AirQualityModel.GetCategoryBands | backend/src/models/AirQuality.model.js:85-92 | each of the six categories holds exactly on its band, with inclusive upper bounds 50/100/200/300/400 |
| AirQualityModel.GetCategoryBoundaries | backend/src/models/AirQuality.model.js:85-92 | 50, 100, 200, 300 and 400 fall in the lower band, above 400 is severe, and every result is an enum value |
| AirQualityModel.GetCategoryMonotone | backend/src/models/AirQuality.model.js:85-92 | a larger AQI never gives a less severe category |
| AirQualityModel.ValidateAqi | backend/src/models/AirQuality.model.js:18-24 | a reading's `aqi` validates iff its value is present and its category is present and in the enum |
| AlertModel.NewAlert | backend/src/models/Alert.model.js:3-58 | creation succeeds iff type, severity, title, message and city are given; isActive defaults to true, validFrom to the creation time and issuedBy to system; a failure gives 500 |
| AlertModel.Find | backend/src/models/Alert.model.js:61-63 | `find` returns, in stored order, exactly the documents that satisfy the caller's query and are active with `validUntil > now`, each as many times as it is stored |
| AlertModel.FindNeverReturnsExpired | backend/src/models/Alert.model.js:61-63 | an inactive or expired alert, or one with no expiry, never comes back from `find`, whatever the query |
| AlertRoutes.FiltersOnlyWhenGiven | backend/src/routes/alert.routes.js:22-27 | a missing or empty type or severity adds no condition; a given one adds exactly the equality on that field |
| AlertRoutes.SeverityNameOrder | backend/src/routes/alert.routes.js:30 | comparing stored severities as strings orders them critical < emergency < info < warning |
| AlertRoutes.SeverityThenNewestSorted | backend/src/routes/alert.routes.js:29-30 | the active list is sorted by severity string descending, and newest first within one severity |
| AlertRoutes.SeverityGroupsPartition | backend/src/routes/alert.routes.js:29-30 | splitting the matches into the four severity groups loses and duplicates nothing |
| AlertRoutes.SeverityThenNewestPermutes | backend/src/routes/alert.routes.js:29-30 | the ordering is a permutation of the matches |
| AlertRoutes.ActiveAlertsSpec | backend/src/routes/alert.routes.js:8-32 | the active list holds exactly the stored alerts that satisfy the route's query and the model's hook, sorted as the route asks |
| AlertRoutes.NoExpiryNeverListed | backend/src/routes/alert.routes.js:16-19 | an alert without `validUntil` is never listed, although the route's `$or` admits it |
| AlertRoutes.ActiveIntendedSpec | backend/src/routes/alert.routes.js:13-27 | the corrected list holds exactly the alerts of the route's own query: city, active, and unexpired or without expiry |
| AlertRoutes.ActiveIntendedAgreesWithSummary | backend/src/routes/alert.routes.js:90-100 | without filters the corrected active list and the summary's `$match` admit the same alerts |
| AlertRoutes.History | backend/src/routes/alert.routes.js:36-69 | 500 exactly when the `skip`/`limit` pair is refused, and every error is 500 |
| AlertRoutes.HistoryPageOfSpec | backend/src/routes/alert.routes.js:43-63 | for parsed counts, the page holds only stored matching alerts that pass the hook; `total` counts every matching alert; `hasMore` iff skip + page length < total |
| AlertRoutes.HistoryPageSpec | backend/src/routes/alert.routes.js:42-63 | 500 iff `skip` is `NaN` or negative or `limit` is `NaN`; otherwise skip defaults to 0 and limit to 50, decimals are read as written, and the answer is the page at those counts |
| AlertRoutes.NegativeSkipRefused | backend/src/routes/alert.routes.js:51 | `?skip=-5` answers 500 |
| AlertRoutes.HasMoreWithoutNextPage | backend/src/routes/alert.routes.js:54-62 | one expired alert gives an empty first page, total 1 and `hasMore`, with the next page empty too |
| AlertRoutes.HistoryIntended | backend/src/routes/alert.routes.js:42-52 | the corrected handler refuses exactly the parameters the written one refuses, with 500 |
| AlertRoutes.HasMoreMeansNextPage | backend/src/routes/alert.routes.js:62 | with the corrected total, `hasMore` holds iff the page that starts after this one is non-empty |
| AlertRoutes.StringMaxIsMax | backend/src/routes/alert.routes.js:105 | `$max` on severity is some member's severity, and no member's name is greater as a string |
| AlertRoutes.SummaryCoversTypes | backend/src/routes/alert.routes.js:101-107 | every type occurring among the matched alerts has a summary entry |
| AlertRoutes.SummaryDistinct | backend/src/routes/alert.routes.js:102-103 | no type has two summary entries |
| AlertRoutes.SummaryEntries | backend/src/routes/alert.routes.js:102-107 | each entry's count is its type's number of matches, `highestSeverity` their string maximum, and `latestAlert` their first in stored order |
| AlertRoutes.SummaryTotal | backend/src/routes/alert.routes.js:113 | `totalActiveAlerts`, the sum of the counts, is the number of matched alerts |
| AlertRoutes.WarningOutranksEmergency | backend/src/routes/alert.routes.js:105 | a warning and an emergency of one type summarise as warning, while the intended maximum is emergency |
| AlertRoutes.FirstIsNotLatest | backend/src/routes/alert.routes.js:106 | with an older and a newer alert stored in that order, the first is the older, while the newest is the other |
| AlertRoutes.SeverityMax | backend/src/routes/alert.routes.js:105 | the corrected maximum is a member's severity and no member ranks higher in info < warning < critical < emergency |
| AlertRoutes.IntendedEntry | backend/src/routes/alert.routes.js:102-107 | the corrected entry counts the group, reports its most severe level and its newest alert |
| AlertRoutes.SummaryIntendedSpec | backend/src/routes/alert.routes.js:111-123 | every corrected summary entry reports its type's count, most severe level and newest alert |
| AlertRoutes.SummaryCountsWhatActiveHides | backend/src/routes/alert.routes.js:90-100 | an active alert without expiry in the city is counted by the summary but not listed by `/active` |
| AlertRoutes.Deactivate | backend/src/routes/alert.routes.js:164-180 | for a known id only `isActive` becomes false and the answer is 200; an unknown id answers 404 and changes nothing |
| AlertRoutes.DeactivatedIsGone | backend/src/routes/alert.routes.js:166-170 | a deactivated alert is neither listed nor counted by the summary, whatever the filters and the clock |
| WaterQuality.CityHash | backend/src/routes/waterQuality.routes.js:10 | the hash of the empty name is 0 (it is the sum of the character codes) |
| WaterQuality.CityHashAppend | backend/src/routes/waterQuality.routes.js:10 | the hash of a concatenation is the sum of the hashes |
| WaterQuality.SwappedPartsSameHash | backend/src/routes/waterQuality.routes.js:10 | swapping two parts of a name does not change its hash |
| WaterQuality.Terms | backend/src/routes/waterQuality.routes.js:26-34 | the index has eight terms |
| WaterQuality.SumWeightsBetween | backend/src/routes/waterQuality.routes.js:26-34 | a sum of terms lies between its low and its high weights, and equals the low sum iff every term is within its threshold |
| WaterQuality.WqiRange | backend/src/routes/waterQuality.routes.js:26-34 | every index is within [65, 125], and is 65 iff all eight parameters are within their thresholds |
| WaterQuality.WqiCategoryBands | backend/src/routes/waterQuality.routes.js:36-39 | poor iff > 75, fair iff in (50, 75], good iff in (25, 50], excellent iff <= 25; very_poor never occurs |
| WaterQuality.WqiWrittenOut | backend/src/routes/waterQuality.routes.js:26-34 | the index is the eight conditional weights added in source order |
| WaterQuality.SafeFlagsChooseWeights | backend/src/routes/waterQuality.routes.js:27-57 | each stored `safe` flag is the condition that chose its term's low weight |
| WaterQuality.SimulatedWqiAtMost100 | backend/src/routes/waterQuality.routes.js:16-34 | with fractional parts in [0, 1), the pH, nitrate and fluoride readings are always safe, so the index is at most 100 |
| WaterQuality.OneDecimalBounds | backend/src/routes/waterQuality.routes.js:16-22 | rounding to one decimal keeps a value of [lo/10, hi/10) within [lo/10, hi/10] |
| WaterQuality.GenerateWaterQualityData | backend/src/routes/waterQuality.routes.js:8-74 | the generator, with its `+=` chain and scoring steps, returns the record defined from the city's simulated readings |
| WaterQuality.AccumulateWqi | backend/src/routes/waterQuality.routes.js:26-34 | the `+=` chain computes the index |
| WaterQuality.ScoreReadings | backend/src/routes/waterQuality.routes.js:25-73 | the scoring steps build the record defined from the readings |
| WaterQuality.GeneratedNeverSafe | backend/src/routes/waterQuality.routes.js:26-70 | a generated record has index in [65, 125], category fair or poor, is not safe for drinking, is safe for bathing, and carries the four cautionary tips |
| WaterQuality.CreateValid | backend/src/models/WaterQuality.model.js:4-12 | `create` appends a record with non-empty city and state and returns it; otherwise it answers 500 and stores nothing |
| WaterQuality.CurrentWaterQuality | backend/src/routes/waterQuality.routes.js:77-103 | with matches, the 10 newest and nothing stored; with none, the generated record is refused (500) and nothing is stored |
| WaterQuality.GeneratedRejected | backend/src/routes/waterQuality.routes.js:45 | the generated record's empty state fails the schema |
| WaterQuality.CurrentWaterQualityIntended | backend/src/routes/waterQuality.routes.js:91-97 | with no match, the generated record is stored and returned alone |
| WaterQuality.GeneratedIsFoundNext | backend/src/routes/waterQuality.routes.js:87-97 | once stored, the generated record is exactly what the same request finds next |
| WaterQuality.TapWaterRecord | backend/src/routes/waterQuality.routes.js:106-130 | 404 iff no tap-water record of the city exists; otherwise a matching record |
| WaterQuality.ParametersRecord | backend/src/routes/waterQuality.routes.js:133-156 | 404 iff no record matches both city and water-body name; otherwise a stored record matching both, no older than any other match |
| WaterQuality.TreatmentFacilities | backend/src/routes/waterQuality.routes.js:193-208 | no record of the city gives an empty list; otherwise the facilities of a record of the city no older than any other, even when that list is empty |
| WaterQuality.SubmitReport | backend/src/routes/waterQuality.routes.js:256-292 | the newest matching record gains exactly one pending report at the end, which is returned; no match answers 404 and changes nothing |
| WaterQuality.WithBody | backend/src/routes/waterQuality.routes.js:307-310 | each report of a record, in order, paired with the record's water body |
| WaterQuality.FlatReportsMembership | backend/src/routes/waterQuality.routes.js:306-311 | a flattened report is exactly a report of one of the records, carrying that record's water body |
| WaterQuality.FlatReportsLength | backend/src/routes/waterQuality.routes.js:306-311 | flattening keeps every report |
| WaterQuality.CityReportsSpec | backend/src/routes/waterQuality.routes.js:313-315 | with a status, exactly the reports of that status in the unfiltered order, each as many times as it occurs there; without one, all of them |
| WaterQuality.CityReportsMembership | backend/src/routes/waterQuality.routes.js:300-311 | a report is listed iff it belongs to a record of the city, and it carries that record's water body |
| WaterQuality.UpdateReportStatus | backend/src/routes/waterQuality.routes.js:334-352 | in the first matching record that holds the report, that report's status is set; otherwise nothing changes |
| WaterQuality.SetReportStatus | backend/src/routes/waterQuality.routes.js:339-346 | only the first report with the id changes, and only its status |
| RouteQuery.DaysSlice | backend/src/routes/airQuality.routes.js:67 | `slice(0, parseInt(days))` is a prefix of the forecast, of length min(days, length) for a non-negative count, and dropping `-days` entries from the end (none left if that is all of them) for a negative one |
| RouteQuery.DaysSliceLength | backend/src/routes/airQuality.routes.js:53-67 | no `days` gives the first 7 entries, a decimal n the first n, a negative -m all but the last m, and a non-number none |
| RouteQuery.Paging | backend/src/routes/alert.routes.js:42-52 | the parsed `skip` and `limit` (defaults 0 and the route's limit), refused exactly when `skip` is `NaN` or negative or `limit` is `NaN` |
| RouteQuery.PagingCases | backend/src/routes/report.routes.js:76-90 | no parameters give the defaults, decimals are read as written, and a negative or non-numeric `skip` or a non-numeric `limit` is refused |
| AirQualityRoutes.Current | backend/src/routes/airQuality.routes.js:8-23 | 404 iff no reading matches the city; otherwise a matching reading no older than any other match |
| AirQualityRoutes.PollutantsOf | backend/src/routes/airQuality.routes.js:26-47 | the newest reading's city, AQI, dominant pollutant and pollutants, or 404 |
| AirQualityRoutes.Forecast | backend/src/routes/airQuality.routes.js:50-72 | the newest reading's city, state, trend and forecast cut by `RouteQuery.DaysSlice` (the first `days` entries for a non-negative `days`), or 404 |
| AirQualityRoutes.DefaultsOfName | backend/src/routes/airQuality.routes.js:219-265 | a category name looks up its own table entry |
| AirQualityRoutes.MaskRequiredFromPoor | backend/src/routes/airQuality.routes.js:219-263 | a mask is required iff the category is poor, very poor or severe |
| AirQualityRoutes.OutdoorActivityTable | backend/src/routes/airQuality.routes.js:221-262 | safe for good, satisfactory and unknown; reduce for moderate; avoid for poor and very poor; stay indoors for severe |
| AirQualityRoutes.UnknownFallback | backend/src/routes/airQuality.routes.js:265 | a string that is not a category name (nor an inherited object key) gets the unknown entry |
| AirQualityRoutes.RecommendationsMonotone | backend/src/routes/airQuality.routes.js:219-263 | a worse category never drops the mask or relaxes the outdoor advice |
| AirQualityRoutes.AdviceByRank | backend/src/routes/airQuality.routes.js:219-263 | mask and outdoor advice depend only on the category's rank |
| AirQualityRoutes.HealthRecommendations | backend/src/routes/airQuality.routes.js:75-97 | no reading of the city gives the unknown defaults and no AQI; otherwise the newest reading's AQI and its stored `healthRecommendations` object, as a nested path is always truthy |
| AirQualityRoutes.IngestedSevereGetsNoMaskAdvice | backend/src/routes/airQuality.routes.js:92 | a severe reading stored by the ingestion pass answers an empty recommendations object with no mask advice, while the severe defaults require a mask |
| AirQualityRoutes.HealthRecommendationsIntended | backend/src/routes/airQuality.routes.js:83-92 | corrected: the stored recommendations when any field was set, the category's defaults when none was, and the unknown defaults without a reading |
| AirQualityRoutes.IntendedMaskAdvice | backend/src/routes/airQuality.routes.js:92 | corrected: for a reading with no stored advice, a mask is advised iff the reading is poor or worse |
| AirQualityRoutes.CategoryTableContiguous | backend/src/routes/airQuality.routes.js:100-147 | six rows in category order, each closed range starting one after the previous ends |
| AirQualityRoutes.CategoryTableAgrees | backend/src/routes/airQuality.routes.js:102-145 | every whole AQI from 0 lies in some row; except at 400 every containing row names `getCategory`'s category; at 400 the very_poor and 400+ rows overlap |
| AirQualityRoutes.DefaultSourcesSumTo100 | backend/src/routes/airQuality.routes.js:195-201 | the default contributions add up to 100 |
| AirQualityRoutes.PollutionSources | backend/src/routes/airQuality.routes.js:186-206 | the defaults exactly when the city has no reading, otherwise the newest reading's stored sources |
| HeatwaveRoutes.Current | backend/src/routes/heatwave.routes.js:8-23 | 404 iff no reading matches the city; otherwise a matching reading no older than any other match |
| HeatwaveRoutes.Forecast | backend/src/routes/heatwave.routes.js:26-47 | the newest reading's city, state and forecast cut by `RouteQuery.DaysSlice` (the first `days` entries for a non-negative `days`, 7 by default), or 404 |
| HeatwaveRoutes.CoolingCenters | backend/src/routes/heatwave.routes.js:50-70 | exactly the open cooling centres in stored order, each as many times as it is stored, and all hospitals, or 404 |
| HeatwaveRoutes.LevelTableContiguous | backend/src/routes/heatwave.routes.js:119-152 | four rows in level order whose ranges adjoin: 37/40/45 °C and 40/45/52 heat index |
| HeatwaveRoutes.LevelTableAgrees | backend/src/routes/heatwave.routes.js:119-151 | a reading inside a row's ranges gets that row's level, and a level or higher is reached iff either input reaches the row's lower bound |
| HeatwaveRoutes.AddCoolingCenter | backend/src/routes/heatwave.routes.js:165-180 | the newest matching reading gains exactly the new centre at the end and the list is returned; no match answers 500 and changes nothing |
| HeatwaveRoutes.AddedCenterShows | backend/src/routes/heatwave.routes.js:170-176 | the list grows by one, ends with the new centre, and the open view gains it iff it is open |
| FloodRoutes.Current | backend/src/routes/flood.routes.js:8-23 | 404 iff no reading matches the city; otherwise a matching reading no older than any other match |
| FloodRoutes.RecentAreas | backend/src/routes/flood.routes.js:42-44 | exactly the areas reported less than 24 hours ago, in stored order, each as many times as it is stored |
| FloodRoutes.RiskMapOf | backend/src/routes/flood.routes.js:26-49 | the newest reading's risk, flood-prone areas and recent waterlogging, or 404 |
| FloodRoutes.ReportedAreaWindow | backend/src/routes/flood.routes.js:42-44 | a new report stays on the map iff less than a day has passed |
| FloodRoutes.Forecast | backend/src/routes/flood.routes.js:52-74 | the newest reading's rainfall and forecast cut by `RouteQuery.DaysSlice` (the first `days` entries for a non-negative `days`), or 404 |
| FloodRoutes.NarrowBy | backend/src/routes/flood.routes.js:93-98 | no filter when the end is not given; otherwise exactly the routes whose end contains it case-insensitively, each as many times as it is stored, and 500 iff a route lacks that end |
| FloodRoutes.OpenRoutes | backend/src/routes/flood.routes.js:90 | exactly the open routes, in stored order, each as many times as it is stored |
| FloodRoutes.MatchingRoutesSpec | backend/src/routes/flood.routes.js:90-98 | a subsequence of the stored routes holding exactly the open routes that match `from` and `to`, each as many times as it is stored; 500 iff an open route lacks a filtered end |
| FloodRoutes.AreasToAvoid | backend/src/routes/flood.routes.js:102-104 | the severe areas in order, projected to location and coordinates |
| FloodRoutes.AreasToAvoidExactly | backend/src/routes/flood.routes.js:102-104 | every severe area is avoided, and every avoided place is a severe area |
| FloodRoutes.SafeRoutes | backend/src/routes/flood.routes.js:77-109 | 404 without a reading, 500 when a filtered end is missing, otherwise the matching routes and areas to avoid |
| FloodRoutes.EmergencyContacts | backend/src/routes/flood.routes.js:145-168 | the stored contacts when non-empty, otherwise the defaults |
| FloodRoutes.ContactsNeverEmpty | backend/src/routes/flood.routes.js:154-163 | the answer is never empty, and there are five defaults |
| FloodRoutes.NewArea | backend/src/routes/flood.routes.js:120-129 | a new entry is unverified and stamped with the time and the reporter |
| FloodRoutes.ReportWaterlogging | backend/src/routes/flood.routes.js:112-142 | the newest matching reading gains exactly the new entry at the end and it is returned; no match answers 500 and changes nothing |
| FloodRoutes.MissingCityMatchesAll | backend/src/routes/flood.routes.js:117 | without a city every reading matches |
| FloodRoutes.SetVerified | backend/src/routes/flood.routes.js:220 | only the first area with the id changes, and only its `isVerified` |
| FloodRoutes.SetVerifiedTargets | backend/src/routes/flood.routes.js:215-221 | in a reading holding the id, an area with the id takes the flag and every other area is unchanged |
| FloodRoutes.VerifyReport | backend/src/routes/flood.routes.js:210-228 | the first reading in stored order matching the city and holding the area is updated; otherwise nothing changes |
| ReportModel.ParseType | backend/src/models/Report.model.js:4-8 | a type string is accepted iff it is one of the five enum values, and reads back to it |
| ReportModel.ParseSeverity | backend/src/models/Report.model.js:38-42 | a severity string is accepted iff it is one of the four enum values, and reads back to it |
| ReportModel.Images | backend/src/routes/report.routes.js:40-43 | one image per uploaded file, in order, at `/uploads/reports/<file>`, stamped now |
| ReportModel.NewReport | backend/src/routes/report.routes.js:38-61 | creation succeeds iff type and severity are enum values and title, description, city and both coordinates are given; the new report is pending, public, with no votes or comments |
| ReportModel.SeverityDefaultsToMedium | backend/src/routes/report.routes.js:60 | a missing or empty severity files the report as medium |
| ReportRoutes.ExtName | backend/src/routes/report.routes.js:25 | `path.extname` is empty or starts with a dot, and holds no slash |
| ReportRoutes.ExtNameOfDotted | backend/src/routes/report.routes.js:25 | `base.ext` has extension `.ext` |
| ReportRoutes.ExtNameOfDotFile | backend/src/routes/report.routes.js:25 | a dot-file `.ext` has no extension |
| ReportRoutes.FileFilterAcceptsImages | backend/src/routes/report.routes.js:23-32 | `photo.PNG` with `image/png` is accepted: the extension is lower-cased |
| ReportRoutes.FileFilterRefusesDotFile | backend/src/routes/report.routes.js:23-32 | `.png` is refused whatever its type |
| ReportRoutes.FileFilterNeedsBoth | backend/src/routes/report.routes.js:28-31 | a mimetype outside the pattern refuses the file |
| ReportRoutes.FileFilterUnanchored | backend/src/routes/report.routes.js:24-26 | the unanchored pattern accepts the mimetype `text/png-notes` |
| ReportRoutes.CreateReport | backend/src/routes/report.routes.js:36-70 | a valid draft is appended and returned; an invalid one answers 500 and stores nothing |
| ReportRoutes.ListingOfSpec | backend/src/routes/report.routes.js:86-92 | the listed reports match the query and come newest first, at most `limit` of them; `total` counts every match |
| ReportRoutes.Listed | backend/src/routes/report.routes.js:76-101 | 500 exactly when the `skip`/`limit` pair is refused; otherwise the listing at the parsed counts, with limit 20 by default |
| ReportRoutes.ListedDefaults | backend/src/routes/report.routes.js:76-90 | no parameters give skip 0 and limit 20, so the 20 newest matches; decimal parameters are read as written |
| ReportRoutes.Nearby | backend/src/routes/report.routes.js:108-137 | 400 iff lat or lng is missing; otherwise exactly the public reports (of the given type) within the radius, in stored order, each as many times as it is stored |
| ReportRoutes.ById | backend/src/routes/report.routes.js:140-154 | 404 iff the id is unknown; otherwise that report |
| ReportRoutes.ToggleFlipsVote | backend/src/routes/report.routes.js:190-202 | a user who had voted has no vote left; one who had not has exactly one, at the end, stamped now |
| ReportRoutes.ToggleKeepsOthers | backend/src/routes/report.routes.js:196-201 | other users' votes are unchanged, in order |
| ReportRoutes.ToggleTwiceRestores | backend/src/routes/report.routes.js:190-202 | toggling twice restores a non-voter's list |
| ReportRoutes.ToggleVote | backend/src/routes/report.routes.js:181-213 | 404 for an unknown id; 500 and nothing saved when `save()` refuses the report; otherwise the toggled list is stored and `upvoteCount` is its length |
| ReportRoutes.AddComment | backend/src/routes/report.routes.js:216-245 | exactly one comment is appended and the list returned; 404 for an unknown id |
| ReportRoutes.StatusUpdateChanges | backend/src/routes/report.routes.js:252-262 | only the status changes, plus `verifiedBy` for verified and `resolution` for resolved |
| ReportRoutes.UpdateStatus | backend/src/routes/report.routes.js:248-278 | the report becomes its status update and is returned; 404 for an unknown id |
| ReportRoutes.Assign | backend/src/routes/report.routes.js:281-299 | `assignedTo` is set and the status becomes in_progress; 404 for an unknown id |
| ReportRoutes.AssignKeepsSaveValid | backend/src/routes/report.routes.js:285-287 | an assignment always leaves a status that `save()` accepts |
| ReportRoutes.InvalidStatusBlocksUpvote | backend/src/routes/report.routes.js:252-268 | the unvalidated status update can store a status that `save()` refuses |
| Locations.Entries | frontend/src/data/locations.js:292-300 | one entry per district of a state, in order |
| Locations.GetAllLocations | frontend/src/data/locations.js:289-304 | the nested loops produce the flattened catalogue |
| Locations.FlattenSpec | frontend/src/data/locations.js:289-304 | one entry per district, and an entry is exactly a district paired with its state |
| Locations.FullNameShape | frontend/src/data/locations.js:299 | `fullName` is the district, a comma and a space, and the state |
| Locations.SearchLocations | frontend/src/data/locations.js:307-325 | empty for a query shorter than 2; otherwise the first 15 matching entries in catalogue order (all of them when fewer match) |
| Locations.Matching | frontend/src/data/locations.js:312-322 | the filtered entries are a subsequence of the catalogue holding exactly the entries the search predicate accepts, each as many times as the catalogue holds it |
| Locations.SearchComplete | frontend/src/data/locations.js:312-324 | a matching entry is left out only when 15 results are already listed |
| Locations.SearchIgnoresCase | frontend/src/data/locations.js:310-322 | the query's case does not change the result |
| Locations.BlankQueryListsFirst | frontend/src/data/locations.js:308-324 | a blank query of at least two characters lists the first 15 entries |
| Locations.GetLocationByName | frontend/src/data/locations.js:328-334 | the first entry whose name or full name equals the argument up to case, or nothing iff none does |
| Locations.LookupIsSearchable | frontend/src/data/locations.js:307-334 | a resolvable name of at least two characters is offered by the search, unless 15 results are already listed |
| Text.StripWhitespace | frontend/src/data/locations.js:310 | `replace(/\s+/g, '')` leaves no whitespace, and keeps exactly the other characters |
| Text.StripWhitespaceChar | frontend/src/data/locations.js:310 | one character is removed iff it is whitespace |
| Text.StripWhitespaceAppend | frontend/src/data/locations.js:310 | stripping a concatenation concatenates the stripped parts, so order and multiplicity of the kept characters are preserved |
| Text.CityMatchesCaseInsensitive | backend/src/routes/alert.routes.js:14 | city matching ignores the case of the pattern and of the stored name |
| JsParse.ParseDecimal | backend/src/routes/alert.routes.js:51-52 | `parseInt` of a decimal numeral gives its value |
| JsParse.ParseNegativeDecimal | backend/src/routes/alert.routes.js:51-52 | `parseInt` of a minus sign and a numeral gives the negative value |
| JsParse.ParseIntNaN | backend/src/routes/report.routes.js:89-90 | `parseInt` of "", "abc" or "-" is `NaN` |
| Store.LatestIndex | backend/src/routes/heatwave.routes.js:12-13 | nothing iff no document matches; otherwise a matching document no older than any other match |
| Store.FirstIndex | backend/src/routes/flood.routes.js:215-221 | nothing iff no document matches; otherwise the first match in stored order |
| Store.NewestFirstSorted | backend/src/routes/alert.routes.js:49-50 | `sort({ createdAt: -1 })` orders by decreasing timestamp |
| Store.NewestFirstPermutes | backend/src/routes/alert.routes.js:49-50 | the sorted list is a permutation of the matches |
| Store.Page | backend/src/routes/alert.routes.js:49-52 | `skip(s).limit(l)` is the slice from `s` of at most abs(l) documents, or all remaining ones when l is 0 |
| Store.FilterMultiplicity | backend/src/routes/heatwave.routes.js:64 | `filter` keeps every copy of an accepted element and none of a refused one |
| Store.FilterDetermined | backend/src/routes/heatwave.routes.js:64 | a subsequence with the filter's multiplicities is the filter's result, so order, membership and multiplicity determine every filtered listing |
| Store.SliceTo | backend/src/routes/heatwave.routes.js:42 | `slice(0, n)` is a prefix of length min(n, length), and a negative n counts back from the end |

## Left out

- Network I/O: the OpenWeather calls and the 500 ms pause between cities. Both fetch results are inputs of `Ingestion.FetchExternalData`, and so is whether a write throws.
- The heat-index regression is evaluated in exact reals, and `Math.round` on reals. IEEE double rounding is not modelled.
- The water generator's `Math.sin` draws are a parameter `frac` that gives the fractional part of `Math.sin(k) * 10000`. `WaterQuality.SimulatedWqiAtMost100` assumes only that it lies in [0, 1).
- The haversine `calculateDistance` of `/nearby` is the caller-supplied predicate `within` of `ReportRoutes.Nearby`. So is the default radius of 5 km.
- Authentication, roles and `req.user` are out of scope. The acting user is a parameter.
- Multer disk storage, file names, the 5 MB size limit, the five-file limit and `populate` are out of scope. Only `fileFilter` and the stored image URLs are modelled.
- Regular-expression metacharacters in user-supplied city or water-body patterns are not modelled. The pattern is taken literally.
- `toLowerCase` covers the ASCII letters only.
- Static payloads are not modelled: the heatwave and flood guidelines, the air and water bio-remediation texts, and the water-quality standards.
- AirQualityRoutes.UnknownFallback: `recommendations[category]` also finds keys inherited from `Object.prototype`, such as `constructor` or `toString`, which are not modelled. Its two callers pass only `'unknown'` or a category that the schema's enum admits.
- The flood `emergencyContacts` schema's `{ name, phone, type: String }` entry uses the key `type`, so Mongoose reads the array as an array of strings. The model keeps the three fields that the handler and its defaults use. It does not model the cast of a stored contact object to a string.
- The admin `POST /update` routes (air, heatwave, flood, water) and the alert `POST /` and `PUT /:id` are not modelled. They only forward the request body to `create` or `findByIdAndUpdate`. `AlertModel.NewAlert` covers the validation they rely on.
- Alert `GET /:id` is not modelled separately. `ReportRoutes.ById` shows the same `findById`-or-404 shape.
- The air-quality `GET /bio-remediation/:city` handler (`backend/src/routes/airQuality.routes.js:150-183`) is not modelled. Neither is the `bioRemediation` field it returns, which is the stored field or a static suggestion list.
- Water-quality fields that no modelled handler computes from are not modelled, although handlers return them. The parameters `cod`, `fecalColiform`, `arsenic` and `lead` are left out: only their schema-default `unit` would be stored, and `/tap-water` and `/parameters` return them. The record fields `pollutionSources`, `healthRisks` and `bioRemediation` are left out: `/current` returns whole records. The facility `type` is left out: `/treatment-facilities` returns it.
- Flood drainage status and water levels are not modelled, because no modelled handler reads them.
- AirQualityRoutes.PollutantsOf: each pollutant is its value only. Its `unit` string, a schema default, is not modelled.
- Character counts (`charCodeAt` in `WaterQuality.CityHash`, the `query.length < 2` test in `Locations.SearchLocations`) count Dafny `char`s, which are Unicode scalar values. JavaScript counts UTF-16 code units. The two differ only outside the Basic Multilingual Plane.
- `INDIA_LOCATIONS` is the `states` input of the location functions, not a constant.
- Process startup and the cron scheduler (`backend/src/server.js`) are out of scope, and so is concurrency between requests: each request runs alone.
- ObjectId casting is not modelled. A report or alert id is a `nat`, and an ill-formed id is not distinguished from an unknown one.
- RouteQuery.Paging: a `skip` or `limit` that is `NaN` or a negative `skip` is taken to make the database refuse the query, and the handler answers 500. A negative `limit` is accepted and read as its absolute value.
- ReportRoutes.Listed: its contract names the listing at the parsed counts. What that listing holds is stated by `ReportRoutes.ListingOfSpec` and `ReportRoutes.ListedDefaults`.
- The water report status update and `$set` run no validator, so stored statuses are arbitrary strings, in both the water and the report models.

## Findings

| source | as written | input that shows it | evidently intended | confidence | as-written member | corrected member |
|---|---|---|---|---|---|---|
| backend/src/routes/alert.routes.js:16-19 | `/active` admits `validUntil: null`, but the model's `pre('find')` hook adds `validUntil > now`, so such alerts are never listed, while `/summary` (an aggregate, without the hook) counts them | an active alert for the city with no `validUntil` | alerts without an expiry are listed as active, as `/summary` counts them | not executed | AlertRoutes.NoExpiryNeverListed | AlertRoutes.ActiveIntendedSpec |
| backend/src/routes/alert.routes.js:105 | `highestSeverity: { $max: '$severity' }` compares the names as strings: warning > info > emergency > critical | one warning and one emergency alert of the same type | the most severe level in info < warning < critical < emergency | not executed | AlertRoutes.WarningOutranksEmergency | AlertRoutes.SeverityMax |
| backend/src/routes/alert.routes.js:106 | `latestAlert: { $first: '$$ROOT' }` without a `$sort` is the first matching alert in stored order, the oldest | an older and a newer alert of the same type, stored in that order | the newest alert of the type | not executed | AlertRoutes.FirstIsNotLatest | AlertRoutes.SummaryIntendedSpec |
| backend/src/routes/alert.routes.js:54-62 | `countDocuments` runs without the `find` hook, so `total` counts inactive and expired alerts and `hasMore` can be true with no next page | one expired alert for the city, first page | `hasMore` iff the next page is non-empty | not executed | AlertRoutes.HasMoreWithoutNextPage | AlertRoutes.HasMoreMeansNextPage |
| backend/src/routes/waterQuality.routes.js:45 | the generated record has `state: ''`, and the schema's required `state` refuses an empty string, so `/current` for a city without records answers 500 and stores nothing | `GET /current/Springfield` on an empty collection | the generated record is stored and returned, and found by the next request | not executed | WaterQuality.GeneratedRejected | WaterQuality.GeneratedIsFoundNext |
| backend/src/routes/airQuality.routes.js:92 | the fallback from `data.healthRecommendations` to `getDefaultRecommendations(...)` tests a nested path for truthiness, which Mongoose always presents as an object, so a found reading answers its stored recommendations even when none was set, and the defaults are never used; the ingestion pass never sets them | a severe reading written by the ingestion pass, then `GET /health-recommendations/:city` | the category's defaults for a reading with no stored recommendations | not executed | AirQualityRoutes.IngestedSevereGetsNoMaskAdvice | AirQualityRoutes.IntendedMaskAdvice |
