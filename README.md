# Smart-Irrigation-DSS decision kernel in Dafny

A model of the decision logic of the Smart Irrigation decision-support
dashboard. The dashboard collects data on Taiwanese reservoirs, rainfall and
irrigation districts. The model covers four parts:

- **Water-allocation simulation** (`Allocation`, allocation.dfy). This is the
  arithmetic of `waterAllocation.runSimulation`. The available water is
  converted from 萬噸 (10,000 tons) to tons, or drawn at random. The
  simulation then computes the allocation ratio min(A/D, 1), the allocated
  amount A × ratio and the deficit max(0, D − A). It also picks a priority
  tier (thresholds 0.7 and 0.9) and a recommendation list (threshold 0.8).
- **Risk assessment** (`Risk`, risk.dfy). This is
  `mockDataGenerator.generateRiskAssessment`: the four risk bands on the
  score, the level-to-recommendation mapping and the supply/demand ratio.
- **Reservoir records** (`Reservoirs`, reservoirs.dfy). This is
  `wraOpenDataApi.transformReservoirData` and the functions that feed it:
  - the lookup-table join with its fallbacks, and the `|| '0'` defaults;
  - the storage percentage, with its guard against a zero capacity;
  - the four status bands;
  - the whitelist filter of `getMajorReservoirsRealtime`.
- **Dashboard aggregation** (`Dashboard`, dashboard.dfy). This covers
  `getOverview` (average storage with its empty-list guard, total rainfall,
  the risk-level histogram) and `getRealtimeOverview` (the no-data and error
  branches, the totals, and the list sorted fullest first).

All quantities are `real`. Each `Math.random()` draw is a parameter with the
precondition `0 <= u < 1`, scaled the way the source scales it. `Wrappers`
(wrappers.dfy) holds the `Option` type. It stands for `null`/`undefined` in
records and for NaN in a sum of parsed numbers.

In three places the code does less, or something else, than one might expect. The model follows the code:

- **No input validation.** One might expect a negative or invalid
  available-water value to be rejected. The code checks nothing
  (`parameters` is `z.record(z.string(), z.any())`). So `AvailableTons` and
  `AllocationRatio` accept any real. A negative amount gives a negative ratio
  and a critical plan. The bounds `0 <= ratio` and `amount <= available` are
  stated for available ≥ 0.
- **Truthiness, not presence.** One might expect the random fallback to be
  used only when the amount is absent. The code uses it whenever the value is
  falsy. A number 0 therefore falls back to the random draw. A non-empty
  string such as "0" is truthy and gives 0 tons (`ZeroStringMeansNoWater`).
- **Allocated plus deficit.** One might expect allocatedAmount + deficit
  to equal min(A, D) whenever A ≤ D. With allocatedAmount = A × ratio
  as the code computes it, that sum is A²/D + D − A below full supply. It is
  never less than min(A, D), and it equals min(A, D) only when A = D
  (`AllocatedPlusDeficit`). The model keeps the product as written.

Every member is a total function of its inputs, so calling one twice with the
same inputs gives the same result. No lemma is needed for that.

## Model

| member | source | states |
|---|---|---|
| Allocation.AvailableTons | server/routers.ts:535-538 | a truthy supplied value v gives v × 10,000 tons (the result divided by 10,000 is v); otherwise the draw lands in [30000, 80000) |
| Allocation.DemandTons | server/routers.ts:539 | the sampled demand lies in [25000, 85000), so it is positive |
| Allocation.AllocationRatio | server/routers.ts:540 | ratio ≤ 1; ratio = 1 exactly when available ≥ demand; below 1 the ratio times demand is the available water; ratio ≥ 0 for available ≥ 0 |
| Allocation.AllocatedAmount | server/routers.ts:541 | equals available when available ≥ demand; times demand it equals available² below full supply; lies in [0, available] for available ≥ 0 |
| Allocation.Deficit | server/routers.ts:542 | never negative; zero exactly when available ≥ demand; otherwise available + deficit = demand |
| Allocation.PriorityOf | server/routers.ts:544-550 | critical exactly below 0.7, restricted exactly on [0.7, 0.9), normal exactly from 0.9 |
| Allocation.Recommendations | server/routers.ts:573-575 | the conservation list exactly when ratio < 0.8, the normal list exactly when ratio ≥ 0.8 |
| Allocation.Plan | server/routers.ts:552-559 | volumes are the ton figures divided by 10,000; the priority is that of the plan's ratio |
| Allocation.RunSimulation | server/routers.ts:528-587 | keeps district and scenario; status "completed"; demand in [2.5, 8.5) 萬噸; a truthy amount is reported back unchanged, otherwise in [3, 8) 萬噸; the plan is `Plan` of the available and demand tons, so its ratio, priority, allocated amount and deficit are those of the plan laws; record, plan and results carry the same figures; recommendations follow the plan's ratio |
| Allocation.PlanInWan | server/routers.ts:552-559 | in 萬噸 the plan still satisfies ratio = min(A/D, 1), deficit = max(0, D − A) and allocated = A × ratio |
| Allocation.FullSupplyIff | server/routers.ts:540-542 | ratio = 1 ⇔ deficit = 0 ⇔ available ≥ demand; under full supply the whole supply is allocated |
| Allocation.ShortSupplyAllocatesLessThanAvailable | server/routers.ts:541 | with 0 < A < D the allocated amount is strictly below A (it is A²/D, not min(A, D)) |
| Allocation.AllocatedPlusDeficit | server/routers.ts:541-542 | for A ≥ 0, allocated + deficit ≥ min(A, D), with equality exactly when A = D |
| Allocation.AdviceFollowsPriority | server/routers.ts:544-575 | critical plans get the 3-item conservation list, normal plans the 2-item normal list, restricted plans either one, split at 0.8 |
| Allocation.PriorityMonotone | server/routers.ts:545-550 | a lower ratio never gives a better tier |
| Allocation.SuppliedAmountRoundTrip | server/routers.ts:536-555 | a truthy amount v becomes v × 10,000 tons, and the plan reports v 萬噸 back (the conversion is applied once) |
| Allocation.ZeroStringMeansNoWater | server/routers.ts:536-550 | a supplied "0" is truthy: ratio 0, priority critical, deficit equal to the whole demand |
| Allocation.RatioSevenTenthsIsRestricted | server/routers.ts:546-549 | A = 7000, D = 10000 gives ratio 0.7 and priority restricted |
| Allocation.RatioNineTenthsIsNormal | server/routers.ts:545-549 | A = 9000, D = 10000 gives ratio 0.9 and priority normal |
| Allocation.FiveThousandWan | server/routers.ts:536-537 | a supplied 5000 萬噸 becomes 50,000,000 tons |
| Risk.RiskLevelOf | server/services/apiService.ts:647-650 | low exactly below 25, moderate exactly on [25, 50), high exactly on [50, 75), critical exactly from 75 |
| Risk.RecommendationFor | server/services/apiService.ts:670-674 | the drought-response text exactly for critical, the dispatch text exactly for high, the normal text exactly for low and moderate |
| Risk.GenerateRiskAssessment | server/services/apiService.ts:642-676 | score in [0, 100) with its level; supply in [5000, 15000); demand in [4000, 16000); the ratio times demand is the supply; rainfall in [0, 100); storage in [50, 90); the recommendation is that of the level |
| Risk.RiskLevelMonotone | server/services/apiService.ts:647-650 | a higher score never gives a less severe level |
| Risk.RiskLevelBoundaries | server/services/apiService.ts:647-650 | 24.999 is low, 25 moderate; 49.999 moderate, 50 high; 74.999 high, 75 critical |
| Risk.RecommendationKeywords | server/services/apiService.ts:670-674 | the critical text contains 抗旱應變, the high text contains 水源調度, the others contain 正常 |
| Risk.RecommendationOfScore | server/services/apiService.ts:644-674 | score ≥ 75 gives text with 抗旱應變, [50, 75) gives text with 水源調度, below 50 gives text with 正常 |
| Risk.SupplyDemandRatioBounds | server/services/apiService.ts:652-662 | demand is positive, the ratio is supply / demand, and it lies in (0.3125, 3.75) |
| Risk.SupplyDemandRatioUncapped | server/services/apiService.ts:662 | supply above demand gives a ratio above 1 (the ratio is not clamped) |
| Reservoirs.InfoFor | server/services/apiService.ts:330 | a known identifier gets its table entry, an unknown one the all-empty default |
| Reservoirs.OrZero | server/services/apiService.ts:351-357 | a missing or empty field becomes "0", any other field is kept; the result is never empty |
| Reservoirs.CapacityOf | server/services/apiService.ts:331 | a missing or unparsable capacity is 0, otherwise it is the parsed number |
| Reservoirs.EffectiveCapacity | server/services/apiService.ts:332 | the table's capacity when non-zero, else the record's own capacity |
| Reservoirs.StoragePercentage | server/services/apiService.ts:333 | for a positive effective capacity, the percentage times that capacity is capacity × 100; otherwise 0; it lies in [0, 100] when 0 ≤ capacity ≤ effective |
| Reservoirs.StatusOf | server/services/apiService.ts:336-340 | sufficient exactly from 70, normal exactly on [40, 70), warning exactly on [20, 40), critical exactly below 20 |
| Reservoirs.TransformRecord | server/services/apiService.ts:329-361 | identifier, name and time are passed through; a known id takes basin, county, capacity, level and position from the table; an unknown id takes empty strings, zeros and its own capacity; the percentage formula and its guard; status from the percentage; the defaults |
| Reservoirs.TransformReservoirData | server/services/apiService.ts:307-362 | same length as the input; element i is the transform of input i, with the same identifier |
| Reservoirs.GetAllReservoirsRealtime | server/services/apiService.ts:271-280 | no feed data gives null; otherwise exactly the transform of the feed's records, one per input record and in order |
| Reservoirs.FilterMajor | server/services/apiService.ts:289-297 | the result is a subsequence of the input; it keeps only whitelisted records, each as many times as it occurs in the input |
| Reservoirs.GetMajorReservoirsRealtime | server/services/apiService.ts:283-304 | no feed data gives null; otherwise the transform of the filtered records |
| Reservoirs.SubsequenceLength | server/services/apiService.ts:295-297 | a subsequence is never longer than its source |
| Reservoirs.MajorIdsAreTableKeys | server/services/apiService.ts:289-327 | the 18 whitelisted ids are exactly the table's keys; each has a basin and a positive capacity |
| Reservoirs.MajorReservoirsAreKnown | server/services/apiService.ts:295-299 | no more major reservoirs than input records; each has a table entry, a basin, the table's positive capacity and its percentage of it |
| Reservoirs.KnownRecord | server/services/apiService.ts:330-333 | a whitelisted record is transformed using its table entry |
| Reservoirs.UnknownIdReadsFull | server/services/apiService.ts:330-333 | an unknown id with positive capacity reads 100% and sufficient, with empty basin and county |
| Reservoirs.MissingCapacityUnknownId | server/api-integration.test.ts:215-231 | no capacity and an unknown id give effective storage 0, percentage 0 and status critical |
| Reservoirs.DefaultsNeverEmpty | server/services/apiService.ts:351-357 | water level, inflow, outflow, total outflow and basin rainfall are never empty after the transformation |
| Reservoirs.ShihmenAtHalf | server/api-integration.test.ts:43-57 | Shihmen (10201) at 10456.5 reads exactly 50%, status normal, basin 大漢溪, county 桃園市 |
| Reservoirs.ShihmenStatusBands | server/api-integration.test.ts:59-78 | Shihmen at 18000, 10000, 5000 and 2000 is sufficient, normal, warning and critical |
| Reservoirs.ShihmenPercentage | server/services/apiService.ts:333 | a Shihmen record's percentage is its capacity over 20913, times 100 |
| Dashboard.OrZeroAll | server/routers.ts:51 | one value per row: the row's number, or 0 where it is null |
| Dashboard.CountLevel | server/routers.ts:57-60 | a bucket equals the number of rows whose assessment has that level |
| Dashboard.CountPresent | server/routers.ts:56-61 | the rows with an assessment are at most all rows, and all rows exactly when none is missing |
| Dashboard.GetOverview | server/routers.ts:43-69 | the average is `Average` of the storage column with null counted as 0; the rainfall total; each bucket counts its level |
| Dashboard.DistributionTotal | server/routers.ts:56-61 | the four buckets sum to the number of rows with an assessment, which is at most all rows, and all rows when every row has one |
| Dashboard.SumBounds | server/routers.ts:51 | n values in [lo, hi] sum to a value in [n·lo, n·hi] |
| Dashboard.Average | server/routers.ts:50-52 | an empty list averages 0; otherwise the average times the count is the sum |
| Dashboard.AverageBounds | server/routers.ts:50-52 | an empty list averages 0; values in [lo, hi] average into [lo, hi] |
| Dashboard.OverviewAverageInRange | server/routers.ts:50-52 | storage percentages in [0, 100] give an average in [0, 100] |
| Dashboard.MissingStorageCountsAsZero | server/routers.ts:51 | rows at 80% and null average to 40% |
| Dashboard.InsertDescending | server/routers.ts:99-101 | inserting into a fullest-first list keeps it fullest first and adds exactly that one record |
| Dashboard.HeadIsFullest | server/routers.ts:99-101 | the head of a fullest-first list is at least as full as every element, and its tail is fullest first |
| Dashboard.SortByStorageDescending | server/routers.ts:99-101 | the result is ordered by storage percentage, non-increasing, and is a permutation of the input |
| Dashboard.SumReadings | server/routers.ts:92-96 | the total is NaN (None) exactly when some reading does not parse; when all parse it is the sum of the parsed values |
| Dashboard.Summarize | server/routers.ts:88-110 | source wra_opendata; the list is sorted fullest first and is a permutation of the input; the average is `Average` of the percentages; a total is NaN exactly when a reading of it does not parse, and otherwise the sum of the parsed inflows (outflows) |
| Dashboard.GetRealtimeOverview | server/routers.ts:72-122 | an error gives the empty error overview; null or empty data gives the empty no_data overview; otherwise (and only then) the summary of the data |
| Dashboard.RealtimeOverviewOfFeed | server/routers.ts:75-104 | a non-empty feed gives source wra_opendata and all its transformed records, fullest first, each once |
| Dashboard.InflowDefaultAddsZero | server/routers.ts:92-93 | a record without inflow contributes 0 to the inflow total |

## Left out

- HTTP clients are not modelled: `moaApi`, `weatherMoaApi`, the network
  reads of `wraOpenDataApi`, and `wraApi`. They are network I/O; a failed
  read becomes `None` (null) or `Threw`.
- The Feitsui XML scraping is not modelled. It is network I/O plus pattern
  matching over a foreign format.
- Persistence is not modelled: `server/db.ts`, `drizzle/schema.ts`,
  `insertSimulation`, `insertRiskAssessment` and `deleteSimulation`. The
  model takes the rows the queries return as sequences.
- The sync and seed mutations, the risk-recalculation loops
  (`calculate`, `calculateAll`), and admin/auth gating are not modelled.
  They sequence I/O or are framework middleware.
- The React pages are not modelled. They repeat the server's thresholds for
  display.
- Random draws and the clock are not modelled. Each `Math.random()` is a parameter
  in [0, 1); `new Date()` timestamps are dropped.
- Rounding and string formatting are not modelled: `toFixed`, `toString`,
  `parseFloat` and `Number` on strings. Quantities are exact reals. A
  parsed field carries its number as given (`Reading.parsed`,
  `Supplied.Text`).
- `JSON.stringify` of the request parameters and of the assessment
  `factors` is not modelled. The parameters are dropped from `Simulation`.
  The factors are kept as a plain record.
- A `Supplied.Text` whose text does not read as a number is not modelled.
  `Number()` gives NaN there, so the plan's figures become NaN.
- Object-prototype keys in the reservoir table are not modelled. The lookup
  treats only the 18 listed ids as known. In the source, an identifier such
  as "constructor" would find an inherited property instead.
- Dashboard.SortByStorageDescending: does not state that ties keep their
  input order. The source's sort is stable, and so is the insertion used here;
  that is not proved.
- Dashboard.SortByStorageDescending: compares exact percentages. The source
  compares the `toFixed(1)` strings, so values that round to the same figure
  tie there.
- Dashboard.GetRealtimeOverview: `Threw` stands for any exception in the
  handler body. Feed failures are already caught inside
  `getAllReservoirsRealtime` and return null. After that the handler only
  runs `parseFloat`, `reduce` and `sort` over transformed records, whose
  fields are `toFixed` strings or `|| '0'` defaults. None of these throws on
  such data, so the `error` branch is effectively unreachable.
