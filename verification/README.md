# Float diagnostic scoring engine, in Dafny

This project models the scoring and opportunity engine behind `runDiagnostic`. The engine belongs to a lead-generation diagnostic for home-infusion programs. One plain input record (weekly volumes, leakage, staffing, time-to-start, unit economics) becomes one result record. The result holds:

- three 0–100 scores: capacity, unit economics and the growth constraint index;
- a three-scenario opportunity model (conservative, base, aggressive);
- at most four bottlenecks ranked by severity;
- an executive summary with exactly three bullets;
- up to five next steps.

The benchmark table those calculations read is one constant record. The project also models the report's two small formatters (`fmtDollar`, `scoreLabel`) and its growth-constraint label.

The project uses one Dafny module per part of the source:

| module | file | models |
|---|---|---|
| `Numeric` | numeric.dfy | `Math.round`, `Math.max`/`min`, `clamp` |
| `Optional` | optional.dfy | optional input fields and `??` |
| `Lists` | lists.dfy | `slice(0, n)` |
| `Benchmarks` | benchmarks.dfy | the `BENCHMARKS` table |
| `Types` | types.dfy | the records of `types/index.ts` |
| `Resolvers` | resolvers.dfy | margin, revenue, caseload, margin share |
| `Scores` | scores.dfy | the three scores |
| `Opportunity` | opportunity.dfy | the opportunity model |
| `Bottlenecks` | bottlenecks.dfy | the five rules, the stable sort, the cut to four |
| `Format` | format.dfy | the shape of a formatted dollar figure |
| `Narrative` | narrative.dfy | executive summary and next steps |
| `Report` | report.dfy | the report formatters and labels |
| `Diagnostic` | diagnostic.dfy | `getBenchmarksUsed`, `runDiagnostic`, a worked example |

Modelling choices:

- A TypeScript `number` is an exact `real`.
- `Math.round(x)` is `Floor(x + 0.5)`, so ties go up, also for negative x.
- Scores are `int`, since they are rounded before they are clamped.
- Optional fields are `Option`. `avgReimbursement` is read for truthiness, so a present value of 0 counts as absent.
- Bottleneck items carry their rule, title and severity. Bullets carry a kind tag and the figures their sentence interpolates. Next steps are an enumeration of the fixed sentences.
- The sort in `calcBottlenecks` is an array sort with comparator `rank(a) − rank(b)`, and JavaScript's array sort is stable. It is modelled as an insertion sort. A lemma proves the sort equal to an independent definition: all critical items, then all high, then all medium, each group in rule order.
- The executive summary's `while` loop is modelled as the method `PadBullets`, shaped like the source's loop. It is proved equal to the closed form `PaddedBullets`, which the rest of the model uses.
- A formatted dollar figure is a record with three parts: the number given to `toFixed`/`toLocaleString`, the style, and the suffix. The digit rendering is a function parameter of `Format.Render`, because it is host library code.

Three behaviours of the code are easy to misread:

- The caseload sub-score's line runs over the whole range [low, targetMax] = [4, 10], so a caseload of 4–6 scores 40–60.
- On the worked example (caseload 120/18 ≈ 6.67) the caseload sub-score is 66⅔, giving capacity 61, unit economics 69 and growth constraint 27.
- The summary's local dollar formatter has no plain-dollar branch: every amount under $1,000,000 goes through `(n / 1000).toFixed(0)` with a "K" suffix, so $0–$499 shows as "$0K" and $500–$999 as "$1K". Only the report's formatter has the plain branch. The two are modelled separately, each as written.

## Model

| member | source | states |
|---|---|---|
| Numeric.Round | lib/calculations.ts:67 | `Math.round` returns the integer r with r ≤ x + ½ < r + 1, so ties round up |
| Numeric.Clamp | lib/calculations.ts:5-7 | the result lies in [lo, hi]; it equals v inside the range and the nearer bound outside it |
| Numeric.ScoreOf | lib/calculations.ts:67 | `clamp(Math.round(raw))` is an integer in [0,100]; it equals the rounded value when that is in range, 0 below and 100 above |
| Numeric.ScoreOfMonotone | lib/calculations.ts:67 | a larger raw blend never gives a smaller score |
| Optional.ValueOr | lib/calculations.ts:28 | the `??` operator: a present field gives its value, a missing one the fallback |
| Benchmarks.WeightsSumToOne | lib/benchmarks.ts:65-81 | each of the three weight triples is non-negative and sums to exactly 1 |
| Benchmarks.BandsAscending | lib/benchmarks.ts:9-60 | the referral-to-start (2<4<7<14), leakage (3<8<15<20) and readmission thresholds are strictly ascending |
| Benchmarks.NurseCapacityOrdered | lib/benchmarks.ts:18-23 | low < targetMin < target < targetMax < max, and target is the midpoint of targetMin and targetMax |
| Benchmarks.RecoveryRatesOrdered | lib/benchmarks.ts:46-51 | 0 < conservative < base < aggressive < 1, and the recovery threshold equals referralToStart.good |
| Benchmarks.CostBandsContiguous | lib/benchmarks.ts:85-88 | the band maxima ascend, and each band's min is the previous band's max |
| Resolvers.ResolveMargin | lib/calculations.ts:9-17 | dollar mode with a dollar margin returns it; percent mode with a percentage returns cost × pct/100; any other combination returns 0 |
| Resolvers.PercentMarginRoundTrip | lib/calculations.ts:13-15 | in percent mode with nonzero cost, the resolved margin read back as a share of cost is the percentage entered |
| Resolvers.ResolveRevenuePerInfusion | lib/calculations.ts:19-23 | a present, nonzero reimbursement is returned as is; otherwise revenue minus resolved margin equals the cost per episode |
| Resolvers.DerivedMarginShareBelowWhole | lib/calculations.ts:19-23 | without a reimbursement figure, positive cost and a non-negative margin give a margin share in [0, 100) |
| Resolvers.InfusionsPerNurse | lib/calculations.ts:30-32 | with nurses, caseload × nurses = weekly infusions; with no nurses the caseload is 0 |
| Resolvers.MarginPercent | lib/calculations.ts:76 | with positive revenue, share × revenue = margin × 100; otherwise the share is 0 |
| Scores.NurseScore | lib/calculations.ts:34-45 | 30 below 4; on [4,10] the line through (6,60) and (10,100), at least 40; 50 on (10,12]; 25 above 12; always in [25,100] |
| Scores.UtilizationAdjusted | lib/calculations.ts:47-48 | utilization below 60 scales the sub-score by 0.8, above 90 by 0.9, and on [60,90] leaves it unchanged |
| Scores.Utilization | lib/calculations.ts:28 | a missing utilization defaults to 75; a reported one, 0 included, is used as is |
| Scores.TimeScore | lib/calculations.ts:50-56 | the time sub-score is 100 exactly when days ≤ 2, 85 exactly on (2,4], 60 exactly on (4,7], 35 exactly on (7,14] and 15 exactly above 14 |
| Scores.LeakageScore | lib/calculations.ts:58-64 | the leakage sub-score is 100 exactly at ≤ 3%, 80 exactly on (3,8], 55 exactly on (8,15], 30 exactly on (15,20] and 10 exactly above 20% |
| Scores.CapacityRaw | lib/calculations.ts:66 | the weighted capacity blend always lies in [15.75, 100] |
| Scores.CapacityScore | lib/calculations.ts:26-68 | the capacity score is an integer in [16,100] equal to the rounded blend, so the clamp never acts |
| Scores.MarginScore | lib/calculations.ts:77-82 | the margin sub-score is 100 exactly at a share ≥ 35%, 80 exactly on [25,35), 60 exactly on [15,25), 40 exactly on [8,15) and 20 exactly below 8% |
| Scores.HomeScore | lib/calculations.ts:84-85 | the home-delivery sub-score is the line 40 + share × 60 (share = percent/100): 40 at 0%, 70 at 50%, 100 at 100%, and in [40,100] on that range |
| Scores.CostScore | lib/calculations.ts:87-92 | the cost sub-score is 90 exactly at cost ≤ 400, 70 exactly on (400,1200], 55 exactly on (1200,5000] and 40 exactly above 5000 |
| Scores.UnitEconomicsRaw | lib/calculations.ts:94 | for a home-delivery share in [0,100] the blend lies in [30,100] |
| Scores.UnitEconomicsScore | lib/calculations.ts:71-96 | the score is in [0,100]; for a home share in [0,100] it is at least 30 and equals the rounded blend |
| Scores.LostScore | lib/calculations.ts:102 | the lost-referral sub-score is loss × 3.5 held in [0,100], reaching 100 from about 28.6% leakage |
| Scores.TimeGapScore | lib/calculations.ts:104-105 | the time-gap sub-score is 0 up to 4 days, then 8 points per extra day, and 100 from 16.5 days on; always in [0,100] |
| Scores.CapacityPressure | lib/calculations.ts:107-113 | caseload pressure is 0 up to 6, 100 from 12, linear between, and always in [0,100] |
| Scores.GrowthRaw | lib/calculations.ts:115 | the growth blend always lies in [0,100] |
| Scores.GrowthConstraintIndex | lib/calculations.ts:99-117 | the index is an integer in [0,100] equal to the rounded blend |
| Scores.TimeScoreAntitone | lib/calculations.ts:50-56 | a longer time-to-start never earns a higher time sub-score |
| Scores.LeakageScoreAntitone | lib/calculations.ts:58-64 | more leakage never earns a higher leakage sub-score |
| Scores.NurseScoreRisesInRange | lib/calculations.ts:37-40 | on [4,10] the caseload sub-score rises with the caseload |
| Scores.NoNursesScoresThirty | lib/calculations.ts:30-36 | with no nurses the caseload sub-score is 30 and the caseload pressure is 0 |
| Scores.UtilizationPenaltyLowers | lib/calculations.ts:47-48 | the utilization adjustment never raises a non-negative sub-score and never makes it negative |
| Scores.CapacityScoreAntitoneInDays | lib/calculations.ts:50-67 | with all else fixed, a longer time-to-start never raises the capacity score |
| Scores.CapacityScoreAntitoneInLeakage | lib/calculations.ts:58-67 | with all else fixed, more leakage never raises the capacity score |
| Scores.UnitEconomicsMonotoneInHomeDelivery | lib/calculations.ts:84-95 | with all else fixed, more home delivery never lowers the unit economics score |
| Scores.GrowthIndexMonotoneInLeakage | lib/calculations.ts:102-116 | with all else fixed, more leakage never lowers the growth constraint index |
| Scores.GrowthIndexMonotoneInDays | lib/calculations.ts:104-116 | with all else fixed, a longer time-to-start never lowers the growth constraint index |
| Opportunity.RecoveryRate | lib/benchmarks.ts:48-50 | every scenario's recovery rate is a proper fraction in (0,1) |
| Opportunity.LostAnnualInfusions | lib/calculations.ts:125 | lost infusions lie within ½ of referrals × loss/100 × 52 |
| Opportunity.Recoverable | lib/calculations.ts:127-134 | recoverable volume is 0 when days ≤ 4 and otherwise round(referrals × 52 × rate); it is non-negative for non-negative referrals |
| Opportunity.RecoverableScenarios | lib/calculations.ts:143-147 | each scenario's entry is that scenario's recoverable volume |
| Opportunity.Totals | lib/calculations.ts:136-138 | each scenario's total is the lost volume plus that scenario's recoverable volume |
| Opportunity.Worth | lib/calculations.ts:155-164 | each scenario's value is its volume times the per-infusion figure, rounded |
| Opportunity.CalcOpportunityModel | lib/calculations.ts:120-166 | current volume is weekly × 52; the per-infusion revenue and margin equal the two resolvers; totals and opportunities are built per scenario as above |
| Opportunity.NoRecoveryWhenStartIsGood | lib/calculations.ts:128-138 | at days ≤ 4 all recoverable volumes are 0, so every total equals the lost volume |
| Opportunity.WorthOrdered | lib/calculations.ts:155-164 | ordered volumes priced at a non-negative rate stay ordered |
| Opportunity.RecoverableOrdered | lib/calculations.ts:129-134 | for non-negative referrals, conservative ≤ base ≤ aggressive recoverable volume |
| Opportunity.ScenariosOrdered | lib/calculations.ts:124-164 | for non-negative referrals, recoverable and total volumes are ordered across scenarios; so are revenue and margin opportunities when the per-infusion figure is non-negative |
| Bottlenecks.StartTimeRule | lib/calculations.ts:172-186 | critical exactly when days > 14, high exactly on (7,14], no item exactly when days ≤ 7 |
| Bottlenecks.LeakageRule | lib/calculations.ts:188-202 | critical exactly above 20%, high exactly on (15,20], medium exactly on (8,15], no item exactly at ≤ 8% |
| Bottlenecks.NurseCapacityRule | lib/calculations.ts:204-221 | critical exactly when caseload > 12, high exactly on (10,12], no item exactly at ≤ 10 |
| Bottlenecks.MarginRule | lib/calculations.ts:223-233 | an item appears exactly when revenue > 0 and the margin share is < 15; it is critical exactly below 8 and never medium |
| Bottlenecks.ReadmissionRule | lib/calculations.ts:235-242 | an item appears exactly when a readmission rate is reported and > 15; it is critical exactly above 20 and never medium |
| Bottlenecks.ReadingsOf | lib/calculations.ts:204-225 | the rules read the inputs' days, leakage and readmission rate, the caseload, the resolved revenue and the margin share |
| Bottlenecks.Collected | lib/calculations.ts:169-242 | an item is listed exactly when one of the five rules fires with it; there are at most five, strictly in rule order, so each rule adds at most one |
| Bottlenecks.MediumOnlyFromLeakage | lib/calculations.ts:188-202 | every medium item comes from the leakage rule, with leakage in (8,15] |
| Bottlenecks.Insert | lib/calculations.ts:245 | an insertion step adds exactly the inserted item: the multiset grows by it and the length by one |
| Bottlenecks.SortBySeverity | lib/calculations.ts:245 | the sort is a permutation: same length and same multiset of items |
| Bottlenecks.FilterInsert | lib/calculations.ts:244-245 | an insertion puts the item at the front of its own severity group and leaves every other group unchanged |
| Bottlenecks.SortKeepsGroups | lib/calculations.ts:244-245 | sorting keeps each severity group's items in their original order (stability) |
| Bottlenecks.InsertSorted | lib/calculations.ts:244-245 | inserting into a severity-sorted list keeps it sorted |
| Bottlenecks.SortSorted | lib/calculations.ts:244-245 | the sort's output is ordered critical, then high, then medium |
| Bottlenecks.SortedIsBuckets | lib/calculations.ts:244-245 | a severity-sorted list equals its critical items, then its high items, then its medium items |
| Bottlenecks.SortIsStable | lib/calculations.ts:244-245 | the sort equals the independent definition "critical items, then high, then medium, each in rule order" |
| Bottlenecks.TakeKeeps | lib/calculations.ts:247 | a prefix of a sorted list is sorted and holds only items of that list |
| Bottlenecks.Prioritize | lib/calculations.ts:244-247 | the result has at most four items, is sorted by severity, draws only from the input, and is the first four of the severity grouping |
| Bottlenecks.CalcBottlenecks | lib/calculations.ts:169-248 | at most four items, severity-sorted, a prefix of the stable severity grouping of the triggered rules; a medium item only for 8–15% leakage |
| Lists.Take | lib/calculations.ts:247 | `slice(0, n)` is a prefix of length min(n, length) |
| Format.Render | app/api/pdf/route.ts:5-9 | whatever digits the host produces, the text starts with "$" and ends with the suffix |
| Narrative.SummaryFmtDollar | lib/calculations.ts:257-260 | millions with one decimal exactly from $1,000,000, whole thousands for every smaller amount; shown number × scale = amount |
| Narrative.SummaryHeadline | lib/calculations.ts:257-262 | the headline figure is the base revenue opportunity in the summary's own millions/thousands format, never the plain-dollar form; the driver is capacity exactly when the capacity score is below 60 |
| Narrative.ConditionalBullets | lib/calculations.ts:264-287 | at most three non-filler bullets in rule order. Leakage bullet iff leakage > 8. Start-time bullet iff days > 4. Caseload bullet iff caseload > 10. Economics bullet iff caseload ≤ 10 and unit economics < 60 |
| Narrative.FillerFor | lib/calculations.ts:289-297 | the filler is the volume bullet exactly at count 0 and the home-delivery bullet exactly at count 1; otherwise it is the upside bullet |
| Narrative.PaddedBullets | lib/calculations.ts:289-299 | exactly three bullets: the given ones first (cut to three), then the filler each missing position selects |
| Narrative.PadBullets | lib/calculations.ts:289-299 | the source's padding loop produces exactly the closed form `PaddedBullets` |
| Narrative.GenerateExecutiveSummary | lib/calculations.ts:251-300 | the headline is the summary headline, so it cites the base revenue opportunity and names capacity as the driver iff the capacity score < 60; exactly three bullets, the triggered ones first, then fillers by position |
| Narrative.TriggeredBlocks | lib/calculations.ts:306-319 | at most three next-step blocks fire |
| Narrative.GenerateNextSteps | lib/calculations.ts:303-325 | length is min(5, 2 + 2k) for k triggered blocks; steps appear in source order (blocks, then closing steps) |
| Narrative.NextStepsTable | lib/calculations.ts:303-325 | the pushes and the cut agree with an explicit table of all eight trigger patterns |
| Narrative.NextStepsContents | lib/calculations.ts:303-325 | each block's steps appear iff its score triggers it. With three blocks the economics block's second step is dropped. The closing steps are dropped one by one from two blocks up |
| Report.FmtDollar | app/api/pdf/route.ts:5-9 | "M" with one decimal exactly from $1,000,000; "K" with no decimals exactly on [1,000, 1,000,000); grouped plain figure exactly below 1,000; shown × scale = amount |
| Report.FmtDollarText | app/api/pdf/route.ts:5-9 | the rendered text starts with "$"; it ends in "M" from $1,000,000 and in "K" on [1,000, 1,000,000) |
| Report.ScoreLabel | app/api/pdf/route.ts:11-16 | Strong iff ≥ 80, Adequate iff [60,80), At Risk iff [40,60), Critical iff < 40, so every score gets a grade |
| Report.ScoreLabelMonotone | app/api/pdf/route.ts:11-16 | a higher score never gets a worse grade |
| Report.GrowthConstraintLabel | app/api/pdf/route.ts:112 | High Constraint iff > 60, Moderate iff (35,60], Low iff ≤ 35 |
| Report.GrowthLabelMonotone | app/api/pdf/route.ts:112 | a higher growth constraint index never gets a looser label |
| Diagnostic.GetBenchmarksUsed | lib/calculations.ts:328-337 | six disclosure headings; each maps to the assumption text of a benchmark group |
| Diagnostic.CalcScores | lib/calculations.ts:341-345 | the capacity, unit economics and growth constraint fields hold the three scores of the inputs: capacity in [16,100], the others in [0,100] |
| Diagnostic.RunDiagnostic | lib/calculations.ts:340-362 | inputs are echoed unchanged. Every other field is the one its builder computes from the inputs: scores, opportunity model, bottlenecks, executive summary (from those scores and that model), next steps and disclosure table. Hence at most four sorted bottlenecks, exactly three bullets, two to five next steps, per-infusion figures equal to the resolvers, and a headline driver that follows the capacity score |
| Diagnostic.ExampleVolumes | lib/calculations.ts:124-138 | for the worked example: 905 lost, 754/1357/1885 recoverable, 1659/2262/2790 total infusions |
| Diagnostic.ExampleScores | lib/calculations.ts:26-117 | for the worked example: capacity 61, unit economics 69, growth constraint 27 |
| Diagnostic.ExampleBottlenecks | lib/calculations.ts:169-248 | for the worked example the single bottleneck is the medium "Elevated Referral Leakage" |
| Diagnostic.ExampleSummary | lib/calculations.ts:251-300 | for the worked example: leakage bullet, start-time bullet, upside filler; the driver is referral recovery and cost |
| Diagnostic.ExampleNextSteps | lib/calculations.ts:303-325 | for the worked example only the two closing steps remain |

## Left out

- Persistence (`lib/db.ts`): file and external-store I/O, environment lookup, and identifiers from the clock and randomness. The engine never calls it.
- The submission endpoint (`app/api/submit/route.ts`): HTTP and JSON glue around `runDiagnostic` and persistence.
- `buildHTML` and `POST` in `app/api/pdf/route.ts`: HTML/CSS templating and the current date string.
- The React pages and layout: UI and session storage, with no engine logic.
- Digit rendering by `toFixed` and `toLocaleString`: it is host library code. `Format.Render` takes it as a parameter, and the model fixes only the number it receives, its style and the suffix.
- The interpolated description, metric and bullet sentences: items and bullets keep their kind, title, severity and interpolated figures, not the final text.
- IEEE-754 behaviour (rounding error in `0.40 + 0.35 + 0.25`, NaN, infinities): numbers are exact reals.
- Determinism and idempotence of `runDiagnostic`: every member is a pure function, so this holds by construction and has no lemma.
- Unused table entries: `homeDeliveryDiscount.value`, the readmission `excellent`/`good` marks and `nurseCapacity.target` sit in the constant record, but no calculation reads them.
- Diagnostic.GetBenchmarksUsed: the contract fixes the six headings and states that every value is a benchmark group's assumption text. It pins the exact heading-to-text pairing for one heading only.
