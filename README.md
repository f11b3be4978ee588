# Wealth projection engine, modelled in Dafny

This project models the projection engine of a personal-finance planning
backend: `ProjectionService.run` and its two helpers `applyRealRate` and
`lifeRules`. Given a simulation version, a life status (`VIVO`, `MORTO`,
`INVALIDO`), an optional start date and real rate, the version's allocations
with their dated value entries, its cash movements and its insurance
policies, a run produces one wealth snapshot per year from the start year
through 2060.

The model follows the engine's five parts:

- **Baseline resolution.** For each allocation, the latest entry date not
  after the start. Every entry at that date is summed into financial or
  real-estate wealth. The allocation map is built as `new Map(...)` builds
  it, so a later allocation with the same id wins.
- **Yearly cash flows.** UNIQUE, YEARLY and MONTHLY movements inside their
  inclusive year window. A missing end date stands for 2099-12-31.
- **Insurance premiums.** A policy charges twelve monthly premiums in every
  year from its start year through the year of its last covered day. That
  day is computed with `setUTCMonth` and `setUTCDate` as the code does.
- **Life rules.** Incomes and expenses are reweighted by status.
- **The year loop.** Growth applies from the second year on. Then the flows
  are settled: the premium joins the expenses, the life rules reweight them,
  and the unscaled premium is taken back out for the balance without
  insurance.

Files:

- `calendar.dfy` (module `Calendar`): UTC dates as year, 0-based month, day
  and time of day. It holds their order, and `AddMonths` and `PrevDay`
  modelling the two setters. It also proves a closed form for the year in
  which a policy's coverage ends.
- `projection.dfy` (module `Projection`): the data model, the two helpers,
  specification functions for each part, and the imperative methods of `run`.
  Those methods are `AllocationMap`, `LatestPerAllocation`, `SumAtLatest`,
  `SumMovements`, `SumPremiums`, `SettleYear`, `ProjectYears` and `Run`. Each
  is proved equal to its specification function.
- `properties.dfy` (module `ProjectionProperties`): what the engine
  promises, proved over the specification functions.
- `scenarios.dfy` (module `ProjectionScenarios`): the repository's test
  scenarios, proved for every version, since their inputs override the
  version's start date and rate.

Amounts are exact `real`s, standing for the decimal amounts of the source.
The database reads become sequences passed to `Run`, together with the
version record.

## Model

| member | source | states |
|---|---|---|
| Projection.Run | src/services/ProjectionService.ts:19-127 | The run returns the version id and the status. Its points are the specification `Projected`: the input's start date and rate win over the version's, balances open at the baseline with `finNoIns = fin0`, and there is one snapshot per year. Points are consecutive years from the start year, empty exactly when the start year is past 2060 and otherwise ending at 2060, each with `total = finWealth + realWealth`. |
| Projection.ProjectYears | src/services/ProjectionService.ts:65-125 | The year loop returns exactly `Points(plan, b0, YearCount(yearStart))`, the snapshots of the year-by-year specification. |
| Projection.SettleYear | src/services/ProjectionService.ts:110-116 | The loop body's counterpart of the specification `Settle`: the updated `fin` and `finNoIns` are exactly those of `Settle`, where the premium joins the expenses, the life rules apply, and the unscaled premium is taken back out for `finNoIns`. The promises about a settled year are proved on `Settle`. |
| Projection.NextYear | src/services/ProjectionService.ts:70-124 | One more year runs `YearStep` on the previous balances for calendar year `yearStart + k` and appends its snapshot. |
| Projection.PointsShape | src/services/ProjectionService.ts:118-124 | After `k` years there are `k` points, and point `i` is the snapshot of year `yearStart + i` with the balances after `i + 1` years. |
| Projection.ResolveBaseline | src/services/ProjectionService.ts:29-60 | The opening balances are `BaselineOf`: the allocation map, the latest eligible date per allocation, then the sum of the entries at those dates by kind. |
| Projection.AllocationMap | src/services/ProjectionService.ts:54 | The loop builds exactly `AllocationKinds`. |
| Projection.AllocationKindsLastWins | src/services/ProjectionService.ts:54 | The map's keys are the allocations' ids, and each id maps to the kind of the last allocation carrying it. |
| Projection.LatestPerAllocation | src/services/ProjectionService.ts:36-43 | The loop computes exactly `LatestDates`. |
| Projection.LatestDatesAreMaxima | src/services/ProjectionService.ts:36-43 | Each date found belongs to an entry of that allocation and is not after the start. No eligible entry of the allocation is later. An allocation has a date exactly when it has an eligible entry. |
| Projection.SumAtLatest | src/services/ProjectionService.ts:45-60 | The loop sums exactly the entries dated at their allocation's latest date, by kind (`KindSum`). |
| ProjectionProperties.BaselineIgnoresIneligible | src/services/ProjectionService.ts:36-52 | An entry dated after the start, or of an allocation outside the version, changes neither baseline balance, wherever it stands in the list. |
| ProjectionScenarios.TiedLatestEntriesAreSummed | src/services/ProjectionService.ts:45-60 | Two entries of one allocation at its latest date are both summed (300 + 200), and a real-estate entry goes to `real0`. |
| ProjectionScenarios.BaselineUsesLastEntryBeforeStart | src/tests/services/ProjectionService.spec.ts:41-70 | From 2025-02-01 the baseline is the 2022 value 200. The 2020 value is superseded and a 2026 value is not yet in force. |
| ProjectionScenarios.OpeningPointScenario | src/tests/services/ProjectionService.spec.ts:41-70 | That run's 2025 point has `finWealth` 200, `realWealth` 0 and `total` 200. |
| Projection.SumMovements | src/services/ProjectionService.ts:77-99 | The movement loop yields exactly `YearFlows`: the year window check, UNIQUE only in its start year, YEARLY once, MONTHLY times twelve, and INCOME or else expense. |
| ProjectionProperties.MovementTotalOverYears | src/services/ProjectionService.ts:80-99 | Over any run of years, a UNIQUE movement adds its value once, if its start year is in the run and its window is not empty. A YEARLY one adds its value per year of overlap with its window, a MONTHLY one twelve times that, and nothing outside the window. |
| ProjectionProperties.YearFlowsAppend | src/services/ProjectionService.ts:80-99 | Movements add up independently: the totals of two lists together are the sums of their totals. |
| ProjectionProperties.YearFlowsNonNegative | src/services/ProjectionService.ts:80-99 | With non-negative values, both yearly totals are non-negative. |
| ProjectionScenarios.FrequencyScenario | src/tests/services/ProjectionService.spec.ts:72-91 | The one-off income of 1000 in 2026, 200 a year and 50 a month of expenses total -400 in 2025 and 200 in 2026. |
| ProjectionScenarios.EndDateScenario | src/tests/services/ProjectionService.spec.ts:174-194 | A yearly 100 ending 2026-12-31 totals 100, 200 and 200 in 2025, 2026 and 2027. |
| Projection.SumPremiums | src/services/ProjectionService.ts:101-109 | The premium loop runs the calendar computation of each policy's last covered day and yields exactly `PremiumYear`. |
| Calendar.CoverageEndYearIsClosedForm | src/services/ProjectionService.ts:104-107 | On every date with month and day in range, the year of `PrevDay(AddMonths(start, n))` is `startY + (m + n) div 12`, minus one when `(m + n) mod 12 = 0` and the day is the 1st. |
| ProjectionProperties.ChargedYears | src/services/ProjectionService.ts:102-108 | A policy is charged in year `y` exactly when `y` is between its start year and the year of its calendar-computed last covered day. |
| ProjectionProperties.ChargedInStartYear | src/services/ProjectionService.ts:102-108 | A policy of at least one month is charged in its start year. |
| ProjectionProperties.ChargedWholeYears | src/services/ProjectionService.ts:102-108 | A policy of `12k` months from January 1st is charged in exactly `k` years. |
| ProjectionProperties.PremiumYearNonNegative | src/services/ProjectionService.ts:101-109 | Non-negative monthly premiums give a non-negative yearly premium. |
| Calendar.CoverageEndsInOrAfterStartYear | src/services/ProjectionService.ts:104-107 | A term of at least one month ends no earlier than its start year. |
| Calendar.CoverageOfWholeYears | src/services/ProjectionService.ts:104-107 | A term of `12k` months from January 1st ends in year `startY + k - 1`. |
| Calendar.AddMonthsMoves | src/services/ProjectionService.ts:105 | `setUTCMonth` keeps the time of day and valid dates valid. When the day exists in the target month, the result is exactly `n` months later on the same day. |
| Calendar.PrevDayIsDayBefore | src/services/ProjectionService.ts:106 | `setUTCDate(getUTCDate() - 1)` gives a strictly earlier date, and on a valid date the next day of the result is the date it started from. |
| Calendar.NotAfterTransitive | src/services/ProjectionService.ts:40 | The `lte` order on dates is transitive. |
| Calendar.NotAfterTotal | src/services/ProjectionService.ts:40 | Any two dates are ordered one way or the other. |
| ProjectionScenarios.TwoYearTermEnds | src/tests/services/ProjectionService.spec.ts:196-219 | A 24-month term from 2025-01-01 ends on 2026-12-31. |
| ProjectionScenarios.PolicyTermScenario | src/tests/services/ProjectionService.spec.ts:196-219 | 100 a month for 24 months gives totals -1200, -2400 and -2400 in 2025 to 2027, with `totalNoIns` 0 in each. |
| ProjectionProperties.SettleByStatus | src/services/ProjectionService.ts:12-16 | A settled year leaves real estate alone. The financial balance changes by incomes minus expenses and premium (VIVO), by minus expenses and premium (INVALIDO), or by minus half of them (MORTO). `finNoIns - fin` grows by the premium. |
| ProjectionScenarios.StatusScenario | src/tests/services/ProjectionService.spec.ts:93-108 | Income and expenses of 1200 total 0 in 2025 under VIVO and -600 under MORTO. |
| ProjectionScenarios.DisabilityScenario | src/tests/services/ProjectionService.spec.ts:127-138 | Income 1200 and expenses 1000 total -1000 in 2025 under INVALIDO. |
| ProjectionProperties.GrowthSchedule | src/services/ProjectionService.ts:70-75 | The first year settles the opening balances without growth. Every later year grows last year's balances once, at `ratePct`, before settling. |
| Projection.ApplyRealRateGain | src/services/ProjectionService.ts:7-10 | `applyRealRate` returns `amount * (ratePct / 100 + 1)`: the gain over the amount is `ratePct` hundredths of it, and a zero rate returns the amount unchanged. |
| Projection.LifeRulesByStatus | src/services/ProjectionService.ts:12-16 | `lifeRules` gives `(0, expenses / 2)` under MORTO and `(0, expenses)` under INVALIDO, and returns its input under VIVO: only VIVO keeps its incomes. |
| ProjectionProperties.GrowStep | src/services/ProjectionService.ts:7-10 | `applyRealRate` multiplies each balance by `ratePct / 100 + 1`. |
| ProjectionProperties.LaterYear | src/services/ProjectionService.ts:71-75 | From the second year on, each balance is multiplied by the growth factor before the year's flows are settled. |
| ProjectionProperties.ZeroRateYear | src/services/ProjectionService.ts:71-75 | At a zero rate no year grows: each year only settles its flows. |
| ProjectionProperties.RealEstateOnlyCompounds | src/services/ProjectionService.ts:67-75 | After `k` years, real-estate wealth is the baseline times the growth factor to the power `k - 1`, whatever the flows, premiums and status. |
| ProjectionProperties.RealEstateStep | src/services/ProjectionService.ts:73 | From the second year on, real-estate wealth is last year's times the growth factor. |
| ProjectionProperties.CompoundingWithoutFlows | src/services/ProjectionService.ts:70-75 | Without movements and policies, all three balances are the opening ones times the growth factor to the power `k - 1`, under every status. |
| ProjectionScenarios.CompoundingScenario | src/tests/services/ProjectionService.spec.ts:140-172 | 1000 at 10 % gives totals 1000, 1100 and 1210 in 2025 to 2027. |
| ProjectionProperties.PremiumGapAtZeroRate | src/services/ProjectionService.ts:110-116 | At a zero rate, `finNoIns - fin` after `k` years is the opening gap plus every premium of those years, under every status. |
| ProjectionProperties.NoInsBalanceIsUninsuredBalance | src/services/ProjectionService.ts:110-116 | Under VIVO and INVALIDO, at every rate, `finNoIns` equals the `fin` that the same run reaches with no policies. |
| ProjectionProperties.TotalNoInsIsUninsuredTotal | src/services/ProjectionService.ts:118-124 | So under VIVO and INVALIDO every point's `totalNoIns` is the `total` of the same projection without policies. |
| ProjectionProperties.MortoSettleGap | src/services/ProjectionService.ts:112-116 | In one MORTO year, the balance without insurance gains half that year's premium over the uninsured financial balance. |
| ProjectionProperties.MortoNoInsExceedsUninsured | src/services/ProjectionService.ts:112-116 | Under MORTO at a zero rate, `finNoIns` ends half of all premiums above the `fin` of the same run with no policies: subtracting the unscaled premium from halved expenses does not cancel. |
| ProjectionScenarios.ZeroRateRunFrom2025 | src/services/ProjectionService.ts:70-125 | At a zero rate with no allocations, the first three `total`s and `totalNoIns`s are running sums of each year's net flow, with and without the premium. |
| ProjectionScenarios.PremiumOnlyInTotalScenario | src/tests/services/ProjectionService.spec.ts:110-125 | A zero yearly income and 100 a month for 24 months from 2025-01-01 under VIVO at a zero rate give a 2025 `total` of -1200 and a `totalNoIns` of 0. |

## Left out

- Database access is not modelled: the version lookup, the allocation, entry, movement and policy queries, and the `NotFound` error of `findFirstOrThrow`. The version record and the query results are parameters of `Run`. Entries of allocations outside the version are modelled as ignored, which is the query's `allocationId in` filter.
- The output's `Number(...)` conversion to binary floating point is not modelled; the points carry exact reals.
- decimal.js rounds every arithmetic result (sums and differences as well as products and quotients) to 20 significant digits. The model computes exactly, so results may differ from the source's in digits past the 20th.
- The version's default rate passes through `Number(...)` before `applyRealRate` rebuilds a decimal from it, so a rate with no exact binary representation is rounded there. `PlanOf` uses the version's rate exactly; this conversion is not modelled.
- Parsing of the input date string, time zones and `Invalid Date` are not modelled. Dates are their UTC fields, and only the year of movement dates is read.
- Projection.Run: requires every policy start date to have a month in 0..11 and a day in 1..31 (`PoliciesDated`). Every JavaScript `Date` satisfies this, and the coverage-end computation is proved only on such dates.
- Validation at the HTTP boundary (zod schemas, enum checks) and the `Math.abs` applied to movement values when they are stored are outside this core. The model accepts any values, as the projection code does, and `YearFlowsNonNegative` states what non-negative values give.
- The insured amount and policy type and name are not read by the projection and are not modelled.
- The other services (simulation versioning, allocation, movement and insurance CRUD), the controllers, routes, server and seed script are not part of this model.
