/**
  The projection engine: from a portfolio version's allocations, their dated
  value entries, its cash movements and its insurance policies, one wealth
  snapshot per year from the start year through 2060.

  Amounts are exact `real`s, standing for decimal amounts. The database reads
  of the service become the sequences passed in; everything computed from
  them is modelled here.
 */
module Projection {
  import opened Calendar

  /** Last simulated year of every projection. */
  const HorizonYear: int := 2060
  /** Year of the stand-in end date 2099-12-31 of a movement without one. */
  const OpenEndYear: int := 2099

  datatype Option<T> = None | Some(value: T)

  datatype LifeStatus = VIVO | MORTO | INVALIDO

  datatype AllocKind = FINANCIAL | REAL_ESTATE
  datatype Allocation = Allocation(id: string, kind: AllocKind)
  /** One dated value of an allocation. */
  datatype Entry = Entry(allocationId: string, date: Date, value: real)

  datatype FlowKind = INCOME | EXPENSE
  datatype Frequency = UNIQUE | MONTHLY | YEARLY
  datatype Movement = Movement(kind: FlowKind, value: real, frequency: Frequency,
                               startDate: Date, endDate: Option<Date>)

  /** An insurance policy, as far as the projection reads it. */
  datatype Policy = Policy(startDate: Date, durationMo: int, premiumMo: real)

  /** The latest version of the simulation: supplies the defaults of a run. */
  datatype Version = Version(id: string, startDate: Date, realRatePct: real)
  datatype RunInput = RunInput(status: LifeStatus, realRatePct: Option<real>, startDate: Option<Date>)

  datatype YearPoint = YearPoint(year: int, finWealth: real, realWealth: real,
                                 totalNoIns: real, total: real)
  datatype RunResult = RunResult(versionId: string, status: LifeStatus, points: seq<YearPoint>)

  /** A year's income and expense totals. */
  datatype Flows = Flows(incomes: real, expenses: real)
  /** The three running balances of the year loop. */
  datatype Balances = Balances(fin: real, realEstate: real, finNoIns: real)
  /** Financial and real-estate wealth at the start date. */
  datatype Baseline = Baseline(fin0: real, real0: real)

  // ---------------------------------------------------------------------------
  // The two helpers

  /** `amount` grown by one year at `ratePct` percent. */
  function ApplyRealRate(amount: real, ratePct: real): real
  {
    amount * (ratePct / 100.0 + 1.0)
  }

  /** Reweighting of a year's totals by life status. */
  function LifeRules(status: LifeStatus, v: Flows): Flows
  {
    match status
    case MORTO => Flows(0.0, v.expenses / 2.0)
    case INVALIDO => Flows(0.0, v.expenses)
    case VIVO => v
  }

  /** `applyRealRate` adds `ratePct` hundredths of the amount, and a zero
      rate leaves the amount as it is. */
  lemma ApplyRealRateGain(amount: real, ratePct: real)
    ensures ApplyRealRate(amount, ratePct) - amount == amount * ratePct / 100.0
    ensures ratePct == 0.0 ==> ApplyRealRate(amount, ratePct) == amount
  {}

  /** `lifeRules` by status: only VIVO keeps its incomes; MORTO bears half
      the expenses, INVALIDO and VIVO all of them. */
  lemma LifeRulesByStatus(status: LifeStatus, v: Flows)
    ensures LifeRules(status, v).incomes == (if status == VIVO then v.incomes else 0.0)
    ensures status == MORTO ==> 2.0 * LifeRules(status, v).expenses == v.expenses
    ensures status != MORTO ==> LifeRules(status, v).expenses == v.expenses
  {}

  function Pow(g: real, n: nat): real
  {
    if n == 0 then 1.0 else Pow(g, n - 1) * g
  }

  // ---------------------------------------------------------------------------
  // Baseline resolution

  /** No allocation after position `i` has the id of `allocs[i]`. */
  predicate LastWithId(allocs: seq<Allocation>, i: int)
    requires 0 <= i < |allocs|
  {
    forall j | i < j < |allocs| :: allocs[j].id != allocs[i].id
  }

  /** `new Map(allocations.map(a => [a.id, a]))`, reduced to the kinds. */
  function AllocationKinds(allocs: seq<Allocation>): map<string, AllocKind>
  {
    if allocs == [] then map[]
    else
      var a := allocs[|allocs| - 1];
      AllocationKinds(allocs[..|allocs| - 1])[a.id := a.kind]
  }

  /** The map holds every id of the version, with the kind of the last
      allocation carrying it. */
  lemma {:induction false} AllocationKindsLastWins(allocs: seq<Allocation>)
    ensures AllocationKinds(allocs).Keys == set a | a in allocs :: a.id
    ensures forall i | 0 <= i < |allocs| && LastWithId(allocs, i) ::
      AllocationKinds(allocs)[allocs[i].id] == allocs[i].kind
  {
    if allocs != [] {
      var init := allocs[..|allocs| - 1];
      var a := allocs[|allocs| - 1];
      assert allocs == init + [a];
      AllocationKindsLastWins(init);
      forall i | 0 <= i < |allocs| - 1 && LastWithId(allocs, i)
        ensures LastWithId(init, i) && allocs[i].id != a.id
      {
        assert allocs[|allocs| - 1].id != allocs[i].id;
      }
    }
  }

  /** An entry the first query considers: of one of the version's allocations
      and dated no later than the start. */
  predicate Eligible(e: Entry, ids: set<string>, start: Date) {
    e.allocationId in ids && NotAfter(e.date, start)
  }

  /** The `groupBy` query: for each allocation with an eligible entry, the
      latest eligible entry date. */
  function LatestDates(entries: seq<Entry>, ids: set<string>, start: Date): map<string, Date>
  {
    if entries == [] then map[]
    else
      var e := entries[|entries| - 1];
      var latest := LatestDates(entries[..|entries| - 1], ids, start);
      if Eligible(e, ids, start) && (e.allocationId !in latest || NotAfter(latest[e.allocationId], e.date))
      then latest[e.allocationId := e.date]
      else latest
  }

  /** Each date found is the maximum of its allocation's eligible entry dates:
      attained by an entry, not after the start, and no eligible entry is
      later; an allocation has a date exactly when it has an eligible entry. */
  lemma {:induction false} LatestDatesAreMaxima(entries: seq<Entry>, ids: set<string>, start: Date)
    ensures forall id | id in LatestDates(entries, ids, start) ::
      id in ids && NotAfter(LatestDates(entries, ids, start)[id], start)
    ensures forall id | id in LatestDates(entries, ids, start) ::
      exists e | e in entries :: e.allocationId == id && e.date == LatestDates(entries, ids, start)[id]
    ensures forall e | e in entries && Eligible(e, ids, start) ::
      e.allocationId in LatestDates(entries, ids, start) &&
      NotAfter(e.date, LatestDates(entries, ids, start)[e.allocationId])
  {
    if entries != [] {
      var init := entries[..|entries| - 1];
      var e := entries[|entries| - 1];
      assert entries == init + [e];
      LatestDatesAreMaxima(init, ids, start);
      var latest := LatestDates(init, ids, start);
      if Eligible(e, ids, start) && (e.allocationId !in latest || NotAfter(latest[e.allocationId], e.date)) {
        forall x | x in init && Eligible(x, ids, start) && x.allocationId == e.allocationId
          ensures NotAfter(x.date, e.date)
        {
          NotAfterTransitive(x.date, latest[e.allocationId], e.date);
        }
      } else if Eligible(e, ids, start) {
        NotAfterTotal(e.date, latest[e.allocationId]);
      }
    }
  }

  /** An entry the second query returns: dated exactly at its allocation's
      latest date. */
  predicate AtLatest(e: Entry, latest: map<string, Date>) {
    e.allocationId in latest && e.date == latest[e.allocationId]
  }

  /** The `reduce` over the returned entries, for one kind of allocation. */
  function KindSum(entries: seq<Entry>, latest: map<string, Date>,
                   kinds: map<string, AllocKind>, kind: AllocKind): real
  {
    if entries == [] then 0.0
    else
      var e := entries[|entries| - 1];
      KindSum(entries[..|entries| - 1], latest, kinds, kind) +
        (if AtLatest(e, latest) && e.allocationId in kinds && kinds[e.allocationId] == kind
         then e.value else 0.0)
  }

  /** Financial and real-estate wealth on `start`. */
  function BaselineOf(allocs: seq<Allocation>, entries: seq<Entry>, start: Date): Baseline
  {
    var kinds := AllocationKinds(allocs);
    var latest := LatestDates(entries, kinds.Keys, start);
    Baseline(KindSum(entries, latest, kinds, FINANCIAL), KindSum(entries, latest, kinds, REAL_ESTATE))
  }

  /** The allocation map of the version. */
  method AllocationMap(allocs: seq<Allocation>) returns (kinds: map<string, AllocKind>)
    ensures kinds == AllocationKinds(allocs)
  {
    kinds := map[];
    for i := 0 to |allocs|
      invariant kinds == AllocationKinds(allocs[..i])
    {
      assert allocs[..i + 1][..i] == allocs[..i];
      kinds := kinds[allocs[i].id := allocs[i].kind];
    }
    assert allocs[..|allocs|] == allocs;
  }

  /** The `groupBy` query over the entries. */
  method LatestPerAllocation(entries: seq<Entry>, ids: set<string>, start: Date)
    returns (latest: map<string, Date>)
    ensures latest == LatestDates(entries, ids, start)
  {
    latest := map[];
    for i := 0 to |entries|
      invariant latest == LatestDates(entries[..i], ids, start)
    {
      assert entries[..i + 1][..i] == entries[..i];
      var e := entries[i];
      if e.allocationId in ids && NotAfter(e.date, start) {
        if e.allocationId !in latest || NotAfter(latest[e.allocationId], e.date) {
          latest := latest[e.allocationId := e.date];
        }
      }
    }
    assert entries[..|entries|] == entries;
  }

  /** The second query and the `reduce`: sum the entries dated at their
      allocation's latest date into financial and real-estate wealth. */
  method SumAtLatest(entries: seq<Entry>, latest: map<string, Date>, kinds: map<string, AllocKind>)
    returns (fin0: real, real0: real)
    ensures fin0 == KindSum(entries, latest, kinds, FINANCIAL)
    ensures real0 == KindSum(entries, latest, kinds, REAL_ESTATE)
  {
    fin0, real0 := 0.0, 0.0;
    for i := 0 to |entries|
      invariant fin0 == KindSum(entries[..i], latest, kinds, FINANCIAL)
      invariant real0 == KindSum(entries[..i], latest, kinds, REAL_ESTATE)
    {
      assert entries[..i + 1][..i] == entries[..i];
      var e := entries[i];
      if e.allocationId in latest && e.date == latest[e.allocationId] {
        if e.allocationId in kinds && kinds[e.allocationId] == FINANCIAL {
          fin0 := fin0 + e.value;
        } else if e.allocationId in kinds && kinds[e.allocationId] == REAL_ESTATE {
          real0 := real0 + e.value;
        }
      }
    }
    assert entries[..|entries|] == entries;
  }

  /** Baseline resolution: the allocation map, the latest date per allocation,
      then the sum of the entries at those dates by kind. */
  method ResolveBaseline(allocs: seq<Allocation>, entries: seq<Entry>, start: Date) returns (base: Baseline)
    ensures base == BaselineOf(allocs, entries, start)
  {
    var kinds := AllocationMap(allocs);
    var latest := LatestPerAllocation(entries, kinds.Keys, start);
    var fin0, real0 := SumAtLatest(entries, latest, kinds);
    base := Baseline(fin0, real0);
  }

  // ---------------------------------------------------------------------------
  // Yearly cash flows

  function MovementEndYear(m: Movement): int
  {
    match m.endDate
    case None => OpenEndYear
    case Some(d) => d.year
  }

  /** What movement `m` adds, in year `y`, to its side of the ledger. */
  function MovementAmount(m: Movement, y: int): real
  {
    if y < m.startDate.year || y > MovementEndYear(m) then 0.0
    else match m.frequency
      case UNIQUE => if y == m.startDate.year then m.value else 0.0
      case YEARLY => m.value
      case MONTHLY => m.value * 12.0
  }

  /** Income and expense totals of year `y`. */
  function YearFlows(moves: seq<Movement>, y: int): Flows
  {
    if moves == [] then Flows(0.0, 0.0)
    else
      var f := YearFlows(moves[..|moves| - 1], y);
      var m := moves[|moves| - 1];
      if m.kind == INCOME then Flows(f.incomes + MovementAmount(m, y), f.expenses)
      else Flows(f.incomes, f.expenses + MovementAmount(m, y))
  }

  /** The loop over the movements for year `y`. */
  method SumMovements(moves: seq<Movement>, y: int) returns (incomes: real, expenses: real)
    ensures Flows(incomes, expenses) == YearFlows(moves, y)
  {
    incomes, expenses := 0.0, 0.0;
    for i := 0 to |moves|
      invariant Flows(incomes, expenses) == YearFlows(moves[..i], y)
    {
      assert moves[..i + 1][..i] == moves[..i];
      var m := moves[i];
      var yStart := m.startDate.year;
      var yEnd := if m.endDate.Some? then m.endDate.value.year else OpenEndYear;
      if y < yStart || y > yEnd {
        continue;
      }
      var val := m.value;
      if m.frequency == UNIQUE {
        if y == yStart {
          if m.kind == INCOME { incomes := incomes + val; } else { expenses := expenses + val; }
        }
      } else if m.frequency == YEARLY {
        if m.kind == INCOME { incomes := incomes + val; } else { expenses := expenses + val; }
      } else if m.frequency == MONTHLY {
        var yearVal := val * 12.0;
        if m.kind == INCOME { incomes := incomes + yearVal; } else { expenses := expenses + yearVal; }
      }
    }
    assert moves[..|moves|] == moves;
  }

  // ---------------------------------------------------------------------------
  // Insurance premiums

  /** Policy `p` charges its premium in year `y`: from its start year through
      the year of its last covered day, `CoverageEndYear` being the calendar
      computation's closed form. */
  predicate Charged(p: Policy, y: int) {
    p.startDate.year <= y <= CoverageEndYear(p.startDate, p.durationMo)
  }

  /** Policy start dates have a month and a day of month in range, as every
      JavaScript `Date` has. */
  predicate PoliciesDated(ins: seq<Policy>) {
    forall p | p in ins :: 0 <= p.startDate.month < 12 && 1 <= p.startDate.day <= 31
  }

  /** Total insurance premium of year `y`. */
  function PremiumYear(ins: seq<Policy>, y: int): real
  {
    if ins == [] then 0.0
    else
      var p := ins[|ins| - 1];
      PremiumYear(ins[..|ins| - 1], y) + (if Charged(p, y) then p.premiumMo * 12.0 else 0.0)
  }

  /** The loop over the policies for year `y`. */
  method SumPremiums(ins: seq<Policy>, y: int) returns (premiumYear: real)
    requires PoliciesDated(ins)
    ensures premiumYear == PremiumYear(ins, y)
  {
    premiumYear := 0.0;
    for i := 0 to |ins|
      invariant premiumYear == PremiumYear(ins[..i], y)
    {
      assert ins[..i + 1][..i] == ins[..i];
      var s := ins[i];
      assert s in ins;
      CoverageEndYearIsClosedForm(s.startDate, s.durationMo);
      var startY := s.startDate.year;
      var endDate := AddMonths(s.startDate, s.durationMo);
      endDate := PrevDay(endDate);
      var endY := endDate.year;
      if y >= startY && y <= endY {
        premiumYear := premiumYear + s.premiumMo * 12.0;
      }
    }
    assert ins[..|ins|] == ins;
  }

  // ---------------------------------------------------------------------------
  // The year loop

  /** What a run needs besides the opening balances. */
  datatype Plan = Plan(status: LifeStatus, ratePct: real, yearStart: int,
                       moves: seq<Movement>, policies: seq<Policy>)

  function Grow(b: Balances, ratePct: real): Balances
  {
    Balances(ApplyRealRate(b.fin, ratePct), ApplyRealRate(b.realEstate, ratePct),
             ApplyRealRate(b.finNoIns, ratePct))
  }

  /** A year's flows applied to the balances: the premium joins the expenses,
      the life rules reweight both totals, and the premium (unscaled) is taken
      back out for the balance without insurance. */
  function Settle(b: Balances, f: Flows, premiumYear: real, status: LifeStatus): Balances
  {
    var lr := LifeRules(status, Flows(f.incomes, f.expenses + premiumYear));
    Balances(b.fin + lr.incomes - lr.expenses, b.realEstate,
             b.finNoIns + lr.incomes - (lr.expenses - premiumYear))
  }

  /** Year `y` of the loop: growth from the second year on, then the flows. */
  function YearStep(plan: Plan, b: Balances, y: int): Balances
  {
    var grown := if y > plan.yearStart then Grow(b, plan.ratePct) else b;
    Settle(grown, YearFlows(plan.moves, y), PremiumYear(plan.policies, y), plan.status)
  }

  /** Balances after simulating the first `k` years. */
  function BalancesAfter(plan: Plan, b0: Balances, k: nat): Balances
    decreases k, 1
  {
    if k == 0 then b0 else YearEnd(plan, b0, k)
  }

  /** Balances at the end of the `k`-th simulated year, the calendar year
      `yearStart + k - 1`. */
  function YearEnd(plan: Plan, b0: Balances, k: nat): Balances
    requires k >= 1
    decreases k, 0
  {
    YearStep(plan, BalancesAfter(plan, b0, k - 1), plan.yearStart + k - 1)
  }

  function Snapshot(y: int, b: Balances): YearPoint
  {
    YearPoint(y, b.fin, b.realEstate, b.finNoIns + b.realEstate, b.fin + b.realEstate)
  }

  /** The snapshots of the first `k` years. */
  function Points(plan: Plan, b0: Balances, k: nat): seq<YearPoint>
  {
    if k == 0 then [] else Points(plan, b0, k - 1) + [Snapshot(plan.yearStart + k - 1, BalancesAfter(plan, b0, k))]
  }

  /** Number of simulated years: `yearStart` through the horizon. */
  function YearCount(yearStart: int): nat
  {
    if yearStart > HorizonYear then 0 else HorizonYear - yearStart + 1
  }

  function Opening(base: Baseline): Balances
  {
    Balances(base.fin0, base.real0, base.fin0)
  }

  function StartOf(input: RunInput, version: Version): Date
  {
    if input.startDate.Some? then input.startDate.value else version.startDate
  }

  function PlanOf(input: RunInput, version: Version, moves: seq<Movement>, ins: seq<Policy>): Plan
  {
    Plan(input.status,
         if input.realRatePct.Some? then input.realRatePct.value else version.realRatePct,
         StartOf(input, version).year, moves, ins)
  }

  /** The snapshots a run returns, from its inputs. */
  function Projected(input: RunInput, version: Version, allocs: seq<Allocation>, entries: seq<Entry>,
                     moves: seq<Movement>, ins: seq<Policy>): seq<YearPoint>
  {
    var plan := PlanOf(input, version, moves, ins);
    Points(plan, Opening(BaselineOf(allocs, entries, StartOf(input, version))), YearCount(plan.yearStart))
  }

  lemma {:induction false} PointsShape(plan: Plan, b0: Balances, k: nat)
    ensures |Points(plan, b0, k)| == k
    ensures forall i | 0 <= i < k ::
      Points(plan, b0, k)[i] == Snapshot(plan.yearStart + i, BalancesAfter(plan, b0, i + 1))
  {
    if k > 0 {
      PointsShape(plan, b0, k - 1);
    }
  }

  lemma NextYear(plan: Plan, b0: Balances, k: nat)
    ensures BalancesAfter(plan, b0, k + 1) == YearStep(plan, BalancesAfter(plan, b0, k), plan.yearStart + k)
    ensures Points(plan, b0, k + 1) ==
      Points(plan, b0, k) + [Snapshot(plan.yearStart + k, BalancesAfter(plan, b0, k + 1))]
  {
    assert BalancesAfter(plan, b0, k + 1) == YearEnd(plan, b0, k + 1);
  }

  /** One year's totals folded into the (already grown) balances: the
      premium joins the expenses, the life rules reweight both, and the two
      financial balances take the result. */
  method SettleYear(b: Balances, incomes: real, expenses: real, premiumYear: real, status: LifeStatus)
    returns (fin: real, finNoIns: real)
    ensures Balances(fin, b.realEstate, finNoIns) == Settle(b, Flows(incomes, expenses), premiumYear, status)
  {
    var lr := LifeRules(status, Flows(incomes, expenses + premiumYear));
    fin := b.fin + lr.incomes - lr.expenses;
    finNoIns := b.finNoIns + lr.incomes - (lr.expenses - premiumYear);
  }

  /** The year loop: from `b0`, one snapshot per year from `plan.yearStart`
      through the horizon. */
  method ProjectYears(plan: Plan, b0: Balances) returns (points: seq<YearPoint>)
    requires PoliciesDated(plan.policies)
    ensures points == Points(plan, b0, YearCount(plan.yearStart))
  {
    var yearStart, ratePct := plan.yearStart, plan.ratePct;
    points := [];
    var fin, realEstate, finNoIns := b0.fin, b0.realEstate, b0.finNoIns;

    var y := yearStart;
    ghost var k: nat := 0;
    while y <= HorizonYear
      invariant y == yearStart + k && (y <= HorizonYear + 1 || k == 0)
      invariant Balances(fin, realEstate, finNoIns) == BalancesAfter(plan, b0, k)
      invariant points == Points(plan, b0, k)
    {
      if y > yearStart {
        fin := ApplyRealRate(fin, ratePct);
        realEstate := ApplyRealRate(realEstate, ratePct);
        finNoIns := ApplyRealRate(finNoIns, ratePct);
      }
      var incomes, expenses := SumMovements(plan.moves, y);
      var premiumYear := SumPremiums(plan.policies, y);
      fin, finNoIns := SettleYear(Balances(fin, realEstate, finNoIns), incomes, expenses, premiumYear, plan.status);
      NextYear(plan, b0, k);
      points := points + [YearPoint(y, fin, realEstate, finNoIns + realEstate, fin + realEstate)];
      y, k := y + 1, k + 1;
    }
  }

  /** The projection of one simulation version under one scenario: the
      version supplies the start date and rate the input leaves out. */
  method Run(input: RunInput, version: Version, allocs: seq<Allocation>, entries: seq<Entry>,
             moves: seq<Movement>, ins: seq<Policy>) returns (result: RunResult)
    requires PoliciesDated(ins)
    ensures result.versionId == version.id && result.status == input.status
    ensures result.points == Projected(input, version, allocs, entries, moves, ins)
    ensures
      var yearStart := StartOf(input, version).year;
      |result.points| == YearCount(yearStart) &&
      (forall i | 0 <= i < |result.points| :: result.points[i].year == yearStart + i)
    ensures |result.points| == 0 <==> StartOf(input, version).year > HorizonYear
    ensures |result.points| > 0 ==> result.points[|result.points| - 1].year == HorizonYear
    ensures forall p | p in result.points :: p.total == p.finWealth + p.realWealth
  {
    var start := if input.startDate.Some? then input.startDate.value else version.startDate;
    var ratePct := if input.realRatePct.Some? then input.realRatePct.value else version.realRatePct;
    var plan := Plan(input.status, ratePct, start.year, moves, ins);
    var base := ResolveBaseline(allocs, entries, start);
    var points := ProjectYears(plan, Opening(base));
    PointsShape(plan, Opening(base), YearCount(plan.yearStart));
    result := RunResult(version.id, input.status, points);
  }
}
