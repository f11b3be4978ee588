/**
  Worked scenarios: concrete inputs of a run starting on 2025-01-01 and the
  snapshots its specification yields for the first years. Each holds for
  every version, since the inputs set both the start date and the rate.
 */
module ProjectionScenarios {
  import opened Calendar
  import opened Projection
  import opened ProjectionProperties

  const Jan1st2025: Date := Date(2025, 0, 1, 0)

  /** A run from 2025-01-01 under `status` at the given rate. */
  function From2025(status: LifeStatus, ratePct: real): RunInput
  {
    RunInput(status, Some(ratePct), Some(Jan1st2025))
  }

  /** A yearly movement from 2025 with no end date. */
  function Yearly(kind: FlowKind, value: real): Movement
  {
    Movement(kind, value, YEARLY, Jan1st2025, None)
  }

  /** What year `y` adds to the financial balance when nothing grows. */
  function YearNet(plan: Plan, y: int): real
  {
    var f, premium := YearFlows(plan.moves, y), PremiumYear(plan.policies, y);
    var lr := LifeRules(plan.status, Flows(f.incomes, f.expenses + premium));
    lr.incomes - lr.expenses
  }

  /** What year `y` adds to the balance without insurance when nothing grows. */
  function YearNetNoIns(plan: Plan, y: int): real
  {
    YearNet(plan, y) + PremiumYear(plan.policies, y)
  }

  /** With no allocations both baseline balances are zero. */
  lemma EmptyBaseline(start: Date)
    ensures BaselineOf([], [], start) == Baseline(0.0, 0.0)
  {}

  /** The first three snapshots of a run from 2025, in terms of its plan
      and opening balances. */
  lemma PointsOfRun(input: RunInput, version: Version, allocs: seq<Allocation>, entries: seq<Entry>,
                    moves: seq<Movement>, ins: seq<Policy>)
    requires PlanOf(input, version, moves, ins).yearStart == 2025
    ensures
      var plan := PlanOf(input, version, moves, ins);
      var b0 := Opening(BaselineOf(allocs, entries, StartOf(input, version)));
      var pts := Projected(input, version, allocs, entries, moves, ins);
      |pts| == 36 &&
      pts[0] == Snapshot(2025, BalancesAfter(plan, b0, 1)) &&
      pts[1] == Snapshot(2026, BalancesAfter(plan, b0, 2)) &&
      pts[2] == Snapshot(2027, BalancesAfter(plan, b0, 3))
  {
    var plan := PlanOf(input, version, moves, ins);
    PointsShape(plan, Opening(BaselineOf(allocs, entries, StartOf(input, version))), 36);
  }

  /** At a zero rate from nothing, each balance adds up the yearly nets. */
  lemma ZeroRateSums(plan: Plan, k: nat)
    requires plan.ratePct == 0.0 && k >= 1
    ensures
      var b0 := Balances(0.0, 0.0, 0.0);
      var y := plan.yearStart + k - 1;
      BalancesAfter(plan, b0, k).realEstate == 0.0 &&
      BalancesAfter(plan, b0, k).fin == BalancesAfter(plan, b0, k - 1).fin + YearNet(plan, y) &&
      BalancesAfter(plan, b0, k).finNoIns == BalancesAfter(plan, b0, k - 1).finNoIns + YearNetNoIns(plan, y)
  {
    var b0 := Balances(0.0, 0.0, 0.0);
    ZeroRateYear(plan, b0, k);
    RealEstateOnlyCompounds(plan, b0, k);
  }

  /** The first three snapshots of a run from 2025 at a zero rate with no
      allocations: the running sums of the yearly nets. */
  lemma ZeroRateRunFrom2025(input: RunInput, version: Version, moves: seq<Movement>, ins: seq<Policy>)
    requires input.startDate == Some(Jan1st2025) && input.realRatePct == Some(0.0)
    ensures
      var plan := Plan(input.status, 0.0, 2025, moves, ins);
      var pts := Projected(input, version, [], [], moves, ins);
      |pts| == 36 &&
      pts[0].year == 2025 && pts[1].year == 2026 && pts[2].year == 2027 &&
      pts[0].total == YearNet(plan, 2025) &&
      pts[1].total == YearNet(plan, 2025) + YearNet(plan, 2026) &&
      pts[2].total == YearNet(plan, 2025) + YearNet(plan, 2026) + YearNet(plan, 2027) &&
      pts[0].totalNoIns == YearNetNoIns(plan, 2025) &&
      pts[1].totalNoIns == YearNetNoIns(plan, 2025) + YearNetNoIns(plan, 2026) &&
      pts[2].totalNoIns == YearNetNoIns(plan, 2025) + YearNetNoIns(plan, 2026) + YearNetNoIns(plan, 2027)
  {
    EmptyBaseline(Jan1st2025);
    var plan := Plan(input.status, 0.0, 2025, moves, ins);
    assert PlanOf(input, version, moves, ins) == plan;
    PointsOfRun(input, version, [], [], moves, ins);
    ZeroRateSums(plan, 1);
    ZeroRateSums(plan, 2);
    ZeroRateSums(plan, 3);
  }

  // ---------------------------------------------------------------------------
  // Baseline: the last entry not after the start

  const Holding: seq<Allocation> := [Allocation("a1", FINANCIAL)]
  /** An older value, the value in force on the start date, and one dated
      after the start. */
  const Valuations: seq<Entry> :=
    [Entry("a1", Date(2020, 5, 1, 0), 50.0), Entry("a1", Date(2022, 0, 1, 0), 200.0),
     Entry("a1", Date(2026, 0, 1, 0), 999.0)]

  /** Starting on 2025-02-01, the baseline is the 2022 value: the 2020 one is
      superseded and the 2026 one not yet in force. */
  lemma BaselineUsesLastEntryBeforeStart()
    ensures BaselineOf(Holding, Valuations, Date(2025, 1, 1, 0)) == Baseline(200.0, 0.0)
  {
    var start := Date(2025, 1, 1, 0);
    assert Holding[..0] == [];
    var kinds := AllocationKinds(Holding);
    assert kinds == map["a1" := FINANCIAL];
    var ids := kinds.Keys;
    assert ids == {"a1"};
    var e0, e1, e2 := Valuations[0], Valuations[1], Valuations[2];
    var s1, s2 := [e0], [e0, e1];
    assert s1[..0] == [] && s2[..1] == s1 && Valuations[..2] == s2;
    assert LatestDates(s1, ids, start) == map["a1" := e0.date];
    assert LatestDates(s2, ids, start) == map["a1" := e1.date];
    var latest := LatestDates(Valuations, ids, start);
    assert latest == map["a1" := e1.date];
    assert KindSum(s1, latest, kinds, FINANCIAL) == 0.0;
    assert KindSum(s2, latest, kinds, FINANCIAL) == 200.0;
    assert KindSum(Valuations, latest, kinds, FINANCIAL) == 200.0;
    assert KindSum(s1, latest, kinds, REAL_ESTATE) == 0.0;
    assert KindSum(s2, latest, kinds, REAL_ESTATE) == 0.0;
    assert KindSum(Valuations, latest, kinds, REAL_ESTATE) == 0.0;
  }

  /** Entries tied at an allocation's latest date are all summed. */
  lemma TiedLatestEntriesAreSummed()
    ensures BaselineOf([Allocation("a1", FINANCIAL), Allocation("r1", REAL_ESTATE)],
                       [Entry("a1", Jan1st2025, 300.0), Entry("a1", Jan1st2025, 200.0),
                        Entry("r1", Date(2024, 6, 1, 0), 700.0)],
                       Jan1st2025) == Baseline(500.0, 700.0)
  {
    var allocs := [Allocation("a1", FINANCIAL), Allocation("r1", REAL_ESTATE)];
    var entries := [Entry("a1", Jan1st2025, 300.0), Entry("a1", Jan1st2025, 200.0),
                    Entry("r1", Date(2024, 6, 1, 0), 700.0)];
    assert allocs[..1] == [allocs[0]] && [allocs[0]][..0] == [];
    assert AllocationKinds(allocs[..1]) == map["a1" := FINANCIAL];
    var kinds := AllocationKinds(allocs);
    assert kinds == map["a1" := FINANCIAL, "r1" := REAL_ESTATE];
    var ids := kinds.Keys;
    assert ids == {"a1", "r1"};
    var e0, e1, e2 := entries[0], entries[1], entries[2];
    var s1, s2 := [e0], [e0, e1];
    assert s1[..0] == [] && s2[..1] == s1 && entries[..2] == s2;
    assert LatestDates(s1, ids, Jan1st2025) == map["a1" := Jan1st2025];
    assert LatestDates(s2, ids, Jan1st2025) == map["a1" := Jan1st2025];
    var latest := LatestDates(entries, ids, Jan1st2025);
    assert latest == map["a1" := Jan1st2025, "r1" := e2.date];
    assert KindSum(s1, latest, kinds, FINANCIAL) == 300.0;
    assert KindSum(s2, latest, kinds, FINANCIAL) == 500.0;
    assert KindSum(entries, latest, kinds, FINANCIAL) == 500.0;
    assert KindSum(s1, latest, kinds, REAL_ESTATE) == 0.0;
    assert KindSum(s2, latest, kinds, REAL_ESTATE) == 0.0;
    assert KindSum(entries, latest, kinds, REAL_ESTATE) == 700.0;
  }

  /** The first year of the run starting on 2025-02-01 keeps the opening
      balances. */
  lemma OpeningFirstYear(version: Version)
    ensures
      var input := RunInput(VIVO, Some(0.0), Some(Date(2025, 1, 1, 0)));
      var plan := PlanOf(input, version, [], []);
      plan.yearStart == 2025 &&
      BalancesAfter(plan, Opening(BaselineOf(Holding, Valuations, StartOf(input, version))), 1) ==
        Balances(200.0, 0.0, 200.0)
  {
    var input := RunInput(VIVO, Some(0.0), Some(Date(2025, 1, 1, 0)));
    var plan := Plan(VIVO, 0.0, 2025, [], []);
    var b0 := Balances(200.0, 0.0, 200.0);
    assert StartOf(input, version) == Date(2025, 1, 1, 0);
    assert Opening(BaselineOf(Holding, Valuations, Date(2025, 1, 1, 0))) == b0 by {
      BaselineUsesLastEntryBeforeStart();
    }
    assert PlanOf(input, version, [], []) == plan;
    GrowthSchedule(plan, b0, 1);
  }

  /** The run starting on 2025-02-01 opens with the 2022 value. */
  lemma OpeningPointScenario(version: Version)
    ensures
      var pts := Projected(RunInput(VIVO, Some(0.0), Some(Date(2025, 1, 1, 0))), version,
                           Holding, Valuations, [], []);
      |pts| == 36 && pts[0] == YearPoint(2025, 200.0, 0.0, 200.0, 200.0)
  {
    OpeningFirstYear(version);
    PointsOfRun(RunInput(VIVO, Some(0.0), Some(Date(2025, 1, 1, 0))), version, Holding, Valuations, [], []);
  }

  // ---------------------------------------------------------------------------
  // Frequencies

  /** A one-off income of 1000 in 2026, 200 a year, and 50 a month of expenses. */
  const MixedMoves: seq<Movement> :=
    [Movement(INCOME, 1000.0, UNIQUE, Date(2026, 0, 10, 0), None), Yearly(INCOME, 200.0),
     Movement(EXPENSE, 50.0, MONTHLY, Jan1st2025, None)]

  lemma MixedMovesFlows()
    ensures YearFlows(MixedMoves, 2025) == Flows(200.0, 600.0)
    ensures YearFlows(MixedMoves, 2026) == Flows(1200.0, 600.0)
  {
    var m0, m1, m2 := MixedMoves[0], MixedMoves[1], MixedMoves[2];
    var s1, s2 := [m0], [m0, m1];
    assert s1[..0] == [] && s2[..1] == s1 && MixedMoves[..2] == s2;
    assert YearFlows(s1, 2025) == Flows(0.0, 0.0);
    assert YearFlows(s2, 2025) == Flows(200.0, 0.0);
    assert YearFlows(s1, 2026) == Flows(1000.0, 0.0);
    assert YearFlows(s2, 2026) == Flows(1200.0, 0.0);
  }

  /** The one-off income counts in its start year only, the yearly one every
      year and the monthly expense twelve times a year: totals -400 and 200. */
  lemma FrequencyScenario(version: Version)
    ensures
      var pts := Projected(From2025(VIVO, 0.0), version, [], [], MixedMoves, []);
      |pts| == 36 && pts[0].total == -400.0 && pts[1].total == 200.0
  {
    var plan := Plan(VIVO, 0.0, 2025, MixedMoves, []);
    assert YearNet(plan, 2025) == -400.0 && YearNet(plan, 2026) == 600.0 by {
      MixedMovesFlows();
    }
    ZeroRateRunFrom2025(From2025(VIVO, 0.0), version, MixedMoves, []);
  }

  // ---------------------------------------------------------------------------
  // Life status

  const Balanced: seq<Movement> := [Yearly(INCOME, 1200.0), Yearly(EXPENSE, 1200.0)]

  /** Income and expenses of 1200 balance out while alive; after death the
      income stops and half the expenses remain. */
  lemma StatusScenario(version: Version)
    ensures Projected(From2025(VIVO, 0.0), version, [], [], Balanced, [])[0].total == 0.0
    ensures Projected(From2025(MORTO, 0.0), version, [], [], Balanced, [])[0].total == -600.0
  {
    assert YearFlows(Balanced, 2025) == Flows(1200.0, 1200.0) by {
      assert Balanced[..1] == [Balanced[0]] && [Balanced[0]][..0] == [];
    }
    assert YearNet(Plan(VIVO, 0.0, 2025, Balanced, []), 2025) == 0.0;
    assert YearNet(Plan(MORTO, 0.0, 2025, Balanced, []), 2025) == -600.0;
    ZeroRateRunFrom2025(From2025(VIVO, 0.0), version, Balanced, []);
    ZeroRateRunFrom2025(From2025(MORTO, 0.0), version, Balanced, []);
  }

  const Disabled: seq<Movement> := [Yearly(INCOME, 1200.0), Yearly(EXPENSE, 1000.0)]

  /** Under disability the income stops and the expenses stay whole. */
  lemma DisabilityScenario(version: Version)
    ensures Projected(From2025(INVALIDO, 0.0), version, [], [], Disabled, [])[0].total == -1000.0
  {
    var plan := Plan(INVALIDO, 0.0, 2025, Disabled, []);
    assert YearNet(plan, 2025) == -1000.0 by {
      assert Disabled[..1] == [Disabled[0]] && [Disabled[0]][..0] == [];
      assert YearFlows(Disabled, 2025) == Flows(1200.0, 1000.0);
    }
    ZeroRateRunFrom2025(From2025(INVALIDO, 0.0), version, Disabled, []);
  }

  // ---------------------------------------------------------------------------
  // Growth

  const Invested: seq<Allocation> := [Allocation("a1", FINANCIAL)]
  const InvestedValue: seq<Entry> := [Entry("a1", Jan1st2025, 1000.0)]

  /** Without flows the first year keeps the opening balances and each of
      the next two multiplies them by the growth factor. */
  lemma TwoGrowths(plan: Plan, b0: Balances)
    requires plan.moves == [] && plan.policies == []
    ensures BalancesAfter(plan, b0, 1) == b0
    ensures BalancesAfter(plan, b0, 2) == Scaled(b0, GrowthFactor(plan))
    ensures BalancesAfter(plan, b0, 3) == Scaled(Scaled(b0, GrowthFactor(plan)), GrowthFactor(plan))
  {
    GrowthSchedule(plan, b0, 1);
    assert YearFlows(plan.moves, plan.yearStart) == Flows(0.0, 0.0);
    assert PremiumYear(plan.policies, plan.yearStart) == 0.0;
    QuietYear(plan, b0, 2);
    QuietYear(plan, b0, 3);
  }

  /** 1000 of financial wealth at 10 % stays 1000 in the first year, then
      grows to 1100 and 1210. */
  lemma CompoundingScenario(version: Version)
    ensures
      var pts := Projected(From2025(VIVO, 10.0), version, Invested, InvestedValue, [], []);
      |pts| == 36 && pts[0].total == 1000.0 && pts[1].total == 1100.0 && pts[2].total == 1210.0
  {
    var input := From2025(VIVO, 10.0);
    var plan := PlanOf(input, version, [], []);
    assert plan.moves == [] && plan.policies == [] && plan.ratePct == 10.0 && plan.yearStart == 2025;
    var b0 := Opening(BaselineOf(Invested, InvestedValue, StartOf(input, version)));
    assert b0 == Balances(1000.0, 0.0, 1000.0) by {
      assert StartOf(input, version) == Jan1st2025;
      assert Invested[..0] == [] && InvestedValue[..0] == [];
      var kinds := AllocationKinds(Invested);
      assert kinds == map["a1" := FINANCIAL];
      assert kinds.Keys == {"a1"};
      assert LatestDates(InvestedValue[..0], kinds.Keys, Jan1st2025) == map[];
      var latest := LatestDates(InvestedValue, kinds.Keys, Jan1st2025);
      assert latest == map["a1" := Jan1st2025];
      assert AtLatest(InvestedValue[0], latest);
      assert KindSum(InvestedValue[..0], latest, kinds, FINANCIAL) == 0.0;
      assert KindSum(InvestedValue, latest, kinds, FINANCIAL) == 1000.0;
      assert KindSum(InvestedValue, latest, kinds, REAL_ESTATE) == 0.0;
    }
    var g := GrowthFactor(plan);
    assert g == 1.1;
    assert Scaled(b0, g) == Balances(1100.0, 0.0, 1100.0);
    assert Scaled(Balances(1100.0, 0.0, 1100.0), g) == Balances(1210.0, 0.0, 1210.0);
    TwoGrowths(plan, b0);
    PointsOfRun(input, version, Invested, InvestedValue, [], []);
  }

  // ---------------------------------------------------------------------------
  // End dates and policy terms

  const Until2026: seq<Movement> := [Movement(INCOME, 100.0, YEARLY, Jan1st2025, Some(Date(2026, 11, 31, 0)))]

  /** A yearly income of 100 ending on 2026-12-31 adds up to 100, 200, and
      then stays at 200. */
  lemma EndDateScenario(version: Version)
    ensures
      var pts := Projected(From2025(VIVO, 0.0), version, [], [], Until2026, []);
      |pts| == 36 && pts[0].total == 100.0 && pts[1].total == 200.0 && pts[2].total == 200.0
  {
    var plan := Plan(VIVO, 0.0, 2025, Until2026, []);
    assert YearNet(plan, 2025) == 100.0 && YearNet(plan, 2026) == 100.0 && YearNet(plan, 2027) == 0.0 by {
      assert Until2026[..0] == [];
      assert YearFlows(Until2026, 2025) == Flows(100.0, 0.0);
      assert YearFlows(Until2026, 2026) == Flows(100.0, 0.0);
      assert YearFlows(Until2026, 2027) == Flows(0.0, 0.0);
    }
    ZeroRateRunFrom2025(From2025(VIVO, 0.0), version, Until2026, []);
  }

  const LifePolicy: Policy := Policy(Jan1st2025, 24, 100.0)

  /** A 24-month term from 2025-01-01 ends on 2026-12-31. */
  lemma TwoYearTermEnds()
    ensures CoverageEnd(Jan1st2025, 24) == Date(2026, 11, 31, 0)
  {}

  /** A policy of 100 a month for 24 months costs 1200 in 2025 and 2026 and
      nothing afterwards, while the total without insurance stays at zero. */
  lemma PolicyTermScenario(version: Version)
    ensures
      var pts := Projected(From2025(VIVO, 0.0), version, [], [], [], [LifePolicy]);
      |pts| == 36 &&
      pts[0].total == -1200.0 && pts[1].total == -2400.0 && pts[2].total == -2400.0 &&
      pts[0].totalNoIns == 0.0 && pts[1].totalNoIns == 0.0 && pts[2].totalNoIns == 0.0
  {
    var ins := [LifePolicy];
    assert PremiumYear(ins, 2025) == 1200.0 && PremiumYear(ins, 2026) == 1200.0 && PremiumYear(ins, 2027) == 0.0 by {
      assert ins[..0] == [];
      assert PremiumYear(ins[..0], 2025) == 0.0 && PremiumYear(ins[..0], 2026) == 0.0;
      assert PremiumYear(ins[..0], 2027) == 0.0;
    }
    var plan := Plan(VIVO, 0.0, 2025, [], ins);
    assert YearNet(plan, 2025) == -1200.0 && YearNet(plan, 2026) == -1200.0 && YearNet(plan, 2027) == 0.0;
    ZeroRateRunFrom2025(From2025(VIVO, 0.0), version, [], ins);
  }

  /** A zero yearly income beside the same policy: 2025 ends at -1200,
      while the total without insurance stays at zero. */
  lemma PremiumOnlyInTotalScenario(version: Version)
    ensures
      var pts := Projected(From2025(VIVO, 0.0), version, [], [], [Yearly(INCOME, 0.0)], [LifePolicy]);
      |pts| == 36 && pts[0].year == 2025 && pts[0].total == -1200.0 && pts[0].totalNoIns == 0.0
  {
    var moves, ins := [Yearly(INCOME, 0.0)], [LifePolicy];
    assert PremiumYear(ins, 2025) == 1200.0 && YearFlows(moves, 2025) == Flows(0.0, 0.0) by {
      assert ins[..0] == [] && moves[..0] == [];
      assert PremiumYear(ins[..0], 2025) == 0.0;
    }
    var plan := Plan(VIVO, 0.0, 2025, moves, ins);
    assert YearNet(plan, 2025) == -1200.0;
    ZeroRateRunFrom2025(From2025(VIVO, 0.0), version, moves, ins);
  }
}
