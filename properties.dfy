/**
  What the projection promises, stated over the specification functions that
  `Projection.Run` and its loops are proved to compute.
 */
module ProjectionProperties {
  import opened Calendar
  import opened Projection

  // ---------------------------------------------------------------------------
  // Baseline resolution

  lemma {:induction false} LatestDatesSkip(before: seq<Entry>, e: Entry, after: seq<Entry>,
                                           ids: set<string>, start: Date)
    requires !Eligible(e, ids, start)
    ensures LatestDates(before + [e] + after, ids, start) == LatestDates(before + after, ids, start)
  {
    if after == [] {
      assert before + [e] + after == before + [e];
      assert (before + [e])[..|before|] == before;
      assert before + after == before;
    } else {
      var init := after[..|after| - 1];
      var x := after[|after| - 1];
      assert before + [e] + after == (before + [e] + init) + [x];
      assert before + after == (before + init) + [x];
      assert ((before + [e] + init) + [x])[..|before + [e] + init|] == before + [e] + init;
      assert ((before + init) + [x])[..|before + init|] == before + init;
      LatestDatesSkip(before, e, init, ids, start);
    }
  }

  lemma {:induction false} KindSumSkip(before: seq<Entry>, e: Entry, after: seq<Entry>,
                                       latest: map<string, Date>, kinds: map<string, AllocKind>, kind: AllocKind)
    requires !AtLatest(e, latest)
    ensures KindSum(before + [e] + after, latest, kinds, kind) == KindSum(before + after, latest, kinds, kind)
  {
    if after == [] {
      assert before + [e] + after == before + [e];
      assert (before + [e])[..|before|] == before;
      assert before + after == before;
    } else {
      var init := after[..|after| - 1];
      var x := after[|after| - 1];
      assert before + [e] + after == (before + [e] + init) + [x];
      assert before + after == (before + init) + [x];
      assert ((before + [e] + init) + [x])[..|before + [e] + init|] == before + [e] + init;
      assert ((before + init) + [x])[..|before + init|] == before + init;
      KindSumSkip(before, e, init, latest, kinds, kind);
    }
  }

  /** An entry dated after the start, or of an allocation outside the
      version, changes neither baseline balance, wherever it stands. */
  lemma BaselineIgnoresIneligible(allocs: seq<Allocation>, before: seq<Entry>, e: Entry,
                                  after: seq<Entry>, start: Date)
    requires e.allocationId !in AllocationKinds(allocs) || !NotAfter(e.date, start)
    ensures BaselineOf(allocs, before + [e] + after, start) == BaselineOf(allocs, before + after, start)
  {
    var kinds := AllocationKinds(allocs);
    var ids := kinds.Keys;
    LatestDatesSkip(before, e, after, ids, start);
    var latest := LatestDates(before + after, ids, start);
    LatestDatesAreMaxima(before + after, ids, start);
    assert !AtLatest(e, latest);
    KindSumSkip(before, e, after, latest, kinds, FINANCIAL);
    KindSumSkip(before, e, after, latest, kinds, REAL_ESTATE);
  }

  // ---------------------------------------------------------------------------
  // Yearly cash flows

  /** Movements add up independently: the totals of two lists together are
      the sums of their separate totals. */
  lemma {:induction false} YearFlowsAppend(a: seq<Movement>, b: seq<Movement>, y: int)
    ensures YearFlows(a + b, y) ==
      Flows(YearFlows(a, y).incomes + YearFlows(b, y).incomes,
            YearFlows(a, y).expenses + YearFlows(b, y).expenses)
  {
    if b == [] {
      assert a + b == a;
    } else {
      var init := b[..|b| - 1];
      assert a + b == (a + init) + [b[|b| - 1]];
      assert ((a + init) + [b[|b| - 1]])[..|a + init|] == a + init;
      YearFlowsAppend(a, init, y);
    }
  }

  /** With non-negative amounts, both totals of every year are non-negative. */
  lemma {:induction false} YearFlowsNonNegative(moves: seq<Movement>, y: int)
    requires forall m | m in moves :: m.value >= 0.0
    ensures YearFlows(moves, y).incomes >= 0.0 && YearFlows(moves, y).expenses >= 0.0
  {
    if moves != [] {
      var init := moves[..|moves| - 1];
      assert forall m | m in init :: m in moves;
      YearFlowsNonNegative(init, y);
    }
  }

  /** What movement `m` adds over the `n` years from `lo`. */
  function AmountOverYears(m: Movement, lo: int, n: nat): real
  {
    if n == 0 then 0.0 else AmountOverYears(m, lo, n - 1) + MovementAmount(m, lo + n - 1)
  }

  /** Number of years in both [lo, hi] and [a, b]. */
  function Overlap(lo: int, hi: int, a: int, b: int): nat
  {
    var first := if lo < a then a else lo;
    var last := if hi < b then hi else b;
    if last < first then 0 else last - first + 1
  }

  /** Over any run of years, a movement adds its value once (UNIQUE, if its
      start year is in the run and not past its end year), its value in every
      year of its window (YEARLY), or twelve times its value in every year of
      its window (MONTHLY); nothing outside the window. */
  lemma {:induction false} MovementTotalOverYears(m: Movement, lo: int, n: nat)
    ensures AmountOverYears(m, lo, n) ==
      match m.frequency
      case UNIQUE =>
        if lo <= m.startDate.year < lo + n && m.startDate.year <= MovementEndYear(m) then m.value else 0.0
      case YEARLY => m.value * (Overlap(lo, lo + n - 1, m.startDate.year, MovementEndYear(m)) as real)
      case MONTHLY => 12.0 * m.value * (Overlap(lo, lo + n - 1, m.startDate.year, MovementEndYear(m)) as real)
  {
    if n > 0 {
      MovementTotalOverYears(m, lo, n - 1);
      var a, b := m.startDate.year, MovementEndYear(m);
      var y := lo + n - 1;
      var inWindow := a <= y <= b;
      assert Overlap(lo, y, a, b) == Overlap(lo, y - 1, a, b) + (if inWindow then 1 else 0);
    }
  }

  // ---------------------------------------------------------------------------
  // Insurance premiums

  /** A policy is charged exactly from its start year through the year of
      its last covered day, as the calendar computes it. */
  lemma ChargedYears(p: Policy, y: int)
    requires 0 <= p.startDate.month < 12 && 1 <= p.startDate.day <= 31
    ensures Charged(p, y) <==> p.startDate.year <= y <= CoverageEnd(p.startDate, p.durationMo).year
  {
    CoverageEndYearIsClosedForm(p.startDate, p.durationMo);
  }

  /** A policy of at least one month is charged in its start year. */
  lemma ChargedInStartYear(p: Policy)
    requires 0 <= p.startDate.month < 12 && 1 <= p.startDate.day <= 31
    requires p.durationMo >= 1
    ensures Charged(p, p.startDate.year)
  {
    CoverageEndsInOrAfterStartYear(p.startDate, p.durationMo);
  }

  /** A policy starting on January 1st for `12 * k` months is charged in
      exactly the `k` years from its start year. */
  lemma ChargedWholeYears(p: Policy, k: int, y: int)
    requires p.startDate.month == 0 && p.startDate.day == 1 && p.durationMo == 12 * k
    ensures Charged(p, y) <==> p.startDate.year <= y < p.startDate.year + k
  {
    CoverageOfWholeYears(p.startDate, k);
  }

  /** Policies whose monthly premiums are not negative charge no negative
      yearly premium. */
  lemma {:induction false} PremiumYearNonNegative(ins: seq<Policy>, y: int)
    requires forall p | p in ins :: p.premiumMo >= 0.0
    ensures PremiumYear(ins, y) >= 0.0
  {
    if ins != [] {
      var init := ins[..|ins| - 1];
      assert forall p | p in init :: p in ins;
      PremiumYearNonNegative(init, y);
    }
  }

  // ---------------------------------------------------------------------------
  // Life rules and one year's settlement

  /** One year's settlement by status: real estate is untouched; the financial
      balance gains incomes minus expenses and premium (VIVO), loses expenses
      and premium (INVALIDO) or loses half of them (MORTO); and the balance
      without insurance always ends `premium` above where the financial
      balance does, relative to where each started. */
  lemma SettleByStatus(b: Balances, f: Flows, premium: real, status: LifeStatus)
    ensures Settle(b, f, premium, status).realEstate == b.realEstate
    ensures Settle(b, f, premium, status).fin - b.fin ==
      match status
      case VIVO => f.incomes - f.expenses - premium
      case INVALIDO => -(f.expenses + premium)
      case MORTO => -(f.expenses + premium) / 2.0
    ensures Settle(b, f, premium, status).finNoIns - Settle(b, f, premium, status).fin ==
      b.finNoIns - b.fin + premium
  {}

  // ---------------------------------------------------------------------------
  // The year loop

  function GrowthFactor(plan: Plan): real
  {
    plan.ratePct / 100.0 + 1.0
  }

  /** Growth is skipped in the first year and applied once, before the
      flows, in every later year. */
  lemma GrowthSchedule(plan: Plan, b0: Balances, k: nat)
    ensures BalancesAfter(plan, b0, 1) ==
      Settle(b0, YearFlows(plan.moves, plan.yearStart), PremiumYear(plan.policies, plan.yearStart), plan.status)
    ensures k >= 2 ==>
      var y := plan.yearStart + k - 1;
      BalancesAfter(plan, b0, k) ==
        Settle(Grow(BalancesAfter(plan, b0, k - 1), plan.ratePct),
               YearFlows(plan.moves, y), PremiumYear(plan.policies, y), plan.status)
  {
    assert BalancesAfter(plan, b0, 1) == YearEnd(plan, b0, 1);
    if k >= 2 {
      assert BalancesAfter(plan, b0, k) == YearEnd(plan, b0, k);
    }
  }

  /** Every balance multiplied by `g`. */
  function Scaled(b: Balances, g: real): Balances
  {
    Balances(b.fin * g, b.realEstate * g, b.finNoIns * g)
  }

  /** Growth multiplies each balance by the growth factor. */
  lemma GrowStep(plan: Plan, prev: Balances)
    ensures Grow(prev, plan.ratePct) == Scaled(prev, GrowthFactor(plan))
  {}

  lemma GrownPower(x: real, base: real, g: real, n: nat)
    requires x == base * Pow(g, n)
    ensures x * g == base * Pow(g, n + 1)
  {
    calc {
      x * g;
      (base * Pow(g, n)) * g;
      base * (Pow(g, n) * g);
      { assert Pow(g, n + 1) == Pow(g, n) * g; }
      base * Pow(g, n + 1);
    }
  }

  /** Scaling by `Pow(g, n)` and then by `g` is scaling by `Pow(g, n + 1)`. */
  lemma ScaledAgain(b0: Balances, g: real, n: nat)
    ensures Scaled(Scaled(b0, Pow(g, n)), g) == Scaled(b0, Pow(g, n + 1))
  {
    var p := Pow(g, n);
    assert b0.fin * p * g == b0.fin * Pow(g, n + 1) by {
      GrownPower(b0.fin * p, b0.fin, g, n);
    }
    assert b0.realEstate * p * g == b0.realEstate * Pow(g, n + 1) by {
      GrownPower(b0.realEstate * p, b0.realEstate, g, n);
    }
    assert b0.finNoIns * p * g == b0.finNoIns * Pow(g, n + 1) by {
      GrownPower(b0.finNoIns * p, b0.finNoIns, g, n);
    }
  }

  /** Year `k` (`k >= 2`) multiplies each balance by the growth factor before
      settling the year. */
  lemma LaterYear(plan: Plan, b0: Balances, k: nat)
    requires k >= 2
    ensures BalancesAfter(plan, b0, k) ==
      Settle(Scaled(BalancesAfter(plan, b0, k - 1), GrowthFactor(plan)),
             YearFlows(plan.moves, plan.yearStart + k - 1), PremiumYear(plan.policies, plan.yearStart + k - 1),
             plan.status)
  {
    var prev := BalancesAfter(plan, b0, k - 1);
    GrowthSchedule(plan, b0, k);
    GrowStep(plan, prev);
    assert Grow(prev, plan.ratePct) == Scaled(prev, GrowthFactor(plan));
  }

  /** At a zero rate no year grows: each year only settles its flows. */
  lemma ZeroRateYear(plan: Plan, b0: Balances, k: nat)
    requires plan.ratePct == 0.0 && k >= 1
    ensures BalancesAfter(plan, b0, k) ==
      Settle(BalancesAfter(plan, b0, k - 1), YearFlows(plan.moves, plan.yearStart + k - 1),
             PremiumYear(plan.policies, plan.yearStart + k - 1), plan.status)
  {
    var prev := BalancesAfter(plan, b0, k - 1);
    GrowthSchedule(plan, b0, k);
    if k >= 2 {
      GrowStep(plan, prev);
      assert Scaled(prev, 1.0) == prev;
    }
  }

  /** In the first year real-estate wealth is the baseline's. */
  lemma FirstYearRealEstate(plan: Plan, b0: Balances)
    ensures BalancesAfter(plan, b0, 1).realEstate == b0.realEstate
  {
    GrowthSchedule(plan, b0, 1);
    var y := plan.yearStart;
    SettleByStatus(b0, YearFlows(plan.moves, y), PremiumYear(plan.policies, y), plan.status);
  }

  /** From the second year on, real-estate wealth is last year's times the
      growth factor. */
  lemma RealEstateStep(plan: Plan, b0: Balances, k: nat)
    requires k >= 2
    ensures BalancesAfter(plan, b0, k).realEstate == BalancesAfter(plan, b0, k - 1).realEstate * GrowthFactor(plan)
  {
    var prev := BalancesAfter(plan, b0, k - 1);
    var y := plan.yearStart + k - 1;
    LaterYear(plan, b0, k);
    SettleByStatus(Scaled(prev, GrowthFactor(plan)), YearFlows(plan.moves, y), PremiumYear(plan.policies, y), plan.status);
  }

  lemma RealEstatePowerStep(plan: Plan, b0: Balances, k: nat)
    requires k >= 2
    requires BalancesAfter(plan, b0, k - 1).realEstate == b0.realEstate * Pow(GrowthFactor(plan), k - 2)
    ensures BalancesAfter(plan, b0, k).realEstate == b0.realEstate * Pow(GrowthFactor(plan), k - 1)
  {
    var g := GrowthFactor(plan);
    var before := BalancesAfter(plan, b0, k - 1).realEstate;
    assert BalancesAfter(plan, b0, k).realEstate == before * g by {
      RealEstateStep(plan, b0, k);
    }
    GrownPower(before, b0.realEstate, g, k - 2);
  }

  /** Real-estate wealth only compounds: after `k` years it is the baseline
      grown `k - 1` times, whatever the flows. */
  lemma {:induction false} RealEstateOnlyCompounds(plan: Plan, b0: Balances, k: nat)
    requires k >= 1
    ensures BalancesAfter(plan, b0, k).realEstate == b0.realEstate * Pow(GrowthFactor(plan), k - 1)
  {
    if k == 1 {
      FirstYearRealEstate(plan, b0);
    } else {
      RealEstateOnlyCompounds(plan, b0, k - 1);
      RealEstatePowerStep(plan, b0, k);
    }
  }

  /** With neither movements nor policies a year only grows the balances. */
  lemma QuietYear(plan: Plan, b0: Balances, k: nat)
    requires plan.moves == [] && plan.policies == []
    requires k >= 2
    ensures BalancesAfter(plan, b0, k) == Scaled(BalancesAfter(plan, b0, k - 1), GrowthFactor(plan))
  {
    var y := plan.yearStart + k - 1;
    LaterYear(plan, b0, k);
    assert YearFlows(plan.moves, y) == Flows(0.0, 0.0);
    assert PremiumYear(plan.policies, y) == 0.0;
  }

  lemma QuietPowerStep(plan: Plan, b0: Balances, k: nat)
    requires plan.moves == [] && plan.policies == []
    requires k >= 2
    requires BalancesAfter(plan, b0, k - 1) == Scaled(b0, Pow(GrowthFactor(plan), k - 2))
    ensures BalancesAfter(plan, b0, k) == Scaled(b0, Pow(GrowthFactor(plan), k - 1))
  {
    QuietYear(plan, b0, k);
    ScaledAgain(b0, GrowthFactor(plan), k - 2);
  }

  /** Without movements and policies, every balance is the baseline grown
      `k - 1` times after `k` years, under every life status. */
  lemma {:induction false} CompoundingWithoutFlows(plan: Plan, b0: Balances, k: nat)
    requires plan.moves == [] && plan.policies == []
    requires k >= 1
    ensures BalancesAfter(plan, b0, k) == Scaled(b0, Pow(GrowthFactor(plan), k - 1))
  {
    if k == 1 {
      GrowthSchedule(plan, b0, 1);
      assert YearFlows(plan.moves, plan.yearStart) == Flows(0.0, 0.0);
      assert PremiumYear(plan.policies, plan.yearStart) == 0.0;
    } else {
      CompoundingWithoutFlows(plan, b0, k - 1);
      QuietPowerStep(plan, b0, k);
    }
  }

  /** Premiums of the first `k` years. */
  function PremiumsOver(ins: seq<Policy>, yearStart: int, k: nat): real
  {
    if k == 0 then 0.0 else PremiumsOver(ins, yearStart, k - 1) + PremiumYear(ins, yearStart + k - 1)
  }

  /** At a zero rate, the balance without insurance pulls ahead of the
      financial balance by exactly each year's premium, under every status. */
  lemma {:induction false} PremiumGapAtZeroRate(plan: Plan, b0: Balances, k: nat)
    requires plan.ratePct == 0.0
    ensures BalancesAfter(plan, b0, k).finNoIns - BalancesAfter(plan, b0, k).fin ==
      b0.finNoIns - b0.fin + PremiumsOver(plan.policies, plan.yearStart, k)
  {
    if k > 0 {
      PremiumGapAtZeroRate(plan, b0, k - 1);
      var prev := BalancesAfter(plan, b0, k - 1);
      var y := plan.yearStart + k - 1;
      ZeroRateYear(plan, b0, k);
      SettleByStatus(prev, YearFlows(plan.moves, y), PremiumYear(plan.policies, y), plan.status);
    }
  }

  function Uninsured(plan: Plan): Plan
  {
    plan.(policies := [])
  }

  /** Under VIVO and INVALIDO the balance without insurance is exactly the
      financial balance the same scenario reaches with no policy at all, at
      every rate. */
  lemma {:induction false} NoInsBalanceIsUninsuredBalance(plan: Plan, b0: Balances, k: nat)
    requires plan.status != MORTO && b0.fin == b0.finNoIns
    ensures BalancesAfter(plan, b0, k).finNoIns == BalancesAfter(Uninsured(plan), b0, k).fin
    ensures BalancesAfter(plan, b0, k).realEstate == BalancesAfter(Uninsured(plan), b0, k).realEstate
  {
    if k > 0 {
      NoInsBalanceIsUninsuredBalance(plan, b0, k - 1);
      assert PremiumYear([], plan.yearStart + k - 1) == 0.0;
    }
  }

  /** So under VIVO and INVALIDO every snapshot's `totalNoIns` is the `total`
      of the same projection without policies. */
  lemma TotalNoInsIsUninsuredTotal(plan: Plan, b0: Balances, k: nat)
    requires plan.status != MORTO && b0.fin == b0.finNoIns
    ensures |Points(plan, b0, k)| == |Points(Uninsured(plan), b0, k)| == k
    ensures forall i | 0 <= i < k :: Points(plan, b0, k)[i].totalNoIns == Points(Uninsured(plan), b0, k)[i].total
  {
    PointsShape(plan, b0, k);
    PointsShape(Uninsured(plan), b0, k);
    forall i | 0 <= i < k
      ensures Points(plan, b0, k)[i].totalNoIns == Points(Uninsured(plan), b0, k)[i].total
    {
      NoInsBalanceIsUninsuredBalance(plan, b0, i + 1);
    }
  }

  /** One MORTO settlement: the balance without insurance gains half the
      premium on the financial balance of the same year without policies. */
  lemma MortoSettleGap(prev: Balances, prevU: Balances, f: Flows, premium: real, before: real)
    requires prev.finNoIns == prevU.fin + before / 2.0
    ensures Settle(prev, f, premium, MORTO).finNoIns ==
      Settle(prevU, f, 0.0, MORTO).fin + (before + premium) / 2.0
  {}

  /** One MORTO year at a zero rate. */
  lemma MortoGapStep(plan: Plan, b0: Balances, k: nat)
    requires plan.status == MORTO && plan.ratePct == 0.0 && k >= 1
    requires BalancesAfter(plan, b0, k - 1).finNoIns ==
      BalancesAfter(Uninsured(plan), b0, k - 1).fin + PremiumsOver(plan.policies, plan.yearStart, k - 1) / 2.0
    ensures BalancesAfter(plan, b0, k).finNoIns ==
      BalancesAfter(Uninsured(plan), b0, k).fin + PremiumsOver(plan.policies, plan.yearStart, k) / 2.0
  {
    var u := Uninsured(plan);
    var y := plan.yearStart + k - 1;
    var f, premium := YearFlows(plan.moves, y), PremiumYear(plan.policies, y);
    var before := PremiumsOver(plan.policies, plan.yearStart, k - 1);
    var prev, prevU := BalancesAfter(plan, b0, k - 1), BalancesAfter(u, b0, k - 1);
    assert BalancesAfter(plan, b0, k) == Settle(prev, f, premium, MORTO) by {
      ZeroRateYear(plan, b0, k);
    }
    assert BalancesAfter(u, b0, k) == Settle(prevU, f, 0.0, MORTO) by {
      ZeroRateYear(u, b0, k);
      assert PremiumYear(u.policies, y) == 0.0;
    }
    MortoSettleGap(prev, prevU, f, premium, before);
  }

  /** Under MORTO the unscaled premium taken back out does not cancel the
      halved one: at a zero rate the balance without insurance ends half the
      premiums above the financial balance of the same scenario without
      policies. */
  lemma {:induction false} MortoNoInsExceedsUninsured(plan: Plan, b0: Balances, k: nat)
    requires plan.status == MORTO && plan.ratePct == 0.0 && b0.fin == b0.finNoIns
    ensures BalancesAfter(plan, b0, k).finNoIns ==
      BalancesAfter(Uninsured(plan), b0, k).fin + PremiumsOver(plan.policies, plan.yearStart, k) / 2.0
  {
    if k > 0 {
      MortoNoInsExceedsUninsured(plan, b0, k - 1);
      MortoGapStep(plan, b0, k);
    }
  }
}
