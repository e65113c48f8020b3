/**
The management and performance fee (domain/src/fees.rs): one assessment of a holding, and what whole
runs of assessments keep: debt is conserved, and no gain is charged twice.
 */
module Fees {
  import opened Base
  import opened Money
  import opened Pricing

  const BPS: nat := 10_000
  const SECONDS_PER_YEAR: nat := 31_536_000
  const I64_MAX: nat := 0x7fff_ffff_ffff_ffff

  datatype Basis = InvestedCapital | MarketValue

  datatype Crystallization = Monthly | Quarterly | SemiAnnual | Annual {
    function Seconds(): nat {
      match this
      case Monthly => SECONDS_PER_YEAR / 12
      case Quarterly => SECONDS_PER_YEAR / 4
      case SemiAnnual => SECONDS_PER_YEAR / 2
      case Annual => SECONDS_PER_YEAR
    }
  }

  datatype FeePolicy = FeePolicy(managementBps: nat, performanceBps: nat, hurdleBps: nat, basis: Basis, crystallization: Crystallization) {
    /** What any stored terms satisfy: no rate above one hundred percent. */
    predicate Stored() {
      managementBps <= BPS && performanceBps <= BPS && hurdleBps <= BPS
    }
  }

  datatype Snapshot = Snapshot(
    units: u128, collectable: u128, costBasis: u128, highWaterMark: u128, debt: u128, accruedAt: int, crystallizedAt: int)

  datatype Trigger = Period | Redemption(leaving: u128)

  datatype Charge = Charge(
    management: u128, performance: u128, performanceAccrued: u128, debtOpening: u128, due: u128,
    chargedUnits: u128, chargedCash: u128, debtCarried: u128, highWaterMark: u128, crystallized: bool)

  /** Seconds from `since` to `now` on a signed 64-bit clock, never negative. */
  function Elapsed(now: int, since: int): nat {
    Min(Max(now - since, 0), I64_MAX)
  }

  /** The most an elapsed time at a rate in basis points amounts to stays within 128 bits. */
  lemma AccrualFits(bps: nat, elapsed: nat)
    requires bps <= BPS && elapsed <= I64_MAX
    ensures 0 <= bps * elapsed < TWO128
  {
    MulMono(bps, BPS, elapsed);
  }

  function ManagementDue(p: FeePolicy, s: Snapshot, nav: u128, now: int): Option<u128>
    requires p.Stored()
  {
    var elapsed := Elapsed(now, s.accruedAt);
    if p.managementBps == 0 || elapsed == 0 then Some(0)
    else
      var base :- match p.basis {
        case InvestedCapital => Some(s.costBasis)
        case MarketValue => Value(nav, s.units)
      };
      AccrualFits(p.managementBps, elapsed);
      MulDivFloor(base, p.managementBps * elapsed, BPS * SECONDS_PER_YEAR)
  }

  /** The mark with the hurdle accrued on it since the last crystallization; only what is above it is gain. */
  function HurdleFloor(p: FeePolicy, s: Snapshot, now: int): Option<u128>
    requires p.Stored()
  {
    if p.hurdleBps == 0 then Some(s.highWaterMark)
    else
      var elapsed := Elapsed(now, s.crystallizedAt);
      AccrualFits(p.hurdleBps, elapsed);
      var lift :- MulDivFloor(s.highWaterMark, p.hurdleBps * elapsed, BPS * SECONDS_PER_YEAR);
      CheckedAdd(s.highWaterMark, lift)
  }

  function PerformanceDue(p: FeePolicy, floorNav: u128, nav: u128, units: u128): Option<u128>
    requires p.Stored()
  {
    if p.performanceBps == 0 || units == 0 || nav < floorNav then Some(0)
    else
      var profit :- Value(nav - floorNav, units);
      MulDivFloor(profit, p.performanceBps, BPS)
  }

  /** The units the performance fee covers: what the management fee leaves of the whole, or of what leaves. */
  function FeeScope(trigger: Trigger, unitsNet: u128): u128 {
    match trigger
    case Period => unitsNet
    case Redemption(leaving) => Min(leaving, unitsNet)
  }

  function Crystallizes(p: FeePolicy, s: Snapshot, trigger: Trigger, now: int): bool {
    trigger.Redemption? || Elapsed(now, s.crystallizedAt) >= p.crystallization.Seconds()
  }

  /** One assessment: the units the management fee costs are taken off before performance is computed. */
  function Assess(p: FeePolicy, s: Snapshot, nav: u128, trigger: Trigger, now: int): Option<Charge>
    requires p.Stored()
  {
    if nav == 0 then None
    else
      var management :- ManagementDue(p, s, nav, now);
      var managementUnits :- UnitsFor(management, nav);
      var unitsNet := CheckedSub(s.units, managementUnits).GetOr(0);
      var floorNav :- HurdleFloor(p, s, now);
      var accrued :- PerformanceDue(p, floorNav, nav, FeeScope(trigger, unitsNet));
      var crystallized := Crystallizes(p, s, trigger, now);
      var performance := if crystallized then accrued else 0;
      var mark := if crystallized && trigger.Period? && nav > s.highWaterMark then nav else s.highWaterMark;
      var sum :- CheckedAdd(management, performance);
      var due :- CheckedAdd(sum, s.debt);
      var payable :- UnitsFor(due, nav);
      var chargedUnits := Min(payable, s.collectable);
      var chargedCash :- Value(nav, chargedUnits);
      Some(Charge(management, performance, accrued, s.debt, due, chargedUnits, chargedCash,
                  CheckedSub(due, chargedCash).GetOr(0), mark, crystallized))
  }

  // ----- one assessment -----

  /**
  What is due is the new fees and the carried debt; what is taken is at most that, within what may be
  collected; and a charge that is not capped by it leaves less than one unit's price plus one base unit owed.
   */
  lemma ChargeAddsUp(p: FeePolicy, s: Snapshot, nav: u128, trigger: Trigger, now: int)
    requires p.Stored()
    requires Assess(p, s, nav, trigger, now).Some?
    ensures var c := Assess(p, s, nav, trigger, now).value;
            && c.due == c.management + c.performance + s.debt == c.chargedCash + c.debtCarried
            && c.chargedUnits <= s.collectable
            && UnitsFor(c.due, nav).Some?
            && (UnitsFor(c.due, nav).value <= s.collectable ==> c.debtCarried * SCALE < nav + SCALE)
  {
    var c := Assess(p, s, nav, trigger, now).value;
    UnitsAndBackNeverGain(c.due, nav, c.chargedUnits);
  }

  /**
  A crystallized performance fee is at most the rate on the gain over the mark, on the units it
  covers; without a gain there is none.
   */
  lemma PerformanceWithinGain(p: FeePolicy, s: Snapshot, nav: u128, trigger: Trigger, now: int)
    requires p.Stored()
    requires Assess(p, s, nav, trigger, now).Some?
    ensures var c := Assess(p, s, nav, trigger, now).value;
            && (nav <= s.highWaterMark ==> c.performance == 0)
            && (nav > s.highWaterMark ==>
                  c.performance * BPS * SCALE
                  <= (nav - s.highWaterMark) * (if trigger.Period? then s.units else Min(trigger.leaving, s.units)) * p.performanceBps)
  {
    var cap := if trigger.Period? then s.units else Min(trigger.leaving, s.units);
    var floorNav, units := PerformanceBasis(p, s, nav, trigger, now);
    var c := Assess(p, s, nav, trigger, now).value;
    if nav >= floorNav {
      PerformanceBound(p, floorNav, nav, units);
      if nav > s.highWaterMark {
        WiderGain(nav - floorNav, nav - s.highWaterMark, units, cap, p.performanceBps);
      } else {
        NoGainNoFee(p, floorNav, nav, units);
      }
    } else if nav > s.highWaterMark {
      MulNonNegative(nav - s.highWaterMark, cap);
      MulNonNegative((nav - s.highWaterMark) * cap, p.performanceBps);
    }
  }

  /** What a charge's performance fee was computed from. */
  lemma PerformanceBasis(p: FeePolicy, s: Snapshot, nav: u128, trigger: Trigger, now: int) returns (floorNav: u128, units: u128)
    requires p.Stored()
    requires Assess(p, s, nav, trigger, now).Some?
    ensures s.highWaterMark <= floorNav
    ensures units <= if trigger.Period? then s.units else Min(trigger.leaving, s.units)
    ensures PerformanceDue(p, floorNav, nav, units).Some?
    ensures var c := Assess(p, s, nav, trigger, now).value;
            c.performance == 0 || c.performance == PerformanceDue(p, floorNav, nav, units).value
  {
    floorNav := HurdleFloor(p, s, now).value;
    var management := ManagementDue(p, s, nav, now).value;
    units := FeeScope(trigger, CheckedSub(s.units, UnitsFor(management, nav).value).GetOr(0));
  }

  lemma NoGainNoFee(p: FeePolicy, floorNav: u128, nav: u128, units: u128)
    requires p.Stored() && nav <= floorNav
    ensures PerformanceDue(p, floorNav, nav, units) == Some(0)
  {
  }

  lemma PerformanceBound(p: FeePolicy, floorNav: u128, nav: u128, units: u128)
    requires p.Stored() && floorNav <= nav
    requires PerformanceDue(p, floorNav, nav, units).Some?
    ensures PerformanceDue(p, floorNav, nav, units).value * BPS * SCALE <= (nav - floorNav) * units * p.performanceBps
  {
    MulNonNegative(nav - floorNav, units);
    MulNonNegative((nav - floorNav) * units, p.performanceBps);
    if p.performanceBps != 0 && units != 0 {
      var profit := Value(nav - floorNav, units).value;
      var fee := PerformanceDue(p, floorNav, nav, units).value;
      MulDivBracket(units, nav - floorNav, SCALE);
      MulDivBracket(profit, p.performanceBps, BPS);
      MulMonoInt(profit * SCALE, (nav - floorNav) * units, p.performanceBps);
      MulMonoInt(fee * BPS, profit * p.performanceBps, SCALE);
      assert profit * p.performanceBps * SCALE == profit * SCALE * p.performanceBps;
    }
  }

  lemma WiderGain(gain: nat, gain': nat, units: nat, units': nat, bps: nat)
    requires gain <= gain' && units <= units'
    ensures gain * units * bps <= gain' * units' * bps
  {
    MulMono(gain, gain', units);
    MulMono(units, units', gain');
    MulNonNegative(gain, units);
    MulMonoInt(gain * units, gain' * units', bps);
  }

  // ----- runs -----

  /** One assessment of a run: when, at what price, why, and with what else read about the holding. */
  datatype Assessment = Assessment(
    policy: FeePolicy, nav: u128, trigger: Trigger, now: int, units: u128, collectable: u128, costBasis: u128,
    accruedAt: int, crystallizedAt: int)

  /** What a run carries from one assessment to the next, and what it has charged so far. */
  datatype Account = Account(mark: u128, debt: u128, units: u128, fees: nat, performance: nat, cash: nat)

  function SnapshotOf(a: Account, x: Assessment): Snapshot {
    Snapshot(x.units, x.collectable, x.costBasis, a.mark, a.debt, x.accruedAt, x.crystallizedAt)
  }

  /** The units left after an assessment: what was charged is gone, and what redeemed has left. */
  function UnitsAfter(x: Assessment, c: Charge): u128 {
    var charged := Max(x.units - c.chargedUnits, 0);
    match x.trigger
    case Period => charged
    case Redemption(leaving) => Max(Min(charged, x.units - leaving), 0)
  }

  /** An assessment stored: the debt and the mark it returned are the next one's. */
  function Charged(a: Account, x: Assessment): Option<Account>
    requires x.policy.Stored()
  {
    var c :- Assess(x.policy, SnapshotOf(a, x), x.nav, x.trigger, x.now);
    Some(Account(c.highWaterMark, c.debtCarried, UnitsAfter(x, c), a.fees + c.management + c.performance,
                 a.performance + c.performance, a.cash + c.chargedCash))
  }

  function RunAll(a: Account, run: seq<Assessment>): Option<Account>
    requires forall i :: 0 <= i < |run| ==> run[i].policy.Stored()
    decreases |run|
  {
    if run == [] then Some(a)
    else
      var next :- Charged(a, run[0]);
      RunAll(next, run[1..])
  }

  /**
  Debt is conserved over any run: opening debt plus every fee assessed equals the cash value of every
  unit taken plus closing debt.
   */
  lemma {:induction false} DebtIsConserved(a: Account, run: seq<Assessment>)
    requires forall i :: 0 <= i < |run| ==> run[i].policy.Stored()
    requires RunAll(a, run).Some?
    ensures var z := RunAll(a, run).value;
            && a.debt + (z.fees - a.fees) == (z.cash - a.cash) + z.debt
            && z.fees >= a.fees && z.cash >= a.cash
    decreases |run|
  {
    if run != [] {
      var x := run[0];
      ChargeAddsUp(x.policy, SnapshotOf(a, x), x.nav, x.trigger, x.now);
      DebtIsConserved(Charged(a, x).value, run[1..]);
    }
  }

  /** Every assessment of a run is scheduled, at one performance rate, over at most `units` units. */
  ghost predicate PeriodRun(run: seq<Assessment>, bps: nat, units: nat) {
    forall i :: 0 <= i < |run| ==>
      run[i].policy.Stored() && run[i].policy.performanceBps == bps && run[i].trigger == Period && run[i].units <= units
  }

  /** One scheduled assessment charges at most the rate on the rise of the mark it stores. */
  lemma PeriodChargesTheRise(a: Account, x: Assessment, units: nat)
    requires x.policy.Stored() && x.trigger == Period && x.units <= units
    requires Charged(a, x).Some?
    ensures var z := Charged(a, x).value;
            && a.mark <= z.mark
            && (z.performance - a.performance) * BPS * SCALE <= (z.mark - a.mark) * units * x.policy.performanceBps
  {
    var s := SnapshotOf(a, x);
    PerformanceWithinGain(x.policy, s, x.nav, x.trigger, x.now);
    if x.nav > a.mark {
      WiderGain(x.nav - a.mark, x.nav - a.mark, x.units, units, x.policy.performanceBps);
    }
    var z := Charged(a, x).value;
    MulNonNegative(z.mark - a.mark, units);
    MulNonNegative((z.mark - a.mark) * units, x.policy.performanceBps);
  }

  /** Two charges each within the rate on a rise are together within the rate on both rises. */
  lemma RisesAdd(m0: int, m1: int, m2: int, f0: int, f1: int, f2: int, units: int, bps: int)
    requires (f1 - f0) * BPS * SCALE <= (m1 - m0) * units * bps
    requires (f2 - f1) * BPS * SCALE <= (m2 - m1) * units * bps
    ensures (f2 - f0) * BPS * SCALE <= (m2 - m0) * units * bps
  {
    RiseSplits(m0, m1, m2, units, bps);
    SumScaled(f0, f1, f2);
  }

  /**
  No gain is charged twice, hurdle included: over any run of scheduled assessments that store the
  returned mark, the performance fees together are at most the rate on the rise of the mark over the
  whole run, and the mark never falls.
   */
  lemma {:induction false} NoGainIsChargedTwice(a: Account, run: seq<Assessment>, bps: nat, units: nat)
    requires PeriodRun(run, bps, units)
    requires RunAll(a, run).Some?
    ensures var z := RunAll(a, run).value;
            && a.mark <= z.mark
            && (z.performance - a.performance) * BPS * SCALE <= (z.mark - a.mark) * units * bps
    decreases |run|
  {
    if run != [] {
      var x := run[0];
      PeriodChargesTheRise(a, x, units);
      var next := Charged(a, x).value;
      NoGainIsChargedTwice(next, run[1..], bps, units);
      var z := RunAll(a, run).value;
      RisesAdd(a.mark, next.mark, z.mark, a.performance, next.performance, z.performance, units, bps);
    }
  }

  lemma RiseSplits(a: int, b: int, c: int, units: int, bps: int)
    ensures (c - a) * units * bps == (b - a) * units * bps + (c - b) * units * bps
  {
    assert (c - a) * units == (b - a) * units + (c - b) * units;
  }

  lemma SumScaled(a: int, b: int, c: int)
    ensures (c - a) * BPS * SCALE == (b - a) * BPS * SCALE + (c - b) * BPS * SCALE
  {
  }

  // ----- exits included -----

  /** A run in which units only leave: each assessment sees at most the units the last one left. */
  ghost predicate ClosedRun(a: Account, run: seq<Assessment>, bps: nat, top: u128)
    decreases |run|
  {
    run == []
    || (&& run[0].policy.Stored() && run[0].policy.performanceBps == bps
        && run[0].units <= a.units && run[0].nav <= top
        && (run[0].trigger.Redemption? ==> run[0].trigger.leaving <= run[0].units)
        && (Charged(a, run[0]).Some? ==> ClosedRun(Charged(a, run[0]).value, run[1..], bps, top)))
  }

  /** What could still be charged: the units left, on the way from the mark to the highest price. */
  ghost function Headroom(a: Account, bps: nat, top: u128): int {
    if a.mark <= top then a.units * (top - a.mark) * bps else 0
  }

  /** An assessment, scheduled or for an exit, charges out of the headroom. */
  lemma ChargeUsesHeadroom(a: Account, x: Assessment, bps: nat, top: u128)
    requires x.policy.Stored() && x.policy.performanceBps == bps
    requires x.units <= a.units && x.nav <= top
    requires x.trigger.Redemption? ==> x.trigger.leaving <= x.units
    requires Charged(a, x).Some?
    ensures var z := Charged(a, x).value;
            (z.performance - a.performance) * BPS * SCALE + Headroom(z, bps, top) <= Headroom(a, bps, top)
  {
    var s := SnapshotOf(a, x);
    PerformanceWithinGain(x.policy, s, x.nav, x.trigger, x.now);
    var z := Charged(a, x).value;
    if a.mark <= top {
      HeadroomSplit(a.mark, z.mark, top, z.units, a.units, bps);
      if x.trigger.Period? {
        if x.nav > a.mark {
          WiderGain(x.nav - a.mark, x.nav - a.mark, x.units, a.units, bps);
          HeadroomPeriod(a.mark, z.mark, top, z.units, a.units, bps);
        }
      } else {
        HeadroomExit(a.mark, top, z.units, x.trigger.leaving, a.units, bps);
        if x.nav > a.mark {
          WiderGain(x.nav - a.mark, top - a.mark, x.trigger.leaving, x.trigger.leaving, bps);
          MulNonNegative(top - a.mark, x.trigger.leaving);
        }
      }
    }
  }

  lemma HeadroomSplit(mark: nat, mark': nat, top: nat, left: nat, units: nat, bps: nat)
    requires mark <= mark' <= top && left <= units
    ensures left * (top - mark') * bps <= units * (top - mark) * bps
  {
    WiderGain(left, units, top - mark', top - mark, bps);
  }

  lemma HeadroomPeriod(mark: nat, mark': nat, top: nat, left: nat, units: nat, bps: nat)
    requires mark <= mark' <= top && left <= units
    ensures (mark' - mark) * units * bps + left * (top - mark') * bps <= units * (top - mark) * bps
  {
    WiderGain(left, units, top - mark', top - mark', bps);
    assert (mark' - mark) * units * bps + units * (top - mark') * bps == units * (top - mark) * bps;
  }

  lemma HeadroomExit(mark: nat, top: nat, left: nat, leaving: nat, units: nat, bps: nat)
    requires mark <= top && left + leaving <= units
    ensures (top - mark) * leaving * bps + left * (top - mark) * bps <= units * (top - mark) * bps
  {
    WiderGain(left + leaving, units, top - mark, top - mark, bps);
    assert (top - mark) * leaving * bps + left * (top - mark) * bps == (left + leaving) * (top - mark) * bps;
  }

  /**
  Exits do not open a second charge: over any run of scheduled assessments and redemptions in which
  units only leave, all performance fees together are at most the rate on the starting units times
  the rise from the starting mark to the highest price assessed.
   */
  lemma {:induction false} ExitsChargeNoGainTwice(a: Account, run: seq<Assessment>, bps: nat, top: u128)
    requires forall i :: 0 <= i < |run| ==> run[i].policy.Stored()
    requires ClosedRun(a, run, bps, top)
    requires RunAll(a, run).Some?
    ensures (RunAll(a, run).value.performance - a.performance) * BPS * SCALE <= Headroom(a, bps, top)
    decreases |run|
  {
    if run == [] {
      if a.mark <= top {
        MulNonNegative(a.units, top - a.mark);
        MulNonNegative(a.units * (top - a.mark), bps);
      }
    } else {
      ChargeUsesHeadroom(a, run[0], bps, top);
      ExitsChargeNoGainTwice(Charged(a, run[0]).value, run[1..], bps, top);
    }
  }
}
