/**
What an assessment charges (domain/src/fees.rs), bounded from both sides in terms of the holding, the rates
and the times: the management fee, what it is independent of, and the performance fee with its hurdle.
 */
module FeeAmounts {
  import opened Base
  import opened Money
  import opened Pricing
  import opened Fees

  /**
  Seconds between two times on a signed 64-bit clock, at most what it can count; a clock that ran backwards
  counts as no time.
   */
  function Between(since: int, now: int): nat {
    if now <= since then 0 else if now - since < 0x8000_0000_0000_0000 then now - since else 0x7fff_ffff_ffff_ffff
  }

  /** A year of 365 days in seconds, in ten-thousandths. */
  const YEAR_IN_BPS: nat := 315_360_000_000

  // ----- the management fee -----

  /** What the fee is charged on: the cash put in, or what the units are worth at the price, rounded down. */
  ghost predicate ChargedOn(basis: Basis, s: Snapshot, nav: u128, amount: nat) {
    match basis
    case InvestedCapital => amount == s.costBasis
    case MarketValue => FloorOf(amount, s.units * nav, 1_000_000_000_000_000_000)
  }

  lemma ManagementDueIs(p: FeePolicy, s: Snapshot, nav: u128, now: int, seconds: nat) returns (amount: u128)
    requires p.Stored() && ManagementDue(p, s, nav, now).Some?
    requires seconds == Between(s.accruedAt, now)
    ensures p.managementBps > 0 && seconds > 0 ==> ChargedOn(p.basis, s, nav, amount)
    ensures FloorOf(ManagementDue(p, s, nav, now).value, amount * (p.managementBps * seconds), YEAR_IN_BPS)
  {
    if p.managementBps == 0 || seconds == 0 {
      amount := 0;
    } else {
      amount := if p.basis == InvestedCapital then s.costBasis else Value(nav, s.units).value;
      MulDivIsFloor(s.units, nav, SCALE);
      AccrualFits(p.managementBps, seconds);
      MulDivIsFloor(amount, p.managementBps * seconds, YEAR_IN_BPS);
    }
  }

  /**
  The management fee of every assessment is the rate on its base for the time since the last accrual, as a
  part of a year of 365 days, with the fraction of a base unit dropped.
   */
  lemma ManagementIsTheRate(p: FeePolicy, s: Snapshot, nav: u128, trigger: Trigger, now: int, seconds: nat) returns (amount: u128)
    requires p.Stored() && Assess(p, s, nav, trigger, now).Some?
    requires seconds == Between(s.accruedAt, now)
    ensures p.managementBps > 0 && seconds > 0 ==> ChargedOn(p.basis, s, nav, amount)
    ensures FloorOf(Assess(p, s, nav, trigger, now).value.management, amount * (p.managementBps * seconds), YEAR_IN_BPS)
  {
    amount := ManagementDueIs(p, s, nav, now, seconds);
  }

  /** On invested capital the fee does not move with the price, and on market value not with the cash put in. */
  lemma ManagementIgnores(p: FeePolicy, s: Snapshot, nav: u128, nav': u128, costBasis: u128, trigger: Trigger, trigger': Trigger, now: int)
    requires p.Stored()
    requires Assess(p, s, nav, trigger, now).Some?
    ensures p.basis == InvestedCapital && Assess(p, s, nav', trigger', now).Some? ==>
              Assess(p, s, nav', trigger', now).value.management == Assess(p, s, nav, trigger, now).value.management
    ensures p.basis == MarketValue && Assess(p, s.(costBasis := costBasis), nav, trigger', now).Some? ==>
              Assess(p, s.(costBasis := costBasis), nav, trigger', now).value.management
              == Assess(p, s, nav, trigger, now).value.management
  {
  }

  // ----- the performance fee -----

  /** The mark with the hurdle on it for the time since the last crystallization, rounded down. */
  ghost predicate Lifted(p: FeePolicy, s: Snapshot, seconds: nat, mark: nat) {
    mark >= s.highWaterMark && FloorOf(mark - s.highWaterMark, s.highWaterMark * (p.hurdleBps * seconds), YEAR_IN_BPS)
  }

  lemma HurdleFloorIs(p: FeePolicy, s: Snapshot, now: int, seconds: nat)
    requires p.Stored() && HurdleFloor(p, s, now).Some?
    requires seconds == Between(s.crystallizedAt, now)
    ensures Lifted(p, s, seconds, HurdleFloor(p, s, now).value)
  {
    if p.hurdleBps > 0 {
      AccrualFits(p.hurdleBps, seconds);
      MulDivIsFloor(s.highWaterMark, p.hurdleBps * seconds, YEAR_IN_BPS);
    }
  }

  /** The fee on a gain over so many units: the rate on its value, both rounded down. */
  ghost predicate RateOnGain(p: FeePolicy, gain: nat, units: nat, fee: nat) {
    exists profit: nat :: FloorOf(profit, units * gain, 1_000_000_000_000_000_000) && FloorOf(fee, profit * p.performanceBps, 10_000)
  }

  lemma PerformanceDueIs(p: FeePolicy, floorNav: u128, nav: u128, units: u128)
    requires p.Stored() && PerformanceDue(p, floorNav, nav, units).Some?
    ensures RateOnGain(p, if nav > floorNav then nav - floorNav else 0, units, PerformanceDue(p, floorNav, nav, units).value)
  {
    var gain := if nav > floorNav then nav - floorNav else 0;
    MulNonNegative(gain, units);
    MulDivIsFloor(units, gain, SCALE);
    if p.performanceBps == 0 || units == 0 || nav <= floorNav {
      var profit := units * gain / SCALE;
      FloorBracket(units * gain, SCALE);
      DivNonNegative(units * gain, SCALE);
      assert FloorOf(profit, units * gain, 1_000_000_000_000_000_000);
      NothingOn(units, gain, profit);
      assert FloorOf(0, profit * p.performanceBps, 10_000);
    } else {
      var profit := Value(gain, units).value;
      MulDivIsFloor(profit, p.performanceBps, BPS);
      assert FloorOf(profit, units * gain, 1_000_000_000_000_000_000);
    }
  }

  lemma NothingOn(units: nat, gain: nat, profit: nat)
    requires FloorOf(profit, units * gain, 1_000_000_000_000_000_000)
    ensures units == 0 || gain == 0 ==> profit == 0
  {
    if units == 0 || gain == 0 {
      assert units * gain == 0;
    }
  }

  /** The units a fee covers: without those the management fee costs, and for an exit only those that leave. */
  ghost predicate Covers(s: Snapshot, nav: nat, trigger: Trigger, management: nat, units: nat) {
    exists spent: nat ::
      && FloorOf(spent, management * 1_000_000_000_000_000_000, nav)
      && var kept := if spent <= s.units then s.units - spent else 0;
         units == if trigger.Redemption? && trigger.leaving <= kept then trigger.leaving else kept
  }

  /** Whether a fee is taken now: at every exit, and on schedule once the period has passed. */
  predicate Taken(p: FeePolicy, s: Snapshot, trigger: Trigger, now: int) {
    || trigger.Redemption?
    || now - s.crystallizedAt >= (match p.crystallization
                                  case Monthly => 2_628_000
                                  case Quarterly => 7_884_000
                                  case SemiAnnual => 15_768_000
                                  case Annual => 31_536_000)
  }

  /**
  The performance fee of every assessment: the rate on the rise of the price over the lifted mark, on the
  units it covers, is accrued; it is taken when its time has come, and the mark then rises to the price if
  the whole holding was assessed.
   */
  lemma PerformanceIsTheRate(p: FeePolicy, s: Snapshot, nav: u128, trigger: Trigger, now: int, seconds: nat)
    returns (mark: nat, units: nat)
    requires p.Stored() && Assess(p, s, nav, trigger, now).Some?
    requires seconds == Between(s.crystallizedAt, now)
    ensures var c := Assess(p, s, nav, trigger, now).value;
            && Lifted(p, s, seconds, mark)
            && Covers(s, nav, trigger, c.management, units)
            && RateOnGain(p, if nav > mark then nav - mark else 0, units, c.performanceAccrued)
            && c.performance == (if Taken(p, s, trigger, now) then c.performanceAccrued else 0)
            && (c.crystallized <==> Taken(p, s, trigger, now))
            && c.highWaterMark == if Taken(p, s, trigger, now) && trigger.Period? && nav > s.highWaterMark then nav else s.highWaterMark
  {
    var c := Assess(p, s, nav, trigger, now).value;
    mark := HurdleFloor(p, s, now).value;
    HurdleFloorIs(p, s, now, seconds);
    var spent := UnitsFor(c.management, nav).value;
    MulDivIsFloor(c.management, SCALE, nav);
    units := FeeScope(trigger, CheckedSub(s.units, spent).GetOr(0));
    assert FloorOf(spent, c.management * 1_000_000_000_000_000_000, nav);
    PerformanceDueIs(p, HurdleFloor(p, s, now).value, nav, FeeScope(trigger, CheckedSub(s.units, spent).GetOr(0)));
    TakenOnSchedule(p, s, trigger, now);
  }

  lemma TakenOnSchedule(p: FeePolicy, s: Snapshot, trigger: Trigger, now: int)
    requires p.Stored()
    ensures Crystallizes(p, s, trigger, now) <==> Taken(p, s, trigger, now)
  {
  }

  // ----- what is collected -----

  /** An assessment takes units worth what is due, as far as they may be collected, and carries the rest. */
  lemma CollectedIs(p: FeePolicy, s: Snapshot, nav: u128, trigger: Trigger, now: int) returns (payable: nat)
    requires p.Stored() && Assess(p, s, nav, trigger, now).Some?
    ensures var c := Assess(p, s, nav, trigger, now).value;
            && c.debtOpening == s.debt && c.due == c.management + c.performance + s.debt
            && FloorOf(payable, c.due * 1_000_000_000_000_000_000, nav)
            && c.chargedUnits == (if payable <= s.collectable then payable else s.collectable)
            && FloorOf(c.chargedCash, c.chargedUnits * nav, 1_000_000_000_000_000_000)
            && c.debtCarried == c.due - c.chargedCash
  {
    var c := Assess(p, s, nav, trigger, now).value;
    payable := UnitsFor(c.due, nav).value;
    MulDivIsFloor(c.due, SCALE, nav);
    MulDivIsFloor(c.chargedUnits, nav, SCALE);
    ChargeAddsUp(p, s, nav, trigger, now);
  }

  // ----- over runs -----

  /** What an assessment's base earns at its rate in its time, in ten-thousandths of a year. */
  function Earned(x: Assessment): nat {
    var base: nat := if x.policy.basis == InvestedCapital then x.costBasis else x.units * x.nav / 1_000_000_000_000_000_000;
    base * (x.policy.managementBps * Between(x.accruedAt, x.now))
  }

  function EarnedOver(run: seq<Assessment>): nat {
    if run == [] then 0 else Earned(run[0]) + EarnedOver(run[1..])
  }

  /** The fees assessed between two accounts that are not performance fees. */
  function Managed(a: Account, z: Account): int {
    (z.fees - a.fees) - (z.performance - a.performance)
  }

  lemma OneManagementFee(a: Account, x: Assessment)
    requires x.policy.Stored() && Charged(a, x).Some?
    ensures var z := Charged(a, x).value;
            Managed(a, z) >= 0 && FloorOf(Managed(a, z), Earned(x), YEAR_IN_BPS)
  {
    var seconds := Between(x.accruedAt, x.now);
    var amount := ManagementIsTheRate(x.policy, SnapshotOf(a, x), x.nav, x.trigger, x.now, seconds);
    if x.policy.managementBps > 0 && seconds > 0 {
      if x.policy.basis == MarketValue {
        FloorUnique(x.units * x.nav, 1_000_000_000_000_000_000, amount);
      }
    } else {
      NothingEarned(x, amount, seconds);
    }
  }

  lemma NothingEarned(x: Assessment, amount: nat, seconds: nat)
    requires x.policy.managementBps == 0 || seconds == 0
    requires seconds == Between(x.accruedAt, x.now)
    ensures Earned(x) == 0 && amount * (x.policy.managementBps * seconds) == 0
  {
    assert x.policy.managementBps * seconds == 0;
  }

  lemma ManagedAdds(a: Account, b: Account, c: Account)
    ensures Managed(a, c) == Managed(a, b) + Managed(b, c)
  {
  }

  lemma BracketsAdd(m: int, earned: nat, m': int, earned': nat, n: nat)
    requires m * YEAR_IN_BPS <= earned < (m + 1) * YEAR_IN_BPS
    requires m' * YEAR_IN_BPS <= earned' <= (m' + n) * YEAR_IN_BPS
    ensures (m + m') * YEAR_IN_BPS <= earned + earned' <= (m + m' + n + 1) * YEAR_IN_BPS
  {
  }

  /**
  Over every run, all management fees together are what the bases earned at their rates, short of at most one
  base unit an assessment.
   */
  lemma {:induction false} AllManagementFees(a: Account, run: seq<Assessment>)
    requires (forall i :: 0 <= i < |run| ==> run[i].policy.Stored()) && RunAll(a, run).Some?
    ensures var z := RunAll(a, run).value;
            Managed(a, z) * YEAR_IN_BPS <= EarnedOver(run) <= (Managed(a, z) + |run|) * YEAR_IN_BPS
    decreases |run|
  {
    if run != [] {
      var next := Charged(a, run[0]).value;
      OneManagementFee(a, run[0]);
      AllManagementFees(next, run[1..]);
      var z := RunAll(next, run[1..]).value;
      ManagedAdds(a, next, z);
      BracketsAdd(Managed(a, next), Earned(run[0]), Managed(next, z), EarnedOver(run[1..]), |run| - 1);
    }
  }
}
