/**
Who has to agree to a change of fee terms (domain/src/fees.rs): the administrator's rule is closed
under repetition, so no run of small changes drifts where one change could not go.
 */
module FeeTerms {
  import opened Base
  import opened Fees

  const HOUSE_MANAGEMENT_BPS: nat := 200
  const HOUSE_PERFORMANCE_BPS: nat := 2_000
  const MAX_MANAGEMENT_BPS: nat := 500
  const MAX_PERFORMANCE_BPS: nat := 5_000

  /** The terms of a product that has none. */
  const NONE := FeePolicy(0, 0, 0, InvestedCapital, Annual)

  datatype Requirement = Admin | OwnerConsilium

  /** The way in for new terms, capped well below one hundred percent. */
  function New(management: nat, performance: nat, hurdle: nat, basis: Basis, crystallization: Crystallization)
    : (r: Result<FeePolicy, DomainError>)
    ensures r.Ok? ==> r.value.Stored()
    ensures r.Ok? <==> management <= 500 && performance <= 5_000 && hurdle <= 10_000
  {
    if management > MAX_MANAGEMENT_BPS then Err(Validation)
    else if performance > MAX_PERFORMANCE_BPS then Err(Validation)
    else if hurdle > BPS then Err(Validation)
    else Ok(FeePolicy(management, performance, hurdle, basis, crystallization))
  }

  predicate WithinHouseEnvelope(p: FeePolicy) {
    && p.managementBps <= HOUSE_MANAGEMENT_BPS
    && p.performanceBps <= HOUSE_PERFORMANCE_BPS
    && p.basis.InvestedCapital?
    && p.crystallization.Annual?
  }

  /** Some leg of the terms gets dearer for the investor. */
  predicate TightensFrom(next: FeePolicy, current: FeePolicy) {
    || next.managementBps > current.managementBps
    || next.performanceBps > current.performanceBps
    || next.hurdleBps < current.hurdleBps
    || (current.basis == InvestedCapital && next.basis == MarketValue)
    || next.crystallization.Seconds() < current.crystallization.Seconds()
  }

  function RequirementFor(current: Option<FeePolicy>, next: FeePolicy): Requirement {
    var p := current.GetOr(NONE);
    if next.hurdleBps < p.hurdleBps || (TightensFrom(next, p) && !WithinHouseEnvelope(next)) then OwnerConsilium
    else Admin
  }

  /** Which of two periods is at least as long. */
  predicate AtLeastAsLong(c: Crystallization, d: Crystallization) {
    match d
    case Monthly => true
    case Quarterly => c != Monthly
    case SemiAnnual => c == SemiAnnual || c == Annual
    case Annual => c == Annual
  }

  /**
  What one administrator may change alone: never lowering the hurdle, either to terms no dearer than two and
  twenty on invested capital, charged yearly, or to terms no leg of which is dearer than before. A product
  without terms is one that charges nothing.
   */
  lemma AdministratorsMayIff(current: Option<FeePolicy>, next: FeePolicy)
    ensures var before := if current.Some? then current.value else FeePolicy(0, 0, 0, InvestedCapital, Annual);
            RequirementFor(current, next) == Admin <==>
              && next.hurdleBps >= before.hurdleBps
              && (|| (next.managementBps <= 200 && next.performanceBps <= 2_000 && next.basis == InvestedCapital && next.crystallization == Annual)
                  || (next.managementBps <= before.managementBps && next.performanceBps <= before.performanceBps
                      && (before.basis == InvestedCapital ==> next.basis == InvestedCapital)
                      && AtLeastAsLong(next.crystallization, before.crystallization)))
  {
  }

  /** A run of changes, each of which needs one administrator only. */
  ghost predicate AdminRun(start: Option<FeePolicy>, changes: seq<FeePolicy>)
    decreases |changes|
  {
    changes == [] || (RequirementFor(start, changes[0]) == Admin && AdminRun(Some(changes[0]), changes[1..]))
  }

  /** Two administrator's changes in a row add up to one. */
  lemma TwoChangesAreOne(start: Option<FeePolicy>, middle: FeePolicy, end: FeePolicy)
    requires RequirementFor(start, middle) == Admin && RequirementFor(Some(middle), end) == Admin
    ensures RequirementFor(start, end) == Admin
  {
  }

  lemma {:induction false} RunIsOneChange(start: Option<FeePolicy>, changes: seq<FeePolicy>)
    requires changes != [] && AdminRun(start, changes)
    ensures RequirementFor(start, changes[|changes| - 1]) == Admin
    decreases |changes|
  {
    if |changes| > 1 {
      RunIsOneChange(Some(changes[0]), changes[1..]);
      TwoChangesAreOne(start, changes[0], changes[|changes| - 1]);
    }
  }

  /**
  No drift: administrators reach some terms by changes of their own, however many and however small,
  exactly when a single change of theirs would have been allowed.
   */
  lemma AdministratorsNeverDrift(start: Option<FeePolicy>, end: FeePolicy)
    ensures (exists changes :: changes != [] && AdminRun(start, changes) && changes[|changes| - 1] == end)
            <==> RequirementFor(start, end) == Admin
  {
    forall changes | changes != [] && AdminRun(start, changes) && changes[|changes| - 1] == end
      ensures RequirementFor(start, end) == Admin
    {
      RunIsOneChange(start, changes);
    }
    if RequirementFor(start, end) == Admin {
      assert AdminRun(start, [end]) && [end][|[end]| - 1] == end;
    }
  }

  /**
  What the holder keeps over any run of administrator's changes: no rate ends above both where it
  started and the house rate, the hurdle never falls, crystallization never becomes more frequent than
  at the start, and the fee moves onto the mark only if it was there already.
   */
  lemma RunKeepsTheBargain(start: FeePolicy, changes: seq<FeePolicy>)
    requires changes != [] && AdminRun(Some(start), changes)
    ensures var end := changes[|changes| - 1];
            && end.managementBps <= Max(start.managementBps, 200)
            && end.performanceBps <= Max(start.performanceBps, 2_000)
            && end.hurdleBps >= start.hurdleBps
            && end.crystallization.Seconds() >= start.crystallization.Seconds()
            && (end.basis == MarketValue ==> start.basis == MarketValue)
  {
    RunIsOneChange(Some(start), changes);
  }

  /** From a product that charges nothing, administrators alone never leave the house envelope. */
  lemma FromNothingStaysInTheEnvelope(changes: seq<FeePolicy>, i: nat)
    requires AdminRun(None, changes) && i < |changes|
    ensures WithinHouseEnvelope(changes[i])
  {
    PrefixRuns(None, changes, i + 1);
    RunIsOneChange(None, changes[..i + 1]);
  }

  lemma {:induction false} PrefixRuns(start: Option<FeePolicy>, changes: seq<FeePolicy>, n: nat)
    requires AdminRun(start, changes) && n <= |changes|
    ensures AdminRun(start, changes[..n])
    decreases n
  {
    if n > 0 {
      PrefixRuns(Some(changes[0]), changes[1..], n - 1);
      assert changes[..n][1..] == changes[1..][..n - 1];
    }
  }
}
