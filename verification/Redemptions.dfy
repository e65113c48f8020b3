/**
Dealing with the fund (domain/src/subscriptions.rs, domain/src/redemptions.rs): units bought at NAV,
and the redemption saga that burns them and pays their value at the NAV of the day it settles.
 */
module Redemptions {
  import opened Base
  import opened Money
  import opened Ledger
  import opened Pricing
  import opened Flows

  /** A subscription mints the floored units its cash buys, and must buy at least one base unit. */
  function Subscribe(user: UserId, service: ServiceId, cash: u128, nav: u128): Result<Fact, DomainError> {
    if cash == 0 then Err(Validation)
    else
      match UnitsFor(cash, nav)
      case None => Err(Validation)
      case Some(units) => if units == 0 then Err(Validation) else Ok(Subscribed(user, service, cash, units))
  }

  datatype RedemptionState = Queued | Completed | Failed | Cancelled

  datatype Redemption = Redemption(
    id: Uuid, user: UserId, service: ServiceId, units: u128, nav: Option<u128>, cash: Option<u128>, state: RedemptionState)

  type Answer = Result<Unit, DomainError>

  function Request(id: Uuid, user: UserId, service: ServiceId, units: u128): Result<(Redemption, seq<Fact>), DomainError> {
    if units == 0 then Err(Validation)
    else Ok((Redemption(id, user, service, units, None, None, Queued), [RedemptionRequested(id, user, service, units)]))
  }

  datatype Command = DoSettle(nav: u128) | DoFail | DoCancel

  function Step(r: Redemption, c: Command): (Redemption, seq<Fact>, Answer) {
    match c
    case DoSettle(nav) =>
      if r.state == Completed then (r, [], Ok(Unit))
      else if r.state != Queued then (r, [], Err(Conflict))
      else
        var cash := Value(nav, r.units).GetOr(0);
        if cash == 0 then (r, [], Err(Validation))
        else (r.(nav := Some(nav), cash := Some(cash), state := Completed),
              [RedemptionSettled(r.id, r.user, r.service, cash)], Ok(Unit))
    case DoFail =>
      if r.state == Failed then (r, [], Ok(Unit))
      else if r.state != Queued then (r, [], Err(Conflict))
      else (r.(state := Failed), [RedemptionReleased(r.id)], Ok(Unit))
    case DoCancel =>
      if r.state == Cancelled then (r, [], Ok(Unit))
      else if r.state != Queued then (r, [], Err(Conflict))
      else (r.(state := Cancelled), [RedemptionReleased(r.id)], Ok(Unit))
  }

  /** The redemption aggregate; `pending` collects the facts of its events. */
  class RedemptionSaga {
    const id: Uuid
    const user: UserId
    const service: ServiceId
    const units: u128
    var nav: Option<u128>
    var cash: Option<u128>
    var state: RedemptionState
    var pending: seq<Fact>

    function View(): Redemption
      reads this
    {
      Redemption(id, user, service, units, nav, cash, state)
    }

    constructor (id: Uuid, user: UserId, service: ServiceId, units: u128)
      requires Request(id, user, service, units).Ok?
      ensures Request(id, user, service, units) == Ok((View(), pending))
    {
      this.id, this.user, this.service, this.units := id, user, service, units;
      nav, cash, state := None, None, Queued;
      pending := [RedemptionRequested(id, user, service, units)];
    }

    method Settle(atNav: u128) returns (r: Answer)
      modifies this
      ensures (View(), r) == (Step(old(View()), DoSettle(atNav)).0, Step(old(View()), DoSettle(atNav)).2)
      ensures pending == old(pending) + Step(old(View()), DoSettle(atNav)).1
    {
      if state == Completed {
        return Ok(Unit);
      }
      if state != Queued {
        return Err(Conflict);
      }
      var value := Value(atNav, units);
      if value.None? || value.value == 0 {
        return Err(Validation);
      }
      nav := Some(atNav);
      cash := value;
      state := Completed;
      pending := pending + [RedemptionSettled(id, user, service, value.value)];
      return Ok(Unit);
    }

    method Fail() returns (r: Answer)
      modifies this
      ensures (View(), r) == (Step(old(View()), DoFail).0, Step(old(View()), DoFail).2)
      ensures pending == old(pending) + Step(old(View()), DoFail).1
    {
      if state == Failed {
        return Ok(Unit);
      }
      if state != Queued {
        return Err(Conflict);
      }
      state := Failed;
      pending := pending + [RedemptionReleased(id)];
      return Ok(Unit);
    }

    method Cancel() returns (r: Answer)
      modifies this
      ensures (View(), r) == (Step(old(View()), DoCancel).0, Step(old(View()), DoCancel).2)
      ensures pending == old(pending) + Step(old(View()), DoCancel).1
    {
      if state == Cancelled {
        return Ok(Unit);
      }
      if state != Queued {
        return Err(Conflict);
      }
      state := Cancelled;
      pending := pending + [RedemptionReleased(id)];
      return Ok(Unit);
    }
  }

  function History(r: Redemption, facts: seq<Fact>, commands: seq<Command>): (Redemption, seq<Fact>)
    decreases |commands|
  {
    if commands == [] then (r, facts)
    else
      var (r', more, _) := Step(r, commands[0]);
      History(r', facts + more, commands[1..])
  }

  function Told(r: Redemption): seq<Fact> {
    var requested := RedemptionRequested(r.id, r.user, r.service, r.units);
    match r.state
    case Queued => [requested]
    case Completed => [requested, RedemptionSettled(r.id, r.user, r.service, r.cash.GetOr(0))]
    case Failed | Cancelled => [requested, RedemptionReleased(r.id)]
  }

  /** Nav and cash are set exactly when the redemption was paid, and then agree with its units. */
  ghost predicate Priced(r: Redemption) {
    if r.state == Completed
    then r.nav.Some? && r.cash.Some? && Value(r.nav.value, r.units) == r.cash && r.cash.value > 0
    else r.nav == None && r.cash == None
  }

  lemma {:induction false} HistoryTells(r: Redemption, facts: seq<Fact>, commands: seq<Command>)
    requires facts == Told(r) && Priced(r)
    ensures var (r', all) := History(r, facts, commands);
            all == Told(r') && Priced(r') && r'.id == r.id && r'.units == r.units && r'.user == r.user && r'.service == r.service
    decreases |commands|
  {
    if commands != [] {
      var (r', more, _) := Step(r, commands[0]);
      if more == [] {
        assert facts + more == facts;
      }
      HistoryTells(r', facts + more, commands[1..]);
    }
  }

  /**
  Over every run of a redemption the ledger is told of the pending burn and at most one of its
  settlement and its release; what is paid is the floored value of the units at one NAV, never zero.
   */
  lemma EveryRedemptionTellsOneStory(id: Uuid, user: UserId, service: ServiceId, units: u128, commands: seq<Command>)
    requires Request(id, user, service, units).Ok?
    ensures var (queued, first) := Request(id, user, service, units).value;
            var (r, facts) := History(queued, first, commands);
            var requested := RedemptionRequested(id, user, service, units);
            && (r.state == Completed <==> r.cash.Some?)
            && (r.cash.Some? ==> r.nav.Some? && Value(r.nav.value, units) == r.cash && r.cash.value > 0)
            && match r.state
               case Queued => facts == [requested]
               case Completed => facts == [requested, RedemptionSettled(id, user, service, r.cash.GetOr(0))]
               case Failed | Cancelled => facts == [requested, RedemptionReleased(id)]
  {
    var (queued, first) := Request(id, user, service, units).value;
    HistoryTells(queued, first, commands);
  }

  /** Buying and redeeming at one NAV never pays back more than was paid in. */
  lemma SubscriptionNeverPaysBackMore(user: UserId, service: ServiceId, cash: u128, nav: u128)
    requires Subscribe(user, service, cash, nav).Ok?
    ensures var units := Subscribe(user, service, cash, nav).value.units;
            && 0 < units < TWO128
            && Value(nav, units).Some?
            && Value(nav, units).value <= cash
  {
    UnitsAndBackNeverGain(cash, nav, UnitsFor(cash, nav).value);
  }
}
