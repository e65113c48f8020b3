/** The withdrawal saga (domain/src/withdrawals.rs): queued, dispatched, and settled or refunded. */
module Withdrawals {
  import opened Base
  import opened Money
  import opened Ledger
  import opened Pricing
  import opened Flows
  import Payments

  /** The smallest gross withdrawal, and the flat fee a user's withdrawal pays. */
  const MINIMUM: u128 := 2 * SCALE
  const NETWORK_FEE: u128 := SCALE

  datatype Source = FromUser(user: UserId) | FromTreasury(payment: Uuid) {
    function Claim(): Party {
      match this
      case FromUser(user) => UserParty(user)
      case FromTreasury(_) => Treasury
    }
  }

  function FeeFor(source: Source): u128 {
    match source
    case FromUser(_) => NETWORK_FEE
    case FromTreasury(_) => 0
  }

  datatype WithdrawalState = Queued | Processing | Completed | Failed | Cancelled

  datatype Withdrawal = Withdrawal(
    id: Uuid, source: Source, network: Network, address: Payments.WalletAddress, amount: u128, fee: u128,
    state: WithdrawalState, txRef: Option<string>)
  {
    function Net(): u128 {
      if fee <= amount then amount - fee else 0
    }
  }

  datatype Event = RequestedEvent | DispatchedEvent | SettledEvent(txRef: string, payee: FeePayee) | FailedEvent | CancelledEvent

  const TREASURY_PAYEE: FeePayee := PayScopeAccount("main", "treasury")

  type Answer = Result<Unit, DomainError>

  function Request(id: Uuid, source: Source, network: Network, address: Payments.WalletAddress, amount: u128, fee: u128)
    : Result<(Withdrawal, seq<Event>), DomainError>
  {
    if address.network != network then Err(Validation)
    else if amount < MINIMUM then Err(Validation)
    else
      match CheckedSub(amount, fee)
      case None => Err(Validation)
      case Some(net) =>
        if net == 0 || ToOnchain(network, net) == None then Err(Validation)
        else Ok((Withdrawal(id, source, network, address, amount, fee, Queued, None), [RequestedEvent]))
  }

  /** With the fee its source pays, a withdrawal is refused for its network, its minimum or its dust, and nothing else. */
  lemma FeeNeverRefuses(id: Uuid, source: Source, network: Network, address: Payments.WalletAddress, amount: u128)
    ensures Request(id, source, network, address, amount, FeeFor(source)).Ok? <==>
              address.network == network && amount >= MINIMUM && ToOnchain(network, amount - FeeFor(source)).Some?
  {
  }

  datatype Command = DoDispatch | DoSettle(txRef: string) | DoFail | DoCancel

  function Step(w: Withdrawal, c: Command): (Withdrawal, seq<Event>, Answer) {
    match c
    case DoDispatch =>
      if w.state == Processing then (w, [], Ok(Unit))
      else if w.state != Queued then (w, [], Err(Conflict))
      else (w.(state := Processing), [DispatchedEvent], Ok(Unit))
    case DoSettle(txRef) =>
      if w.state == Completed then (w, [], Ok(Unit))
      else if w.state != Processing then (w, [], Err(Conflict))
      else (w.(state := Completed, txRef := Some(txRef)), [SettledEvent(txRef, TREASURY_PAYEE)], Ok(Unit))
    case DoFail =>
      if w.state == Failed then (w, [], Ok(Unit))
      else if w.state != Processing then (w, [], Err(Conflict))
      else (w.(state := Failed), [FailedEvent], Ok(Unit))
    case DoCancel =>
      if w.state == Cancelled then (w, [], Ok(Unit))
      else if w.state != Queued then (w, [], Err(Conflict))
      else (w.(state := Cancelled), [CancelledEvent], Ok(Unit))
  }

  /** The withdrawal aggregate. */
  class WithdrawalSaga {
    const id: Uuid
    const source: Source
    const network: Network
    const address: Payments.WalletAddress
    const amount: u128
    const fee: u128
    var state: WithdrawalState
    var txRef: Option<string>
    var pending: seq<Event>

    function View(): Withdrawal
      reads this
    {
      Withdrawal(id, source, network, address, amount, fee, state, txRef)
    }

    constructor (id: Uuid, source: Source, network: Network, address: Payments.WalletAddress, amount: u128, fee: u128)
      requires Request(id, source, network, address, amount, fee).Ok?
      ensures Request(id, source, network, address, amount, fee) == Ok((View(), pending))
    {
      this.id, this.source, this.network, this.address, this.amount, this.fee := id, source, network, address, amount, fee;
      state, txRef, pending := Queued, None, [RequestedEvent];
    }

    method Dispatch() returns (r: Answer)
      modifies this
      ensures (View(), r) == (Step(old(View()), DoDispatch).0, Step(old(View()), DoDispatch).2)
      ensures pending == old(pending) + Step(old(View()), DoDispatch).1
    {
      if state == Processing {
        return Ok(Unit);
      }
      if state != Queued {
        return Err(Conflict);
      }
      state := Processing;
      pending := pending + [DispatchedEvent];
      return Ok(Unit);
    }

    method Settle(tx: string) returns (r: Answer)
      modifies this
      ensures (View(), r) == (Step(old(View()), DoSettle(tx)).0, Step(old(View()), DoSettle(tx)).2)
      ensures pending == old(pending) + Step(old(View()), DoSettle(tx)).1
    {
      if state == Completed {
        return Ok(Unit);
      }
      if state != Processing {
        return Err(Conflict);
      }
      state := Completed;
      txRef := Some(tx);
      pending := pending + [SettledEvent(tx, TREASURY_PAYEE)];
      return Ok(Unit);
    }

    method Fail() returns (r: Answer)
      modifies this
      ensures (View(), r) == (Step(old(View()), DoFail).0, Step(old(View()), DoFail).2)
      ensures pending == old(pending) + Step(old(View()), DoFail).1
    {
      if state == Failed {
        return Ok(Unit);
      }
      if state != Processing {
        return Err(Conflict);
      }
      state := Failed;
      pending := pending + [FailedEvent];
      return Ok(Unit);
    }

    method Cancel() returns (r: Answer)
      modifies this
      ensures (View(), r) == (Step(old(View()), DoCancel).0, Step(old(View()), DoCancel).2)
      ensures pending == old(pending) + Step(old(View()), DoCancel).1
    {
      if state == Cancelled {
        return Ok(Unit);
      }
      if state != Queued {
        return Err(Conflict);
      }
      state := Cancelled;
      pending := pending + [CancelledEvent];
      return Ok(Unit);
    }
  }

  /** The ledger facts of some events; a dispatch is the custody service's business. */
  function Facts(w: Withdrawal, events: seq<Event>): seq<Fact> {
    if events == [] then []
    else
      (match events[0]
       case RequestedEvent => [WithdrawalRequested(w.id, w.source.Claim(), w.amount)]
       case DispatchedEvent => []
       case SettledEvent(_, payee) => [WithdrawalSettled(w.id, w.network, w.amount, w.fee, payee)]
       case FailedEvent | CancelledEvent => [WithdrawalReleased(w.id)])
      + Facts(w, events[1..])
  }

  predicate SameRequest(a: Withdrawal, b: Withdrawal) {
    a.id == b.id && a.source == b.source && a.network == b.network && a.amount == b.amount && a.fee == b.fee
  }

  lemma FactsConcat(w: Withdrawal, w': Withdrawal, a: seq<Event>, b: seq<Event>)
    requires SameRequest(w, w')
    ensures Facts(w', a + b) == Facts(w, a) + Facts(w, b)
  {
    if a == [] {
      assert a + b == b;
      FactsSame(w, w', b);
    } else {
      assert (a + b)[0] == a[0] && (a + b)[1..] == a[1..] + b;
      FactsConcat(w, w', a[1..], b);
    }
  }

  lemma FactsSame(w: Withdrawal, w': Withdrawal, a: seq<Event>)
    requires SameRequest(w, w')
    ensures Facts(w', a) == Facts(w, a)
  {
  }

  function Told(w: Withdrawal): seq<Fact> {
    var requested := WithdrawalRequested(w.id, w.source.Claim(), w.amount);
    match w.state
    case Queued | Processing => [requested]
    case Completed => [requested, WithdrawalSettled(w.id, w.network, w.amount, w.fee, TREASURY_PAYEE)]
    case Failed | Cancelled => [requested, WithdrawalReleased(w.id)]
  }

  function History(w: Withdrawal, events: seq<Event>, commands: seq<Command>): (Withdrawal, seq<Event>)
    decreases |commands|
  {
    if commands == [] then (w, events)
    else
      var (w', more, _) := Step(w, commands[0]);
      History(w', events + more, commands[1..])
  }

  lemma {:induction false} HistoryTells(w: Withdrawal, events: seq<Event>, commands: seq<Command>)
    requires Facts(w, events) == Told(w)
    ensures var (w', all) := History(w, events, commands); Facts(w, all) == Told(w') && SameRequest(w, w')
    decreases |commands|
  {
    if commands != [] {
      var (w', more, _) := Step(w, commands[0]);
      FactsConcat(w, w', events, more);
      if more != [] {
        assert Facts(w, more) == Facts(w, [more[0]]) && more[1..] == [];
      }
      HistoryTells(w', events + more, commands[1..]);
      FactsSame(w, w', History(w', events + more, commands[1..]).1);
    }
  }

  /**
  Over every run of a withdrawal the ledger is told of the reservation, and at most one of its
  settlement and its refund; the net leaving custody is positive and never dust.
   */
  lemma EveryWithdrawalTellsOneStory(id: Uuid, source: Source, network: Network, address: Payments.WalletAddress,
                                     amount: u128, fee: u128, commands: seq<Command>)
    requires Request(id, source, network, address, amount, fee).Ok?
    ensures var (queued, first) := Request(id, source, network, address, amount, fee).value;
            var (w, events) := History(queued, first, commands);
            var requested := WithdrawalRequested(id, source.Claim(), amount);
            && 0 < w.Net() == amount - fee
            && ToOnchain(network, w.Net()).Some?
            && match w.state
               case Queued | Processing => Facts(queued, events) == [requested]
               case Completed => Facts(queued, events) == [requested, WithdrawalSettled(id, network, amount, fee, TREASURY_PAYEE)]
               case Failed | Cancelled => Facts(queued, events) == [requested, WithdrawalReleased(id)]
  {
    var (queued, first) := Request(id, source, network, address, amount, fee).value;
    assert first[1..] == [];
    HistoryTells(queued, first, commands);
  }
}
