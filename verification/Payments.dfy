/**
Payment orders (domain/src/payments.rs): terms, the tier and approval they imply, the order's life,
and the facts it relays to the ledger.
 */
module Payments {
  import opened Base
  import opened Money
  import opened Ledger
  import opened Flows

  datatype WalletAddress = WalletAddress(network: Network, text: string)

  datatype Destination = Inside(party: Party) | Outside(network: Network, address: WalletAddress)

  datatype Tier = InternalTier | ServiceTier | ExternalTier {
    /** Settled inside the ledger, not by a withdrawal. */
    predicate SettlesOnTheLedger() {
      this != ExternalTier
    }
  }

  datatype Approval = OwnerConsilium | SubjectConsent(user: UserId)

  datatype Effect = WithdrawalEffect(id: Uuid) | TransferEffect {
    predicate Suits(tier: Tier) {
      match this
      case WithdrawalEffect(_) => !tier.SettlesOnTheLedger()
      case TransferEffect => tier.SettlesOnTheLedger()
    }
  }

  datatype Terms = Terms(from: Party, to: Destination, amount: u128) {
    function Tier(): Tier {
      match to
      case Outside(_, _) => ExternalTier
      case Inside(UserParty(_)) => InternalTier
      case Inside(_) => ServiceTier
    }

    /** The one approval an order needs, read off its source alone. */
    function Requirement(): Approval {
      match from
      case UserParty(user) => SubjectConsent(user)
      case ServiceParty(_) | Treasury => OwnerConsilium
    }
  }

  /** The shape every payment must have. */
  function NewTerms(from: Party, to: Destination, amount: u128): Result<Terms, DomainError> {
    if to == Inside(from) then Err(Validation)
    else if amount == 0 then Err(Validation)
    else if to == Inside(Treasury) then Err(Validation)
    else if to.Outside? && to.address.network != to.network then Err(Validation)
    else Ok(Terms(from, to, amount))
  }

  datatype PaymentState = Pending | Approved | Executed | ExecutionFailed | Rejected | Expired | Cancelled

  datatype Event =
    | OpenedEvent(requirement: Approval, tier: Tier, expiresAt: int)
    | ApprovalRecordedEvent(requirement: Approval, at: int)
    | ApprovedEvent(at: int)
    | ReservedEvent(from: Party, amount: u128, at: int)
    | SettledEvent(from: Party, to: Party, amount: u128, at: int)
    | ExecutedEvent(effect: Effect, at: int)
    | ReleasedEvent(from: Party, amount: u128, at: int)
    | ExecutionFailedEvent(reason: string, at: int)
    | RejectedEvent(at: int)
    | ExpiredEvent(at: int)
    | CancelledEvent(at: int)
  {
    /** One of the three money facts, which the relay is told of. */
    predicate Relays() {
      ReservedEvent? || SettledEvent? || ReleasedEvent?
    }
  }

  const U64_MAX: nat := 0xffff_ffff_ffff_ffff

  datatype Order = Order(
    id: Uuid, terms: Terms, state: PaymentState, expiresAt: int, decidedAt: Option<int>,
    executed: Option<Effect>, failureReason: Option<string>, version: nat)

  type Answer = Result<Unit, DomainError>

  /** Raising an event counts it in the version, saturating at 64 bits. */
  function Bump(version: nat, events: nat): nat {
    Min(version + events, if version > U64_MAX then version else U64_MAX)
  }

  function OpenOrder(id: Uuid, terms: Terms, createdAt: int, ttl: int): (Order, seq<Event>) {
    var expiresAt := SaturatingAdd64(createdAt, ttl);
    (Order(id, terms, Pending, expiresAt, None, None, None, 1), [OpenedEvent(terms.Requirement(), terms.Tier(), expiresAt)])
  }

  /** `i64` saturating addition. */
  function SaturatingAdd64(x: int, y: int): int {
    Max(-0x8000_0000_0000_0000, Min(x + y, 0x7fff_ffff_ffff_ffff))
  }

  function ApproveOrder(o: Order, at: int): (Order, seq<Event>, Answer) {
    if o.state == Approved then (o, [], Ok(Unit))
    else if o.state != Pending then (o, [], Err(Conflict))
    else
      var events := [ApprovalRecordedEvent(o.terms.Requirement(), at), ApprovedEvent(at)]
                    + if o.terms.Tier().SettlesOnTheLedger() then [ReservedEvent(o.terms.from, o.terms.amount, at)] else [];
      (o.(state := Approved, decidedAt := Some(at), version := Bump(o.version, |events|)), events, Ok(Unit))
  }

  /** Rejection, expiry and cancellation: each leaves `Pending` once, and answers a repeat with success. */
  function Verdict(o: Order, target: PaymentState, at: int, event: Event): (Order, seq<Event>, Answer) {
    if o.state == target then (o, [], Ok(Unit))
    else if o.state != Pending then (o, [], Err(Conflict))
    else (o.(state := target, decidedAt := Some(at), version := Bump(o.version, 1)), [event], Ok(Unit))
  }

  function ExpireOrder(o: Order, at: int): (Order, seq<Event>, Answer) {
    if o.state == Pending && at < o.expiresAt then (o, [], Err(Conflict)) else Verdict(o, Expired, at, ExpiredEvent(at))
  }

  function ExecuteOrder(o: Order, effect: Effect, at: int): (Order, seq<Event>, Answer) {
    if !effect.Suits(o.terms.Tier()) then (o, [], Err(Conflict))
    else if o.state == Executed then (o, [], if o.executed == Some(effect) then Ok(Unit) else Err(Conflict))
    else if o.state != Approved then (o, [], Err(Conflict))
    else
      var settled := if effect.TransferEffect? && o.terms.to.Inside?
                     then [SettledEvent(o.terms.from, o.terms.to.party, o.terms.amount, at)] else [];
      var events := settled + [ExecutedEvent(effect, at)];
      (o.(state := Executed, executed := Some(effect), version := Bump(o.version, |events|)), events, Ok(Unit))
  }

  function FailOrder(o: Order, reason: string, at: int): (Order, seq<Event>, Answer) {
    if o.state == ExecutionFailed then (o, [], Ok(Unit))
    else if o.state != Approved then (o, [], Err(Conflict))
    else
      var released := if o.terms.Tier().SettlesOnTheLedger() then [ReleasedEvent(o.terms.from, o.terms.amount, at)] else [];
      var events := released + [ExecutionFailedEvent(reason, at)];
      (o.(state := ExecutionFailed, failureReason := Some(reason), version := Bump(o.version, |events|)), events, Ok(Unit))
  }

  /** The payment-order aggregate. */
  class PaymentOrder {
    const id: Uuid
    const terms: Terms
    const expiresAt: int
    var state: PaymentState
    var decidedAt: Option<int>
    var executed: Option<Effect>
    var failureReason: Option<string>
    var version: nat
    var pending: seq<Event>

    function View(): Order
      reads this
    {
      Order(id, terms, state, expiresAt, decidedAt, executed, failureReason, version)
    }

    constructor (id: Uuid, terms: Terms, createdAt: int, ttl: int)
      ensures (View(), pending) == OpenOrder(id, terms, createdAt, ttl)
    {
      this.id, this.terms, this.expiresAt := id, terms, SaturatingAdd64(createdAt, ttl);
      state, decidedAt, executed, failureReason, version := Pending, None, None, None, 1;
      pending := [OpenedEvent(terms.Requirement(), terms.Tier(), SaturatingAdd64(createdAt, ttl))];
    }

    method Raise(event: Event)
      modifies this`version, this`pending
      ensures pending == old(pending) + [event]
      ensures version == Bump(old(version), 1)
    {
      version := if version < U64_MAX then version + 1 else version;
      pending := pending + [event];
    }

    method Approve(at: int) returns (r: Answer)
      modifies this
      ensures var (view, events, answer) := ApproveOrder(old(View()), at);
              View() == view && pending == old(pending) + events && r == answer
    {
      if state == Approved {
        return Ok(Unit);
      }
      if state != Pending {
        return Err(Conflict);
      }
      state := Approved;
      decidedAt := Some(at);
      Raise(ApprovalRecordedEvent(terms.Requirement(), at));
      Raise(ApprovedEvent(at));
      if terms.Tier().SettlesOnTheLedger() {
        Raise(ReservedEvent(terms.from, terms.amount, at));
      }
      return Ok(Unit);
    }

    /** Answers whether the state changed; the event is the caller's to raise. */
    method EnterVerdict(target: PaymentState, at: int) returns (r: Result<bool, DomainError>)
      modifies this`state, this`decidedAt
      ensures old(state) == target ==> r == Ok(false) && View() == old(View())
      ensures old(state) != target && old(state) != Pending ==> r == Err(Conflict) && View() == old(View())
      ensures old(state) != target && old(state) == Pending ==>
                r == Ok(true) && View() == old(View()).(state := target, decidedAt := Some(at))
    {
      if state == target {
        return Ok(false);
      }
      if state != Pending {
        return Err(Conflict);
      }
      state := target;
      decidedAt := Some(at);
      return Ok(true);
    }

    method Reject(at: int) returns (r: Answer)
      modifies this
      ensures var (view, events, answer) := Verdict(old(View()), Rejected, at, RejectedEvent(at));
              View() == view && pending == old(pending) + events && r == answer
    {
      var entered :- EnterVerdict(Rejected, at);
      if entered {
        Raise(RejectedEvent(at));
      }
      return Ok(Unit);
    }

    method Expire(at: int) returns (r: Answer)
      modifies this
      ensures var (view, events, answer) := ExpireOrder(old(View()), at);
              View() == view && pending == old(pending) + events && r == answer
    {
      if state == Pending && at < expiresAt {
        return Err(Conflict);
      }
      var entered :- EnterVerdict(Expired, at);
      if entered {
        Raise(ExpiredEvent(at));
      }
      return Ok(Unit);
    }

    method Cancel(at: int) returns (r: Answer)
      modifies this
      ensures var (view, events, answer) := Verdict(old(View()), Cancelled, at, CancelledEvent(at));
              View() == view && pending == old(pending) + events && r == answer
    {
      var entered :- EnterVerdict(Cancelled, at);
      if entered {
        Raise(CancelledEvent(at));
      }
      return Ok(Unit);
    }

    method MarkExecuted(effect: Effect, at: int) returns (r: Answer)
      modifies this
      ensures var (view, events, answer) := ExecuteOrder(old(View()), effect, at);
              View() == view && pending == old(pending) + events && r == answer
    {
      if !effect.Suits(terms.Tier()) {
        return Err(Conflict);
      }
      if state == Executed {
        return if executed == Some(effect) then Ok(Unit) else Err(Conflict);
      }
      if state != Approved {
        return Err(Conflict);
      }
      state := Executed;
      executed := Some(effect);
      if effect.TransferEffect? && terms.to.Inside? {
        Raise(SettledEvent(terms.from, terms.to.party, terms.amount, at));
      }
      Raise(ExecutedEvent(effect, at));
      return Ok(Unit);
    }

    method MarkFailed(reason: string, at: int) returns (r: Answer)
      modifies this
      ensures var (view, events, answer) := FailOrder(old(View()), reason, at);
              View() == view && pending == old(pending) + events && r == answer
    {
      if state == ExecutionFailed {
        return Ok(Unit);
      }
      if state != Approved {
        return Err(Conflict);
      }
      state := ExecutionFailed;
      failureReason := Some(reason);
      if terms.Tier().SettlesOnTheLedger() {
        Raise(ReleasedEvent(terms.from, terms.amount, at));
      }
      Raise(ExecutionFailedEvent(reason, at));
      return Ok(Unit);
    }
  }

  // ----- what an order tells the ledger -----

  datatype Command =
    | DoApprove(at: int) | DoReject(at: int) | DoExpire(at: int) | DoCancel(at: int)
    | DoExecute(effect: Effect, at: int) | DoFail(reason: string, at: int)

  function Step(o: Order, c: Command): (Order, seq<Event>, Answer) {
    match c
    case DoApprove(at) => ApproveOrder(o, at)
    case DoReject(at) => Verdict(o, Rejected, at, RejectedEvent(at))
    case DoExpire(at) => ExpireOrder(o, at)
    case DoCancel(at) => Verdict(o, Cancelled, at, CancelledEvent(at))
    case DoExecute(effect, at) => ExecuteOrder(o, effect, at)
    case DoFail(reason, at) => FailOrder(o, reason, at)
  }

  /** The relayed facts among some events, as the ledger learns them. */
  function Relayed(id: Uuid, events: seq<Event>): seq<Fact> {
    if events == [] then []
    else
      (match events[0]
       case ReservedEvent(from, amount, _) => [PaymentReserved(id, from, amount)]
       case SettledEvent(_, to, amount, _) => [PaymentSettled(id, to, amount)]
       case ReleasedEvent(_, _, _) => [PaymentReleased(id)]
       case _ => [])
      + Relayed(id, events[1..])
  }

  /** An event reaches the ledger exactly when it is one of the three that move money. */
  lemma RelayedExactly(id: Uuid, e: Event)
    ensures |Relayed(id, [e])| == if e.Relays() then 1 else 0
  {
    assert [e][1..] == [];
  }

  lemma RelayedConcat(id: Uuid, a: seq<Event>, b: seq<Event>)
    ensures Relayed(id, a + b) == Relayed(id, a) + Relayed(id, b)
  {
    if a == [] {
      assert a + b == b;
    } else {
      assert (a + b)[0] == a[0] && (a + b)[1..] == a[1..] + b;
      RelayedConcat(id, a[1..], b);
    }
  }

  /** What an order in each state has told the ledger in all. */
  function Told(o: Order): seq<Fact> {
    if !o.terms.Tier().SettlesOnTheLedger() || !o.terms.to.Inside? then []
    else
      var reserved := PaymentReserved(o.id, o.terms.from, o.terms.amount);
      match o.state
      case Pending | Rejected | Expired | Cancelled => []
      case Approved => [reserved]
      case Executed => [reserved, PaymentSettled(o.id, o.terms.to.party, o.terms.amount)]
      case ExecutionFailed => [reserved, PaymentReleased(o.id)]
  }

  function History(o: Order, events: seq<Event>, commands: seq<Command>): (Order, seq<Event>)
    decreases |commands|
  {
    if commands == [] then (o, events)
    else
      var (o', more, _) := Step(o, commands[0]);
      History(o', events + more, commands[1..])
  }

  lemma RelayedFew(id: Uuid, x: Event, y: Event, z: Event)
    ensures Relayed(id, [x]) == Relayed(id, [x]) + []
    ensures Relayed(id, [x, y]) == Relayed(id, [x]) + Relayed(id, [y])
    ensures Relayed(id, [x, y, z]) == Relayed(id, [x]) + Relayed(id, [y]) + Relayed(id, [z])
  {
    RelayedConcat(id, [x], [y]);
    RelayedConcat(id, [x] + [y], [z]);
    assert [x] + [y] == [x, y] && [x] + [y] + [z] == [x, y, z];
  }

  lemma ApproveTells(o: Order, at: int)
    requires o.state == Pending
    ensures Told(ApproveOrder(o, at).0) == Told(o) + Relayed(o.id, ApproveOrder(o, at).1)
  {
    var more := ApproveOrder(o, at).1;
    RelayedFew(o.id, more[0], more[1], ReservedEvent(o.terms.from, o.terms.amount, at));
    assert Relayed(o.id, [more[0]]) == [] && Relayed(o.id, [more[1]]) == [];
  }

  lemma ExecuteTells(o: Order, effect: Effect, at: int)
    requires o.state == Approved && effect.Suits(o.terms.Tier())
    ensures Told(ExecuteOrder(o, effect, at).0) == Told(o) + Relayed(o.id, ExecuteOrder(o, effect, at).1)
  {
    var more := ExecuteOrder(o, effect, at).1;
    RelayedFew(o.id, more[0], ExecutedEvent(effect, at), ExecutedEvent(effect, at));
    assert Relayed(o.id, [ExecutedEvent(effect, at)]) == [];
  }

  lemma FailTells(o: Order, reason: string, at: int)
    requires o.state == Approved
    ensures Told(FailOrder(o, reason, at).0) == Told(o) + Relayed(o.id, FailOrder(o, reason, at).1)
  {
    var more := FailOrder(o, reason, at).1;
    RelayedFew(o.id, more[0], ExecutionFailedEvent(reason, at), ExecutionFailedEvent(reason, at));
    assert Relayed(o.id, [ExecutionFailedEvent(reason, at)]) == [];
  }

  lemma StepTells(o: Order, c: Command)
    ensures var (o', more, _) := Step(o, c);
            && Told(o') == Told(o) + Relayed(o.id, more)
            && o'.id == o.id && o'.terms == o.terms
            && (o.state != Pending && o.state != Approved ==> o'.state == o.state && more == [])
  {
    if c.DoApprove? && o.state == Pending {
      ApproveTells(o, c.at);
    } else if c.DoExecute? && o.state == Approved {
      if c.effect.Suits(o.terms.Tier()) {
        ExecuteTells(o, c.effect, c.at);
      }
    } else if c.DoFail? && o.state == Approved {
      FailTells(o, c.reason, c.at);
    }
  }

  lemma {:induction false} HistoryTells(o: Order, events: seq<Event>, commands: seq<Command>)
    requires Relayed(o.id, events) == Told(o)
    ensures var (o', all) := History(o, events, commands);
            Relayed(o.id, all) == Told(o') && o'.id == o.id && o'.terms == o.terms
    decreases |commands|
  {
    if commands != [] {
      var (o', more, _) := Step(o, commands[0]);
      StepTells(o, commands[0]);
      RelayedConcat(o.id, events, more);
      HistoryTells(o', events + more, commands[1..]);
    }
  }

  /**
  Over every run of an order, the ledger is told one of: nothing; a reservation; a reservation and
  its settlement; a reservation and its release. Which one is decided by the state reached, and a
  payment that leaves the platform tells it nothing of its own.
   */
  lemma EveryOrderTellsOneStory(id: Uuid, terms: Terms, createdAt: int, ttl: int, commands: seq<Command>)
    requires NewTerms(terms.from, terms.to, terms.amount) == Ok(terms)
    ensures var (start, first) := OpenOrder(id, terms, createdAt, ttl);
            var (o, events) := History(start, first, commands);
            var reserved := PaymentReserved(id, terms.from, terms.amount);
            if terms.to.Outside? then Relayed(id, events) == []
            else
              match o.state
              case Pending | Rejected | Expired | Cancelled => Relayed(id, events) == []
              case Approved => Relayed(id, events) == [reserved]
              case Executed => Relayed(id, events) == [reserved, PaymentSettled(id, terms.to.party, terms.amount)]
              case ExecutionFailed => Relayed(id, events) == [reserved, PaymentReleased(id)]
  {
    var (start, first) := OpenOrder(id, terms, createdAt, ttl);
    assert Relayed(id, first) == Relayed(id, first[1..]);
    HistoryTells(start, first, commands);
  }

  /** A terminal order stays as it is, whatever is asked of it. */
  lemma {:induction false} TerminalStays(o: Order, events: seq<Event>, commands: seq<Command>)
    requires o.state != Pending && o.state != Approved
    ensures History(o, events, commands).0 == o && History(o, events, commands).1 == events
    decreases |commands|
  {
    if commands != [] {
      StepTells(o, commands[0]);
      assert events + [] == events;
      TerminalStays(o, events, commands[1..]);
    }
  }
}
