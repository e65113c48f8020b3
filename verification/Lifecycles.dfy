/**
When an aggregate moves and what it answers (domain/src/payments.rs, withdrawals.rs, redemptions.rs,
consilium.rs, scope_operations.rs): every command enters its own state, from the states it may and at the
times it may, and answers success exactly when that state is where the aggregate then is.
 */
module Lifecycles {
  import opened Base
  import opened Money
  import Ledger
  import Flows
  import Pricing
  import Payments
  import Withdrawals
  import Redemptions
  import Quorum
  import QuorumRuns
  import Operations

  // ----- payment orders -----

  /** The state a command is for. */
  function PaymentGoal(c: Payments.Command): Payments.PaymentState {
    match c
    case DoApprove(_) => Payments.Approved
    case DoReject(_) => Payments.Rejected
    case DoExpire(_) => Payments.Expired
    case DoCancel(_) => Payments.Cancelled
    case DoExecute(_, _) => Payments.Executed
    case DoFail(_, _) => Payments.ExecutionFailed
  }

  /** Whether an effect is of the kind the payment's destination calls for: a withdrawal exactly to the outside. */
  predicate Fits(o: Payments.Order, e: Payments.Effect) {
    e.WithdrawalEffect? <==> o.terms.to.Outside?
  }

  /** Whether a command moves an order: before a decision any verdict does, an expiry not before its time. */
  predicate PaymentMoves(o: Payments.Order, c: Payments.Command) {
    match c
    case DoApprove(_) | DoReject(_) | DoCancel(_) => o.state == Payments.Pending
    case DoExpire(at) => o.state == Payments.Pending && at >= o.expiresAt
    case DoExecute(effect, _) => o.state == Payments.Approved && Fits(o, effect)
    case DoFail(_, _) => o.state == Payments.Approved
  }

  /** The state an event says was entered, and when. */
  function EnteredBy(e: Payments.Event): Option<(Payments.PaymentState, int)> {
    match e
    case ApprovedEvent(at) => Some((Payments.Approved, at))
    case ExecutedEvent(_, at) => Some((Payments.Executed, at))
    case ExecutionFailedEvent(_, at) => Some((Payments.ExecutionFailed, at))
    case RejectedEvent(at) => Some((Payments.Rejected, at))
    case ExpiredEvent(at) => Some((Payments.Expired, at))
    case CancelledEvent(at) => Some((Payments.Cancelled, at))
    case _ => None
  }

  function Announced(events: seq<Payments.Event>): seq<(Payments.PaymentState, int)> {
    if events == [] then []
    else AnnouncedBy(events[0]) + Announced(events[1..])
  }

  function AnnouncedBy(e: Payments.Event): seq<(Payments.PaymentState, int)> {
    if EnteredBy(e).Some? then [EnteredBy(e).value] else []
  }

  /**
  What a payment order answers. A command moves it exactly where it may; the order is then in the command's
  state and announces that once; otherwise nothing changes. The answer is success exactly when the order is in
  the command's state afterwards, and, for an execution, with that effect.
   */
  lemma PaymentAnswers(o: Payments.Order, c: Payments.Command)
    ensures var (o', events, answer) := Payments.Step(o, c);
            && (PaymentMoves(o, c) ==> o'.state == PaymentGoal(c) && Announced(events) == [(PaymentGoal(c), c.at)])
            && (!PaymentMoves(o, c) ==> o' == o && events == [])
            && (answer.Err? ==> answer.error == Conflict)
            && (answer.Ok? <==>
                  && o'.state == PaymentGoal(c)
                  && (c.DoExecute? ==> o'.executed == Some(c.effect) && Fits(o, c.effect)))
  {
    if PaymentMoves(o, c) {
      PaymentEvents(o, c);
    }
  }

  lemma PaymentEvents(o: Payments.Order, c: Payments.Command)
    requires PaymentMoves(o, c)
    ensures Announced(Payments.Step(o, c).1) == [(PaymentGoal(c), c.at)]
  {
    match c
    case DoApprove(at) =>
      ApprovalAnnounces(Payments.ApprovalRecordedEvent(o.terms.Requirement(), at), Payments.ApprovedEvent(at), Payments.Step(o, c).1);
    case DoExecute(effect, at) => ExecutionAnnounces(o, effect, at);
    case DoFail(reason, at) => FailureAnnounces(o, reason, at);
    case _ => AnnouncedOne(Payments.Step(o, c).1[0]);
  }

  lemma ExecutionAnnounces(o: Payments.Order, effect: Payments.Effect, at: int)
    requires o.state == Payments.Approved && Fits(o, effect)
    ensures Announced(Payments.ExecuteOrder(o, effect, at).1) == [(Payments.Executed, at)]
  {
    AnnouncedLast(Payments.ExecuteOrder(o, effect, at).1, Payments.ExecutedEvent(effect, at));
  }

  lemma FailureAnnounces(o: Payments.Order, reason: string, at: int)
    requires o.state == Payments.Approved
    ensures Announced(Payments.FailOrder(o, reason, at).1) == [(Payments.ExecutionFailed, at)]
  {
    AnnouncedLast(Payments.FailOrder(o, reason, at).1, Payments.ExecutionFailedEvent(reason, at));
  }

  lemma ApprovalAnnounces(recorded: Payments.Event, approved: Payments.Event, events: seq<Payments.Event>)
    requires recorded.ApprovalRecordedEvent? && approved.ApprovedEvent?
    requires events == [recorded, approved] || (|events| == 3 && events[2].ReservedEvent? && events == [recorded, approved] + [events[2]])
    ensures Announced(events) == AnnouncedBy(approved)
  {
    assert [recorded, approved] == [recorded] + [approved];
    AnnouncedConcat([recorded], [approved]);
    AnnouncedOne(recorded);
    AnnouncedOne(approved);
    if |events| == 3 {
      AnnouncedConcat([recorded, approved], [events[2]]);
      AnnouncedOne(events[2]);
    }
  }

  lemma AnnouncedOne(e: Payments.Event)
    ensures Announced([e]) == if EnteredBy(e).Some? then [EnteredBy(e).value] else []
  {
    assert [e][1..] == [];
  }

  lemma Regroup<T>(a: seq<T>, b: seq<T>, c: seq<T>)
    ensures a + (b + c) == a + b + c
  {
  }

  lemma {:induction false} AnnouncedConcat(a: seq<Payments.Event>, b: seq<Payments.Event>)
    ensures Announced(a + b) == Announced(a) + Announced(b)
    decreases |a|
  {
    if a == [] {
      assert a + b == b;
    } else {
      assert (a + b)[0] == a[0] && (a + b)[1..] == a[1..] + b;
      AnnouncedConcat(a[1..], b);
      Regroup(AnnouncedBy(a[0]), Announced(a[1..]), Announced(b));
    }
  }

  /** At most one event before the last, and that one a movement of money. */
  lemma AnnouncedLast(events: seq<Payments.Event>, last: Payments.Event)
    requires events == [last] || (|events| == 2 && EnteredBy(events[0]).None? && events[1] == last)
    ensures Announced(events) == Announced([last])
    ensures EnteredBy(last).Some? ==> Announced(events) == [EnteredBy(last).value]
  {
    AnnouncedOne(last);
    if |events| == 2 {
      AnnouncedOne(events[0]);
      AnnouncedConcat([events[0]], [last]);
      assert events == [events[0]] + [last];
    }
  }

  /** What a move records: a verdict its time, an execution its effect, a failure its reason, and each event once. */
  lemma PaymentRecords(o: Payments.Order, c: Payments.Command)
    requires PaymentMoves(o, c)
    ensures var (o', events, _) := Payments.Step(o, c);
            && o'.id == o.id && o'.terms == o.terms && o'.expiresAt == o.expiresAt
            && o'.decidedAt == (if o.state == Payments.Pending then Some(c.at) else o.decidedAt)
            && o'.executed == (if c.DoExecute? then Some(c.effect) else o.executed)
            && o'.failureReason == (if c.DoFail? then Some(c.reason) else o.failureReason)
            && (o.version + |events| < 0x1_0000_0000_0000_0000 ==> o'.version == o.version + |events|)
  {
  }

  /** Which payments are acceptable, and whose approval each needs. */
  lemma PaymentTermsIff(from: Flows.Party, to: Payments.Destination, amount: u128)
    ensures Payments.NewTerms(from, to, amount).Ok? <==>
              && amount > 0 && to != Payments.Inside(from) && to != Payments.Inside(Flows.Treasury)
              && (to.Outside? ==> to.address.network == to.network)
    ensures Payments.NewTerms(from, to, amount).Ok? ==>
              var t := Payments.NewTerms(from, to, amount).value;
              && t.from == from && t.to == to && t.amount == amount
              && (if from.UserParty? then t.Requirement() == Payments.SubjectConsent(from.user)
                  else t.Requirement() == Payments.OwnerConsilium)
              && t.Tier() == if to.Outside? then Payments.ExternalTier
                             else if to.party.UserParty? then Payments.InternalTier else Payments.ServiceTier
  {
  }

  /** An order opens awaiting its decision, and says what it needs, where it goes, and when it ends. */
  lemma PaymentOpens(id: Ledger.Uuid, terms: Payments.Terms, createdAt: int, ttl: int)
    requires -0x8000_0000_0000_0000 <= createdAt + ttl < 0x8000_0000_0000_0000
    ensures Payments.OpenOrder(id, terms, createdAt, ttl)
         == (Payments.Order(id, terms, Payments.Pending, createdAt + ttl, None, None, None, 1),
             [Payments.OpenedEvent(terms.Requirement(), terms.Tier(), createdAt + ttl)])
  {
  }

  /** An expired order was expired at its end or later. */
  ghost predicate ExpiredInTime(o: Payments.Order) {
    o.state == Payments.Expired ==> o.decidedAt.Some? && o.decidedAt.value >= o.expiresAt
  }

  lemma {:induction false} PaymentRunExpiresInTime(o: Payments.Order, events: seq<Payments.Event>, commands: seq<Payments.Command>)
    requires ExpiredInTime(o)
    ensures ExpiredInTime(Payments.History(o, events, commands).0) && Payments.History(o, events, commands).0.expiresAt == o.expiresAt
    decreases |commands|
  {
    if commands != [] {
      var (o', more, _) := Payments.Step(o, commands[0]);
      PaymentAnswers(o, commands[0]);
      if PaymentMoves(o, commands[0]) {
        PaymentRecords(o, commands[0]);
      }
      PaymentRunExpiresInTime(o', events + more, commands[1..]);
    }
  }

  /** Over every run, no payment order expires before its window has passed. */
  lemma NoPaymentExpiresEarly(id: Ledger.Uuid, terms: Payments.Terms, createdAt: int, ttl: int, commands: seq<Payments.Command>)
    requires -0x8000_0000_0000_0000 <= createdAt + ttl < 0x8000_0000_0000_0000
    ensures var (start, first) := Payments.OpenOrder(id, terms, createdAt, ttl);
            var o := Payments.History(start, first, commands).0;
            o.state == Payments.Expired ==> o.decidedAt.Some? && o.decidedAt.value >= createdAt + ttl
  {
    var (start, first) := Payments.OpenOrder(id, terms, createdAt, ttl);
    PaymentRunExpiresInTime(start, first, commands);
  }

  // ----- withdrawals -----

  function WithdrawalGoal(c: Withdrawals.Command): Withdrawals.WithdrawalState {
    match c
    case DoDispatch => Withdrawals.Processing
    case DoSettle(_) => Withdrawals.Completed
    case DoFail => Withdrawals.Failed
    case DoCancel => Withdrawals.Cancelled
  }

  /** A withdrawal is dispatched or cancelled from the queue, and settled or failed while it is processed. */
  predicate WithdrawalMoves(w: Withdrawals.Withdrawal, c: Withdrawals.Command) {
    w.state == if c.DoDispatch? || c.DoCancel? then Withdrawals.Queued else Withdrawals.Processing
  }

  lemma WithdrawalAnswers(w: Withdrawals.Withdrawal, c: Withdrawals.Command)
    ensures var (w', events, answer) := Withdrawals.Step(w, c);
            && (WithdrawalMoves(w, c) ==>
                  w' == w.(state := WithdrawalGoal(c), txRef := if c.DoSettle? then Some(c.txRef) else w.txRef) && |events| == 1)
            && (!WithdrawalMoves(w, c) ==> w' == w && events == [])
            && (answer.Ok? <==> w'.state == WithdrawalGoal(c))
            && (answer.Err? ==> answer.error == Conflict)
  {
  }

  /**
  Which withdrawals are accepted: on the address's own network, of two USDT or more before the fee, with
  something left after it that the network can express.
   */
  lemma WithdrawalAcceptedIff(id: Ledger.Uuid, source: Withdrawals.Source, network: Ledger.Network, address: Payments.WalletAddress,
                              amount: u128, fee: u128)
    ensures Withdrawals.Request(id, source, network, address, amount, fee).Ok? <==>
              && address.network == network && amount >= 2_000_000_000_000_000_000 && fee < amount
              && (network == Ledger.Bep20 || (amount - fee) % 1_000_000_000_000 == 0)
    ensures Withdrawals.Request(id, source, network, address, amount, fee).Ok? ==>
              Withdrawals.Request(id, source, network, address, amount, fee).value.0
              == Withdrawals.Withdrawal(id, source, network, address, amount, fee, Withdrawals.Queued, None)
    ensures Withdrawals.FeeFor(source) == if source.FromUser? then 1_000_000_000_000_000_000 else 0
  {
    if fee <= amount {
      Pricing.DustIff(network, amount - fee);
    }
  }

  // ----- redemptions -----

  /** A subscription buys the units its cash comes to at the price, rounded down, and at least one base unit. */
  lemma SubscriptionBuys(user: Ledger.UserId, service: Ledger.ServiceId, cash: u128, nav: u128)
    ensures Redemptions.Subscribe(user, service, cash, nav).Ok? <==>
              nav > 0 && nav <= cash * 1_000_000_000_000_000_000 < TWO128 * nav
    ensures Redemptions.Subscribe(user, service, cash, nav).Ok? ==>
              var f := Redemptions.Subscribe(user, service, cash, nav).value;
              && f.Subscribed? && f.user == user && f.service == service && f.cash == cash
              && Pricing.FloorOf(f.units, cash * 1_000_000_000_000_000_000, nav)
  {
    if nav > 0 {
      Pricing.MulDivIsFloor(cash, SCALE, nav);
      if Pricing.UnitsFor(cash, nav).Some? && Pricing.UnitsFor(cash, nav).value > 0 {
        MulMono(1, Pricing.UnitsFor(cash, nav).value, nav);
      }
    }
  }

  /** A redemption may be asked for any positive number of units, and holds exactly those. */
  lemma RedemptionAskedIff(id: Ledger.Uuid, user: Ledger.UserId, service: Ledger.ServiceId, units: u128)
    ensures Redemptions.Request(id, user, service, units).Ok? <==> units > 0
    ensures units > 0 ==>
              Redemptions.Request(id, user, service, units).value
              == (Redemptions.Redemption(id, user, service, units, None, None, Redemptions.Queued),
                  [Flows.RedemptionRequested(id, user, service, units)])
  {
  }

  function RedemptionGoal(c: Redemptions.Command): Redemptions.RedemptionState {
    match c
    case DoSettle(_) => Redemptions.Completed
    case DoFail => Redemptions.Failed
    case DoCancel => Redemptions.Cancelled
  }

  /** A redemption leaves the queue, and settles only at a price at which its units are worth something that fits. */
  predicate RedemptionMoves(r: Redemptions.Redemption, c: Redemptions.Command) {
    && r.state == Redemptions.Queued
    && (c.DoSettle? ==> 1_000_000_000_000_000_000 <= r.units * c.nav < TWO128 * 1_000_000_000_000_000_000)
  }

  lemma RedemptionAnswers(r: Redemptions.Redemption, c: Redemptions.Command)
    ensures var (r', facts, answer) := Redemptions.Step(r, c);
            && (RedemptionMoves(r, c) ==> r'.state == RedemptionGoal(c) && |facts| == 1)
            && (RedemptionMoves(r, c) && c.DoSettle? ==>
                  && r'.nav == Some(c.nav) && r'.cash.Some?
                  && Pricing.FloorOf(r'.cash.value, r.units * c.nav, 1_000_000_000_000_000_000))
            && (RedemptionMoves(r, c) && !c.DoSettle? ==> r' == r.(state := RedemptionGoal(c)))
            && (!RedemptionMoves(r, c) ==> r' == r && facts == [])
            && (answer.Ok? <==> r'.state == RedemptionGoal(c))
            && (answer.Err? ==> answer.error == if r.state == Redemptions.Queued then Validation else Conflict)
  {
    if c.DoSettle? {
      WorthSomething(r.units, c.nav);
    }
  }

  lemma WorthSomething(units: u128, nav: u128)
    ensures Pricing.Value(nav, units).GetOr(0) > 0 <==> 1_000_000_000_000_000_000 <= units * nav < TWO128 * 1_000_000_000_000_000_000
    ensures Pricing.Value(nav, units).Some? ==> Pricing.FloorOf(Pricing.Value(nav, units).value, units * nav, 1_000_000_000_000_000_000)
  {
    Pricing.MulDivIsFloor(units, nav, SCALE);
    if Pricing.Value(nav, units).Some? {
      var v := Pricing.Value(nav, units).value;
      if v > 0 {
        MulMono(1, v, SCALE);
      }
    }
  }

  // ----- the owners' consilium -----

  function QuorumGoal(c: QuorumRuns.Command): Quorum.Status
    requires !c.CastVote? && !c.LoseSeat?
  {
    match c
    case Withdraw(_) => Quorum.Cancelled
    case TimeOut(_) => Quorum.Expired
    case Carry(_, _) => Quorum.Executed
    case GiveUp(_, _) => Quorum.ExecutionFailed
  }

  predicate QuorumMoves(v: Quorum.View, c: QuorumRuns.Command)
    requires !c.CastVote? && !c.LoseSeat?
  {
    match c
    case Withdraw(_) => v.status == Quorum.Open
    case TimeOut(at) => v.status == Quorum.Open && at >= v.expiresAt
    case Carry(_, _) | GiveUp(_, _) => v.status == Quorum.Approved
  }

  /** What a closing or an execution answers. */
  function QuorumAnswer(v: Quorum.View, c: QuorumRuns.Command): Quorum.Answer
    requires !c.CastVote? && !c.LoseSeat?
  {
    match c
    case Withdraw(at) => Quorum.Closed(v, Quorum.Cancelled, at).1
    case TimeOut(at) => Quorum.TimedOut(v, at).1
    case Carry(effect, at) => Quorum.Carried(v, effect, at).1
    case GiveUp(reason, at) => Quorum.Failed(v, reason, at).1
  }

  lemma QuorumAnswers(v: Quorum.View, c: QuorumRuns.Command)
    requires !c.CastVote? && !c.LoseSeat?
    ensures var z := QuorumRuns.Step(v, c);
            && (QuorumMoves(v, c) ==>
                  && z.status == QuorumGoal(c) && z.votes == v.votes && |z.log| == |v.log| + 1
                  && z.decidedAt == (if c.Withdraw? || c.TimeOut? then Some(c.at) else v.decidedAt)
                  && z.executed == (if c.Carry? then Some(c.effect) else v.executed)
                  && z.failure == (if c.GiveUp? then Some(c.reason) else v.failure))
            && (!QuorumMoves(v, c) ==> z == v)
            && (QuorumAnswer(v, c).Ok? <==> z.status == QuorumGoal(c) && (c.Carry? ==> z.executed == Some(c.effect)))
            && (QuorumAnswer(v, c).Err? ==> QuorumAnswer(v, c).error == Conflict)
  {
  }

  /**
  What a vote answers: success exactly when the seat's answer is on the record afterwards, and otherwise the
  first of its faults; a recorded answer never changes.
   */
  lemma VoteAnswers(v: Quorum.View, voter: Ledger.UserId, decision: Quorum.Decision, at: int)
    ensures var (z, answer) := Quorum.Voted(v, voter, decision, at);
            var before := Quorum.AnswerOf(v.votes, voter);
            && (answer.Ok? <==>
                  && decision != Quorum.Pending && voter in v.eligible
                  && (before == Some(decision) || (before == None && v.status == Quorum.Open)))
            && (answer.Err? ==> answer.error == if decision == Quorum.Pending then Validation
                                                else if voter !in v.eligible then Forbidden else Conflict)
            && (answer.Ok? && before == None ==> z.votes == v.votes + [Quorum.Vote(voter, decision, at, true)])
            && (answer.Err? || before != None ==> z == v)
  {
  }

  ghost predicate QuorumExpiredInTime(v: Quorum.View) {
    v.status == Quorum.Expired ==> v.decidedAt.Some? && v.decidedAt.value >= v.expiresAt
  }

  lemma StepExpiresInTime(v: Quorum.View, c: QuorumRuns.Command)
    requires QuorumExpiredInTime(v)
    ensures QuorumExpiredInTime(QuorumRuns.Step(v, c)) && QuorumRuns.Step(v, c).expiresAt == v.expiresAt
  {
    if c.CastVote? {
      VotesNeverExpire(v, c.voter, c.decision, c.at);
    } else if !c.LoseSeat? {
      QuorumAnswers(v, c);
      ClosingKeepsTheWindow(v, c);
    }
  }

  lemma ClosingKeepsTheWindow(v: Quorum.View, c: QuorumRuns.Command)
    requires !c.CastVote? && !c.LoseSeat?
    ensures QuorumRuns.Step(v, c).expiresAt == v.expiresAt
  {
  }

  lemma VotesNeverExpire(v: Quorum.View, voter: Ledger.UserId, decision: Quorum.Decision, at: int)
    ensures var z := Quorum.Voted(v, voter, decision, at).0;
            z.expiresAt == v.expiresAt && (z.status == Quorum.Expired ==> z == v)
  {
    if v.status == Quorum.Open {
      TalliesNeverExpire(v.(votes := v.votes + [Quorum.Vote(voter, decision, at, true)]).Raise(Quorum.VoteRecorded(voter, decision, at)), at);
    }
  }

  lemma TalliesNeverExpire(v: Quorum.View, at: int)
    requires v.status == Quorum.Open
    ensures Quorum.Settled(v, at).status != Quorum.Expired && Quorum.Settled(v, at).expiresAt == v.expiresAt
  {
  }

  lemma {:induction false} QuorumRunExpiresInTime(v: Quorum.View, commands: seq<QuorumRuns.Command>)
    requires QuorumExpiredInTime(v)
    ensures QuorumExpiredInTime(QuorumRuns.Run(v, commands)) && QuorumRuns.Run(v, commands).expiresAt == v.expiresAt
    decreases |commands|
  {
    if commands != [] {
      StepExpiresInTime(v, commands[0]);
      QuorumRunExpiresInTime(QuorumRuns.Step(v, commands[0]), commands[1..]);
    }
  }

  /** Over every run, no consilium expires before its three days have passed. */
  lemma NoConsiliumExpiresEarly(initiator: Ledger.UserId, owners: seq<Ledger.UserId>, createdAt: int, commands: seq<QuorumRuns.Command>)
    requires Quorum.OpenOver(initiator, owners, createdAt).Ok? && createdAt + 259_200 < 0x8000_0000_0000_0000
    ensures var z := QuorumRuns.Run(Quorum.OpenOver(initiator, owners, createdAt).value, commands);
            z.status == Quorum.Expired ==> z.decidedAt.Some? && z.decidedAt.value >= createdAt + 259_200
  {
    QuorumRunExpiresInTime(Quorum.OpenOver(initiator, owners, createdAt).value, commands);
  }

  // ----- operations awaiting an approval -----

  /** The first decision enters its own state and keeps its own result or reason. */
  lemma FirstDecisionIs(decisions: seq<Operations.Decision>)
    requires decisions != []
    ensures var z := Operations.DecideAll(Operations.Progress(Operations.AwaitingApproval, None, None), decisions);
            match decisions[0]
            case Execute(resultId) => z == Operations.Progress(Operations.Executed, Some(resultId), None)
            case Reject(reason) => z == Operations.Progress(Operations.Rejected, None, Some(reason))
            case Fail(reason) => z == Operations.Progress(Operations.Failed, None, Some(reason))
  {
    Operations.FirstDecisionStands(decisions);
  }

  /** Only the first is answered with success. */
  lemma OnlyTheFirstSucceeds(decisions: seq<Operations.Decision>, next: Operations.Decision)
    ensures Operations.Decide(Operations.DecideAll(Operations.Progress(Operations.AwaitingApproval, None, None), decisions), next).1
         == if decisions == [] then Ok(Unit.Unit) else Err(Conflict)
  {
    if decisions != [] {
      FirstDecisionIs(decisions);
    }
  }
}
