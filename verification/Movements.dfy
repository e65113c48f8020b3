/**
What every fact does to every account once its legs are posted (domain/src/balance.rs and the events the
facts come from): who gains and who gives, in units and in money.
 */
module Movements {
  import opened Base
  import opened Ledger
  import opened Flows
  import opened Venue

  /** What an account gains when `owner` does. */
  function To(owner: AccountKey, amount: int, k: AccountKey): int {
    if k == owner then amount else 0
  }

  /** What the lines of a payout bring to an account. */
  function LinesTo(scope: ScopeId, lines: seq<PaidLine>, k: AccountKey): int {
    if lines == [] then 0 else To(ScopeClaim(lines[0].user, scope), lines[0].amount, k) + LinesTo(scope, lines[1..], k)
  }

  function LinesTotal(lines: seq<PaidLine>): nat {
    if lines == [] then 0 else lines[0].amount + LinesTotal(lines[1..])
  }

  /** Money a user keeps in a compartment, or a party has. */
  function PurseOf(user: UserId, c: Compartment): AccountKey {
    if c.InScope? then ScopeClaim(user, c.scope) else UserClaim(user)
  }

  function PurseOfParty(p: Party): AccountKey {
    if p.UserParty? then UserClaim(p.user) else if p.ServiceParty? then ServiceClaim(p.service) else ScopeAccount("main", "treasury")
  }

  function UnitsHeldBy(service: ServiceId, h: UnitHolder): AccountKey {
    if h.HolderUser? then UserShares(service, h.user) else FeeShares(service)
  }

  function KeptBy(p: FeePayee): AccountKey {
    if p.PayService? then ServiceClaim(p.service) else ScopeAccount(p.scope, p.name)
  }

  function CapturedBy(scope: ScopeId, d: HoldDestination): AccountKey {
    if d.ToUser? then ScopeClaim(d.user, scope) else ScopeAccount(scope, d.name)
  }

  /** What a fact changes in an account by itself; of a saga's ending, beside the reservation it settles. */
  function Gained(f: Fact, k: AccountKey): int {
    match f
    case Deposited(party, network, amount) => To(CryptoWallet(network), amount, k) + To(PurseOfParty(party), amount, k)
    case Subscribed(user, service, cash, units) =>
      To(UserClaim(user), -(cash as int), k) + To(ServiceClaim(service), cash, k)
      + To(UserShares(service, user), units, k) + To(SharesOutstanding(service), units, k)
    case UnitsMinted(service, holder, units) => To(UnitsHeldBy(service, holder), units, k) + To(SharesOutstanding(service), units, k)
    case UnitsRetired(service, holder, units) =>
      To(UnitsHeldBy(service, holder), -(units as int), k) + To(SharesOutstanding(service), -(units as int), k)
    case RedemptionSettled(_, user, service, cash) => To(ServiceClaim(service), -(cash as int), k) + To(UserClaim(user), cash, k)
    case FeeCharged(user, service, units) => To(UserShares(service, user), -(units as int), k) + To(FeeShares(service), units, k)
    case FeeSettled(service, units, cash) =>
      To(FeeShares(service), -(units as int), k) + To(SharesOutstanding(service), -(units as int), k)
      + To(ServiceClaim(service), -(cash as int), k) + To(ServiceClaim("fee"), cash, k)
    case Traded(service, buyer, seller, taker, size, notional, fee) =>
      To(UserShares(service, buyer), size, k) + To(BookShares(service, seller), -(size as int), k)
      + To(BookCash(buyer), -(notional as int), k) + To(UserClaim(seller), notional, k)
      + To(if taker == Book.Buy then BookCash(buyer) else UserClaim(seller), -(fee as int), k) + To(ServiceClaim("fee"), fee, k)
    case PaymentSettled(_, payee, amount) => To(WithdrawalClearing, -(amount as int), k) + To(PurseOfParty(payee), amount, k)
    case WithdrawalSettled(_, network, amount, fee, payee) =>
      To(WithdrawalClearing, -(amount as int), k) + To(CryptoWallet(network), fee - amount, k) + To(KeptBy(payee), fee, k)
    case HoldCaptured(_, scope, user, _, _, _, amount, destination) =>
      To(ScopeClaim(user, scope), -(amount as int), k) + To(CapturedBy(scope, destination), amount, k)
    case CompartmentMoved(user, from, to, amount) => To(PurseOf(user, from), -(amount as int), k) + To(PurseOf(user, to), amount, k)
    case ScopeTransferred(scope, source, toScope, target, amount) =>
      To(ScopeAccount(scope, source), -(amount as int), k) + To(ScopeAccount(toScope, target), amount, k)
    case ScopePaidOut(scope, source, lines) => To(ScopeAccount(scope, source), -(LinesTotal(lines) as int), k) + LinesTo(scope, lines, k)
    case InvoicePaid(scope, target, amount, user, from) =>
      To(PurseOf(user, from), -(amount as int), k) + To(ScopeAccount(scope, target), amount, k)
    case ScopeCharged(scope, user, target, amount) =>
      To(ScopeClaim(user, scope), -(amount as int), k) + To(ScopeAccount(scope, target), amount, k)
    case OrderLocked(order) =>
      (match order.reserved
       case Units(units) => To(UserShares(order.service, order.user), -(units as int), k) + To(BookShares(order.service, order.user), units, k)
       case Cash(cash) => To(UserClaim(order.user), -(cash as int), k) + To(BookCash(order.user), cash, k))
    case OrderReleased(order) =>
      (match Book.Release(order)
       case None => 0
       case Some(Units(units)) =>
         To(UserShares(order.service, order.user), units, k) + To(BookShares(order.service, order.user), -(units as int), k)
       case Some(Cash(cash)) => To(UserClaim(order.user), cash, k) + To(BookCash(order.user), -(cash as int), k))
    case RedemptionRequested(_, _, _, _) | RedemptionReleased(_) | PaymentReserved(_, _, _) | PaymentReleased(_)
       | WithdrawalRequested(_, _, _) | WithdrawalReleased(_) | HoldPlaced(_, _, _, _, _) | HoldReleased(_, _) => 0
  }

  // ----- what chains of legs do -----

  /** What an operation posts outright. */
  function Outright(op: Op, k: AccountKey): int {
    if op.Post? then Effect(op.transfer, k) else 0
  }

  function OutrightAll(ops: seq<Op>, k: AccountKey): int {
    if ops == [] then 0 else Outright(ops[0], k) + OutrightAll(ops[1..], k)
  }

  /** Which reservation a chain settles: the one its first operation names, as it stood. */
  function SettledFirst(l: State, ops: seq<Op>, k: AccountKey): int {
    if ops != [] && ops[0].Settle? && ReservedTransfer(l.open, ops[0].id).Some?
    then Effect(ReservedTransfer(l.open, ops[0].id).value, k) else 0
  }

  ghost predicate SettlesOnlyFirst(ops: seq<Op>) {
    forall i :: 0 < i < |ops| ==> !ops[i].Settle?
  }

  ghost predicate SettlesNothing(ops: seq<Op>) {
    forall op <- ops :: !op.Settle?
  }

  lemma {:induction false} ChainBalances(l: State, ops: seq<Op>, k: AccountKey)
    requires SettlesNothing(ops) && ApplyChain(l, ops).Some?
    ensures Balance(ApplyChain(l, ops).value, k) == Balance(l, k) + OutrightAll(ops, k)
    decreases |ops|
  {
    if ops != [] {
      assert ops[0] in ops;
      if ops[0].Post? {
        PostedAppend(l.posted, ops[0].transfer, k);
      }
      ChainBalances(Apply(l, ops[0]).value, ops[1..], k);
    }
  }

  lemma ChainWithSettling(l: State, ops: seq<Op>, k: AccountKey)
    requires SettlesOnlyFirst(ops) && ApplyChain(l, ops).Some?
    ensures Balance(ApplyChain(l, ops).value, k) == Balance(l, k) + OutrightAll(ops, k) + SettledFirst(l, ops, k)
  {
    if ops != [] && ops[0].Settle? {
      PostedAppend(l.posted, ReservedTransfer(l.open, ops[0].id).value, k);
      assert forall op <- ops[1..] :: !op.Settle?;
      ChainBalances(Apply(l, ops[0]).value, ops[1..], k);
    } else {
      assert forall op <- ops :: !op.Settle?;
      ChainBalances(l, ops, k);
    }
  }

  // ----- the legs of each fact -----

  lemma One(op: Op, k: AccountKey)
    ensures OutrightAll([op], k) == Outright(op, k)
  {
    assert [op][1..] == [];
  }

  lemma Two(a: Op, b: Op, k: AccountKey)
    ensures OutrightAll([a, b], k) == Outright(a, k) + Outright(b, k)
  {
    assert [a, b][1..] == [b];
    One(b, k);
  }

  lemma {:induction false} Concat(a: seq<Op>, b: seq<Op>, k: AccountKey)
    ensures OutrightAll(a + b, k) == OutrightAll(a, k) + OutrightAll(b, k)
    decreases |a|
  {
    if a == [] {
      assert a + b == b;
    } else {
      assert (a + b)[0] == a[0] && (a + b)[1..] == a[1..] + b;
      Concat(a[1..], b, k);
    }
  }

  lemma OneLeg(t: Transfer, k: AccountKey)
    ensures OutrightAll(Leg(t), k) == Effect(t, k)
  {
    if t.amount > 0 {
      One(Post(t), k);
    }
  }

  lemma {:induction false} PayoutLegs(scope: ScopeId, source: Label, lines: seq<PaidLine>, k: AccountKey)
    ensures OutrightAll(PayoutOps(scope, source, lines), k)
         == To(ScopeAccount(scope, source), -(LinesTotal(lines) as int), k) + LinesTo(scope, lines, k)
    ensures SettlesNothing(PayoutOps(scope, source, lines))
    decreases |lines|
  {
    if lines != [] {
      PayoutLegs(scope, source, lines[1..], k);
      One(Post(Transfer(ScopeAccount(scope, source), ScopeClaim(lines[0].user, scope), lines[0].amount)), k);
      Concat([Post(Transfer(ScopeAccount(scope, source), ScopeClaim(lines[0].user, scope), lines[0].amount))],
             PayoutOps(scope, source, lines[1..]), k);
    }
  }

  /** A transfer raises its debit account if that counts debits up and lowers it otherwise, and its credit account the other way. */
  lemma EffectIs(t: Transfer, k: AccountKey)
    ensures Effect(t, k) == To(t.debit, if t.debit.Normal() == Credit then -(t.amount as int) else t.amount, k)
                          + To(t.credit, if t.credit.Normal() == Credit then t.amount else -(t.amount as int), k)
  {
  }

  lemma SubscriptionGains(user: UserId, service: ServiceId, cash: nat, units: nat, k: AccountKey)
    ensures OutrightAll(Plan(Subscribed(user, service, cash, units)), k) == Gained(Subscribed(user, service, cash, units), k)
    ensures SettlesNothing(Plan(Subscribed(user, service, cash, units)))
  {
    var paid, minted := Transfer(UserClaim(user), ServiceClaim(service), cash),
                        Transfer(UserShares(service, user), SharesOutstanding(service), units);
    EffectIs(paid, k);
    EffectIs(minted, k);
    Two(Post(paid), Post(minted), k);
  }

  lemma SupplyGains(service: ServiceId, holder: UnitHolder, units: nat, k: AccountKey)
    ensures OutrightAll(Plan(UnitsMinted(service, holder, units)), k) == Gained(UnitsMinted(service, holder, units), k)
    ensures OutrightAll(Plan(UnitsRetired(service, holder, units)), k) == Gained(UnitsRetired(service, holder, units), k)
    ensures SettlesNothing(Plan(UnitsMinted(service, holder, units))) && SettlesNothing(Plan(UnitsRetired(service, holder, units)))
  {
    var minted, retired := Transfer(UnitsHeldBy(service, holder), SharesOutstanding(service), units),
                           Transfer(SharesOutstanding(service), UnitsHeldBy(service, holder), units);
    EffectIs(minted, k);
    EffectIs(retired, k);
    One(Post(minted), k);
    One(Post(retired), k);
  }

  lemma RedemptionGains(id: Uuid, user: UserId, service: ServiceId, cash: nat, k: AccountKey)
    ensures OutrightAll(Plan(RedemptionSettled(id, user, service, cash)), k) == Gained(RedemptionSettled(id, user, service, cash), k)
    ensures SettlesOnlyFirst(Plan(RedemptionSettled(id, user, service, cash)))
  {
    var paid := Transfer(ServiceClaim(service), UserClaim(user), cash);
    EffectIs(paid, k);
    Two(Settle(RedemptionReservation(id)), Post(paid), k);
  }

  lemma FeeGains(user: UserId, service: ServiceId, units: nat, k: AccountKey)
    ensures OutrightAll(Plan(FeeCharged(user, service, units)), k) == Gained(FeeCharged(user, service, units), k)
    ensures SettlesNothing(Plan(FeeCharged(user, service, units)))
  {
    EffectIs(Transfer(FeeShares(service), UserShares(service, user), units), k);
    One(Post(Transfer(FeeShares(service), UserShares(service, user), units)), k);
  }

  lemma FeeSettlementGains(service: ServiceId, units: nat, cash: nat, k: AccountKey)
    ensures OutrightAll(Plan(FeeSettled(service, units, cash)), k) == Gained(FeeSettled(service, units, cash), k)
    ensures SettlesNothing(Plan(FeeSettled(service, units, cash)))
  {
    var burned, paid := Transfer(SharesOutstanding(service), FeeShares(service), units),
                        Transfer(ServiceClaim(service), ServiceClaim("fee"), cash);
    EffectIs(burned, k);
    EffectIs(paid, k);
    Two(Post(burned), Post(paid), k);
  }

  lemma RedemptionReservesNothing(f: Fact, k: AccountKey)
    requires f.RedemptionRequested? || f.RedemptionReleased?
    ensures OutrightAll(Plan(f), k) == Gained(f, k) && SettlesNothing(Plan(f))
  {
    assert Plan(f) == [Plan(f)[0]];
    One(Plan(f)[0], k);
  }

  lemma UnitFactsGain(f: Fact, k: AccountKey)
    requires IsUnitFact(f)
    ensures OutrightAll(Plan(f), k) == Gained(f, k) && SettlesOnlyFirst(Plan(f))
  {
    match f
    case Subscribed(user, service, cash, units) => SubscriptionGains(user, service, cash, units, k);
    case UnitsMinted(service, holder, units) => SupplyGains(service, holder, units, k);
    case UnitsRetired(service, holder, units) => SupplyGains(service, holder, units, k);
    case RedemptionSettled(id, user, service, cash) => RedemptionGains(id, user, service, cash, k);
    case FeeCharged(user, service, units) => FeeGains(user, service, units, k);
    case FeeSettled(service, units, cash) => FeeSettlementGains(service, units, cash, k);
    case _ => RedemptionReservesNothing(f, k);
  }

  lemma UnitsMove(service: ServiceId, buyer: UserId, seller: UserId, size: nat, k: AccountKey)
    ensures Effect(UnitsTransfer(service, buyer, seller, size), k)
         == To(UserShares(service, buyer), size, k) + To(BookShares(service, seller), -(size as int), k)
  {
  }

  lemma CashMoves(buyer: UserId, seller: UserId, notional: nat, k: AccountKey)
    ensures Effect(CashTransfer(buyer, seller, notional), k) == To(BookCash(buyer), -(notional as int), k) + To(UserClaim(seller), notional, k)
  {
  }

  lemma FeeMoves(taker: Book.Side, buyer: UserId, seller: UserId, fee: nat, k: AccountKey)
    ensures Effect(FeeTransfer(taker, buyer, seller, fee), k)
         == To(if taker == Book.Buy then BookCash(buyer) else UserClaim(seller), -(fee as int), k) + To(ServiceClaim("fee"), fee, k)
  {
  }

  lemma TradeGains(f: Fact, k: AccountKey)
    requires f.Traded?
    ensures OutrightAll(Plan(f), k) == Gained(f, k) && SettlesNothing(Plan(f))
  {
    var a, b, c := UnitsTransfer(f.service, f.buyer, f.seller, f.size), CashTransfer(f.buyer, f.seller, f.notional),
                   FeeTransfer(f.taker, f.buyer, f.seller, f.fee);
    UnitsMove(f.service, f.buyer, f.seller, f.size, k);
    CashMoves(f.buyer, f.seller, f.notional, k);
    FeeMoves(f.taker, f.buyer, f.seller, f.fee, k);
    ThreeLegs(a, b, c, k);
  }

  lemma ThreeLegs(a: Transfer, b: Transfer, c: Transfer, k: AccountKey)
    ensures OutrightAll(Leg(a) + Leg(b) + Leg(c), k) == Effect(a, k) + Effect(b, k) + Effect(c, k)
    ensures SettlesNothing(Leg(a) + Leg(b) + Leg(c))
  {
    OneLeg(a, k);
    OneLeg(b, k);
    OneLeg(c, k);
    Concat(Leg(a), Leg(b), k);
    Concat(Leg(a) + Leg(b), Leg(c), k);
  }

  lemma LockGains(order: Book.Order, k: AccountKey)
    ensures OutrightAll(Plan(OrderLocked(order)), k) == Gained(OrderLocked(order), k) && SettlesNothing(Plan(OrderLocked(order)))
  {
    OneLeg(LockTransfer(order), k);
    EffectIs(LockTransfer(order), k);
  }

  lemma ReleaseGains(order: Book.Order, k: AccountKey)
    ensures OutrightAll(Plan(OrderReleased(order)), k) == Gained(OrderReleased(order), k) && SettlesNothing(Plan(OrderReleased(order)))
  {
    match Book.Release(order)
    case None =>
    case Some(Units(units)) =>
      OneLeg(UnitsTransfer(order.service, order.user, order.user, units), k);
      UnitsMove(order.service, order.user, order.user, units, k);
    case Some(Cash(cash)) =>
      OneLeg(CashTransfer(order.user, order.user, cash), k);
      CashMoves(order.user, order.user, cash, k);
  }

  lemma PaymentSettlementGains(f: Fact, k: AccountKey)
    requires f.PaymentSettled?
    ensures OutrightAll(Plan(f), k) == Gained(f, k) && SettlesOnlyFirst(Plan(f))
  {
    Two(Settle(PaymentReservation(f.id)), Post(Transfer(WithdrawalClearing, f.payee.ClaimKey(), f.amount)), k);
  }

  lemma WithdrawalSettlementGains(f: Fact, k: AccountKey)
    requires f.WithdrawalSettled? && f.fee <= f.amount
    ensures OutrightAll(Plan(f), k) == Gained(f, k) && SettlesOnlyFirst(Plan(f))
  {
    var first := [Settle(WithdrawalReservation(f.id))];
    var net, kept := Transfer(WithdrawalClearing, CryptoWallet(f.network), f.amount - f.fee),
                     Transfer(WithdrawalClearing, f.feePayee.ClaimKey(), f.fee);
    OneLeg(net, k);
    OneLeg(kept, k);
    One(first[0], k);
    Concat(first, Leg(net), k);
    Concat(first + Leg(net), Leg(kept), k);
  }

  lemma ReservingGainsNothing(f: Fact, k: AccountKey)
    requires f.PaymentReserved? || f.WithdrawalRequested? || f.PaymentReleased? || f.WithdrawalReleased? || f.HoldPlaced? || f.HoldReleased?
    ensures OutrightAll(Plan(f), k) == Gained(f, k) && SettlesNothing(Plan(f))
  {
    assert Plan(f) == [Plan(f)[0]];
    One(Plan(f)[0], k);
  }

  lemma ClearingFactsGain(f: Fact, k: AccountKey)
    requires IsClearingFact(f) && (f.WithdrawalSettled? ==> f.fee <= f.amount)
    ensures OutrightAll(Plan(f), k) == Gained(f, k) && SettlesOnlyFirst(Plan(f))
  {
    if f.PaymentSettled? {
      PaymentSettlementGains(f, k);
    } else if f.WithdrawalSettled? {
      WithdrawalSettlementGains(f, k);
    } else {
      ReservingGainsNothing(f, k);
    }
  }

  lemma CaptureGains(f: Fact, k: AccountKey)
    requires f.HoldCaptured?
    ensures OutrightAll(Plan(f), k) == Gained(f, k) && SettlesNothing(Plan(f))
  {
    var claim := ScopeClaim(f.user, f.scope);
    var first := [Void(HoldReservation(f.id, f.released)), Post(Transfer(claim, f.destination.Key(f.scope), f.amount))];
    Two(first[0], first[1], k);
    if f.amount < f.held {
      var rest := Reserve(Reservation(HoldReservation(f.id, f.version), Transfer(claim, HoldClearing, f.held - f.amount)));
      One(rest, k);
      Concat(first, [rest], k);
    } else {
      Concat(first, [], k);
    }
  }

  /** Between two claims one gives what the other gains; into a claim from custody both gain. */
  lemma ClaimMoves(t: Transfer, k: AccountKey)
    ensures t.debit.Normal() == Credit && t.credit.Normal() == Credit ==>
              Effect(t, k) == To(t.debit, -(t.amount as int), k) + To(t.credit, t.amount, k)
    ensures t.debit.Normal() == Normal.Debit && t.credit.Normal() == Credit ==>
              Effect(t, k) == To(t.debit, t.amount, k) + To(t.credit, t.amount, k)
    ensures t.debit.Normal() == Credit && t.credit.Normal() == Normal.Debit ==>
              Effect(t, k) == To(t.debit, -(t.amount as int), k) + To(t.credit, -(t.amount as int), k)
  {
  }

  lemma DepositGains(party: Party, network: Network, amount: nat, k: AccountKey)
    ensures OutrightAll(Plan(Deposited(party, network, amount)), k) == Gained(Deposited(party, network, amount), k)
    ensures SettlesNothing(Plan(Deposited(party, network, amount)))
  {
    PurseIsTheClaim(party);
    OnePost(Transfer(CryptoWallet(network), PurseOfParty(party), amount), k);
  }

  lemma MoveGains(user: UserId, from: Compartment, to: Compartment, amount: nat, k: AccountKey)
    ensures OutrightAll(Plan(CompartmentMoved(user, from, to, amount)), k) == Gained(CompartmentMoved(user, from, to, amount), k)
    ensures SettlesNothing(Plan(CompartmentMoved(user, from, to, amount)))
  {
    OnePost(Transfer(PurseOf(user, from), PurseOf(user, to), amount), k);
  }

  lemma ScopeTransferGains(scope: ScopeId, source: Label, toScope: ScopeId, target: Label, amount: nat, k: AccountKey)
    ensures OutrightAll(Plan(ScopeTransferred(scope, source, toScope, target, amount)), k)
         == Gained(ScopeTransferred(scope, source, toScope, target, amount), k)
    ensures SettlesNothing(Plan(ScopeTransferred(scope, source, toScope, target, amount)))
  {
    OnePost(Transfer(ScopeAccount(scope, source), ScopeAccount(toScope, target), amount), k);
  }

  lemma InvoiceGains(scope: ScopeId, target: Label, amount: nat, user: UserId, from: Compartment, k: AccountKey)
    ensures OutrightAll(Plan(InvoicePaid(scope, target, amount, user, from)), k) == Gained(InvoicePaid(scope, target, amount, user, from), k)
    ensures SettlesNothing(Plan(InvoicePaid(scope, target, amount, user, from)))
  {
    OnePost(Transfer(PurseOf(user, from), ScopeAccount(scope, target), amount), k);
  }

  lemma ChargeGains(scope: ScopeId, user: UserId, target: Label, amount: nat, k: AccountKey)
    ensures OutrightAll(Plan(ScopeCharged(scope, user, target, amount)), k) == Gained(ScopeCharged(scope, user, target, amount), k)
    ensures SettlesNothing(Plan(ScopeCharged(scope, user, target, amount)))
  {
    OnePost(Transfer(ScopeClaim(user, scope), ScopeAccount(scope, target), amount), k);
  }

  lemma OnePost(t: Transfer, k: AccountKey)
    ensures OutrightAll([Post(t)], k) == Effect(t, k) && SettlesNothing([Post(t)])
    ensures t.debit.Normal() == Credit && t.credit.Normal() == Credit ==>
              Effect(t, k) == To(t.debit, -(t.amount as int), k) + To(t.credit, t.amount, k)
    ensures t.debit.Normal() == Normal.Debit && t.credit.Normal() == Credit ==>
              Effect(t, k) == To(t.debit, t.amount, k) + To(t.credit, t.amount, k)
  {
    One(Post(t), k);
    ClaimMoves(t, k);
  }

  lemma ScopeFactsGain(f: Fact, k: AccountKey)
    requires !IsUnitFact(f) && !IsBookFact(f) && !IsClearingFact(f)
    ensures OutrightAll(Plan(f), k) == Gained(f, k) && SettlesNothing(Plan(f))
  {
    if f.ScopePaidOut? {
      PayoutLegs(f.scope, f.source, f.lines, k);
    } else if f.HoldCaptured? {
      CaptureGains(f, k);
    } else if f.HoldPlaced? || f.HoldReleased? {
      ReservingGainsNothing(f, k);
    } else {
      match f
      case Deposited(party, network, amount) => DepositGains(party, network, amount, k);
      case CompartmentMoved(user, from, to, amount) => MoveGains(user, from, to, amount, k);
      case ScopeTransferred(scope, source, toScope, target, amount) => ScopeTransferGains(scope, source, toScope, target, amount, k);
      case InvoicePaid(scope, target, amount, user, from) => InvoiceGains(scope, target, amount, user, from, k);
      case ScopeCharged(scope, user, target, amount) => ChargeGains(scope, user, target, amount, k);
    }
  }

  /** Whatever fact posts, every account changes by exactly what the fact says it gains or gives. */
  lemma FactsDoWhatTheySay(l: State, f: Fact, k: AccountKey)
    requires ApplyChain(l, Plan(f)).Some? && (f.WithdrawalSettled? ==> f.fee <= f.amount)
    ensures Balance(ApplyChain(l, Plan(f)).value, k) == Balance(l, k) + Gained(f, k) + SettledFirst(l, Plan(f), k)
  {
    if IsUnitFact(f) {
      UnitFactsGain(f, k);
    } else if f.Traded? {
      TradeGains(f, k);
    } else if f.OrderLocked? {
      LockGains(f.order, k);
    } else if f.OrderReleased? {
      ReleaseGains(f.order, k);
    } else if IsClearingFact(f) {
      ClearingFactsGain(f, k);
    } else {
      ScopeFactsGain(f, k);
    }
    ChainWithSettling(l, Plan(f), k);
  }

  // ----- the sagas, from end to end -----

  lemma PaymentSettlesFirst(l: State, f: Fact, payer: Party, k: AccountKey)
    requires f.PaymentSettled?
    requires ReservedTransfer(l.open, PaymentReservation(f.id)) == Some(Plan(PaymentReserved(f.id, payer, f.amount))[0].reservation.transfer)
    ensures SettledFirst(l, Plan(f), k) == To(PurseOfParty(payer), -(f.amount as int), k) + To(WithdrawalClearing, f.amount, k)
  {
    PurseIsTheClaim(payer);
    ClaimMoves(Transfer(PurseOfParty(payer), WithdrawalClearing, f.amount), k);
  }

  /** A payment that settles moves its amount from the payer to the payee and nothing else. */
  lemma PaymentMovesTheAmount(l: State, f: Fact, payer: Party, k: AccountKey)
    requires f.PaymentSettled? && ApplyChain(l, Plan(f)).Some?
    requires ReservedTransfer(l.open, PaymentReservation(f.id)) == Some(Plan(PaymentReserved(f.id, payer, f.amount))[0].reservation.transfer)
    ensures Balance(ApplyChain(l, Plan(f)).value, k)
         == Balance(l, k) + To(PurseOfParty(payer), -(f.amount as int), k) + To(PurseOfParty(f.payee), f.amount, k)
  {
    FactsDoWhatTheySay(l, f, k);
    PaymentSettlesFirst(l, f, payer, k);
  }

  lemma WithdrawalSettlesFirst(l: State, f: Fact, owner: Party, k: AccountKey)
    requires f.WithdrawalSettled?
    requires ReservedTransfer(l.open, WithdrawalReservation(f.id)) == Some(Plan(WithdrawalRequested(f.id, owner, f.amount))[0].reservation.transfer)
    ensures SettledFirst(l, Plan(f), k) == To(PurseOfParty(owner), -(f.amount as int), k) + To(WithdrawalClearing, f.amount, k)
  {
    PurseIsTheClaim(owner);
    ClaimMoves(Transfer(PurseOfParty(owner), WithdrawalClearing, f.amount), k);
  }

  lemma PurseIsTheClaim(p: Party)
    ensures p.ClaimKey() == PurseOfParty(p) && p.ClaimKey() != WithdrawalClearing && p.ClaimKey().Normal() == Credit
  {
  }

  /** A withdrawal that settles takes its amount from the owner, the net out of the wallet, and the fee to its payee. */
  lemma WithdrawalMovesTheAmount(l: State, f: Fact, owner: Party, k: AccountKey)
    requires f.WithdrawalSettled? && f.fee <= f.amount && ApplyChain(l, Plan(f)).Some?
    requires ReservedTransfer(l.open, WithdrawalReservation(f.id)) == Some(Plan(WithdrawalRequested(f.id, owner, f.amount))[0].reservation.transfer)
    ensures Balance(ApplyChain(l, Plan(f)).value, k)
         == Balance(l, k) + To(PurseOfParty(owner), -(f.amount as int), k) + To(CryptoWallet(f.network), f.fee - f.amount, k)
                          + To(KeptBy(f.feePayee), f.fee, k)
  {
    FactsDoWhatTheySay(l, f, k);
    WithdrawalSettlesFirst(l, f, owner, k);
  }

  lemma RedemptionSettlesFirst(l: State, f: Fact, units: nat, k: AccountKey)
    requires f.RedemptionSettled?
    requires ReservedTransfer(l.open, RedemptionReservation(f.id))
          == Some(Plan(RedemptionRequested(f.id, f.user, f.service, units))[0].reservation.transfer)
    ensures SettledFirst(l, Plan(f), k)
         == To(UserShares(f.service, f.user), -(units as int), k) + To(SharesOutstanding(f.service), -(units as int), k)
  {
    ClaimMoves(Transfer(SharesOutstanding(f.service), UserShares(f.service, f.user), units), k);
  }

  /** A redemption that settles burns the user's units and pays their cash out of the fund. */
  lemma RedemptionMovesBoth(l: State, f: Fact, units: nat, k: AccountKey)
    requires f.RedemptionSettled? && ApplyChain(l, Plan(f)).Some?
    requires ReservedTransfer(l.open, RedemptionReservation(f.id))
          == Some(Plan(RedemptionRequested(f.id, f.user, f.service, units))[0].reservation.transfer)
    ensures Balance(ApplyChain(l, Plan(f)).value, k)
         == Balance(l, k) + To(UserShares(f.service, f.user), -(units as int), k) + To(SharesOutstanding(f.service), -(units as int), k)
                          + To(ServiceClaim(f.service), -(f.cash as int), k) + To(UserClaim(f.user), f.cash, k)
  {
    FactsDoWhatTheySay(l, f, k);
    RedemptionSettlesFirst(l, f, units, k);
  }
}
