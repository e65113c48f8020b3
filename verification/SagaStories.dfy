/**
What the payment, withdrawal and redemption aggregates tell the ledger are stories the clearing
system accepts, leg for leg; and what settling them does to custody.
 */
module SagaStories {
  import opened Base
  import opened Money
  import opened Ledger
  import opened Flows
  import opened Clearing
  import Payments
  import Withdrawals
  import Redemptions

  /** The legs of a withdrawal's settlement: the net out of custody, the fee to its payee. */
  function PayoutLegs(network: Network, amount: nat, fee: nat, payee: FeePayee): seq<Transfer>
    requires fee < amount
  {
    [Transfer(WithdrawalClearing, CryptoWallet(network), amount - fee)]
    + if fee == 0 then [] else [Transfer(WithdrawalClearing, payee.ClaimKey(), fee)]
  }

  /** A fact of one of the three sagas, as the clearing system sees it. */
  function AsSaga(f: Fact): Option<SagaFact> {
    match f
    case PaymentReserved(id, payer, amount) =>
      Some(Opening(PaymentReservation(id), Transfer(payer.ClaimKey(), WithdrawalClearing, amount)))
    case PaymentSettled(id, payee, amount) =>
      Some(Settling(PaymentReservation(id), [Transfer(WithdrawalClearing, payee.ClaimKey(), amount)]))
    case PaymentReleased(id) => Some(Releasing(PaymentReservation(id)))
    case WithdrawalRequested(id, claim, amount) =>
      Some(Opening(WithdrawalReservation(id), Transfer(claim.ClaimKey(), WithdrawalClearing, amount)))
    case WithdrawalSettled(id, network, amount, fee, payee) =>
      if fee < amount then Some(Settling(WithdrawalReservation(id), PayoutLegs(network, amount, fee, payee))) else None
    case WithdrawalReleased(id) => Some(Releasing(WithdrawalReservation(id)))
    case RedemptionRequested(id, user, service, units) =>
      Some(Opening(RedemptionReservation(id), Transfer(SharesOutstanding(service), UserShares(service, user), units)))
    case RedemptionSettled(id, user, service, cash) =>
      Some(Settling(RedemptionReservation(id), [Transfer(ServiceClaim(service), UserClaim(user), cash)]))
    case RedemptionReleased(id) => Some(Releasing(RedemptionReservation(id)))
    case _ => None
  }

  lemma PostsOfOne(t: Transfer)
    ensures Posts([t]) == [Post(t)]
  {
    assert [t][1..] == [];
  }

  lemma PostsOfTwo(t: Transfer, u: Transfer)
    ensures Posts([t, u]) == [Post(t), Post(u)]
  {
    assert [t, u][1..] == [u];
    PostsOfOne(u);
  }

  lemma PayoutPlan(id: Uuid, network: Network, amount: nat, fee: nat, payee: FeePayee)
    requires fee < amount
    ensures Plan(WithdrawalSettled(id, network, amount, fee, payee))
         == Ops(Settling(WithdrawalReservation(id), PayoutLegs(network, amount, fee, payee)))
  {
    var net, kept := Transfer(WithdrawalClearing, CryptoWallet(network), amount - fee), Transfer(WithdrawalClearing, payee.ClaimKey(), fee);
    PostsOfOne(net);
    PostsOfTwo(net, kept);
    if fee == 0 {
      assert PayoutLegs(network, amount, fee, payee) == [net];
    } else {
      assert PayoutLegs(network, amount, fee, payee) == [net, kept];
    }
  }

  /** Both descriptions of a saga's fact are the same ledger operations. */
  lemma PlansAgree(f: Fact)
    requires AsSaga(f).Some?
    ensures Plan(f) == Ops(AsSaga(f).value)
  {
    match f
    case PaymentSettled(id, payee, amount) => PostsOfOne(Transfer(WithdrawalClearing, payee.ClaimKey(), amount));
    case RedemptionSettled(id, user, service, cash) => PostsOfOne(Transfer(ServiceClaim(service), UserClaim(user), cash));
    case WithdrawalSettled(id, network, amount, fee, payee) => PayoutPlan(id, network, amount, fee, payee);
    case _ =>
  }

  function AsSagas(fs: seq<Fact>): seq<SagaFact> {
    if fs == [] then []
    else (match AsSaga(fs[0]) case Some(f) => [f] case None => []) + AsSagas(fs[1..])
  }

  lemma AsSagasTwo(a: Fact, b: Fact)
    requires AsSaga(a).Some? && AsSaga(b).Some?
    ensures AsSagas([a]) == [AsSaga(a).value]
    ensures AsSagas([a, b]) == [AsSaga(a).value, AsSaga(b).value]
  {
    assert [a][1..] == [] && [a, b][1..] == [b] && [b][1..] == [];
  }

  lemma NetOfOne(t: Transfer)
    ensures ClearingNet([t]) == Effect(t, WithdrawalClearing)
  {
    assert [t][1..] == [];
  }

  lemma NetOfPayout(network: Network, amount: nat, fee: nat, payee: FeePayee)
    requires fee < amount
    ensures ClearingNet(PayoutLegs(network, amount, fee, payee)) + amount == 0
  {
    var legs := PayoutLegs(network, amount, fee, payee);
    if fee == 0 {
      NetOfOne(legs[0]);
      assert legs == [legs[0]];
    } else {
      NetOfOne(legs[1]);
      assert legs[1..] == [legs[1]];
    }
  }

  /** Whatever a payment has told the ledger by any point of its life is a story. */
  lemma AnOrderTellsAStory(o: Payments.Order)
    ensures Story(PaymentReservation(o.id), AsSagas(Payments.Told(o)))
  {
    var told := Payments.Told(o);
    if told != [] {
      var reserved := PaymentReserved(o.id, o.terms.from, o.terms.amount);
      var settled := PaymentSettled(o.id, o.terms.to.party, o.terms.amount);
      AsSagasTwo(reserved, settled);
      AsSagasTwo(reserved, PaymentReleased(o.id));
      NetOfOne(Transfer(WithdrawalClearing, o.terms.to.party.ClaimKey(), o.terms.amount));
    }
  }

  lemma AWithdrawalTellsAStory(w: Withdrawals.Withdrawal)
    requires w.fee < w.amount
    ensures Story(WithdrawalReservation(w.id), AsSagas(Withdrawals.Told(w)))
  {
    var requested := WithdrawalRequested(w.id, w.source.Claim(), w.amount);
    var settled := WithdrawalSettled(w.id, w.network, w.amount, w.fee, Withdrawals.TREASURY_PAYEE);
    AsSagasTwo(requested, settled);
    AsSagasTwo(requested, WithdrawalReleased(w.id));
    NetOfPayout(w.network, w.amount, w.fee, Withdrawals.TREASURY_PAYEE);
  }

  lemma ARedemptionTellsAStory(r: Redemptions.Redemption)
    ensures Story(RedemptionReservation(r.id), AsSagas(Redemptions.Told(r)))
  {
    var requested := RedemptionRequested(r.id, r.user, r.service, r.units);
    var settled := RedemptionSettled(r.id, r.user, r.service, r.cash.GetOr(0));
    AsSagasTwo(requested, settled);
    AsSagasTwo(requested, RedemptionReleased(r.id));
    NetOfOne(Transfer(ServiceClaim(r.service), UserClaim(r.user), r.cash.GetOr(0)));
  }

  /** Over every run of a payment, what its events tell the ledger is a story. */
  lemma PaymentsTellStories(id: Uuid, terms: Payments.Terms, createdAt: int, ttl: int, commands: seq<Payments.Command>)
    ensures var (start, first) := Payments.OpenOrder(id, terms, createdAt, ttl);
            Story(PaymentReservation(id), AsSagas(Payments.Relayed(id, Payments.History(start, first, commands).1)))
  {
    var (start, first) := Payments.OpenOrder(id, terms, createdAt, ttl);
    assert Payments.Relayed(id, first) == Payments.Relayed(id, first[1..]);
    Payments.HistoryTells(start, first, commands);
    AnOrderTellsAStory(Payments.History(start, first, commands).0);
  }

  /** Over every run of a withdrawal. */
  lemma WithdrawalsTellStories(id: Uuid, source: Withdrawals.Source, network: Network, address: Payments.WalletAddress,
                               amount: u128, fee: u128, commands: seq<Withdrawals.Command>)
    requires Withdrawals.Request(id, source, network, address, amount, fee).Ok?
    ensures var (queued, first) := Withdrawals.Request(id, source, network, address, amount, fee).value;
            Story(WithdrawalReservation(id), AsSagas(Withdrawals.Facts(queued, Withdrawals.History(queued, first, commands).1)))
  {
    var (queued, first) := Withdrawals.Request(id, source, network, address, amount, fee).value;
    assert first[1..] == [];
    Withdrawals.HistoryTells(queued, first, commands);
    AWithdrawalTellsAStory(Withdrawals.History(queued, first, commands).0);
  }

  /** Over every run of a redemption. */
  lemma RedemptionsTellStories(id: Uuid, user: UserId, service: ServiceId, units: u128, commands: seq<Redemptions.Command>)
    requires Redemptions.Request(id, user, service, units).Ok?
    ensures var (queued, first) := Redemptions.Request(id, user, service, units).value;
            Story(RedemptionReservation(id), AsSagas(Redemptions.History(queued, first, commands).1))
  {
    var (queued, first) := Redemptions.Request(id, user, service, units).value;
    Redemptions.HistoryTells(queued, first, commands);
    ARedemptionTellsAStory(Redemptions.History(queued, first, commands).0);
  }

  // ----- what settling does -----

  lemma GuardHolds(l: State, k: AccountKey)
    requires Guarded(l)
    ensures Available(l, k) >= 0
  {
  }

  lemma IntoClearingAdds(source: AccountKey, amount: nat)
    requires source.IsClaim() && source != WithdrawalClearing
    ensures var t := Transfer(source, WithdrawalClearing, amount);
            Takes(t, WithdrawalClearing) == 0 && Effect(t, WithdrawalClearing) == amount
  {
  }

  /** A settlement frees its reservation into clearing, where its first leg finds it. */
  lemma SettledIntoClearing(l: State, rid: ReservationId, source: AccountKey, amount: nat)
    requires Guarded(l) && source.IsClaim() && source != WithdrawalClearing
    requires ReservedTransfer(l.open, rid) == Some(Transfer(source, WithdrawalClearing, amount))
    ensures Apply(l, Settle(rid)).Some?
    ensures Guarded(Apply(l, Settle(rid)).value)
    ensures Available(Apply(l, Settle(rid)).value, WithdrawalClearing) >= amount
    ensures Apply(l, Settle(rid)).value.posted == l.posted + [Transfer(source, WithdrawalClearing, amount)]
  {
    ApplyKeepsGuard(l, Settle(rid));
    GuardHolds(l, WithdrawalClearing);
    SettleAvailable(l, rid, WithdrawalClearing);
    IntoClearingAdds(source, amount);
  }

  lemma SettledElsewhere(l: State, rid: ReservationId, source: AccountKey, amount: nat, network: Network)
    requires Guarded(l) && source.IsClaim()
    requires ReservedTransfer(l.open, rid) == Some(Transfer(source, WithdrawalClearing, amount))
    ensures Apply(l, Settle(rid)).Some?
    ensures Available(Apply(l, Settle(rid)).value, CryptoWallet(network)) == Available(l, CryptoWallet(network))
  {
    SettleAvailable(l, rid, CryptoWallet(network));
  }

  /**
  A payment's settlement is never refused: whenever it is due its reservation stands
  (`EndingFindsItsReservation`), and what stands covers it.
   */
  lemma PaymentSettlementsAreNeverRefused(l: State, rid: ReservationId, source: AccountKey, payee: Party, amount: nat)
    requires Guarded(l) && amount > 0 && source.IsClaim() && source != WithdrawalClearing
    requires ReservedTransfer(l.open, rid) == Some(Transfer(source, WithdrawalClearing, amount))
    ensures ApplyChain(l, Ops(Settling(rid, [Transfer(WithdrawalClearing, payee.ClaimKey(), amount)]))).Some?
  {
    var t := Transfer(WithdrawalClearing, payee.ClaimKey(), amount);
    SettledIntoClearing(l, rid, source, amount);
    SettlingSplits(l, rid, [t]);
    PostsOfOne(t);
    var l1 := Apply(l, Settle(rid)).value;
    assert Admits(l1, t);
    OneOp(l1, Post(t));
  }

  /** Everything in custody: the wallets of the four networks. */
  function CustodyTotal(l: State): int {
    Balance(l, CryptoWallet(Bep20)) + Balance(l, CryptoWallet(Trc20)) + Balance(l, CryptoWallet(Ton)) + Balance(l, CryptoWallet(Polygon))
  }

  lemma PostingCustody(l: State, t: Transfer, l': State)
    requires !t.debit.CryptoWallet?
    requires l'.posted == l.posted + [t]
    ensures CustodyTotal(l') == CustodyTotal(l) - if t.credit.CryptoWallet? then t.amount else 0
  {
    PostedAppend(l.posted, t, CryptoWallet(Bep20));
    PostedAppend(l.posted, t, CryptoWallet(Trc20));
    PostedAppend(l.posted, t, CryptoWallet(Ton));
    PostedAppend(l.posted, t, CryptoWallet(Polygon));
    if t.credit.CryptoWallet? {
      match t.credit.network {
        case Bep20 => assert t.credit == CryptoWallet(Bep20);
        case Trc20 => assert t.credit == CryptoWallet(Trc20);
        case Ton => assert t.credit == CryptoWallet(Ton);
        case Polygon => assert t.credit == CryptoWallet(Polygon);
      }
    }
  }

  /**
  A withdrawal's settlement over its standing reservation is refused only by a short rail, and
  applied takes exactly gross minus fee out of custody.
   */
  lemma WithdrawalSettlementTakesTheNet(l: State, rid: ReservationId, source: AccountKey,
                                        network: Network, amount: nat, fee: nat, payee: FeePayee)
    requires Guarded(l) && fee < amount && source.IsClaim() && source != WithdrawalClearing
    requires ReservedTransfer(l.open, rid) == Some(Transfer(source, WithdrawalClearing, amount))
    ensures var after := ApplyChain(l, Ops(Settling(rid, PayoutLegs(network, amount, fee, payee))));
            && (after.Some? <==> amount - fee <= Available(l, CryptoWallet(network)))
            && (after.Some? ==> CustodyTotal(after.value) == CustodyTotal(l) - (amount - fee))
  {
    SettledIntoClearing(l, rid, source, amount);
    SettledElsewhere(l, rid, source, amount, network);
    var l1 := Apply(l, Settle(rid)).value;
    SettlingSplits(l, rid, PayoutLegs(network, amount, fee, payee));
    PostingCustody(l, Transfer(source, WithdrawalClearing, amount), l1);
    PayoutPosts(l1, network, amount, fee, payee);
  }

  /** A leg out of clearing needs only what clearing has, and room on a rail it credits. */
  lemma OutOfClearing(l: State, t: Transfer)
    requires t.debit == WithdrawalClearing && (t.credit.CryptoWallet? || t.credit.UserClaim? || t.credit.ServiceClaim? || t.credit.ScopeAccount?)
    requires 0 < t.amount <= Available(l, WithdrawalClearing)
    ensures Admits(l, t) <==> (t.credit.CryptoWallet? ==> t.amount <= Available(l, t.credit))
    ensures Available(l.(posted := l.posted + [t]), WithdrawalClearing) == Available(l, WithdrawalClearing) - t.amount
  {
    PostedAppend(l.posted, t, WithdrawalClearing);
  }

  lemma OnlyFirst(l: State, t: Transfer, u: Transfer)
    ensures ApplyChain(l, [Post(t), Post(u)])
         == if Admits(l, t) then Apply(l.(posted := l.posted + [t]), Post(u)) else None
  {
    assert [Post(t), Post(u)][1..] == [Post(u)];
    if Admits(l, t) {
      OneOp(l.(posted := l.posted + [t]), Post(u));
    }
  }

  lemma PayoutPosts(l1: State, network: Network, amount: nat, fee: nat, payee: FeePayee)
    requires Guarded(l1) && fee < amount <= Available(l1, WithdrawalClearing)
    ensures ApplyChain(l1, Posts(PayoutLegs(network, amount, fee, payee))).Some?
       <==> amount - fee <= Available(l1, CryptoWallet(network))
    ensures ApplyChain(l1, Posts(PayoutLegs(network, amount, fee, payee))).Some? ==>
              CustodyTotal(ApplyChain(l1, Posts(PayoutLegs(network, amount, fee, payee))).value)
              == CustodyTotal(l1) - (amount - fee)
  {
    var net, kept := Transfer(WithdrawalClearing, CryptoWallet(network), amount - fee), Transfer(WithdrawalClearing, payee.ClaimKey(), fee);
    var l2 := l1.(posted := l1.posted + [net]);
    OutOfClearing(l1, net);
    PostingCustody(l1, net, l2);
    PostsOfOne(net);
    OneOp(l1, Post(net));
    if fee == 0 {
      assert PayoutLegs(network, amount, fee, payee) == [net];
    } else {
      assert PayoutLegs(network, amount, fee, payee) == [net, kept];
      PostsOfTwo(net, kept);
      OnlyFirst(l1, net, kept);
      if Admits(l1, net) {
        OutOfClearing(l2, kept);
        PostingCustody(l2, kept, l2.(posted := l2.posted + [kept]));
      }
    }
  }
}
