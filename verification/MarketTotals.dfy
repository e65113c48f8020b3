/**
The book moves money and units between their owners only: no placement and no cancel changes what
all claims, or all holdings of any product, add up to.
 */
module MarketTotals {
  import opened Base
  import opened Ledger
  import opened Book
  import opened Matching
  import opened Venue
  import opened Flows
  import Pricing

  /** Claim to claim, or holding to holding of one product. */
  predicate Internal(t: Transfer) {
    || (t.debit.IsClaim() && t.credit.IsClaim())
    || ((t.debit.UserShares? || t.debit.BookShares?) && t.credit.HoldsUnitsOf(t.debit.service))
  }

  ghost predicate InternalOps(ops: seq<Op>) {
    forall op :: op in ops ==> op.Post? && Internal(op.transfer)
  }

  /** Every class of owners holds in total what it held before. */
  ghost predicate SameTotals(l: State, l': State) {
    && ClassNet(l'.posted, Claims) == ClassNet(l.posted, Claims)
    && ClassNet(l'.posted, Custody) == ClassNet(l.posted, Custody)
    && forall s: ServiceId ::
         && ClassNet(l'.posted, Holdings(s)) == ClassNet(l.posted, Holdings(s))
         && ClassNet(l'.posted, Supply(s)) == ClassNet(l.posted, Supply(s))
  }

  lemma InternalKeepsNets(ts: seq<Transfer>, t: Transfer, s: ServiceId)
    requires Internal(t)
    ensures ClassNet(ts + [t], Claims) == ClassNet(ts, Claims)
    ensures ClassNet(ts + [t], Custody) == ClassNet(ts, Custody)
    ensures ClassNet(ts + [t], Holdings(s)) == ClassNet(ts, Holdings(s))
    ensures ClassNet(ts + [t], Supply(s)) == ClassNet(ts, Supply(s))
  {
    assert (ts + [t])[..|ts|] == ts;
  }

  lemma {:induction false} InternalChainKeepsTotals(l: State, ops: seq<Op>)
    requires InternalOps(ops)
    requires ApplyChain(l, ops).Some?
    ensures SameTotals(l, ApplyChain(l, ops).value)
    decreases |ops|
  {
    if ops != [] {
      assert ops[0] in ops;
      var l1 := Apply(l, ops[0]).value;
      forall s: ServiceId
        ensures ClassNet(l1.posted, Holdings(s)) == ClassNet(l.posted, Holdings(s))
        ensures ClassNet(l1.posted, Supply(s)) == ClassNet(l.posted, Supply(s))
      {
        InternalKeepsNets(l.posted, ops[0].transfer, s);
      }
      InternalKeepsNets(l.posted, ops[0].transfer, "");
      InternalChainKeepsTotals(l1, ops[1..]);
    }
  }

  lemma TradeIsInternal(service: ServiceId, buyer: UserId, seller: UserId, taker: Side, size: nat, notional: nat, fee: nat)
    ensures InternalOps(TradeOps(service, buyer, seller, taker, size, notional, fee))
  {
  }

  lemma LockIsInternal(o: Order)
    ensures InternalOps(Leg(LockTransfer(o)))
  {
  }

  lemma ReleaseIsInternal(o: Order)
    ensures InternalOps(ReleaseOps(o))
  {
  }

  lemma {:induction false} SettlingKeepsTotals(es: seq<Entry>, l: State, taker: Uuid, fills: seq<Fill>, p: Policy)
    requires p.Valid()
    requires SettleFills(es, l, taker, fills, p).Some?
    ensures SameTotals(l, SettleFills(es, l, taker, fills, p).value.1)
    decreases |fills|
  {
    if fills != [] {
      var (es', ops) := RecordFill(es, taker, fills[0], p).value;
      var t, m := es[IndexOf(es, taker)].order, es[IndexOf(es, fills[0].maker)].order;
      var (buyer, seller) := if t.side == Buy then (t.user, m.user) else (m.user, t.user);
      var notional := Pricing.Value(fills[0].price, fills[0].size).value;
      TradeIsInternal(t.service, buyer, seller, t.side, fills[0].size, notional, TakerFee(p, notional).value);
      InternalChainKeepsTotals(l, ops);
      SettlingKeepsTotals(es', ApplyChain(l, ops).value, taker, fills[1..], p);
    }
  }

  lemma {:induction false} SweepingKeepsTotals(es: seq<Entry>, l: State)
    requires Sweep(es, l).Some?
    ensures SameTotals(l, Sweep(es, l).value.1)
    decreases |es|
  {
    if es != [] {
      SweepingKeepsTotals(es[..|es| - 1], l);
      var last := es[|es| - 1];
      if !last.order.state.IsResting() {
        ReleaseIsInternal(last.order);
        InternalChainKeepsTotals(Sweep(es[..|es| - 1], l).value.1, ReleaseOps(last.order));
      }
    }
  }

  /** A placement, however many trades it makes, leaves every total as it was. */
  lemma PlacementConserves(v: Venue, p: Policy, req: PlaceRequest)
    requires p.Valid()
    requires Place(v, p, req).Some?
    ensures SameTotals(v.ledger, Place(v, p, req).value.ledger)
  {
    var queue := Queue(v.resting, req.service, req.side.Opposite());
    var (price, tif) := Priced(p, req, queue).value;
    var reserved := ReserveFor(p, req.side, req.size, price).value;
    var o := PlaceOrder(req.id, req.service, req.user, req.side, req.kind, tif, price, req.size, reserved);
    var out := Decide(Incoming(req.id, req.user, req.side, tif, price, req.size), queue).value;
    LockIsInternal(o);
    InternalChainKeepsTotals(v.ledger, Leg(LockTransfer(o)));
    var locked := ApplyChain(v.ledger, Leg(LockTransfer(o))).value;
    SettlingKeepsTotals(Insert(v.resting, Entry(o, v.clock)), locked, o.id, out.fills, p);
    var (filled, traded) := SettleFills(Insert(v.resting, Entry(o, v.clock)), locked, o.id, out.fills, p).value;
    SweepingKeepsTotals(DropRemainder(filled, o.id, out), traded);
  }

  lemma CancelConserves(v: Venue, user: UserId, id: Uuid)
    requires Cancel(v, user, id).Some?
    ensures SameTotals(v.ledger, Cancel(v, user, id).value.ledger)
  {
    var i := IndexOf(v.resting, id);
    SweepingKeepsTotals(v.resting[i := v.resting[i].(order := CancelOrder(v.resting[i].order, UserRequest).0)], v.ledger);
  }
}
