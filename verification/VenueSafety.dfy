/**
What every run of the book keeps: each escrow account holds exactly what the resting orders still
have in escrow, so the ledger never refuses a trade or a release; the queues stay sorted by price
then arrival; and the best bid stays strictly below the best ask.
 */
module VenueSafety {
  import opened Base
  import opened Money
  import opened Ledger
  import opened Pricing
  import opened Book
  import opened Matching
  import opened Venue

  // ----- escrow sums -----

  /** What an order contributes to an escrow account. */
  ghost function ShareOf(o: Order, k: AccountKey): int {
    if (o.side == Buy && k == BookCash(o.user)) || (o.side == Sell && k == BookShares(o.service, o.user))
    then Escrow(o) else 0
  }

  ghost function EscrowOf(es: seq<Entry>, k: AccountKey): int {
    if es == [] then 0 else EscrowOf(es[..|es| - 1], k) + ShareOf(es[|es| - 1].order, k)
  }

  lemma EscrowConcat(a: seq<Entry>, b: seq<Entry>, k: AccountKey)
    ensures EscrowOf(a + b, k) == EscrowOf(a, k) + EscrowOf(b, k)
  {
    if b == [] {
      assert a + b == a;
    } else {
      assert (a + b)[..|a + b| - 1] == a + b[..|b| - 1];
      EscrowConcat(a, b[..|b| - 1], k);
    }
  }

  lemma EscrowUpdate(es: seq<Entry>, i: nat, e: Entry, k: AccountKey)
    requires i < |es|
    ensures EscrowOf(es[i := e], k) == EscrowOf(es, k) - ShareOf(es[i].order, k) + ShareOf(e.order, k)
  {
    assert es == es[..i] + ([es[i]] + es[i + 1..]);
    assert es[i := e] == es[..i] + ([e] + es[i + 1..]);
    EscrowConcat(es[..i], [es[i]] + es[i + 1..], k);
    EscrowConcat(es[..i], [e] + es[i + 1..], k);
    EscrowConcat([es[i]], es[i + 1..], k);
    EscrowConcat([e], es[i + 1..], k);
    EscrowOne(es[i], k);
    EscrowOne(e, k);
  }

  lemma EscrowOne(e: Entry, k: AccountKey)
    ensures EscrowOf([e], k) == ShareOf(e.order, k)
  {
    assert [e][..0] == [];
  }

  lemma EscrowInsert(es: seq<Entry>, e: Entry, k: AccountKey)
    ensures EscrowOf(Insert(es, e), k) == EscrowOf(es, k) + ShareOf(e.order, k)
  {
    var i := InsertAt(es, e.order);
    assert es == es[..i] + es[i..];
    EscrowConcat(es[..i], es[i..], k);
    EscrowConcat(es[..i] + [e], es[i..], k);
    EscrowConcat(es[..i], [e], k);
    EscrowOne(e, k);
  }

  ghost predicate AllCovered(es: seq<Entry>) {
    forall i :: 0 <= i < |es| ==> Covered(es[i].order)
  }

  lemma ShareNonNegative(o: Order, k: AccountKey)
    requires Covered(o)
    ensures ShareOf(o, k) >= 0
  {
    CoveredEscrow(o);
  }

  /** One order's escrow is never more than its account holds for all of them. */
  lemma EscrowAtLeast(es: seq<Entry>, i: nat, k: AccountKey)
    requires AllCovered(es)
    requires i < |es|
    ensures EscrowOf(es, k) >= ShareOf(es[i].order, k)
  {
    var n := |es| - 1;
    ShareNonNegative(es[n].order, k);
    if i < n {
      EscrowAtLeast(es[..n], i, k);
    } else {
      EscrowNonNegative(es[..n], k);
    }
  }

  lemma EscrowNonNegative(es: seq<Entry>, k: AccountKey)
    requires AllCovered(es)
    ensures EscrowOf(es, k) >= 0
  {
    if es != [] {
      EscrowNonNegative(es[..|es| - 1], k);
      ShareNonNegative(es[|es| - 1].order, k);
    }
  }

  // ----- what the ledger keeps for the book -----

  ghost predicate OpenClear(open: seq<Reservation>) {
    forall i :: 0 <= i < |open| ==> !TouchesEscrow(open[i].transfer)
  }

  lemma HeldClear(open: seq<Reservation>, k: AccountKey)
    requires OpenClear(open) && IsEscrow(k)
    ensures Held(open, k) == 0
  {
    if open != [] {
      HeldClear(open[..|open| - 1], k);
    }
  }

  /** Every escrow account holds exactly what the orders listed have in escrow. */
  ghost predicate Backed(es: seq<Entry>, l: State) {
    && OpenClear(l.open)
    && forall k :: IsEscrow(k) ==> Balance(l, k) == EscrowOf(es, k)
  }

  lemma ChainConcat(l: State, a: seq<Op>, b: seq<Op>)
    requires ApplyChain(l, a).Some?
    ensures ApplyChain(l, a + b) == ApplyChain(ApplyChain(l, a).value, b)
    decreases |a|
  {
    if a == [] {
      assert a + b == b;
    } else {
      assert (a + b)[0] == a[0] && (a + b)[1..] == a[1..] + b;
      ChainConcat(Apply(l, a[0]).value, a[1..], b);
    }
  }

  /** The ledger after a leg, which is no leg at all when its amount is zero. */
  ghost function AfterLeg(l: State, t: Transfer): State {
    if t.amount == 0 then l else l.(posted := l.posted + [t])
  }

  ghost predicate LegFits(l: State, t: Transfer) {
    t.amount > 0 ==> Admits(l, t)
  }

  /** A leg that fits posts, moving every balance by its effect. */
  lemma LegPosts(l: State, t: Transfer)
    requires Guarded(l) && LegFits(l, t)
    ensures ApplyChain(l, Leg(t)) == Some(AfterLeg(l, t))
    ensures Guarded(AfterLeg(l, t))
    ensures forall k :: Available(AfterLeg(l, t), k) == Available(l, k) + Effect(t, k)
  {
    if t.amount > 0 {
      var l1 := AfterLeg(l, t);
      assert Apply(l, Leg(t)[0]) == Some(l1);
      assert Leg(t)[1..] == [];
      assert ApplyChain(l1, []) == Some(l1);
      PostKeepsGuard(l, t);
      forall k ensures Available(l1, k) == Available(l, k) + Effect(t, k) {
        PostedAppend(l.posted, t, k);
      }
    }
  }

  lemma ThreeLegsPost(l: State, a: Transfer, b: Transfer, c: Transfer)
    requires Guarded(l) && LegFits(l, a)
    requires LegFits(AfterLeg(l, a), b)
    requires LegFits(AfterLeg(AfterLeg(l, a), b), c)
    ensures ApplyChain(l, Leg(a) + Leg(b) + Leg(c)).Some?
    ensures var l' := ApplyChain(l, Leg(a) + Leg(b) + Leg(c)).value;
            && l'.open == l.open
            && Guarded(l')
            && forall k :: Balance(l', k) == Balance(l, k) + Effect(a, k) + Effect(b, k) + Effect(c, k)
  {
    LegPosts(l, a);
    var l1 := AfterLeg(l, a);
    LegPosts(l1, b);
    var l2 := AfterLeg(l1, b);
    LegPosts(l2, c);
    ChainConcat(l, Leg(a), Leg(b));
    ChainConcat(l, Leg(a) + Leg(b), Leg(c));
    forall k ensures Balance(AfterLeg(l2, c), k) == Balance(l, k) + Effect(a, k) + Effect(b, k) + Effect(c, k) {
      assert Available(l1, k) == Available(l, k) + Effect(a, k);
      assert Available(l2, k) == Available(l1, k) + Effect(b, k);
      assert Available(AfterLeg(l2, c), k) == Available(l2, k) + Effect(c, k);
    }
  }

  lemma TradeLegsFit(l: State, service: ServiceId, buyer: UserId, seller: UserId, taker: Side, size: nat, notional: nat, fee: nat)
    requires Guarded(l)
    requires 0 < size <= Available(l, BookShares(service, seller))
    requires notional + (if taker == Buy then fee else 0) <= Available(l, BookCash(buyer))
    requires fee <= notional
    ensures var units, cash := UnitsTransfer(service, buyer, seller, size), CashTransfer(buyer, seller, notional);
            && LegFits(l, units)
            && LegFits(AfterLeg(l, units), cash)
            && LegFits(AfterLeg(AfterLeg(l, units), cash), FeeTransfer(taker, buyer, seller, fee))
  {
    var units, cash := UnitsTransfer(service, buyer, seller, size), CashTransfer(buyer, seller, notional);
    LegPosts(l, units);
    var l1 := AfterLeg(l, units);
    assert Available(l1, BookCash(buyer)) == Available(l, BookCash(buyer));
    LegPosts(l1, cash);
    assert Available(l1, UserClaim(seller)) >= 0;
    assert Available(AfterLeg(l1, cash), UserClaim(seller)) == Available(l1, UserClaim(seller)) + notional;
    assert Available(AfterLeg(l1, cash), BookCash(buyer)) == Available(l1, BookCash(buyer)) - notional;
  }

  /** The legs of a trade are all admitted when the two escrows cover them. */
  lemma TradePosts(l: State, service: ServiceId, buyer: UserId, seller: UserId, taker: Side, size: nat, notional: nat, fee: nat)
    requires Guarded(l)
    requires 0 < size <= Available(l, BookShares(service, seller))
    requires notional + (if taker == Buy then fee else 0) <= Available(l, BookCash(buyer))
    requires fee <= notional
    ensures ApplyChain(l, TradeOps(service, buyer, seller, taker, size, notional, fee)).Some?
    ensures var l' := ApplyChain(l, TradeOps(service, buyer, seller, taker, size, notional, fee)).value;
            && l'.open == l.open
            && Guarded(l')
            && forall k :: IsEscrow(k) ==>
                 Balance(l', k) == Balance(l, k)
                                 - (if k == BookShares(service, seller) then size else 0)
                                 - (if k == BookCash(buyer) then notional + (if taker == Buy then fee else 0) else 0)
  {
    TradeLegsFit(l, service, buyer, seller, taker, size, notional, fee);
    ThreeLegsPost(l, UnitsTransfer(service, buyer, seller, size), CashTransfer(buyer, seller, notional), FeeTransfer(taker, buyer, seller, fee));
  }

  // ----- recording fills -----

  ghost predicate UniqueIds(es: seq<Entry>) {
    forall i, j :: 0 <= i < j < |es| ==> es[i].order.id != es[j].order.id
  }

  /** The working state of a placement: covered orders, backed by a guarded ledger. */
  ghost predicate Working(es: seq<Entry>, l: State) {
    AllCovered(es) && UniqueIds(es) && Backed(es, l) && Guarded(l)
  }

  /** The two orders of a fill are on the list, opposite, distinct, and can both take it. */
  ghost predicate Matches(es: seq<Entry>, taker: Uuid, f: Fill) {
    var ti, mi := IndexOf(es, taker), IndexOf(es, f.maker);
    && ti < |es| && mi < |es|
    && var t, m := es[ti].order, es[mi].order;
       && t.service == m.service
       && t.side == m.side.Opposite()
       && t.user != m.user
       && f.price == m.price
       && Fillable(t, f.size, f.price)
       && Fillable(m, f.size, f.price)
  }

  lemma IndexUnique(es: seq<Entry>, i: nat)
    requires UniqueIds(es) && i < |es|
    ensures IndexOf(es, es[i].order.id) == i
  {
    var j := IndexOf(es, es[i].order.id);
    assert j < |es| && es[j].order.id == es[i].order.id;
  }

  /** The parts of an order a fill or a cancel never changes. */
  predicate SameTerms(a: Order, b: Order) {
    && a.id == b.id && a.service == b.service && a.user == b.user && a.side == b.side && a.kind == b.kind
    && a.tif == b.tif && a.price == b.price && a.size == b.size && a.reserved == b.reserved
  }

  lemma FillKeepsTerms(o: Order, size: u128, price: u128, fee: u128)
    ensures SameTerms(FillOrder(o, size, price, fee).0, o)
    ensures FillOrder(o, size, price, fee).1.Ok? ==> FillOrder(o, size, price, fee).0.filled == o.filled + size
  {
  }

  /** Pointwise: same orders in the same places, except for their progress. */
  ghost predicate SameOrders(es: seq<Entry>, es': seq<Entry>) {
    && |es'| == |es|
    && forall i :: 0 <= i < |es| ==> SameTerms(es'[i].order, es[i].order) && es'[i].arrival == es[i].arrival
  }

  lemma SameOrdersIndex(es: seq<Entry>, es': seq<Entry>, id: Uuid)
    requires SameOrders(es, es')
    ensures IndexOf(es', id) == IndexOf(es, id)
  {
    if es != [] {
      SameOrdersIndex(es[1..], es'[1..], id);
    }
  }

  /** Who gives the cash of a fill and who the units. */
  function Parties(t: Order, m: Order): (UserId, UserId) {
    if t.side == Buy then (t.user, m.user) else (m.user, t.user)
  }

  /** The two escrows cover the legs of a fill. */
  lemma FillPosts(es: seq<Entry>, l: State, ti: nat, mi: nat, size: u128, notional: u128, fee: u128)
    requires Working(es, l) && ti < |es| && mi < |es|
    requires var t, m := es[ti].order, es[mi].order;
             && t.service == m.service && t.side == m.side.Opposite() && 0 < size && fee <= notional
             && (if t.side == Buy then notional + fee else size) <= Escrow(t)
             && (if m.side == Buy then notional else size) <= Escrow(m)
    ensures var t, m := es[ti].order, es[mi].order;
            var (buyer, seller) := Parties(t, m);
            var after := ApplyChain(l, TradeOps(t.service, buyer, seller, t.side, size, notional, fee));
            && after.Some? && after.value.open == l.open && Guarded(after.value)
            && forall k :: IsEscrow(k) ==>
                 Balance(after.value, k) == Balance(l, k)
                                          - (if k == BookShares(t.service, seller) then size else 0)
                                          - (if k == BookCash(buyer) then notional + (if t.side == Buy then fee else 0) else 0)
  {
    var t, m := es[ti].order, es[mi].order;
    var (buyer, seller) := Parties(t, m);
    var (b, s) := if t.side == Buy then (ti, mi) else (mi, ti);
    EscrowAtLeast(es, s, BookShares(t.service, seller));
    EscrowAtLeast(es, b, BookCash(buyer));
    HeldClear(l.open, BookShares(t.service, seller));
    HeldClear(l.open, BookCash(buyer));
    TradePosts(l, t.service, buyer, seller, t.side, size, notional, fee);
  }

  /** Two orders' progress moves their escrow accounts by exactly what the trade takes from each. */
  lemma SharesMove(t: Order, m: Order, t': Order, m': Order, size: u128, notional: u128, fee: u128, k: AccountKey)
    requires SameTerms(t', t) && SameTerms(m', m) && t.service == m.service && t.side == m.side.Opposite()
    requires Escrow(t') == Escrow(t) - (if t.side == Buy then notional + fee else size)
    requires Escrow(m') == Escrow(m) - (if m.side == Buy then notional else size)
    ensures var (buyer, seller) := Parties(t, m);
            ShareOf(t', k) + ShareOf(m', k) == ShareOf(t, k) + ShareOf(m, k)
              - (if k == BookShares(t.service, seller) then size else 0)
              - (if k == BookCash(buyer) then notional + (if t.side == Buy then fee else 0) else 0)
  {
  }

  lemma TwoUpdated(es: seq<Entry>, ti: nat, mi: nat, t': Order, m': Order, k: AccountKey)
    requires ti < |es| && mi < |es| && ti != mi
    ensures EscrowOf(es[ti := es[ti].(order := t')][mi := es[mi].(order := m')], k)
         == EscrowOf(es, k) - ShareOf(es[ti].order, k) - ShareOf(es[mi].order, k) + ShareOf(t', k) + ShareOf(m', k)
  {
    EscrowUpdate(es, ti, es[ti].(order := t'), k);
    EscrowUpdate(es[ti := es[ti].(order := t')], mi, es[mi].(order := m'), k);
  }

  lemma TwoUpdatedStayListed(es: seq<Entry>, ti: nat, mi: nat, t': Order, m': Order)
    requires AllCovered(es) && UniqueIds(es) && ti < |es| && mi < |es| && ti != mi
    requires Covered(t') && Covered(m') && SameTerms(t', es[ti].order) && SameTerms(m', es[mi].order)
    ensures AllCovered(es[ti := es[ti].(order := t')][mi := es[mi].(order := m')])
    ensures UniqueIds(es[ti := es[ti].(order := t')][mi := es[mi].(order := m')])
  {
  }

  /** Both sides of a fill stay covered, and their escrows shrink by what the trade's legs take. */
  lemma FillPairCovered(p: Policy, t: Order, m: Order, size: u128, price: u128, notional: u128, fee: u128)
    requires p.Valid()
    requires Covered(t) && Covered(m)
    requires t.side == m.side.Opposite()
    requires Fillable(t, size, price) && Fillable(m, size, price)
    requires Value(price, size) == Some(notional)
    requires TakerFee(p, notional) == Some(fee)
    requires t.side == Buy ==> FeeRoom(p, t)
    requires FillOrder(t, size, price, fee).1.Ok? && FillOrder(m, size, price, 0).1.Ok?
    ensures var t', m' := FillOrder(t, size, price, fee).0, FillOrder(m, size, price, 0).0;
            && Covered(t') && Covered(m')
            && Escrow(t') == Escrow(t) - (if t.side == Buy then notional + fee else size)
            && Escrow(m') == Escrow(m) - (if m.side == Buy then notional else size)
            && (t.side == Buy ==> FeeRoom(p, t'))
            && Escrow(t') >= 0 && Escrow(m') >= 0
  {
    TakerFeeBound(p, notional);
    if t.side == Buy {
      TakerFeeKeepsRoom(p, t, size, price, fee);
      BuyFillKeepsCovered(t, size, price, fee);
      SellFillKeepsCovered(m, size, price, 0);
    } else {
      BuyFillKeepsCovered(m, size, price, 0);
      SellFillKeepsCovered(t, size, price, fee);
    }
    CoveredEscrow(FillOrder(t, size, price, fee).0);
    CoveredEscrow(FillOrder(m, size, price, 0).0);
  }

  /**
  A fill the two orders accept is one the ledger settles: both escrows cover its legs, and the
  books still balance afterwards.
   */
  lemma RecordFillKeeps(es: seq<Entry>, l: State, taker: Uuid, f: Fill, p: Policy)
    requires p.Valid()
    requires Working(es, l) && Matches(es, taker, f)
    requires es[IndexOf(es, taker)].order.side == Buy ==> FeeRoom(p, es[IndexOf(es, taker)].order)
    requires RecordFill(es, taker, f, p).Some?
    ensures var (es', ops) := RecordFill(es, taker, f, p).value;
            && ApplyChain(l, ops).Some?
            && Working(es', ApplyChain(l, ops).value)
  {
    var ti, mi := IndexOf(es, taker), IndexOf(es, f.maker);
    var t, m := es[ti].order, es[mi].order;
    var (es', ops) := RecordFill(es, taker, f, p).value;
    var notional := Value(f.price, f.size).value;
    var fee := TakerFee(p, notional).value;
    TakerFeeBound(p, notional);
    FillPairCovered(p, t, m, f.size, f.price, notional, fee);
    FillPosts(es, l, ti, mi, f.size, notional, fee);
    var t', m' := FillOrder(t, f.size, f.price, fee).0, FillOrder(m, f.size, f.price, 0).0;
    FillKeepsTerms(t, f.size, f.price, fee);
    FillKeepsTerms(m, f.size, f.price, 0);
    TwoUpdatedStayListed(es, ti, mi, t', m');
    var l' := ApplyChain(l, ops).value;
    forall k | IsEscrow(k) ensures Balance(l', k) == EscrowOf(es', k) {
      TwoUpdated(es, ti, mi, t', m', k);
      SharesMove(t, m, t', m', f.size, notional, fee, k);
    }
  }

  /** The orders refuse a matched fill exactly when a running total of the seller no longer fits 128 bits. */
  lemma RecordFillRefusedIff(es: seq<Entry>, taker: Uuid, f: Fill, p: Policy)
    requires p.Valid()
    requires AllCovered(es) && Matches(es, taker, f)
    requires es[IndexOf(es, taker)].order.side == Buy ==> FeeRoom(p, es[IndexOf(es, taker)].order)
    ensures Value(f.price, f.size).Some? && TakerFee(p, Value(f.price, f.size).value).Some?
    ensures var t, m := es[IndexOf(es, taker)].order, es[IndexOf(es, f.maker)].order;
            var seller, notional := if t.side == Sell then t else m, Value(f.price, f.size).value;
            RecordFill(es, taker, f, p) == None <==>
              || seller.notional + notional >= TWO128
              || (t.side == Sell && seller.fee + TakerFee(p, notional).value >= TWO128)
  {
    var t, m := es[IndexOf(es, taker)].order, es[IndexOf(es, f.maker)].order;
    var buy := if t.side == Buy then t else m;
    BuyFillNotional(buy, f.size, f.price);
    TakerFeeBound(p, Value(f.price, f.size).value);
    var fee := TakerFee(p, Value(f.price, f.size).value).value;
    if t.side == Buy {
      TakerFeeKeepsRoom(p, t, f.size, f.price, fee);
      BuyFillKeepsCovered(t, f.size, f.price, fee);
    } else {
      BuyFillKeepsCovered(m, f.size, f.price, 0);
    }
  }
}
