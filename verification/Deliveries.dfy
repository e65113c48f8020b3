/**
Who receives what on the book (domain/src/book.rs): over placements and over whole runs, what each user and
the fee allocation hold, against what the orders say was filled, traded and charged.
 */
module Deliveries {
  import opened Base
  import opened Money
  import opened Ledger
  import opened Book
  import opened Matching
  import opened Venue
  import opened VenueSafety
  import opened VenueRuns
  import opened Market
  import opened Placements
  import Pricing

  /** A position: a user's units of a product, a user's money, or what the fee allocation has. */
  datatype Position = UnitsOf(service: ServiceId, user: UserId) | CashOf(user: UserId) | FeesTaken

  /** What a position holds, in escrow or not. */
  function Holds(ts: seq<Transfer>, x: Position): int {
    match x
    case UnitsOf(service, user) => Posted(ts, UserShares(service, user)) + Posted(ts, BookShares(service, user))
    case CashOf(user) => Posted(ts, UserClaim(user)) + Posted(ts, BookCash(user))
    case FeesTaken => Posted(ts, ServiceClaim("fee"))
  }

  /** What an order so far owes a position: its fills bought or sold, and the fees it was charged. */
  function Gain(o: Order, x: Position): int {
    match x
    case UnitsOf(service, user) =>
      if o.service != service || o.user != user then 0 else if o.side == Buy then o.filled else -(o.filled as int)
    case CashOf(user) =>
      if o.user != user then 0 else (if o.side == Sell then o.notional else -(o.notional as int)) - o.fee
    case FeesTaken => o.fee
  }

  function Gains(es: seq<Entry>, x: Position): int {
    if es == [] then 0 else Gains(es[..|es| - 1], x) + Gain(es[|es| - 1].order, x)
  }

  // ----- sums over orders -----

  lemma {:induction false} GainsConcat(a: seq<Entry>, b: seq<Entry>, x: Position)
    ensures Gains(a + b, x) == Gains(a, x) + Gains(b, x)
    decreases |b|
  {
    if b == [] {
      assert a + b == a;
    } else {
      assert (a + b)[..|a + b| - 1] == a + b[..|b| - 1];
      GainsConcat(a, b[..|b| - 1], x);
    }
  }

  lemma GainsOfOne(e: Entry, x: Position)
    ensures Gains([e], x) == Gain(e.order, x)
  {
    assert [e][..0] == [];
  }

  lemma GainsUpdated(es: seq<Entry>, i: nat, e: Entry, x: Position)
    requires i < |es|
    ensures Gains(es[i := e], x) == Gains(es, x) - Gain(es[i].order, x) + Gain(e.order, x)
  {
    assert es == es[..i] + ([es[i]] + es[i + 1..]);
    assert es[i := e] == es[..i] + ([e] + es[i + 1..]);
    GainsConcat(es[..i], [es[i]] + es[i + 1..], x);
    GainsConcat(es[..i], [e] + es[i + 1..], x);
    GainsConcat([es[i]], es[i + 1..], x);
    GainsConcat([e], es[i + 1..], x);
    GainsOfOne(es[i], x);
    GainsOfOne(e, x);
  }

  lemma GainsInserted(es: seq<Entry>, e: Entry, x: Position)
    ensures Gains(Insert(es, e), x) == Gains(es, x) + Gain(e.order, x)
  {
    var i := InsertAt(es, e.order);
    assert es == es[..i] + es[i..];
    GainsConcat(es[..i], es[i..], x);
    GainsConcat(es[..i] + [e], es[i..], x);
    GainsConcat(es[..i], [e], x);
    GainsOfOne(e, x);
  }

  // ----- what legs move -----

  /** What a transfer does to a position. */
  function Moves(t: Transfer, x: Position): int {
    match x
    case UnitsOf(service, user) => Effect(t, UserShares(service, user)) + Effect(t, BookShares(service, user))
    case CashOf(user) => Effect(t, UserClaim(user)) + Effect(t, BookCash(user))
    case FeesTaken => Effect(t, ServiceClaim("fee"))
  }

  function MovesOf(ops: seq<Op>, x: Position): int {
    if ops == [] then 0 else (if ops[0].Post? then Moves(ops[0].transfer, x) else 0) + MovesOf(ops[1..], x)
  }

  ghost predicate OnlyPosts(ops: seq<Op>) {
    forall op <- ops :: op.Post?
  }

  lemma HoldsAppended(ts: seq<Transfer>, t: Transfer, x: Position)
    ensures Holds(ts + [t], x) == Holds(ts, x) + Moves(t, x)
  {
    match x
    case UnitsOf(service, user) =>
      PostedAppend(ts, t, UserShares(service, user));
      PostedAppend(ts, t, BookShares(service, user));
    case CashOf(user) =>
      PostedAppend(ts, t, UserClaim(user));
      PostedAppend(ts, t, BookCash(user));
    case FeesTaken => PostedAppend(ts, t, ServiceClaim("fee"));
  }

  lemma {:induction false} ChainMoves(l: State, ops: seq<Op>, x: Position)
    requires OnlyPosts(ops) && ApplyChain(l, ops).Some?
    ensures Holds(ApplyChain(l, ops).value.posted, x) == Holds(l.posted, x) + MovesOf(ops, x)
    decreases |ops|
  {
    if ops != [] {
      assert ops[0] in ops;
      HoldsAppended(l.posted, ops[0].transfer, x);
      ChainMoves(Apply(l, ops[0]).value, ops[1..], x);
    }
  }

  lemma {:induction false} MovesConcat(a: seq<Op>, b: seq<Op>, x: Position)
    ensures MovesOf(a + b, x) == MovesOf(a, x) + MovesOf(b, x)
    decreases |a|
  {
    if a == [] {
      assert a + b == b;
    } else {
      assert (a + b)[0] == a[0] && (a + b)[1..] == a[1..] + b;
      MovesConcat(a[1..], b, x);
    }
  }

  lemma LegMoves(t: Transfer, x: Position)
    ensures OnlyPosts(Leg(t)) && MovesOf(Leg(t), x) == Moves(t, x)
  {
    if t.amount > 0 {
      assert Leg(t)[1..] == [];
    }
  }

  /** A trade gives the buyer the units, the seller the money, and the fee allocation the taker's fee. */
  lemma TradeMoves(service: ServiceId, buyer: UserId, seller: UserId, taker: Side, size: nat, notional: nat, fee: nat, x: Position)
    ensures OnlyPosts(TradeOps(service, buyer, seller, taker, size, notional, fee))
    ensures MovesOf(TradeOps(service, buyer, seller, taker, size, notional, fee), x)
         == match x
            case UnitsOf(s, user) =>
              if s != service then 0 else (if user == buyer then size else 0) - (if user == seller then size else 0)
            case CashOf(user) =>
              (if user == seller then notional else 0) - (if user == buyer then notional else 0)
              - (if user == (if taker == Buy then buyer else seller) then fee else 0)
            case FeesTaken => fee
  {
    var units, cash, paid := UnitsTransfer(service, buyer, seller, size), CashTransfer(buyer, seller, notional),
                             FeeTransfer(taker, buyer, seller, fee);
    LegMoves(units, x);
    LegMoves(cash, x);
    LegMoves(paid, x);
    MovesConcat(Leg(units), Leg(cash), x);
    MovesConcat(Leg(units) + Leg(cash), Leg(paid), x);
  }

  /** Locking and releasing move nothing between owners. */
  lemma LockMovesNothing(o: Order, x: Position)
    ensures OnlyPosts(Leg(LockTransfer(o))) && MovesOf(Leg(LockTransfer(o)), x) == 0
  {
    LegMoves(LockTransfer(o), x);
  }

  lemma ReleaseMovesNothing(o: Order, x: Position)
    ensures OnlyPosts(ReleaseOps(o)) && MovesOf(ReleaseOps(o), x) == 0
  {
    match Release(o)
    case None =>
    case Some(Units(units)) => LegMoves(UnitsTransfer(o.service, o.user, o.user, units), x);
    case Some(Cash(cash)) => LegMoves(CashTransfer(o.user, o.user, cash), x);
  }

  // ----- a placement -----

  /** An order's gain from one fill. */
  lemma FillGains(o: Order, size: u128, price: u128, fee: u128, x: Position)
    requires FillOrder(o, size, price, fee).1.Ok?
    ensures Pricing.Value(price, size).Some?
    ensures Gain(FillOrder(o, size, price, fee).0, x) - Gain(o, x)
         == match x
            case UnitsOf(s, user) => if o.service != s || o.user != user then 0 else if o.side == Buy then size else -(size as int)
            case CashOf(user) =>
              if o.user != user then 0
              else (if o.side == Sell then Pricing.Value(price, size).value else -(Pricing.Value(price, size).value as int)) - fee
            case FeesTaken => fee
  {
  }

  lemma RecordedFillGains(es: seq<Entry>, taker: Uuid, f: Fill, p: Policy, x: Position)
    requires p.Valid() && Matches(es, taker, f) && RecordFill(es, taker, f, p).Some?
    ensures var (es', ops) := RecordFill(es, taker, f, p).value;
            OnlyPosts(ops) && Gains(es', x) - Gains(es, x) == MovesOf(ops, x)
  {
    var ti, mi := IndexOf(es, taker), IndexOf(es, f.maker);
    var t, m := es[ti].order, es[mi].order;
    var notional := Pricing.Value(f.price, f.size).value;
    var fee := TakerFee(p, notional).value;
    var t', m' := FillOrder(t, f.size, f.price, fee).0, FillOrder(m, f.size, f.price, 0).0;
    GainsUpdated(es, ti, es[ti].(order := t'), x);
    GainsUpdated(es[ti := es[ti].(order := t')], mi, es[mi].(order := m'), x);
    FillGains(t, f.size, f.price, fee, x);
    FillGains(m, f.size, f.price, 0, x);
    var (buyer, seller) := Parties(t, m);
    TradeMoves(t.service, buyer, seller, t.side, f.size, notional, fee, x);
  }

  lemma {:induction false} SettledFillsGain(es: seq<Entry>, l: State, taker: Uuid, fills: seq<Fill>, p: Policy, x: Position)
    requires p.Valid() && Ready(es, taker, fills, p) && SettleFills(es, l, taker, fills, p).Some?
    ensures var (es', l') := SettleFills(es, l, taker, fills, p).value;
            Holds(l'.posted, x) - Holds(l.posted, x) == Gains(es', x) - Gains(es, x)
    decreases |fills|
  {
    if fills != [] {
      assert Matches(es, taker, fills[0]);
      var (es1, ops) := RecordFill(es, taker, fills[0], p).value;
      RecordedFillGains(es, taker, fills[0], p, x);
      ChainMoves(l, ops, x);
      StillReady(es, taker, fills, p);
      SettledFillsGain(es1, ApplyChain(l, ops).value, taker, fills[1..], p, x);
    }
  }

  /** The entries that leave the book. */
  function Leaving(es: seq<Entry>): seq<Entry> {
    if es == [] then []
    else
      var last := es[|es| - 1];
      if last.order.state.IsResting() then Leaving(es[..|es| - 1]) else Leaving(es[..|es| - 1]) + [last]
  }

  lemma {:induction false} SweepDivides(es: seq<Entry>, l: State, x: Position)
    requires Sweep(es, l).Some?
    ensures var (kept, l') := Sweep(es, l).value;
            && Gains(es, x) == Gains(kept, x) + Gains(Leaving(es), x)
            && Holds(l'.posted, x) == Holds(l.posted, x)
    decreases |es|
  {
    if es != [] {
      var init, last := es[..|es| - 1], es[|es| - 1];
      SweepDivides(init, l, x);
      var (kept, l1) := Sweep(init, l).value;
      GainsOfOne(last, x);
      if last.order.state.IsResting() {
        GainsConcat(kept, [last], x);
      } else {
        GainsConcat(Leaving(init), [last], x);
        ReleaseMovesNothing(last.order, x);
        ChainMoves(l1, ReleaseOps(last.order), x);
      }
    }
  }

  lemma DropGainsNothing(es: seq<Entry>, taker: Uuid, out: Outcome, x: Position)
    ensures Gains(DropRemainder(es, taker, out), x) == Gains(es, x)
  {
    var ti := IndexOf(es, taker);
    if ti < |es| {
      GainsUpdated(es, ti, es[ti].(order := CancelOrder(es[ti].order, RemainderReason(es[ti].order.kind)).0), x);
    }
  }

  /**
  What an accepted placement does to every position: exactly what the orders' fills, notionals and fees
  moved, the orders that rested before it and the new one together.
   */
  lemma PlacementDelivers(v: Venue, p: Policy, req: PlaceRequest, x: Position)
    requires p.Valid() && Valid(v) && Place(v, p, req).Some?
    ensures var z, left := Place(v, p, req).value, Leaving(PlacedList(v, p, req));
            Holds(z.ledger.posted, x) - Holds(v.ledger.posted, x) == Gains(z.resting, x) + Gains(left, x) - Gains(v.resting, x)
  {
    var filled := PlacementLeaves(v, p, req);
    PartsAgree(v, p, req);
    var o, out, locked := OrderOf(v, p, req), OutcomeOf(v, p, req), LockedOf(v, p, req);
    var es := ListedOf(v, p, req);
    LockMovesNothing(o, x);
    ChainMoves(v.ledger, Leg(LockTransfer(o)), x);
    GainsInserted(v.resting, Entry(o, v.clock), x);
    SettledFillsGain(es, locked, o.id, out.fills, p, x);
    var (filled', traded) := SettleFills(es, locked, o.id, out.fills, p).value;
    DropGainsNothing(filled', o.id, out, x);
    SweepDivides(DropRemainder(filled', o.id, out), traded, x);
  }

  // ----- the prices of the fills -----

  /** What fills come to at their prices, and what the taker's fees on them come to. */
  function Notionals(fills: seq<Fill>): nat {
    if fills == [] then 0 else Pricing.Value(fills[0].price, fills[0].size).GetOr(0) + Notionals(fills[1..])
  }

  function TakerFees(p: Policy, fills: seq<Fill>): nat
    requires p.Valid()
  {
    if fills == [] then 0
    else TakerFee(p, Pricing.Value(fills[0].price, fills[0].size).GetOr(0)).GetOr(0) + TakerFees(p, fills[1..])
  }

  /** One fill moves the taker's notional by its price and the fee by the fee on it. */
  lemma TakerAfterAFill(es: seq<Entry>, taker: Uuid, f: Fill, p: Policy)
    requires p.Valid() && Matches(es, taker, f) && RecordFill(es, taker, f, p).Some?
    ensures var i, es' := IndexOf(es, taker), RecordFill(es, taker, f, p).value.0;
            && |es'| == |es|
            && es'[i].order.notional == es[i].order.notional + Pricing.Value(f.price, f.size).GetOr(0)
            && es'[i].order.fee == es[i].order.fee + TakerFee(p, Pricing.Value(f.price, f.size).GetOr(0)).GetOr(0)
  {
  }

  /** The taker pays or receives the price of each fill, and is charged the fee on each. */
  lemma {:induction false} TakerTradesAtThePrices(es: seq<Entry>, taker: Uuid, fills: seq<Fill>, p: Policy)
    requires p.Valid() && Ready(es, taker, fills, p) && RecordAll(es, taker, fills, p).Some?
    ensures var i, es' := IndexOf(es, taker), RecordAll(es, taker, fills, p).value;
            && |es'| == |es|
            && es'[i].order.notional == es[i].order.notional + Notionals(fills)
            && es'[i].order.fee == es[i].order.fee + TakerFees(p, fills)
    decreases |fills|
  {
    if fills != [] {
      assert Matches(es, taker, fills[0]);
      var es1 := RecordFill(es, taker, fills[0], p).value.0;
      TakerAfterAFill(es, taker, fills[0], p);
      RecordFillEffects(es, taker, fills[0], p);
      SameOrdersIndex(es, es1, taker);
      StillReady(es, taker, fills, p);
      TakerTradesAtThePrices(es1, taker, fills[1..], p);
    }
  }

  lemma DropKeepsProgress(es: seq<Entry>, taker: Uuid, out: Outcome, i: nat)
    requires i < |es|
    ensures |DropRemainder(es, taker, out)| == |es|
    ensures var a, b := DropRemainder(es, taker, out)[i].order, es[i].order;
            a.id == b.id && a.filled == b.filled && a.notional == b.notional && a.fee == b.fee
  {
  }

  /** An accepted placement's order has traded at exactly the prices of its fills, with the fee on each. */
  lemma PlacementIsPriced(v: Venue, p: Policy, req: PlaceRequest) returns (i: nat)
    requires p.Valid() && Valid(v) && Place(v, p, req).Some?
    ensures var es, fills := PlacedList(v, p, req), OutcomeOf(v, p, req).fills;
            && i < |es| && es[i].order.id == req.id
            && es[i].order.filled == Traded(fills)
            && es[i].order.notional == Notionals(fills)
            && es[i].order.fee == TakerFees(p, fills)
  {
    var filled := PlacementLeaves(v, p, req);
    var o, out, es := OrderOf(v, p, req), OutcomeOf(v, p, req), ListedOf(v, p, req);
    NewOrderIsListed(v, p, req);
    i := IndexOf(es, o.id);
    RecordAllTaker(es, o.id, out.fills, p);
    TakerTradesAtThePrices(es, o.id, out.fills, p);
    SameOrdersIndex(es, filled, o.id);
    DropKeepsProgress(filled, o.id, out, i);
  }

  // ----- over runs -----

  /** The venue, every order that has left it as it was then, and what the rest of the platform posted. */
  datatype Journal = Journal(venue: Venue, gone: seq<Entry>, others: seq<Transfer>)

  const NOTHING_YET := Journal(EMPTY, [], [])

  function Record(j: Journal, s: Step): Journal {
    var v := j.venue;
    match s
    case PlaceStep(p, req) =>
      if p.Valid() && Place(v, p, req).Some? then Journal(Place(v, p, req).value, j.gone + Leaving(PlacedList(v, p, req)), j.others) else j
    case CancelStep(user, id) =>
      if Cancel(v, user, id).Some?
      then Journal(Cancel(v, user, id).value, j.gone + Leaving(Cancelling(v.resting, IndexOf(v.resting, id))), j.others) else j
    case LedgerStep(op) =>
      if Elsewhere(v, op).Some? then Journal(Elsewhere(v, op).value, j.gone, j.others + PostedBy(v.ledger, op)) else j
  }

  /** The transfer an accepted operation posts. */
  function PostedBy(l: State, op: Op): seq<Transfer> {
    match op
    case Post(t) => [t]
    case Settle(id) => if ReservedTransfer(l.open, id).Some? then [ReservedTransfer(l.open, id).value] else []
    case Reserve(_) | Void(_) => []
  }

  function RecordRun(j: Journal, steps: seq<Step>): Journal
    decreases |steps|
  {
    if steps == [] then j else RecordRun(Record(j, steps[0]), steps[1..])
  }

  lemma {:induction false} JournalFollowsRun(j: Journal, steps: seq<Step>)
    ensures RecordRun(j, steps).venue == Run(j.venue, steps)
    decreases |steps|
  {
    if steps != [] {
      assert Record(j, steps[0]).venue == Next(j.venue, steps[0]);
      JournalFollowsRun(Record(j, steps[0]), steps[1..]);
    }
  }

  /** Every position holds what the rest of the platform gave it and what all its orders owe it. */
  ghost predicate Balanced(j: Journal, x: Position) {
    Holds(j.venue.ledger.posted, x) == Holds(j.others, x) + Gains(j.venue.resting, x) + Gains(j.gone, x)
  }

  lemma CancelParts(v: Venue, user: UserId, id: Uuid)
    requires Cancel(v, user, id).Some?
    ensures var i := IndexOf(v.resting, id);
            && i < |v.resting| && Sweep(Cancelling(v.resting, i), v.ledger).Some?
            && Cancel(v, user, id).value.resting == Sweep(Cancelling(v.resting, i), v.ledger).value.0
            && Cancel(v, user, id).value.ledger == Sweep(Cancelling(v.resting, i), v.ledger).value.1
  {
  }

  lemma CancellingGainsNothing(es: seq<Entry>, i: nat, x: Position)
    requires i < |es|
    ensures Gains(Cancelling(es, i), x) == Gains(es, x)
  {
    GainsUpdated(es, i, es[i].(order := CancelOrder(es[i].order, UserRequest).0), x);
  }

  lemma {:induction false} NothingLeaves(es: seq<Entry>)
    requires AllResting(es)
    ensures Leaving(es) == []
  {
    if es != [] {
      NothingLeaves(es[..|es| - 1]);
    }
  }

  lemma {:induction false} OneLeaves(es: seq<Entry>, i: nat)
    requires i < |es| && (forall j :: 0 <= j < |es| && j != i ==> es[j].order.state.IsResting()) && !es[i].order.state.IsResting()
    ensures Leaving(es) == [es[i]]
  {
    if i < |es| - 1 {
      OneLeaves(es[..|es| - 1], i);
    } else {
      NothingLeaves(es[..|es| - 1]);
    }
  }

  /** An accepted cancel takes one order off the book: as far as it had come, at its owner's request. */
  lemma CancelRecords(v: Venue, user: UserId, id: Uuid)
    requires Valid(v) && Cancel(v, user, id).Some?
    ensures var i := IndexOf(v.resting, id);
            && i < |v.resting| && v.resting[i].order.user == user
            && Leaving(Cancelling(v.resting, i))
               == [v.resting[i].(order := v.resting[i].order.(state := Cancelled, cancelReason := Some(UserRequest)))]
  {
    OneLeaves(Cancelling(v.resting, IndexOf(v.resting, id)), IndexOf(v.resting, id));
  }

  lemma CancelDelivers(j: Journal, user: UserId, id: Uuid, x: Position)
    requires Balanced(j, x) && Cancel(j.venue, user, id).Some?
    ensures Balanced(Record(j, CancelStep(user, id)), x)
  {
    var v := j.venue;
    var i := IndexOf(v.resting, id);
    CancelParts(v, user, id);
    CancellingGainsNothing(v.resting, i, x);
    SweepDivides(Cancelling(v.resting, i), v.ledger, x);
    GainsConcat(j.gone, Leaving(Cancelling(v.resting, i)), x);
  }

  lemma ElsewhereDelivers(j: Journal, op: Op, x: Position)
    requires Balanced(j, x) && Elsewhere(j.venue, op).Some?
    ensures Balanced(Record(j, LedgerStep(op)), x)
  {
    var l := j.venue.ledger;
    match op
    case Post(t) =>
      HoldsAppended(l.posted, t, x);
      HoldsAppended(j.others, t, x);
    case Settle(id) =>
      HoldsAppended(l.posted, ReservedTransfer(l.open, id).value, x);
      HoldsAppended(j.others, ReservedTransfer(l.open, id).value, x);
    case Reserve(_) => assert j.others + [] == j.others;
    case Void(_) => assert j.others + [] == j.others;
  }

  lemma RecordKeepsBalance(j: Journal, s: Step, x: Position)
    requires Valid(j.venue) && Balanced(j, x)
    ensures Balanced(Record(j, s), x)
  {
    match s
    case PlaceStep(p, req) =>
      if p.Valid() && Place(j.venue, p, req).Some? {
        PlacementDelivers(j.venue, p, req, x);
        GainsConcat(j.gone, Leaving(PlacedList(j.venue, p, req)), x);
      }
    case CancelStep(user, id) =>
      if Cancel(j.venue, user, id).Some? {
        CancelDelivers(j, user, id, x);
      }
    case LedgerStep(op) =>
      if Elsewhere(j.venue, op).Some? {
        ElsewhereDelivers(j, op, x);
      }
  }

  lemma {:induction false} RecordRunKeepsBalance(j: Journal, steps: seq<Step>, x: Position)
    requires Valid(j.venue) && Balanced(j, x)
    ensures Balanced(RecordRun(j, steps), x)
    decreases |steps|
  {
    if steps != [] {
      RecordKeepsBalance(j, steps[0], x);
      NextKeepsValid(j.venue, steps[0]);
      assert Record(j, steps[0]).venue == Next(j.venue, steps[0]);
      RecordRunKeepsBalance(Record(j, steps[0]), steps[1..], x);
    }
  }

  /**
  In every run from an empty book, for every product and user: their units are what the rest of the platform
  gave them, with what their orders bought and without what they sold; their money is what the rest gave
  them, with what their sells were paid and without what their buys cost and their orders were charged; and
  the fee allocation has what the rest gave it and every fee.
   */
  lemma EveryoneIsPaid(steps: seq<Step>, x: Position)
    ensures var j := RecordRun(NOTHING_YET, steps);
            && j.venue == Run(EMPTY, steps)
            && Holds(j.venue.ledger.posted, x) == Holds(j.others, x) + Gains(j.venue.resting, x) + Gains(j.gone, x)
  {
    assert Valid(EMPTY);
    JournalFollowsRun(NOTHING_YET, steps);
    RecordRunKeepsBalance(NOTHING_YET, steps, x);
  }
}
