/**
What an accepted placement leaves on the book (domain/src/book.rs): whether the new order rests and with how
much, and what becomes of every order that rested before it.
 */
module Placements {
  import opened Base
  import opened Money
  import opened Ledger
  import opened Book
  import opened Matching
  import opened Venue
  import opened VenueSafety
  import opened VenueRuns
  import opened Market

  // ----- the parts of a placement -----

  /** The order an accepted placement records. */
  function OrderOf(v: Venue, p: Policy, req: PlaceRequest): Order
    requires p.Valid() && Place(v, p, req).Some?
  {
    var (price, tif) := Priced(p, req, Queue(v.resting, req.service, req.side.Opposite())).value;
    PlaceOrder(req.id, req.service, req.user, req.side, req.kind, tif, price, req.size,
               ReserveFor(p, req.side, req.size, price).value)
  }

  /** What the engine decided for it. */
  function OutcomeOf(v: Venue, p: Policy, req: PlaceRequest): Outcome
    requires p.Valid() && Place(v, p, req).Some?
  {
    Decide(IncomingOf(OrderOf(v, p, req)), Queue(v.resting, req.service, req.side.Opposite())).value
  }

  /** The ledger once its escrow is locked. */
  function LockedOf(v: Venue, p: Policy, req: PlaceRequest): State
    requires p.Valid() && Place(v, p, req).Some?
  {
    ApplyChain(v.ledger, Leg(LockTransfer(OrderOf(v, p, req)))).value
  }

  /** Every order of the book, the new one among them. */
  function ListedOf(v: Venue, p: Policy, req: PlaceRequest): seq<Entry>
    requires p.Valid() && Place(v, p, req).Some?
  {
    Insert(v.resting, Entry(OrderOf(v, p, req), v.clock))
  }

  /** The same orders once the fills are recorded, and what may not rest is cancelled. */
  function PlacedList(v: Venue, p: Policy, req: PlaceRequest): seq<Entry>
    requires p.Valid() && Place(v, p, req).Some?
  {
    var out := OutcomeOf(v, p, req);
    DropRemainder(SettleFills(ListedOf(v, p, req), LockedOf(v, p, req), req.id, out.fills, p).value.0, req.id, out)
  }

  lemma PartsAgree(v: Venue, p: Policy, req: PlaceRequest)
    requires p.Valid() && Place(v, p, req).Some?
    ensures var o, out, locked := OrderOf(v, p, req), OutcomeOf(v, p, req), LockedOf(v, p, req);
            && o.id == req.id && o.service == req.service && o.side == req.side
            && IndexOf(v.resting, o.id) == |v.resting| && Fresh(p, o)
            && Decide(IncomingOf(o), Queue(v.resting, o.service, o.side.Opposite())) == Ok(out)
            && ApplyChain(v.ledger, Leg(LockTransfer(o))) == Some(locked)
            && SettleFills(ListedOf(v, p, req), locked, o.id, out.fills, p).Some?
            && var (filled, traded) := SettleFills(ListedOf(v, p, req), locked, o.id, out.fills, p).value;
               && Sweep(DropRemainder(filled, o.id, out), traded).Some?
               && Place(v, p, req).value == Venue(Sweep(DropRemainder(filled, o.id, out), traded).value.0,
                                                  Sweep(DropRemainder(filled, o.id, out), traded).value.1, v.clock + 1)
  {
  }

  /** The fills of an accepted placement as recorded, and the book that is left of them. */
  lemma PlacementLeaves(v: Venue, p: Policy, req: PlaceRequest) returns (filled: seq<Entry>)
    requires p.Valid() && Valid(v) && Place(v, p, req).Some?
    ensures var o, out := OrderOf(v, p, req), OutcomeOf(v, p, req);
            && Placing(v, p, o, out, filled)
            && Ready(ListedOf(v, p, req), o.id, out.fills, p)
            && PlacedList(v, p, req) == DropRemainder(filled, o.id, out)
            && Place(v, p, req).value.resting == Standing(PlacedList(v, p, req))
  {
    var o, out, locked := OrderOf(v, p, req), OutcomeOf(v, p, req), LockedOf(v, p, req);
    PartsAgree(v, p, req);
    LockBacks(v, p, o, locked);
    ReadyToSettle(v, p, o, out);
    LedgerSettlesWhatOrdersAccept(ListedOf(v, p, req), locked, o.id, out.fills, p);
    filled := RecordAll(ListedOf(v, p, req), o.id, out.fills, p).value;
    var traded := SettleFills(ListedOf(v, p, req), locked, o.id, out.fills, p).value.1;
    InsertLive(v, o);
    RecordAllLive(ListedOf(v, p, req), o.id, out.fills, p);
    DropWorks(filled, traded, o.id, out);
    SweepWorks(DropRemainder(filled, o.id, out), traded);
  }

  /** The terms the order trades under are those asked for; a market order may never rest. */
  lemma TermsAsAsked(v: Venue, p: Policy, req: PlaceRequest)
    requires p.Valid() && Place(v, p, req).Some?
    ensures var o := OrderOf(v, p, req);
            && o.id == req.id && o.service == req.service && o.user == req.user && o.side == req.side
            && o.kind == req.kind && o.size == req.size
            && (req.kind == Limit ==> o.price == req.price && o.tif == req.tif)
            && (req.kind == OrderKind.Market ==> o.tif == Ioc)
  {
  }

  // ----- which placements are accepted -----

  /** The price an order trades under: its own, on a tick, or the limit a market order gets from the best quote. */
  function LimitFor(v: Venue, p: Policy, req: PlaceRequest): Option<u128>
    requires p.Valid()
  {
    var quotes := Queue(v.resting, req.service, req.side.Opposite());
    if req.kind == Limit then (if req.price > 0 && req.price % p.priceTick == 0 then Some(req.price) else None)
    else if quotes == [] then None
    else MarketLimit(p, req.side, quotes[0].price)
  }

  /** The taker has what the order commits: the units it sells, or the cash with the fee it may cost. */
  ghost predicate CanCommit(v: Venue, p: Policy, req: PlaceRequest, limit: u128)
    requires p.Valid()
  {
    if req.side == Sell then req.size <= Available(v.ledger, UserShares(req.service, req.user))
    else
      BuyReserve(p, req.size, limit).Some? && BuyReserve(p, req.size, limit).value <= Available(v.ledger, UserClaim(req.user))
  }

  /** The order as it would be recorded under a limit. */
  function Candidate(p: Policy, req: PlaceRequest, limit: u128): Option<Order>
    requires p.Valid()
  {
    var reserved :- ReserveFor(p, req.side, req.size, limit);
    Some(PlaceOrder(req.id, req.service, req.user, req.side, req.kind, if req.kind == Limit then req.tif else Ioc,
                    limit, req.size, reserved))
  }

  /** The running totals of the orders it would meet all still fit. */
  ghost predicate TotalsFit(v: Venue, p: Policy, o: Order)
    requires p.Valid()
  {
    var out := Decide(IncomingOf(o), Queue(v.resting, o.service, o.side.Opposite()));
    out.Ok? && RecordAll(Insert(v.resting, Entry(o, v.clock)), o.id, out.value.fills, p).Some?
  }

  lemma LockIffCommitted(v: Venue, p: Policy, req: PlaceRequest, limit: u128)
    requires p.Valid() && Valid(v) && req.size > 0 && Candidate(p, req, limit).Some?
    ensures ApplyChain(v.ledger, Leg(LockTransfer(Candidate(p, req, limit).value))).Some? <==> CanCommit(v, p, req, limit)
  {
    var t := LockTransfer(Candidate(p, req, limit).value);
    assert Available(v.ledger, UserClaim(req.user)) >= 0;
    if t.amount > 0 {
      assert Leg(t)[1..] == [];
    }
  }

  /** What a placement comes to once its price is known. */
  lemma PlaceUnder(v: Venue, p: Policy, req: PlaceRequest, limit: u128)
    requires p.Valid() && Valid(v)
    requires p.bookOpen && req.size > 0 && req.size % p.lotSize == 0 && IndexOf(v.resting, req.id) == |v.resting|
    requires LimitFor(v, p, req) == Some(limit)
    ensures Place(v, p, req).Some? <==>
              && Candidate(p, req, limit).Some? && CanCommit(v, p, req, limit)
              && TotalsFit(v, p, Candidate(p, req, limit).value)
    ensures Place(v, p, req).Some? ==> OrderOf(v, p, req) == Candidate(p, req, limit).value
  {
    if Candidate(p, req, limit).Some? {
      var o := Candidate(p, req, limit).value;
      LockIffCommitted(v, p, req, limit);
      if CanCommit(v, p, req, limit) && Decide(IncomingOf(o), Queue(v.resting, o.service, o.side.Opposite())).Ok? {
        var out := Decide(IncomingOf(o), Queue(v.resting, o.service, o.side.Opposite())).value;
        var locked := ApplyChain(v.ledger, Leg(LockTransfer(o))).value;
        LockBacks(v, p, o, locked);
        ReadyToSettle(v, p, o, out);
        LedgerSettlesWhatOrdersAccept(Insert(v.resting, Entry(o, v.clock)), locked, o.id, out.fills, p);
        if TotalsFit(v, p, o) {
          PlacementGoesThrough(v, p, o, out, RecordAll(Insert(v.resting, Entry(o, v.clock)), o.id, out.fills, p).value, locked);
        }
      }
    }
  }

  /**
  Which placements are accepted: exactly those on an open book, of a positive whole number of lots, under a
  new id, with a price on a tick or a quote to take one from, whose taker has what the order commits, which
  meet no maker they must not trade with, and whose fills the orders' totals can hold.
   */
  lemma PlaceAcceptedIff(v: Venue, p: Policy, req: PlaceRequest)
    requires p.Valid() && Valid(v)
    ensures Place(v, p, req).Some? <==>
              && p.bookOpen && req.size > 0 && req.size % p.lotSize == 0
              && (forall i :: 0 <= i < |v.resting| ==> v.resting[i].order.id != req.id)
              && LimitFor(v, p, req).Some?
              && var limit := LimitFor(v, p, req).value;
                 && Candidate(p, req, limit).Some? && CanCommit(v, p, req, limit)
                 && !Stopped(IncomingOf(Candidate(p, req, limit).value), Queue(v.resting, req.service, req.side.Opposite()), req.size)
                 && TotalsFit(v, p, Candidate(p, req, limit).value)
    ensures Place(v, p, req).Some? ==> OrderOf(v, p, req).price == LimitFor(v, p, req).value
  {
    if LimitFor(v, p, req).Some? && Candidate(p, req, LimitFor(v, p, req).value).Some? {
      RefusedIff(IncomingOf(Candidate(p, req, LimitFor(v, p, req).value).value),
                 Queue(v.resting, req.service, req.side.Opposite()), req.size);
    }
    if p.bookOpen && req.size > 0 && req.size % p.lotSize == 0 && IndexOf(v.resting, req.id) == |v.resting| && LimitFor(v, p, req).Some? {
      PlaceUnder(v, p, req, LimitFor(v, p, req).value);
    }
  }

  // ----- the progress of every order -----

  /** Whatever is not filled up rests. */
  ghost predicate Lively(es: seq<Entry>) {
    forall i :: 0 <= i < |es| ==> (es[i].order.Remaining() > 0 ==> es[i].order.state.IsResting())
  }

  lemma RecordFillLively(es: seq<Entry>, taker: Uuid, f: Fill, p: Policy)
    requires p.Valid() && Lively(es) && RecordFill(es, taker, f, p).Some?
    ensures Lively(RecordFill(es, taker, f, p).value.0)
  {
  }

  lemma {:induction false} RecordAllLively(es: seq<Entry>, taker: Uuid, fills: seq<Fill>, p: Policy)
    requires p.Valid() && Lively(es) && RecordAll(es, taker, fills, p).Some?
    ensures Lively(RecordAll(es, taker, fills, p).value)
    decreases |fills|
  {
    if fills != [] {
      RecordFillLively(es, taker, fills[0], p);
      RecordAllLively(RecordFill(es, taker, fills[0], p).value.0, taker, fills[1..], p);
    }
  }

  lemma ListedIsLively(v: Venue, o: Order)
    requires Valid(v) && o.state == Open
    ensures Lively(Insert(v.resting, Entry(o, v.clock)))
  {
    var es := Insert(v.resting, Entry(o, v.clock));
    InsertMembers(v.resting, Entry(o, v.clock));
    forall i | 0 <= i < |es| ensures es[i].order.state.IsResting() {
      assert es[i] in es;
    }
  }

  /** What the fills take from the maker named `id`. */
  function TakenFrom(fills: seq<Fill>, id: Uuid): nat {
    if fills == [] then 0 else (if fills[0].maker == id then fills[0].size else 0) + TakenFrom(fills[1..], id)
  }

  lemma {:induction false} NotNamedNotTaken(fills: seq<Fill>, id: Uuid)
    requires !Names(fills, id)
    ensures TakenFrom(fills, id) == 0
  {
    if fills != [] {
      assert fills[0].maker != id;
      assert forall j :: 0 <= j < |fills[1..]| ==> fills[1..][j] == fills[j + 1];
      NotNamedNotTaken(fills[1..], id);
    }
  }

  lemma {:induction false} NamedOnceTakenOnce(fills: seq<Fill>, j: nat)
    requires DistinctMakers(fills) && j < |fills|
    ensures TakenFrom(fills, fills[j].maker) == fills[j].size
  {
    assert forall i :: 0 <= i < |fills[1..]| ==> fills[1..][i] == fills[i + 1];
    if j == 0 {
      NotNamedNotTaken(fills[1..], fills[0].maker);
    } else {
      assert fills[0].maker != fills[j].maker;
      NamedOnceTakenOnce(fills[1..], j - 1);
    }
  }

  /** Every other order of the list gains exactly what the fills take from it. */
  lemma MakersGain(es: seq<Entry>, taker: Uuid, fills: seq<Fill>, p: Policy, i: nat)
    requires p.Valid() && Ready(es, taker, fills, p) && RecordAll(es, taker, fills, p).Some?
    requires i < |es| && es[i].order.id != taker
    ensures |RecordAll(es, taker, fills, p).value| == |es|
    ensures RecordAll(es, taker, fills, p).value[i].order.filled == es[i].order.filled + TakenFrom(fills, es[i].order.id)
  {
    var id := es[i].order.id;
    if Names(fills, id) {
      var j :| 0 <= j < |fills| && fills[j].maker == id;
      RecordAllMaker(es, taker, fills, p, j);
      IndexUnique(es, i);
      NamedOnceTakenOnce(fills, j);
    } else {
      RecordAllUntouched(es, taker, fills, p, i);
      NotNamedNotTaken(fills, id);
    }
  }

  // ----- what rests -----

  /** The units resting against a limit order at its price or better. */
  function CrossingUnits(es: seq<Entry>, req: PlaceRequest): nat
    decreases |es|
  {
    if es == [] then 0
    else
      var o := es[0].order;
      CrossingUnits(es[1..], req)
      + if o.service == req.service && o.side != req.side
           && (if req.side == Buy then o.price <= req.price else o.price >= req.price)
        then o.Remaining() else 0
  }

  lemma {:induction false} CrossingIsCrossing(es: seq<Entry>, req: PlaceRequest, tif: Tif)
    ensures CrossingSize(Incoming(req.id, req.user, req.side, tif, req.price, req.size), Queue(es, req.service, req.side.Opposite()))
         == CrossingUnits(es, req)
    decreases |es|
  {
    if es != [] {
      CrossingIsCrossing(es[1..], req, tif);
      var o := es[0].order;
      if o.service == req.service && o.side == req.side.Opposite() {
        assert Queue(es, req.service, req.side.Opposite())[1..] == Queue(es[1..], req.service, req.side.Opposite());
      }
    }
  }

  ghost predicate Uncancelled(es: seq<Entry>) {
    forall i :: 0 <= i < |es| ==> es[i].order.state.IsResting() || es[i].order.state == Filled
  }

  lemma ListedIsUncancelled(v: Venue, o: Order)
    requires Valid(v) && o.state == Open
    ensures Uncancelled(Insert(v.resting, Entry(o, v.clock)))
  {
    var es := Insert(v.resting, Entry(o, v.clock));
    InsertMembers(v.resting, Entry(o, v.clock));
    forall i | 0 <= i < |es| ensures es[i].order.state.IsResting() {
      assert es[i] in es;
    }
  }

  lemma FillCancelsNothing(es: seq<Entry>, taker: Uuid, f: Fill, p: Policy)
    requires p.Valid() && Uncancelled(es) && RecordFill(es, taker, f, p).Some?
    ensures var es' := RecordFill(es, taker, f, p).value.0;
            && Uncancelled(es') && |es'| == |es|
            && forall i :: 0 <= i < |es| ==> es'[i].order.cancelReason == es[i].order.cancelReason
  {
  }

  lemma {:induction false} FillsCancelNothing(es: seq<Entry>, taker: Uuid, fills: seq<Fill>, p: Policy)
    requires p.Valid() && Uncancelled(es) && RecordAll(es, taker, fills, p).Some?
    ensures var es' := RecordAll(es, taker, fills, p).value;
            && Uncancelled(es') && |es'| == |es|
            && forall i :: 0 <= i < |es| ==> es'[i].order.cancelReason == es[i].order.cancelReason
    decreases |fills|
  {
    if fills != [] {
      FillCancelsNothing(es, taker, fills[0], p);
      FillsCancelNothing(RecordFill(es, taker, fills[0], p).value.0, taker, fills[1..], p);
    }
  }

  lemma DroppedAt(es: seq<Entry>, taker: Uuid, out: Outcome, i: nat)
    requires i < |es| && i == IndexOf(es, taker)
    ensures DropRemainder(es, taker, out)[i].order
         == if out.remainder == 0 || out.rests then es[i].order else CancelOrder(es[i].order, RemainderReason(es[i].order.kind)).0
  {
  }

  /** The new order as the fills left it, before anything is cancelled. */
  lemma TakerFilled(v: Venue, p: Policy, req: PlaceRequest, i: nat) returns (t: Order)
    requires p.Valid() && Valid(v) && Place(v, p, req).Some?
    requires i < |PlacedList(v, p, req)| && PlacedList(v, p, req)[i].order.id == req.id
    ensures var out := OutcomeOf(v, p, req);
            && t.kind == req.kind && t.cancelReason == None && (t.state.IsResting() || t.state == Filled)
            && t.filled == Traded(out.fills) <= req.size && out.rests == (out.remainder > 0 && OrderOf(v, p, req).tif != Ioc)
            && (t.state.IsResting() <==> Traded(out.fills) < req.size) && out.remainder == req.size - Traded(out.fills)
            && PlacedList(v, p, req)[i].order
               == (if out.remainder == 0 || out.rests then t else CancelOrder(t, RemainderReason(t.kind)).0)
  {
    var filled := PlacementLeaves(v, p, req);
    var es, o, out := ListedOf(v, p, req), OrderOf(v, p, req), OutcomeOf(v, p, req);
    RecordAllTaker(es, o.id, out.fills, p);
    TakerIndex(v, p, req, filled, i);
    t := filled[i].order;
    DroppedAt(filled, o.id, out, i);
    ListedIsUncancelled(v, o);
    FillsCancelNothing(es, o.id, out.fills, p);
    ListedIsLively(v, o);
    RecordAllLively(es, o.id, out.fills, p);
    QueueFacts(v, o.service, o.side.Opposite());
    WalkTrades(IncomingOf(o), Queue(v.resting, o.service, o.side.Opposite()), o.size);
    assert Covered(filled[i].order);
  }

  lemma TakerIndex(v: Venue, p: Policy, req: PlaceRequest, filled: seq<Entry>, i: nat)
    requires p.Valid() && Valid(v) && Place(v, p, req).Some?
    requires Placing(v, p, OrderOf(v, p, req), OutcomeOf(v, p, req), filled)
    requires SameOrders(ListedOf(v, p, req), filled)
    requires PlacedList(v, p, req) == DropRemainder(filled, req.id, OutcomeOf(v, p, req))
    requires i < |PlacedList(v, p, req)| && PlacedList(v, p, req)[i].order.id == req.id
    ensures i == IndexOf(filled, req.id) && i < |filled| && i == IndexOf(ListedOf(v, p, req), req.id)
    ensures ListedOf(v, p, req)[i].order == OrderOf(v, p, req)
  {
    var es, o, out := ListedOf(v, p, req), OrderOf(v, p, req), OutcomeOf(v, p, req);
    DropKeepsOrders(filled, req.id, out);
    SameOrdersTrans(es, filled, PlacedList(v, p, req));
    TakersPlace(v, o, i);
    SameOrdersIndex(es, filled, req.id);
  }

  /** The list is the one the placement began with, with each order's progress. */
  lemma PlacedListIs(v: Venue, p: Policy, req: PlaceRequest)
    requires p.Valid() && Valid(v) && Place(v, p, req).Some?
    ensures SameOrders(ListedOf(v, p, req), PlacedList(v, p, req)) && UniqueIds(PlacedList(v, p, req))
  {
    var filled := PlacementLeaves(v, p, req);
    var es, o, out := ListedOf(v, p, req), OrderOf(v, p, req), OutcomeOf(v, p, req);
    InsertUnique(v.resting, Entry(o, v.clock));
    RecordAllTaker(es, o.id, out.fills, p);
    DropKeepsOrders(filled, o.id, out);
    SameOrdersTrans(es, filled, PlacedList(v, p, req));
    SameOrdersUnique(es, PlacedList(v, p, req));
  }

  lemma NewOrderIsListed(v: Venue, p: Policy, req: PlaceRequest)
    requires p.Valid() && Valid(v) && Place(v, p, req).Some?
    ensures var es, o := ListedOf(v, p, req), OrderOf(v, p, req);
            o.id == req.id && o.filled == o.notional == o.fee == 0 && IndexOf(es, o.id) < |es| && es[IndexOf(es, o.id)].order == o
  {
    var o := OrderOf(v, p, req);
    InsertMembers(v.resting, Entry(o, v.clock));
    InsertUnique(v.resting, Entry(o, v.clock));
    FindEntry(ListedOf(v, p, req), Entry(o, v.clock));
  }

  /** The new order on the list: where it stands, what it has traded, and whether it still rests. */
  lemma TakerAfterwards(v: Venue, p: Policy, req: PlaceRequest) returns (i: nat)
    requires p.Valid() && Valid(v) && Place(v, p, req).Some?
    ensures var es, o, out := PlacedList(v, p, req), OrderOf(v, p, req), OutcomeOf(v, p, req);
            && i < |es| && UniqueIds(es) && es[i].order.id == req.id
            && SameTerms(es[i].order, o)
            && es[i].order.filled == Traded(out.fills) <= req.size
            && (es[i].order.state.IsResting() <==> o.tif != Ioc && Traded(out.fills) < req.size)
  {
    PlacedListIs(v, p, req);
    NewOrderIsListed(v, p, req);
    i := IndexOf(ListedOf(v, p, req), req.id);
    var t := TakerFilled(v, p, req, i);
  }

  lemma InStanding(es: seq<Entry>, i: nat, x: Entry)
    requires UniqueIds(es) && i < |es|
    ensures x in Standing(es) && x.order.id == es[i].order.id <==> x == es[i] && es[i].order.state.IsResting()
  {
    StandingMembers(es);
    if x in Standing(es) && x.order.id == es[i].order.id {
      var j :| 0 <= j < |es| && es[j] == x;
      IndexUnique(es, i);
      IndexUnique(es, j);
    }
  }

  lemma TradedIsCrossing(v: Venue, p: Policy, req: PlaceRequest)
    requires p.Valid() && Valid(v) && Place(v, p, req).Some? && req.kind == Limit
    ensures Traded(OutcomeOf(v, p, req).fills) == Min(req.size, CrossingUnits(v.resting, req))
  {
    var o := OrderOf(v, p, req);
    PartsAgree(v, p, req);
    QueueFacts(v, o.service, o.side.Opposite());
    WalkTrades(IncomingOf(o), Queue(v.resting, o.service, o.side.Opposite()), o.size);
    CrossingIsCrossing(v.resting, req, req.tif);
  }

  /**
  Which orders rest. After an accepted placement the new order is on the book exactly when it is a limit
  order that is not immediate-or-cancel and the units resting against it at its price or better come to
  less than its size; and then it rests under its own terms with exactly the untraded size left.
   */
  lemma RestsIff(v: Venue, p: Policy, req: PlaceRequest)
    requires p.Valid() && Valid(v) && Place(v, p, req).Some?
    ensures var z := Place(v, p, req).value;
            && ((exists e :: e in z.resting && e.order.id == req.id) <==>
                  req.kind == Limit && req.tif != Ioc && CrossingUnits(v.resting, req) < req.size)
            && forall e :: e in z.resting && e.order.id == req.id ==>
                 && SameRequest(e.order, req) && e.arrival == v.clock
                 && e.order.size - e.order.filled == req.size - CrossingUnits(v.resting, req)
  {
    var z := Place(v, p, req).value;
    var i := TakerAfterwards(v, p, req);
    var filled := PlacementLeaves(v, p, req);
    TermsAsAsked(v, p, req);
    var es := PlacedList(v, p, req);
    if req.kind == Limit {
      TradedIsCrossing(v, p, req);
    }
    InStanding(es, i, es[i]);
    forall e | e in z.resting && e.order.id == req.id
      ensures es[i].order.state.IsResting() && SameRequest(e.order, req) && e.arrival == v.clock && e == es[i]
    {
      InStanding(es, i, e);
      var k := KeptOrigin(v, p, OrderOf(v, p, req), OutcomeOf(v, p, req), filled, e);
    }
  }

  /** The order is the request, under the terms asked for. */
  predicate SameRequest(o: Order, req: PlaceRequest) {
    && o.service == req.service && o.user == req.user && o.side == req.side && o.kind == req.kind
    && o.tif == req.tif && o.price == req.price && o.size == req.size
  }

  /** Why an order that does not rest was cancelled: as the rest of an immediate order, or of a market one. */
  lemma CancelledFor(v: Venue, p: Policy, req: PlaceRequest) returns (i: nat)
    requires p.Valid() && Valid(v) && Place(v, p, req).Some?
    ensures var es, traded := PlacedList(v, p, req), Traded(OutcomeOf(v, p, req).fills);
            && i < |es| && es[i].order.id == req.id
            && (traded == req.size ==> es[i].order.state == Filled && es[i].order.cancelReason == None)
            && (traded < req.size && (req.kind == OrderKind.Market || req.tif == Ioc) ==>
                  && es[i].order.state == Cancelled
                  && es[i].order.cancelReason == Some(if req.kind == OrderKind.Market then MarketRemainder else IocRemainder))
  {
    i := TakerAfterwards(v, p, req);
    var t := TakerFilled(v, p, req, i);
    TermsAsAsked(v, p, req);
  }

  /** An order of the book before the placement, on the list after it. */
  lemma MakerAfterwards(v: Venue, p: Policy, req: PlaceRequest, e: Entry) returns (i: nat)
    requires p.Valid() && Valid(v) && Place(v, p, req).Some? && e in v.resting
    ensures var es, fills := PlacedList(v, p, req), OutcomeOf(v, p, req).fills;
            && i < |es| && UniqueIds(es) && es[i].order.id == e.order.id && es[i].arrival == e.arrival
            && SameTerms(es[i].order, e.order)
            && es[i].order.filled == e.order.filled + TakenFrom(fills, e.order.id) <= e.order.size
            && (es[i].order.state.IsResting() <==> e.order.filled + TakenFrom(fills, e.order.id) < e.order.size)
  {
    PlacedListIs(v, p, req);
    InsertMembers(v.resting, Entry(OrderOf(v, p, req), v.clock));
    InsertUnique(v.resting, Entry(OrderOf(v, p, req), v.clock));
    FindEntry(ListedOf(v, p, req), e);
    i := IndexOf(ListedOf(v, p, req), e.order.id);
    MakerFilled(v, p, req, e, i);
  }

  lemma MakerFilled(v: Venue, p: Policy, req: PlaceRequest, e: Entry, i: nat)
    requires p.Valid() && Valid(v) && Place(v, p, req).Some? && e in v.resting
    requires i < |ListedOf(v, p, req)| && ListedOf(v, p, req)[i] == e
    ensures var es, fills := PlacedList(v, p, req), OutcomeOf(v, p, req).fills;
            && i < |es| && es[i].order.filled == e.order.filled + TakenFrom(fills, e.order.id) <= e.order.size
            && (es[i].order.state.IsResting() <==> e.order.filled + TakenFrom(fills, e.order.id) < e.order.size)
  {
    var filled := PlacementLeaves(v, p, req);
    var es, o, out := ListedOf(v, p, req), OrderOf(v, p, req), OutcomeOf(v, p, req);
    assert e.order.id != o.id by {
      var j :| 0 <= j < |v.resting| && v.resting[j] == e;
    }
    MakersGain(es, o.id, out.fills, p, i);
    RecordAllTaker(es, o.id, out.fills, p);
    ListedIsLively(v, o);
    RecordAllLively(es, o.id, out.fills, p);
    OthersAreNotDropped(filled, o.id, out, i);
    assert Covered(filled[i].order);
  }

  lemma OthersAreNotDropped(es: seq<Entry>, taker: Uuid, out: Outcome, i: nat)
    requires i < |es| && es[i].order.id != taker
    ensures |DropRemainder(es, taker, out)| == |es| && DropRemainder(es, taker, out)[i] == es[i]
  {
  }

  /**
  What becomes of the others. Every order that rested gains exactly what the fills take from it, stays in
  its place with the rest while anything is left, and leaves the book exactly when nothing is; and nothing
  else comes onto it.
   */
  lemma OthersRestIff(v: Venue, p: Policy, req: PlaceRequest, e: Entry)
    requires p.Valid() && Valid(v) && Place(v, p, req).Some? && e in v.resting
    ensures var z, taken := Place(v, p, req).value, TakenFrom(OutcomeOf(v, p, req).fills, e.order.id);
            && taken <= e.order.size - e.order.filled
            && ((exists x :: x in z.resting && x.order.id == e.order.id) <==> taken < e.order.size - e.order.filled)
            && forall x :: x in z.resting && x.order.id == e.order.id ==>
                 SameTerms(x.order, e.order) && x.arrival == e.arrival && x.order.filled == e.order.filled + taken
  {
    var z := Place(v, p, req).value;
    var i := MakerAfterwards(v, p, req, e);
    var filled := PlacementLeaves(v, p, req);
    var es := PlacedList(v, p, req);
    InStanding(es, i, es[i]);
    forall x | x in z.resting && x.order.id == e.order.id ensures x == es[i] && es[i].order.state.IsResting() {
      InStanding(es, i, x);
    }
  }

  lemma NothingElseRests(v: Venue, p: Policy, req: PlaceRequest, x: Entry)
    requires p.Valid() && Valid(v) && Place(v, p, req).Some? && x in Place(v, p, req).value.resting
    ensures x.order.id == req.id || exists e :: e in v.resting && e.order.id == x.order.id && SameTerms(x.order, e.order)
  {
    var filled := PlacementLeaves(v, p, req);
    var i := KeptOrigin(v, p, OrderOf(v, p, req), OutcomeOf(v, p, req), filled, x);
  }

  // ----- over runs -----

  ghost predicate OnlyRestingKinds(es: seq<Entry>) {
    forall e :: e in es ==> e.order.kind == Limit && e.order.tif != Ioc
  }

  lemma NextKeepsKinds(v: Venue, s: Step)
    requires Valid(v) && OnlyRestingKinds(v.resting)
    ensures OnlyRestingKinds(Next(v, s).resting)
  {
    match s
    case PlaceStep(p, req) =>
      if p.Valid() && Place(v, p, req).Some? {
        RestsIff(v, p, req);
        forall x | x in Place(v, p, req).value.resting ensures x.order.kind == Limit && x.order.tif != Ioc {
          NothingElseRests(v, p, req, x);
        }
      }
    case CancelStep(user, id) => CancelKeepsValid(v, user, id);
    case LedgerStep(_) =>
  }

  lemma {:induction false} RunKeepsKinds(v: Venue, steps: seq<Step>)
    requires Valid(v) && OnlyRestingKinds(v.resting)
    ensures OnlyRestingKinds(Run(v, steps).resting)
    decreases |steps|
  {
    if steps != [] {
      NextKeepsKinds(v, steps[0]);
      NextKeepsValid(v, steps[0]);
      RunKeepsKinds(Next(v, steps[0]), steps[1..]);
    }
  }

  /** In every run from an empty book, no market order and no immediate-or-cancel order ever rests. */
  lemma OnlyLimitOrdersRest(steps: seq<Step>)
    ensures forall e :: e in Run(EMPTY, steps).resting ==> e.order.kind == Limit && e.order.tif != Ioc
  {
    assert Valid(EMPTY);
    RunKeepsKinds(EMPTY, steps);
  }
}
