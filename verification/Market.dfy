/**
The book over whole runs: placements, cancels and any other ledger activity, in any interleaving,
over any number of users and products.
 */
module Market {
  import opened Base
  import opened Ledger
  import opened Book
  import opened Matching
  import opened Venue
  import opened VenueSafety
  import opened VenueRuns

  /** Within one product every bid is strictly below every ask. */
  ghost predicate Uncrossed(es: seq<Entry>) {
    forall x, y :: x in es && y in es && x.order.side == Buy && y.order.side == Sell && x.order.service == y.order.service
      ==> x.order.price < y.order.price
  }

  ghost predicate AllResting(es: seq<Entry>) {
    forall i :: 0 <= i < |es| ==> es[i].order.state.IsResting()
  }

  /** The invariant of the venue. */
  ghost predicate Valid(v: Venue) {
    && Working(v.resting, v.ledger)
    && AllResting(v.resting)
    && Sorted(v.resting)
    && Uncrossed(v.resting)
    && forall i :: 0 <= i < |v.resting| ==> v.resting[i].arrival < v.clock
  }

  // ----- a placement, step by step -----

  function IncomingOf(o: Order): Incoming {
    Incoming(o.id, o.user, o.side, o.tif, o.price, o.size)
  }

  /** An order just priced and reserved for a placement under `p`. */
  ghost predicate Fresh(p: Policy, o: Order)
    requires p.Valid()
  {
    && o.size > 0
    && o.filled == o.notional == o.fee == 0 && o.state == Open
    && (o.side == Sell ==> o.reserved == Units(o.size))
    && (o.side == Buy ==> BuyReserve(p, o.size, o.price).Some? && o.reserved == Cash(BuyReserve(p, o.size, o.price).value))
  }

  /** The engine accepted `o` with `out`, and the fills were recorded on the list with `o` inserted. */
  ghost predicate Placing(v: Venue, p: Policy, o: Order, out: Outcome, filled: seq<Entry>)
    requires p.Valid()
  {
    && Valid(v) && Fresh(p, o)
    && IndexOf(v.resting, o.id) == |v.resting|
    && Decide(IncomingOf(o), Queue(v.resting, o.service, o.side.Opposite())) == Ok(out)
    && RecordAll(Insert(v.resting, Entry(o, v.clock)), o.id, out.fills, p) == Some(filled)
  }

  lemma InsertMembers(es: seq<Entry>, e: Entry)
    ensures forall x :: x in Insert(es, e) <==> x in es || x == e
  {
    var k := InsertAt(es, e.order);
    assert es == es[..k] + es[k..];
  }

  lemma InsertIndex(es: seq<Entry>, e: Entry, i: nat)
    requires i <= |es|
    ensures var k := InsertAt(es, e.order);
            Insert(es, e)[i] == if i < k then es[i] else if i == k then e else es[i - 1]
  {
  }

  lemma InsertUnique(es: seq<Entry>, e: Entry)
    requires UniqueIds(es) && IndexOf(es, e.order.id) == |es|
    ensures UniqueIds(Insert(es, e))
  {
    var r := Insert(es, e);
    forall i, j | 0 <= i < j < |r| ensures r[i].order.id != r[j].order.id {
      InsertIndex(es, e, i);
      InsertIndex(es, e, j);
    }
  }

  lemma FindEntry(es: seq<Entry>, e: Entry)
    requires UniqueIds(es) && e in es
    ensures IndexOf(es, e.order.id) < |es|
    ensures es[IndexOf(es, e.order.id)] == e
  {
    var i :| 0 <= i < |es| && es[i] == e;
    IndexUnique(es, i);
  }

  lemma InsertCovered(es: seq<Entry>, e: Entry)
    requires AllCovered(es) && Covered(e.order)
    ensures AllCovered(Insert(es, e))
  {
    InsertMembers(es, e);
    var r := Insert(es, e);
    forall i | 0 <= i < |r| ensures Covered(r[i].order) {
      assert r[i] in r;
    }
  }

  lemma LegPosted(l: State, t: Transfer, l': State)
    requires Guarded(l) && ApplyChain(l, Leg(t)) == Some(l')
    ensures Guarded(l') && l'.open == l.open
    ensures forall k :: Balance(l', k) == Balance(l, k) + Effect(t, k)
  {
    if t.amount > 0 {
      assert Leg(t)[1..] == [] && Apply(l, Leg(t)[0]).Some?;
    }
    LegPosts(l, t);
    forall k ensures Balance(l', k) == Balance(l, k) + Effect(t, k) {
      assert Available(l', k) == Available(l, k) + Effect(t, k);
    }
  }

  /** The lock brings into the escrow accounts what the order has in escrow. */
  lemma LockMoves(p: Policy, o: Order, k: AccountKey)
    requires p.Valid() && Fresh(p, o) && IsEscrow(k)
    ensures Effect(LockTransfer(o), k) == ShareOf(o, k)
  {
    PlacedCovered(p, o);
  }

  /** Locking the taker's escrow backs the list with the taker on it. */
  lemma LockBacks(v: Venue, p: Policy, o: Order, locked: State)
    requires p.Valid() && Valid(v) && Fresh(p, o)
    requires IndexOf(v.resting, o.id) == |v.resting|
    requires ApplyChain(v.ledger, Leg(LockTransfer(o))) == Some(locked)
    ensures Working(Insert(v.resting, Entry(o, v.clock)), locked)
  {
    var e := Entry(o, v.clock);
    PlacedCovered(p, o);
    InsertCovered(v.resting, e);
    InsertUnique(v.resting, e);
    LegPosted(v.ledger, LockTransfer(o), locked);
    forall k | IsEscrow(k) ensures Balance(locked, k) == EscrowOf(Insert(v.resting, e), k) {
      EscrowInsert(v.resting, e, k);
      LockMoves(p, o, k);
      HeldClear(v.ledger.open, k);
    }
  }

  /** What the engine is handed: best first, positive, one entry of the book for each. */
  lemma QueueFacts(v: Venue, service: ServiceId, side: Side)
    requires Valid(v)
    ensures var q := Queue(v.resting, service, side);
            && BestFirst(side.Opposite(), q)
            && DistinctQueue(q)
            && forall i :: 0 <= i < |q| ==> q[i].remaining > 0
  {
    QueueBestFirst(v.resting, service, side);
    QueueDistinct(v.resting, service, side);
    QueueMembers(v.resting, service, side);
    var q := Queue(v.resting, service, side);
    forall i | 0 <= i < |q| ensures q[i].remaining > 0 {
      assert q[i] in q;
      var e :| e in v.resting && e.order.service == service && e.order.side == side && AsResting(e.order) == q[i];
    }
  }

  /** Each fill the engine decides is one both orders can take. */
  lemma FillMatches(v: Venue, p: Policy, o: Order, out: Outcome, i: nat)
    requires p.Valid() && Valid(v) && Fresh(p, o)
    requires IndexOf(v.resting, o.id) == |v.resting|
    requires Decide(IncomingOf(o), Queue(v.resting, o.service, o.side.Opposite())) == Ok(out)
    requires i < |out.fills|
    requires out.fills[i].size <= o.size
    ensures Matches(Insert(v.resting, Entry(o, v.clock)), o.id, out.fills[i])
  {
    var es, e := Insert(v.resting, Entry(o, v.clock)), Entry(o, v.clock);
    var q := Queue(v.resting, o.service, o.side.Opposite());
    QueueFacts(v, o.service, o.side.Opposite());
    QueueMembers(v.resting, o.service, o.side.Opposite());
    WalkFollowsQueue(IncomingOf(o), q, o.size);
    WalkFillsAreFair(IncomingOf(o), q, o.size);
    assert q[i] in q;
    var m :| m in v.resting && m.order.service == o.service && m.order.side == o.side.Opposite() && AsResting(m.order) == q[i];
    InsertMembers(v.resting, e);
    InsertUnique(v.resting, e);
    FindEntry(es, e);
    FindEntry(es, m);
  }

  lemma ReadyToSettle(v: Venue, p: Policy, o: Order, out: Outcome)
    requires p.Valid() && Valid(v) && Fresh(p, o)
    requires IndexOf(v.resting, o.id) == |v.resting|
    requires Decide(IncomingOf(o), Queue(v.resting, o.service, o.side.Opposite())) == Ok(out)
    ensures Ready(Insert(v.resting, Entry(o, v.clock)), o.id, out.fills, p)
  {
    var es, e := Insert(v.resting, Entry(o, v.clock)), Entry(o, v.clock);
    var q := Queue(v.resting, o.service, o.side.Opposite());
    PlacedCovered(p, o);
    InsertCovered(v.resting, e);
    InsertUnique(v.resting, e);
    InsertMembers(v.resting, e);
    FindEntry(es, e);
    QueueFacts(v, o.service, o.side.Opposite());
    WalkTrades(IncomingOf(o), q, o.size);
    WalkFollowsQueue(IncomingOf(o), q, o.size);
    forall i | 0 <= i < |out.fills| ensures Matches(es, o.id, out.fills[i]) {
      TradedSplit(out.fills, i);
      FillMatches(v, p, o, out, i);
    }
  }

  // ----- what is left on the book -----

  lemma DropKeepsOrders(es: seq<Entry>, taker: Uuid, out: Outcome)
    ensures SameOrders(es, DropRemainder(es, taker, out))
    ensures forall i :: 0 <= i < |es| && i != IndexOf(es, taker) ==> DropRemainder(es, taker, out)[i] == es[i]
  {
  }

  lemma SameOrdersSorted(es: seq<Entry>, es': seq<Entry>)
    requires SameOrders(es, es') && Sorted(es)
    ensures Sorted(es')
  {
    forall i, j | 0 <= i < j < |es'| && SameQueue(es'[i].order, es'[j].order) ensures Precedes(es'[i], es'[j]) {
      assert Precedes(es[i], es[j]);
    }
  }

  lemma SameOrdersUnique(es: seq<Entry>, es': seq<Entry>)
    requires SameOrders(es, es') && UniqueIds(es)
    ensures UniqueIds(es')
  {
  }

  lemma CancelKeeps(o: Order, reason: CancelReason)
    requires Covered(o)
    ensures Covered(CancelOrder(o, reason).0)
    ensures Escrow(CancelOrder(o, reason).0) == Escrow(o)
    ensures SameTerms(CancelOrder(o, reason).0, o)
  {
  }

  /** Cancelling one entry in place moves no escrow. */
  lemma CancelAtKeeps(es: seq<Entry>, l: State, i: nat, reason: CancelReason)
    requires Working(es, l) && i < |es|
    ensures Working(es[i := es[i].(order := CancelOrder(es[i].order, reason).0)], l)
  {
    CancelKeeps(es[i].order, reason);
    var e := es[i].(order := CancelOrder(es[i].order, reason).0);
    SameOrdersUnique(es, es[i := e]);
    forall k | IsEscrow(k) ensures Balance(l, k) == EscrowOf(es[i := e], k) {
      EscrowUpdate(es, i, e, k);
    }
  }

  /** Sweeping a working list leaves a working book of resting orders. */
  lemma SweepWorks(es: seq<Entry>, l: State)
    requires Working(es, l) && Live(es)
    ensures Sweep(es, l).Some?
    ensures var (kept, l') := Sweep(es, l).value;
            kept == Standing(es) && Working(kept, l') && AllResting(kept)
  {
    SweepReleases(es, l);
    StandingMembers(es);
    StandingUnique(es);
    var (kept, l') := Sweep(es, l).value;
    forall i | 0 <= i < |kept| ensures Covered(kept[i].order) && kept[i].order.state.IsResting() {
      assert kept[i] in kept;
    }
    assert Backed(kept, l');
  }

  lemma RecordFillLive(es: seq<Entry>, taker: Uuid, f: Fill, p: Policy)
    requires p.Valid() && Live(es)
    requires RecordFill(es, taker, f, p).Some?
    ensures Live(RecordFill(es, taker, f, p).value.0)
  {
  }

  /** Recording fills never rejects an order. */
  lemma {:induction false} RecordAllLive(es: seq<Entry>, taker: Uuid, fills: seq<Fill>, p: Policy)
    requires p.Valid() && Live(es)
    requires RecordAll(es, taker, fills, p).Some?
    ensures Live(RecordAll(es, taker, fills, p).value)
    decreases |fills|
  {
    if fills != [] {
      RecordFillLive(es, taker, fills[0], p);
      RecordAllLive(RecordFill(es, taker, fills[0], p).value.0, taker, fills[1..], p);
    }
  }

  /** An opposite order that survives a placement whose remainder rests did not cross it. */
  lemma SurvivorsDoNotCross(v: Venue, p: Policy, o: Order, out: Outcome, filled: seq<Entry>, j: nat)
    requires p.Valid() && Placing(v, p, o, out, filled)
    requires out.remainder > 0
    requires var es := Insert(v.resting, Entry(o, v.clock));
             j < |es| == |filled| && es[j] in v.resting
             && es[j].order.service == o.service && es[j].order.side == o.side.Opposite()
             && filled[j].order.state.IsResting()
    ensures !Crosses(IncomingOf(o), AsResting(Insert(v.resting, Entry(o, v.clock))[j].order))
  {
    var es := Insert(v.resting, Entry(o, v.clock));
    var q := Queue(v.resting, o.service, o.side.Opposite());
    ReadyToSettle(v, p, o, out);
    RecordAllTaker(es, o.id, out.fills, p);
    QueueFacts(v, o.service, o.side.Opposite());
    QueueMembers(v.resting, o.service, o.side.Opposite());
    LeftoverConsumesCrossing(IncomingOf(o), q, o.size);
    var r := AsResting(es[j].order);
    assert r in q;
    var k :| 0 <= k < |q| && q[k] == r;
    assert Covered(filled[j].order);
    if Crosses(IncomingOf(o), r) {
      RecordAllMaker(es, o.id, out.fills, p, k);
      IndexUnique(es, j);
    }
  }

  /** After the fills, a taker still resting has a remainder. */
  lemma RestingTakerHasRemainder(v: Venue, p: Policy, o: Order, out: Outcome, filled: seq<Entry>)
    requires p.Valid() && Placing(v, p, o, out, filled)
    requires |filled| == |Insert(v.resting, Entry(o, v.clock))|
    requires IndexOf(filled, o.id) < |filled|
    requires DropRemainder(filled, o.id, out)[IndexOf(filled, o.id)].order.state.IsResting()
    ensures out.remainder > 0
  {
    var es, e := Insert(v.resting, Entry(o, v.clock)), Entry(o, v.clock);
    var q := Queue(v.resting, o.service, o.side.Opposite());
    ReadyToSettle(v, p, o, out);
    RecordAllTaker(es, o.id, out.fills, p);
    InsertMembers(v.resting, e);
    InsertUnique(v.resting, e);
    FindEntry(es, e);
    SameOrdersIndex(es, filled, o.id);
    QueueFacts(v, o.service, o.side.Opposite());
    WalkTrades(IncomingOf(o), q, o.size);
    assert Covered(filled[IndexOf(filled, o.id)].order);
  }

  /** Entry `i` of the final list, and the entry of the same terms it came from. */
  lemma KeptPlace(v: Venue, p: Policy, o: Order, out: Outcome, filled: seq<Entry>, x: Entry) returns (i: nat)
    requires p.Valid() && Placing(v, p, o, out, filled)
    requires x in Standing(DropRemainder(filled, o.id, out))
    ensures var es := Insert(v.resting, Entry(o, v.clock));
            && |filled| == |es| && i < |es| && SameOrders(es, filled)
            && DropRemainder(filled, o.id, out)[i] == x
            && SameTerms(x.order, es[i].order) && x.arrival == es[i].arrival
            && x.order.state.IsResting()
  {
    var es := Insert(v.resting, Entry(o, v.clock));
    var dropped := DropRemainder(filled, o.id, out);
    StandingMembers(dropped);
    ReadyToSettle(v, p, o, out);
    RecordAllTaker(es, o.id, out.fills, p);
    DropKeepsOrders(filled, o.id, out);
    SameOrdersTrans(es, filled, dropped);
    i :| 0 <= i < |dropped| && dropped[i] == x;
  }

  /** Entry `i` of the list with the taker on it is the taker's exactly when it has its id. */
  lemma TakersPlace(v: Venue, o: Order, i: nat)
    requires UniqueIds(v.resting) && IndexOf(v.resting, o.id) == |v.resting|
    requires i < |Insert(v.resting, Entry(o, v.clock))|
    ensures var es := Insert(v.resting, Entry(o, v.clock));
            if es[i].order.id == o.id then es[i] == Entry(o, v.clock) && IndexOf(es, o.id) == i else es[i] in v.resting
  {
    var es, e := Insert(v.resting, Entry(o, v.clock)), Entry(o, v.clock);
    InsertMembers(v.resting, e);
    InsertUnique(v.resting, e);
    FindEntry(es, e);
    IndexUnique(es, i);
    assert es[i] in es;
  }

  /** What became of it: the taker rests with a remainder, and the others are as the fills left them. */
  lemma KeptOrigin(v: Venue, p: Policy, o: Order, out: Outcome, filled: seq<Entry>, x: Entry) returns (i: nat)
    requires p.Valid() && Placing(v, p, o, out, filled)
    requires x in Standing(DropRemainder(filled, o.id, out))
    ensures var es := Insert(v.resting, Entry(o, v.clock));
            && |filled| == |es| && i < |es|
            && DropRemainder(filled, o.id, out)[i] == x
            && SameTerms(x.order, es[i].order) && x.arrival == es[i].arrival
            && x.order.state.IsResting()
            && (es[i].order.id == o.id ==> es[i] == Entry(o, v.clock) && out.remainder > 0)
            && (es[i].order.id != o.id ==> es[i] in v.resting && filled[i] == x)
  {
    i := KeptPlace(v, p, o, out, filled, x);
    var es := Insert(v.resting, Entry(o, v.clock));
    TakersPlace(v, o, i);
    SameOrdersIndex(es, filled, o.id);
    if es[i].order.id == o.id {
      RestingTakerHasRemainder(v, p, o, out, filled);
    }
  }

  lemma PlacementUncrossed(v: Venue, p: Policy, o: Order, out: Outcome, filled: seq<Entry>)
    requires p.Valid() && Placing(v, p, o, out, filled)
    ensures Uncrossed(Standing(DropRemainder(filled, o.id, out)))
  {
    var es := Insert(v.resting, Entry(o, v.clock));
    var kept := Standing(DropRemainder(filled, o.id, out));
    forall x, y | x in kept && y in kept && x.order.side == Buy && y.order.side == Sell && x.order.service == y.order.service
      ensures x.order.price < y.order.price
    {
      var i := KeptOrigin(v, p, o, out, filled, x);
      var j := KeptOrigin(v, p, o, out, filled, y);
      if es[i].order.id == o.id {
        SurvivorsDoNotCross(v, p, o, out, filled, j);
      } else if es[j].order.id == o.id {
        SurvivorsDoNotCross(v, p, o, out, filled, i);
      }
    }
  }

  lemma PlacementOrdered(v: Venue, p: Policy, o: Order, out: Outcome, filled: seq<Entry>)
    requires p.Valid() && Placing(v, p, o, out, filled)
    ensures var kept := Standing(DropRemainder(filled, o.id, out));
            Sorted(kept) && forall i :: 0 <= i < |kept| ==> kept[i].arrival < v.clock + 1
  {
    var es, e := Insert(v.resting, Entry(o, v.clock)), Entry(o, v.clock);
    var dropped := DropRemainder(filled, o.id, out);
    InsertSorted(v.resting, e);
    ReadyToSettle(v, p, o, out);
    RecordAllTaker(es, o.id, out.fills, p);
    DropKeepsOrders(filled, o.id, out);
    SameOrdersTrans(es, filled, dropped);
    SameOrdersSorted(es, dropped);
    StandingSorted(dropped);
    InsertMembers(v.resting, e);
    var kept := Standing(dropped);
    forall i | 0 <= i < |kept| ensures kept[i].arrival < v.clock + 1 {
      var j := KeptOrigin(v, p, o, out, filled, kept[i]);
      assert es[j] in es;
    }
  }

  lemma DropWorks(es: seq<Entry>, l: State, taker: Uuid, out: Outcome)
    requires Working(es, l) && Live(es)
    ensures Working(DropRemainder(es, taker, out), l) && Live(DropRemainder(es, taker, out))
  {
    var ti := IndexOf(es, taker);
    if ti < |es| {
      CancelAtKeeps(es, l, ti, RemainderReason(es[ti].order.kind));
    }
  }

  /**
  Once the taker's lock is posted and the orders accept their fills, the whole placement goes
  through: the ledger refuses no trade and no release, and the venue is valid again.
   */
  lemma PlacementGoesThrough(v: Venue, p: Policy, o: Order, out: Outcome, filled: seq<Entry>, locked: State)
    requires p.Valid() && Placing(v, p, o, out, filled)
    requires ApplyChain(v.ledger, Leg(LockTransfer(o))) == Some(locked)
    ensures var es := Insert(v.resting, Entry(o, v.clock));
            && SettleFills(es, locked, o.id, out.fills, p).Some?
            && var (filled', traded) := SettleFills(es, locked, o.id, out.fills, p).value;
               && filled' == filled
               && Sweep(DropRemainder(filled, o.id, out), traded).Some?
               && var (kept, released) := Sweep(DropRemainder(filled, o.id, out), traded).value;
                  Valid(Venue(kept, released, v.clock + 1))
  {
    var es := Insert(v.resting, Entry(o, v.clock));
    LockBacks(v, p, o, locked);
    ReadyToSettle(v, p, o, out);
    LedgerSettlesWhatOrdersAccept(es, locked, o.id, out.fills, p);
    var (_, traded) := SettleFills(es, locked, o.id, out.fills, p).value;
    InsertLive(v, o);
    RecordAllLive(es, o.id, out.fills, p);
    DropWorks(filled, traded, o.id, out);
    SweepWorks(DropRemainder(filled, o.id, out), traded);
    PlacementUncrossed(v, p, o, out, filled);
    PlacementOrdered(v, p, o, out, filled);
  }

  lemma InsertLive(v: Venue, o: Order)
    requires Valid(v) && o.state == Open
    ensures Live(Insert(v.resting, Entry(o, v.clock)))
  {
    var es := Insert(v.resting, Entry(o, v.clock));
    InsertMembers(v.resting, Entry(o, v.clock));
    forall i | 0 <= i < |es| ensures es[i].order.state != Rejected {
      assert es[i] in es;
    }
  }

  // ----- runs -----

  datatype Step =
    | PlaceStep(policy: Policy, request: PlaceRequest)
    | CancelStep(user: UserId, id: Uuid)
    | LedgerStep(op: Op)

  /** A step taken, or refused and nothing changed. Policies are those the domain can construct. */
  function Next(v: Venue, s: Step): Venue {
    match s
    case PlaceStep(policy, request) => if policy.Valid() then Place(v, policy, request).GetOr(v) else v
    case CancelStep(user, id) => Cancel(v, user, id).GetOr(v)
    case LedgerStep(op) => Elsewhere(v, op).GetOr(v)
  }

  function Run(v: Venue, steps: seq<Step>): Venue
    decreases |steps|
  {
    if steps == [] then v else Run(Next(v, steps[0]), steps[1..])
  }

  const EMPTY: Venue := Venue([], State([], []), 0)

  lemma PlaceKeepsValid(v: Venue, p: Policy, req: PlaceRequest)
    requires p.Valid() && Valid(v)
    requires Place(v, p, req).Some?
    ensures Valid(Place(v, p, req).value)
  {
    var queue := Queue(v.resting, req.service, req.side.Opposite());
    var (price, tif) := Priced(p, req, queue).value;
    var reserved := ReserveFor(p, req.side, req.size, price).value;
    var o := PlaceOrder(req.id, req.service, req.user, req.side, req.kind, tif, price, req.size, reserved);
    var out := Decide(IncomingOf(o), queue).value;
    var locked := ApplyChain(v.ledger, Leg(LockTransfer(o))).value;
    LockBacks(v, p, o, locked);
    ReadyToSettle(v, p, o, out);
    LedgerSettlesWhatOrdersAccept(Insert(v.resting, Entry(o, v.clock)), locked, o.id, out.fills, p);
    var filled := RecordAll(Insert(v.resting, Entry(o, v.clock)), o.id, out.fills, p).value;
    PlacementGoesThrough(v, p, o, out, filled, locked);
  }

  /** The book with entry `i` cancelled in place, and what then stands. */
  function Cancelling(es: seq<Entry>, i: nat): seq<Entry>
    requires i < |es|
  {
    es[i := es[i].(order := CancelOrder(es[i].order, UserRequest).0)]
  }

  lemma CancelledStanding(v: Venue, i: nat)
    requires Valid(v) && i < |v.resting|
    ensures forall x :: x in Standing(Cancelling(v.resting, i)) <==> x in v.resting && x.order.id != v.resting[i].order.id
  {
    var es := Cancelling(v.resting, i);
    StandingMembers(es);
    forall x ensures x in Standing(es) <==> x in v.resting && x.order.id != v.resting[i].order.id {
      if x in v.resting && x.order.id != v.resting[i].order.id {
        var j :| 0 <= j < |v.resting| && v.resting[j] == x;
        assert es[j] == x;
      }
      if x in Standing(es) {
        var j :| 0 <= j < |es| && es[j] == x;
        assert j != i && v.resting[j] == x;
        IndexUnique(v.resting, j);
        IndexUnique(v.resting, i);
      }
    }
  }

  lemma CancelledValid(v: Venue, i: nat)
    requires Valid(v) && i < |v.resting|
    ensures Sweep(Cancelling(v.resting, i), v.ledger).Some?
    ensures var (kept, l) := Sweep(Cancelling(v.resting, i), v.ledger).value;
            kept == Standing(Cancelling(v.resting, i)) && Valid(Venue(kept, l, v.clock))
  {
    var es := Cancelling(v.resting, i);
    CancelAtKeeps(v.resting, v.ledger, i, UserRequest);
    SweepWorks(es, v.ledger);
    SameOrdersSorted(v.resting, es);
    StandingSorted(es);
    CancelledStanding(v, i);
    var kept := Standing(es);
    forall j | 0 <= j < |kept| ensures kept[j].arrival < v.clock {
      assert kept[j] in kept;
    }
  }

  /** A cancel of one's own resting order is never refused, and takes away that order alone. */
  lemma CancelKeepsValid(v: Venue, user: UserId, id: Uuid)
    requires Valid(v)
    ensures Cancel(v, user, id).Some? <==> exists e :: e in v.resting && e.order.id == id && e.order.user == user
    ensures Cancel(v, user, id).Some? ==>
              && Valid(Cancel(v, user, id).value)
              && forall e :: e in Cancel(v, user, id).value.resting <==> e in v.resting && e.order.id != id
  {
    var i := IndexOf(v.resting, id);
    forall e | e in v.resting && e.order.id == id ensures i < |v.resting| && e == v.resting[i] {
      FindEntry(v.resting, e);
    }
    if i < |v.resting| {
      CancelledValid(v, i);
      CancelledStanding(v, i);
      assert v.resting[i] in v.resting;
    }
  }

  lemma ElsewhereKeepsValid(v: Venue, op: Op)
    requires Valid(v)
    requires Elsewhere(v, op).Some?
    ensures Valid(Elsewhere(v, op).value)
  {
    var l := Elsewhere(v, op).value.ledger;
    ApplyKeepsGuard(v.ledger, op);
    match op {
      case Post(t) =>
        forall k | IsEscrow(k) ensures Balance(l, k) == Balance(v.ledger, k) {
          PostedAppend(v.ledger.posted, t, k);
        }
      case Reserve(r) =>
      case Settle(id) =>
        ReservedTransferFinds(v.ledger.open, id);
        WithoutIsSublist(v.ledger.open, id);
        OpenClearWithout(v.ledger.open, id);
        forall k | IsEscrow(k) ensures Balance(l, k) == Balance(v.ledger, k) {
          PostedAppend(v.ledger.posted, ReservedTransfer(v.ledger.open, id).value, k);
        }
      case Void(id) =>
        OpenClearWithout(v.ledger.open, id);
    }
  }

  lemma OpenClearWithout(open: seq<Reservation>, id: ReservationId)
    requires OpenClear(open)
    ensures OpenClear(Without(open, id))
  {
    WithoutIsSublist(open, id);
    var w := Without(open, id);
    forall i | 0 <= i < |w| ensures !TouchesEscrow(w[i].transfer) {
      assert w[i] in open;
    }
  }

  lemma NextKeepsValid(v: Venue, s: Step)
    requires Valid(v)
    ensures Valid(Next(v, s))
  {
    match s
    case PlaceStep(policy, request) =>
      if policy.Valid() && Place(v, policy, request).Some? {
        PlaceKeepsValid(v, policy, request);
      }
    case CancelStep(user, id) => CancelKeepsValid(v, user, id);
    case LedgerStep(op) =>
      if Elsewhere(v, op).Some? {
        ElsewhereKeepsValid(v, op);
      }
  }

  lemma {:induction false} RunKeepsValid(v: Venue, steps: seq<Step>)
    requires Valid(v)
    ensures Valid(Run(v, steps))
    decreases |steps|
  {
    if steps != [] {
      NextKeepsValid(v, steps[0]);
      RunKeepsValid(Next(v, steps[0]), steps[1..]);
    }
  }

  /** What each user has in escrow, summed over their resting orders. */
  ghost function CashInOrders(es: seq<Entry>, user: UserId): int {
    if es == [] then 0
    else
      var o := es[|es| - 1].order;
      CashInOrders(es[..|es| - 1], user)
      + if o.side == Buy && o.user == user && o.reserved.Cash? then o.reserved.cash - o.notional - o.fee else 0
  }

  ghost function UnitsInOrders(es: seq<Entry>, service: ServiceId, user: UserId): int {
    if es == [] then 0
    else
      var o := es[|es| - 1].order;
      UnitsInOrders(es[..|es| - 1], service, user)
      + if o.side == Sell && o.user == user && o.service == service && o.reserved.Units? then o.reserved.units - o.filled else 0
  }

  lemma {:induction false} EscrowMeaning(es: seq<Entry>, service: ServiceId, user: UserId)
    requires AllCovered(es)
    ensures EscrowOf(es, BookCash(user)) == CashInOrders(es, user)
    ensures EscrowOf(es, BookShares(service, user)) == UnitsInOrders(es, service, user)
  {
    if es != [] {
      EscrowMeaning(es[..|es| - 1], service, user);
    }
  }

  /**
  The book's guarantee. In every run from an empty book, whatever else the ledger does: each user's
  cash escrow is exactly what their resting buys have not spent, each unit escrow exactly what their
  resting sells have not sold; queues are sorted by price then arrival; every resting order has
  something left; the best bid is strictly below the best ask; and no guarded account is negative.
   */
  lemma EveryRunIsSafe(steps: seq<Step>, service: ServiceId, user: UserId)
    ensures var v := Run(EMPTY, steps);
            && Balance(v.ledger, BookCash(user)) == CashInOrders(v.resting, user)
            && Balance(v.ledger, BookShares(service, user)) == UnitsInOrders(v.resting, service, user)
            && Sorted(v.resting)
            && Uncrossed(v.resting)
            && (forall i :: 0 <= i < |v.resting| ==> v.resting[i].order.state.IsResting() && v.resting[i].order.Remaining() > 0)
            && Guarded(v.ledger)
  {
    assert Valid(EMPTY);
    RunKeepsValid(EMPTY, steps);
    var v := Run(EMPTY, steps);
    EscrowMeaning(v.resting, service, user);
    assert IsEscrow(BookCash(user)) && IsEscrow(BookShares(service, user));
    forall i | 0 <= i < |v.resting| ensures v.resting[i].order.Remaining() > 0 {
      assert Covered(v.resting[i].order);
    }
  }
}
