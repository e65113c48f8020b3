/**
The order book and its escrow as one state machine over many users and products
(domain/src/book.rs). A placement locks the taker's escrow, settles each fill and releases whatever
reached a terminal state, in that order; a cancel releases one order. The ledger legs are those the
book's events state.
 */
module Venue {
  import opened Base
  import opened Money
  import opened Ledger
  import opened Pricing
  import opened Book
  import opened Matching

  /** The slug of the allocation every taker fee is paid to. */
  const FEE_ALLOCATION: ServiceId := "fee"

  /** An order on the book, numbered by arrival. */
  datatype Entry = Entry(order: Order, arrival: nat)

  /** Every resting order of every book, in priority order within each queue, and the ledger. */
  datatype Venue = Venue(resting: seq<Entry>, ledger: State, clock: nat)

  // ----- queues -----

  predicate SameQueue(a: Order, b: Order) {
    a.service == b.service && a.side == b.side
  }

  /** Whether a resting order of `side` at `price` outranks one at `other`. */
  predicate Better(side: Side, price: u128, other: u128) {
    match side
    case Buy => price > other
    case Sell => price < other
  }

  predicate Precedes(a: Entry, b: Entry) {
    || Better(a.order.side, a.order.price, b.order.price)
    || (a.order.price == b.order.price && a.arrival < b.arrival)
  }

  /** Each queue by price, then arrival. */
  ghost predicate Sorted(es: seq<Entry>) {
    forall i, j :: 0 <= i < j < |es| && SameQueue(es[i].order, es[j].order) ==> Precedes(es[i], es[j])
  }

  function InsertAt(es: seq<Entry>, o: Order): (k: nat)
    ensures k <= |es|
  {
    if es == [] then 0
    else if SameQueue(es[0].order, o) && Better(o.side, o.price, es[0].order.price) then 0
    else 1 + InsertAt(es[1..], o)
  }

  /** A new order goes behind everyone in its queue who is not strictly worse. */
  function Insert(es: seq<Entry>, e: Entry): seq<Entry> {
    var k := InsertAt(es, e.order);
    es[..k] + [e] + es[k..]
  }

  /** One side of one book, as handed to the engine. */
  function Queue(es: seq<Entry>, service: ServiceId, side: Side): seq<RestingOrder>
    decreases |es|
  {
    if es == [] then []
    else
      var o := es[0].order;
      if o.service == service && o.side == side
      then [RestingOrder(o.id, o.user, o.price, o.Remaining())] + Queue(es[1..], service, side)
      else Queue(es[1..], service, side)
  }

  // ----- ledger legs -----

  /** The ledger refuses a transfer of nothing, so a leg of zero is not posted. */
  function Leg(t: Transfer): seq<Op> {
    if t.amount == 0 then [] else [Post(t)]
  }

  function LockTransfer(o: Order): Transfer {
    match o.reserved
    case Units(units) => Transfer(BookShares(o.service, o.user), UserShares(o.service, o.user), units)
    case Cash(cash) => Transfer(UserClaim(o.user), BookCash(o.user), cash)
  }

  function UnitsTransfer(service: ServiceId, buyer: UserId, seller: UserId, size: nat): Transfer {
    Transfer(UserShares(service, buyer), BookShares(service, seller), size)
  }

  function CashTransfer(buyer: UserId, seller: UserId, notional: nat): Transfer {
    Transfer(BookCash(buyer), UserClaim(seller), notional)
  }

  /** The taker's fee: out of a buyer's escrow, or out of a seller's claim after the proceeds. */
  function FeeTransfer(taker: Side, buyer: UserId, seller: UserId, fee: nat): Transfer {
    Transfer(if taker == Buy then BookCash(buyer) else UserClaim(seller), ServiceClaim(FEE_ALLOCATION), fee)
  }

  function TradeOps(service: ServiceId, buyer: UserId, seller: UserId, taker: Side, size: nat, notional: nat, fee: nat): seq<Op> {
    Leg(UnitsTransfer(service, buyer, seller, size))
    + Leg(CashTransfer(buyer, seller, notional))
    + Leg(FeeTransfer(taker, buyer, seller, fee))
  }

  function ReleaseOps(o: Order): seq<Op> {
    match Release(o)
    case None => []
    case Some(Units(units)) => Leg(UnitsTransfer(o.service, o.user, o.user, units))
    case Some(Cash(cash)) => Leg(CashTransfer(o.user, o.user, cash))
  }

  // ----- steps -----

  datatype PlaceRequest = PlaceRequest(
    id: Uuid, service: ServiceId, user: UserId, side: Side, kind: OrderKind, tif: Tif, price: u128, size: u128)

  function IndexOf(es: seq<Entry>, id: Uuid): (i: nat)
    ensures i <= |es|
    ensures i < |es| ==> es[i].order.id == id
    ensures i == |es| ==> forall j :: 0 <= j < |es| ==> es[j].order.id != id
  {
    if es == [] then 0
    else if es[0].order.id == id then 0
    else
      var i := IndexOf(es[1..], id);
      assert forall j :: 0 < j < |es| ==> es[j] == es[1..][j - 1];
      1 + i
  }

  /** The price and lifetime an order trades under: a market order is priced from the best quote and is IOC. */
  function Priced(p: Policy, req: PlaceRequest, queue: seq<RestingOrder>): Option<(u128, Tif)>
    requires p.Valid()
  {
    match req.kind
    case Limit => if req.price == 0 || req.price % p.priceTick != 0 then None else Some((req.price, req.tif))
    case Market =>
      if queue == [] then None
      else
        var limit :- MarketLimit(p, req.side, queue[0].price);
        Some((limit, Ioc))
  }

  function ReserveFor(p: Policy, side: Side, size: u128, price: u128): Option<Locked>
    requires p.Valid()
  {
    match side
    case Sell => Some(Units(size))
    case Buy =>
      var cash :- BuyReserve(p, size, price);
      Some(Cash(cash))
  }

  /** One fill recorded on both orders, with the legs of the trade between them. */
  function RecordFill(es: seq<Entry>, taker: Uuid, f: Fill, p: Policy): Option<(seq<Entry>, seq<Op>)>
    requires p.Valid()
  {
    var ti, mi := IndexOf(es, taker), IndexOf(es, f.maker);
    if ti == |es| || mi == |es| || ti == mi then None
    else
      var t, m := es[ti].order, es[mi].order;
      var notional :- Value(f.price, f.size);
      var fee :- TakerFee(p, notional);
      var (t', rt) := FillOrder(t, f.size, f.price, fee);
      var (m', rm) := FillOrder(m, f.size, f.price, 0);
      if rt.Err? || rm.Err? then None
      else
        var (buyer, seller) := if t.side == Buy then (t.user, m.user) else (m.user, t.user);
        Some((es[ti := es[ti].(order := t')][mi := es[mi].(order := m')],
              TradeOps(t.service, buyer, seller, t.side, f.size, notional, fee)))
  }

  function SettleFills(es: seq<Entry>, l: State, taker: Uuid, fills: seq<Fill>, p: Policy): Option<(seq<Entry>, State)>
    requires p.Valid()
    decreases |fills|
  {
    if fills == [] then Some((es, l))
    else
      var (es', ops) :- RecordFill(es, taker, fills[0], p);
      var l' :- ApplyChain(l, ops);
      SettleFills(es', l', taker, fills[1..], p)
  }

  /** Whatever is terminal leaves the book and gets its escrow back. */
  function Sweep(es: seq<Entry>, l: State): Option<(seq<Entry>, State)>
    decreases |es|
  {
    if es == [] then Some((es, l))
    else
      var last := es[|es| - 1];
      var (kept, l') :- Sweep(es[..|es| - 1], l);
      if last.order.state.IsResting() then Some((kept + [last], l'))
      else
        var l'' :- ApplyChain(l', ReleaseOps(last.order));
        Some((kept, l''))
  }

  /** Cancel what may not rest. */
  function DropRemainder(es: seq<Entry>, taker: Uuid, out: Outcome): seq<Entry> {
    var ti := IndexOf(es, taker);
    if ti == |es| || out.remainder == 0 || out.rests then es
    else es[ti := es[ti].(order := CancelOrder(es[ti].order, RemainderReason(es[ti].order.kind)).0)]
  }

  /**
  A placement. `None` is a refusal, and a refusal leaves the venue as it was: the adapter decides
  and records a placement in one transaction.
   */
  function Place(v: Venue, p: Policy, req: PlaceRequest): Option<Venue>
    requires p.Valid()
  {
    if !p.bookOpen || req.size == 0 || req.size % p.lotSize != 0 || IndexOf(v.resting, req.id) < |v.resting| then None
    else
      var queue := Queue(v.resting, req.service, req.side.Opposite());
      var (price, tif) :- Priced(p, req, queue);
      var reserved :- ReserveFor(p, req.side, req.size, price);
      match Decide(Incoming(req.id, req.user, req.side, tif, price, req.size), queue)
      case Err(_) => None
      case Ok(out) =>
        var order := PlaceOrder(req.id, req.service, req.user, req.side, req.kind, tif, price, req.size, reserved);
        var locked :- ApplyChain(v.ledger, Leg(LockTransfer(order)));
        var (filled, traded) :- SettleFills(Insert(v.resting, Entry(order, v.clock)), locked, req.id, out.fills, p);
        var (kept, released) :- Sweep(DropRemainder(filled, req.id, out), traded);
        Some(Venue(kept, released, v.clock + 1))
  }

  /** The owner's cancel of a resting order. */
  function Cancel(v: Venue, user: UserId, id: Uuid): Option<Venue> {
    var i := IndexOf(v.resting, id);
    if i == |v.resting| || v.resting[i].order.user != user then None
    else
      var es := v.resting[i := v.resting[i].(order := CancelOrder(v.resting[i].order, UserRequest).0)];
      var (kept, l) :- Sweep(es, v.ledger);
      Some(Venue(kept, l, v.clock))
  }

  /** The escrow accounts only the book moves. */
  predicate IsEscrow(k: AccountKey) {
    k.BookCash? || k.BookShares?
  }

  predicate TouchesEscrow(t: Transfer) {
    IsEscrow(t.debit) || IsEscrow(t.credit)
  }

  /** Anything else the ledger does meanwhile, on accounts other than the book's. */
  function Elsewhere(v: Venue, op: Op): Option<Venue> {
    if (op.Post? && TouchesEscrow(op.transfer)) || (op.Reserve? && TouchesEscrow(op.reservation.transfer)) then None
    else
      var l :- Apply(v.ledger, op);
      Some(v.(ledger := l))
  }
}
