/**
Orders of the secondary market (domain/src/book.rs): the trading terms, the escrow an order
commits, and an order's life from placement to release.
 */
module Book {
  import opened Base
  import opened Money
  import opened Ledger
  import opened Pricing

  const BPS_DENOMINATOR: nat := 10_000

  datatype Side = Buy | Sell {
    function Opposite(): Side {
      if this == Buy then Sell else Buy
    }
  }

  datatype OrderKind = Limit | Market

  datatype Tif = Gtc | Ioc | Alo

  datatype OrderState = Open | PartiallyFilled | Filled | Cancelled | Rejected {
    predicate IsResting() {
      Open? || PartiallyFilled?
    }
  }

  datatype CancelReason = UserRequest | IocRemainder | MarketRemainder

  function RemainderReason(kind: OrderKind): CancelReason {
    match kind
    case Market => MarketRemainder
    case Limit => IocRemainder
  }

  /** The commitment behind an order, in units when selling and in cash when buying. */
  datatype Locked = Units(units: u128) | Cash(cash: u128) {
    predicate IsZero() {
      match this
      case Units(u) => u == 0
      case Cash(c) => c == 0
    }
  }

  /** One allocation's trading terms. */
  datatype Policy = Policy(bookOpen: bool, takerFeeBps: nat, priceTick: u128, lotSize: u128, slippageBps: nat) {
    predicate Valid() {
      takerFeeBps <= BPS_DENOMINATOR && slippageBps <= BPS_DENOMINATOR && priceTick > 0 && lotSize > 0
    }
  }

  /** The fee side of one fill, rounded down. */
  function TakerFee(p: Policy, notional: u128): Option<u128>
    requires p.Valid()
  {
    MulDivFloor(notional, p.takerFeeBps, BPS_DENOMINATOR)
  }

  /** The cash a buy commits: its notional at the limit and the taker fee on it. */
  function BuyReserve(p: Policy, size: u128, price: u128): Option<u128>
    requires p.Valid()
  {
    var notional :- Value(price, size);
    var fee :- TakerFee(p, notional);
    CheckedAdd(notional, fee)
  }

  /** The fee always exists and never exceeds its notional, whatever valid rate is set. */
  lemma TakerFeeBound(p: Policy, notional: u128)
    requires p.Valid()
    ensures TakerFee(p, notional).Some?
    ensures TakerFee(p, notional).value <= notional
    ensures TakerFee(p, notional).value * BPS_DENOMINATOR <= notional * p.takerFeeBps
  {
    MulMono(p.takerFeeBps, BPS_DENOMINATOR, notional);
    MulDivWithin(notional, p.takerFeeBps, BPS_DENOMINATOR, notional);
    MulDivBracket(notional, p.takerFeeBps, BPS_DENOMINATOR);
  }

  /** The fee is the rate on the notional with the fraction of a base unit dropped, for every valid rate. */
  lemma TakerFeeIsTheRate(p: Policy, notional: u128)
    requires p.Valid()
    ensures TakerFee(p, notional).Some?
    ensures TakerFee(p, notional).value * 10_000 <= notional * p.takerFeeBps < (TakerFee(p, notional).value + 1) * 10_000
  {
    TakerFeeBound(p, notional);
    MulDivBracket(notional, p.takerFeeBps, BPS_DENOMINATOR);
  }

  /** A buy commits its notional at the limit and the fee on it, each rounded down, exactly when they fit together. */
  lemma BuyReserveIs(p: Policy, size: u128, price: u128)
    requires p.Valid()
    ensures BuyReserve(p, size, price).Some? ==>
              && Value(price, size).Some?
              && var fee := BuyReserve(p, size, price).value - Value(price, size).value;
                 fee * 10_000 <= Value(price, size).value * p.takerFeeBps < (fee + 1) * 10_000
    ensures BuyReserve(p, size, price).None? <==>
              || size * price >= TWO128 * SCALE
              || (Value(price, size).Some? && Value(price, size).value * (10_000 + p.takerFeeBps) >= TWO128 * 10_000)
  {
    MulDivIsFloor(size, price, SCALE);
    if Value(price, size).Some? {
      TakerFeeIsTheRate(p, Value(price, size).value);
    }
  }

  // ----- the market order's limit -----

  function FloorTo(price: u128, tick: u128): u128 {
    if tick == 0 then price else price - price % tick
  }

  function CeilTo(price: u128, tick: u128): u128 {
    if tick == 0 || price % tick == 0 then price
    else if FloorTo(price, tick) + tick < TWO128 then FloorTo(price, tick) + tick else U128_MAX
  }

  function MarketLimit(p: Policy, side: Side, best: u128): Option<u128>
    requires p.Valid()
  {
    var limit :- match side {
      case Buy =>
        var scaled :- MulDivFloor(best, BPS_DENOMINATOR + p.slippageBps, BPS_DENOMINATOR);
        Some(CeilTo(scaled, p.priceTick))
      case Sell =>
        var scaled :- MulDivFloor(best, BPS_DENOMINATOR - p.slippageBps, BPS_DENOMINATOR);
        Some(FloorTo(scaled, p.priceTick))
    };
    if limit == 0 then None else Some(limit)
  }

  /** The rounding widens: a market order's limit always reaches the quote it was priced from. */
  lemma MarketLimitReachesBest(p: Policy, side: Side, best: u128)
    requires p.Valid()
    requires MarketLimit(p, side, best).Some?
    ensures side == Buy ==> best <= MarketLimit(p, side, best).value
    ensures side == Sell ==> MarketLimit(p, side, best).value <= best
  {
    match side
    case Buy =>
      var scaled := MulDivFloor(best, BPS_DENOMINATOR + p.slippageBps, BPS_DENOMINATOR).value;
      MulMono(BPS_DENOMINATOR, BPS_DENOMINATOR + p.slippageBps, best);
      MulDivBracket(best, BPS_DENOMINATOR + p.slippageBps, BPS_DENOMINATOR);
      assert best <= scaled <= CeilTo(scaled, p.priceTick);
    case Sell =>
      var scaled := MulDivFloor(best, BPS_DENOMINATOR - p.slippageBps, BPS_DENOMINATOR).value;
      MulMono(BPS_DENOMINATOR - p.slippageBps, BPS_DENOMINATOR, best);
      MulDivBracket(best, BPS_DENOMINATOR - p.slippageBps, BPS_DENOMINATOR);
  }

  /** A price in ten-thousandths of itself: `best` with the slippage added for a buy, and taken off for a sell. */
  function Slipped(p: Policy, side: Side, best: u128): nat
    requires p.Valid()
  {
    if side == Buy then best * (10_000 + p.slippageBps) else best * (10_000 - p.slippageBps)
  }

  lemma OnATick(price: nat, tick: nat)
    requires tick > 0
    ensures (price - price % tick) % tick == 0 && price - price % tick <= price < price - price % tick + tick
    ensures (price - price % tick + tick) % tick == 0
  {
    var q := price / tick;
    assert price - price % tick == q * tick;
    FloorUnique(q * tick, tick, q);
    assert q * tick + tick == (q + 1) * tick;
    FloorUnique((q + 1) * tick, tick, q + 1);
  }

  /** Rounding up to a tick gives the first tick that is not below, rounding down the last that is not above. */
  lemma TicksAround(price: u128, tick: u128)
    requires tick > 0
    ensures FloorTo(price, tick) % tick == 0 && FloorTo(price, tick) <= price < FloorTo(price, tick) + tick
    ensures CeilTo(price, tick) % tick == 0 || CeilTo(price, tick) == U128_MAX
    ensures price <= CeilTo(price, tick) < price + tick
  {
    OnATick(price, tick);
  }

  /**
  A market order's limit is on a tick and within one tick of the quote with the slippage: for a buy the tick
  at or above it, for a sell the tick at or below it.
   */
  lemma MarketLimitIsTheSlippage(p: Policy, side: Side, best: u128)
    requires p.Valid() && MarketLimit(p, side, best).Some?
    ensures var limit, exact := MarketLimit(p, side, best).value, Slipped(p, side, best);
            && limit > 0 && (limit % p.priceTick == 0 || limit == U128_MAX)
            && (side == Buy ==> (limit - p.priceTick) * 10_000 < exact < (limit + 1) * 10_000)
            && (side == Sell ==> limit * 10_000 <= exact < (limit + p.priceTick) * 10_000)
  {
    var rate: u128 := if side == Buy then BPS_DENOMINATOR + p.slippageBps else BPS_DENOMINATOR - p.slippageBps;
    MulDivIsFloor(best, rate, BPS_DENOMINATOR);
    TicksAround(MulDivFloor(best, rate, BPS_DENOMINATOR).value, p.priceTick);
  }

  /** There is no limit exactly when that tick is nothing, or for a buy when the quote with the slippage does not fit. */
  lemma NoMarketLimitIff(p: Policy, side: Side, best: u128)
    requires p.Valid()
    ensures MarketLimit(p, side, best).None? <==>
              if side == Buy then Slipped(p, side, best) >= TWO128 * 10_000 || Slipped(p, side, best) < 10_000
              else Slipped(p, side, best) < p.priceTick * 10_000
  {
    var rate: u128 := if side == Buy then BPS_DENOMINATOR + p.slippageBps else BPS_DENOMINATOR - p.slippageBps;
    MulDivIsFloor(best, rate, BPS_DENOMINATOR);
    if side == Sell {
      MulMono(rate, BPS_DENOMINATOR, best);
    }
    if MulDivFloor(best, rate, BPS_DENOMINATOR).Some? {
      TicksAround(MulDivFloor(best, rate, BPS_DENOMINATOR).value, p.priceTick);
      NoLimitAt(p, side, MulDivFloor(best, rate, BPS_DENOMINATOR).value);
    }
  }

  lemma NoLimitAt(p: Policy, side: Side, scaled: u128)
    requires p.Valid()
    ensures side == Buy ==> (CeilTo(scaled, p.priceTick) == 0 <==> scaled == 0)
    ensures side == Sell ==> (FloorTo(scaled, p.priceTick) == 0 <==> scaled < p.priceTick)
  {
    TicksAround(scaled, p.priceTick);
    if scaled < p.priceTick {
      FloorUnique(scaled, p.priceTick, 0);
    }
  }

  // ----- orders -----

  datatype Order = Order(
    id: Uuid, service: ServiceId, user: UserId, side: Side, kind: OrderKind, tif: Tif,
    price: u128, size: u128, filled: u128, notional: u128, fee: u128,
    reserved: Locked, state: OrderState, cancelReason: Option<CancelReason>)
  {
    function Remaining(): u128 {
      if filled <= size then size - filled else 0
    }
  }

  function PlaceOrder(id: Uuid, service: ServiceId, user: UserId, side: Side, kind: OrderKind, tif: Tif,
                      price: u128, size: u128, reserved: Locked): Order
  {
    Order(id, service, user, side, kind, tif, price, size, 0, 0, 0, reserved, Open, None)
  }

  /**
  The effect of a fill on the order, and the answer. A late overflow leaves the fields added
  before it: not every refusal leaves the order as it was.
   */
  function FillOrder(o: Order, size: u128, price: u128, fee: u128): (Order, Result<Unit, DomainError>) {
    if !o.state.IsResting() then (o, Err(Conflict))
    else if size == 0 || size > o.Remaining() then (o, Err(Validation))
    else
      match Value(price, size)
      case None => (o, Err(Validation))
      case Some(notional) =>
        match CheckedAdd(o.filled, size)
        case None => (o, Err(Validation))
        case Some(filled) =>
          var o1 := o.(filled := filled);
          match CheckedAdd(o.notional, notional)
          case None => (o1, Err(Validation))
          case Some(total) =>
            var o2 := o1.(notional := total);
            match CheckedAdd(o.fee, fee)
            case None => (o2, Err(Validation))
            case Some(paid) =>
              (o2.(fee := paid, state := if filled == o.size then Filled else PartiallyFilled), Ok(Unit))
  }

  /** A fill changes an order it refuses exactly when the fill is sound but overflows one of the totals after the size. */
  lemma RefusedFillChangesIff(o: Order, size: u128, price: u128, fee: u128)
    ensures FillOrder(o, size, price, fee).1.Err? && FillOrder(o, size, price, fee).0 != o <==>
              && o.state.IsResting() && 0 < size <= o.Remaining() && Value(price, size).Some?
              && (o.notional + Value(price, size).value >= TWO128 || o.fee + fee >= TWO128)
  {
  }

  /** It happens to an order just placed: the second of two sound fills is refused for its fee, and counted as filled. */
  lemma RefusedFillCounts(id: Uuid, service: ServiceId, user: UserId)
    ensures var placed := PlaceOrder(id, service, user, Sell, Limit, Gtc, SCALE, 2, Units(2));
            var once := FillOrder(placed, 1, SCALE, U128_MAX);
            var twice := FillOrder(once.0, 1, SCALE, 1);
            once.1 == Ok(Unit) && twice.1 == Err(Validation) && once.0.filled == 1 && twice.0.filled == 2
  {
    MulDivBracket(1, SCALE, SCALE);
  }

  function CancelOrder(o: Order, reason: CancelReason): (Order, Result<Unit, DomainError>) {
    match o.state
    case Cancelled => (o, Ok(Unit))
    case Open | PartiallyFilled => (o.(state := Cancelled, cancelReason := Some(reason)), Ok(Unit))
    case Filled | Rejected => (o, Err(Conflict))
  }

  /** What goes back to the owner after the end; nothing before it, and nothing when all was spent. */
  function Release(o: Order): Option<Locked> {
    if o.state.IsResting() || o.state == Rejected then None
    else
      var left :- match o.reserved {
        case Units(units) =>
          var u :- CheckedSub(units, o.filled);
          Some(Units(u))
        case Cash(cash) =>
          var unspent :- CheckedSub(cash, o.notional);
          var c :- CheckedSub(unspent, o.fee);
          Some(Cash(c))
      };
      if left.IsZero() then None else Some(left)
  }

  /** The order aggregate: its progress fields change in place, the rest is fixed at placement. */
  class OrderRecord {
    const id: Uuid
    const service: ServiceId
    const user: UserId
    const side: Side
    const kind: OrderKind
    const tif: Tif
    const price: u128
    const size: u128
    const reserved: Locked
    var filled: u128
    var notional: u128
    var fee: u128
    var state: OrderState
    var cancelReason: Option<CancelReason>

    function View(): Order
      reads this
    {
      Order(id, service, user, side, kind, tif, price, size, filled, notional, fee, reserved, state, cancelReason)
    }

    constructor (id: Uuid, service: ServiceId, user: UserId, side: Side, kind: OrderKind, tif: Tif,
                 price: u128, size: u128, reserved: Locked)
      ensures View() == PlaceOrder(id, service, user, side, kind, tif, price, size, reserved)
    {
      this.id, this.service, this.user, this.side, this.kind, this.tif := id, service, user, side, kind, tif;
      this.price, this.size, this.reserved := price, size, reserved;
      filled, notional, fee, state, cancelReason := 0, 0, 0, Open, None;
    }

    method Fill(fillSize: u128, fillPrice: u128, fillFee: u128) returns (r: Result<Unit, DomainError>)
      modifies this
      ensures (View(), r) == FillOrder(old(View()), fillSize, fillPrice, fillFee)
    {
      if !state.IsResting() {
        return Err(Conflict);
      }
      if fillSize == 0 || fillSize > View().Remaining() {
        return Err(Validation);
      }
      var value := Value(fillPrice, fillSize);
      if value.None? {
        return Err(Validation);
      }
      var sum := CheckedAdd(filled, fillSize);
      if sum.None? {
        return Err(Validation);
      }
      filled := sum.value;
      sum := CheckedAdd(notional, value.value);
      if sum.None? {
        return Err(Validation);
      }
      notional := sum.value;
      sum := CheckedAdd(fee, fillFee);
      if sum.None? {
        return Err(Validation);
      }
      fee := sum.value;
      state := if filled == size then Filled else PartiallyFilled;
      return Ok(Unit);
    }

    method Cancel(reason: CancelReason) returns (r: Result<Unit, DomainError>)
      modifies this
      ensures (View(), r) == CancelOrder(old(View()), reason)
    {
      match state {
        case Cancelled =>
          return Ok(Unit);
        case Open | PartiallyFilled =>
          state := Cancelled;
          cancelReason := Some(reason);
          return Ok(Unit);
        case Filled | Rejected =>
          return Err(Conflict);
      }
    }
  }

  // ----- the escrow covers every fill -----

  /**
  What placement and every fill keep true of an order: the fills so far cost no more than their
  units at the limit, and the reserve still covers the whole size at the limit on top of the fees
  already paid.
   */
  ghost predicate Covered(o: Order) {
    && 0 < o.size
    && o.filled <= o.size
    && (o.state.IsResting() ==> o.filled < o.size)
    && (o.state == Filled ==> o.filled == o.size)
    && match o.side
       case Sell => o.reserved == Units(o.size)
       case Buy =>
         && o.reserved.Cash?
         && o.notional * SCALE <= o.filled * o.price
         && Value(o.price, o.size).Some?
         && Value(o.price, o.size).value + o.fee <= o.reserved.cash
  }

  /** The part of the commitment that fills have not used. */
  ghost function Escrow(o: Order): int {
    match o.reserved
    case Units(units) => units - o.filled
    case Cash(cash) => cash - o.notional - o.fee
  }

  lemma CoveredNotional(o: Order)
    requires Covered(o) && o.side == Buy
    ensures o.notional <= Value(o.price, o.size).value
  {
    MulMono(o.filled, o.size, o.price);
    MulDivBracket(o.size, o.price, SCALE);
  }

  lemma CoveredEscrow(o: Order)
    requires Covered(o)
    ensures Escrow(o) >= 0
  {
    if o.side == Buy {
      CoveredNotional(o);
    }
  }

  /** A terminal order whose commitment is not overspent releases exactly what its escrow still holds. */
  lemma ReleaseIsEscrow(o: Order)
    requires Escrow(o) >= 0 && (o.side == Buy <==> o.reserved.Cash?)
    requires o.state == Filled || o.state == Cancelled
    ensures Release(o) == if Escrow(o) == 0 then None
                          else Some(if o.side == Buy then Cash(Escrow(o)) else Units(Escrow(o)))
  {
  }

  /** A buy priced and reserved by the policy starts covered, with room for the fee on its whole notional. */
  lemma PlacedCovered(p: Policy, o: Order)
    requires p.Valid() && o.size > 0
    requires o.filled == o.notional == o.fee == 0 && o.state == Open
    requires o.side == Sell ==> o.reserved == Units(o.size)
    requires o.side == Buy ==> BuyReserve(p, o.size, o.price).Some? && o.reserved == Cash(BuyReserve(p, o.size, o.price).value)
    ensures Covered(o)
    ensures o.side == Buy ==> FeeRoom(p, o)
  {
  }

  /** The reserve leaves room for the policy's fee: what is paid is at most the rate on what was filled. */
  ghost predicate FeeRoom(p: Policy, o: Order)
    requires p.Valid()
  {
    && Value(o.price, o.size).Some?
    && TakerFee(p, Value(o.price, o.size).value).Some?
    && o.reserved.Cash?
    && Value(o.price, o.size).value + TakerFee(p, Value(o.price, o.size).value).value <= o.reserved.cash
    && o.fee * BPS_DENOMINATOR <= o.notional * p.takerFeeBps
  }

  /** The fill a match may bring to an order: at or better than its limit, within what is left. */
  ghost predicate Fillable(o: Order, size: u128, price: u128) {
    && o.state.IsResting()
    && 0 < size <= o.Remaining()
    && (o.side == Buy ==> price <= o.price)
  }

  lemma BuyFillNotional(o: Order, size: u128, price: u128)
    requires Covered(o) && o.side == Buy && Fillable(o, size, price)
    ensures Value(price, size).Some?
    ensures (o.notional + Value(price, size).value) * SCALE <= (o.filled + size) * o.price
    ensures o.notional + Value(price, size).value <= Value(o.price, o.size).value
  {
    ValueMono(price, o.price, size, o.size);
    var v := Value(price, size).value;
    MulDivBracket(size, price, SCALE);
    MulMono(price, o.price, size);
    assert (o.notional + v) * SCALE == o.notional * SCALE + v * SCALE;
    assert (o.filled + size) * o.price == o.filled * o.price + size * o.price;
    MulMono(o.filled + size, o.size, o.price);
    MulDivBracket(o.size, o.price, SCALE);
  }

  /**
  A fill without a fee (a maker's) never fails on a covered buy and keeps it covered; the escrow
  shrinks by exactly the floored notional.
   */
  lemma BuyFillKeepsCovered(o: Order, size: u128, price: u128, fee: u128)
    requires Covered(o) && o.side == Buy && Fillable(o, size, price)
    requires Value(o.price, o.size).value + o.fee + fee <= o.reserved.cash
    ensures FillOrder(o, size, price, fee).1 == Ok(Unit)
    ensures Covered(FillOrder(o, size, price, fee).0)
    ensures Value(price, size).Some?
    ensures Escrow(FillOrder(o, size, price, fee).0) == Escrow(o) - Value(price, size).value - fee
  {
    BuyFillNotional(o, size, price);
  }

  /** The fee on a fill, added to what was paid, is still within the rate on what was filled. */
  lemma TakerFeeKeepsRoom(p: Policy, o: Order, size: u128, price: u128, fee: u128)
    requires p.Valid()
    requires Covered(o) && o.side == Buy && Fillable(o, size, price) && FeeRoom(p, o)
    requires Value(price, size).Some?
    requires fee * BPS_DENOMINATOR <= Value(price, size).value * p.takerFeeBps
    ensures Value(o.price, o.size).value + o.fee + fee <= o.reserved.cash
    ensures (o.fee + fee) * BPS_DENOMINATOR <= (o.notional + Value(price, size).value) * p.takerFeeBps
  {
    BuyFillNotional(o, size, price);
    var v, whole := Value(price, size).value, Value(o.price, o.size).value;
    assert (o.notional + v) * p.takerFeeBps == o.notional * p.takerFeeBps + v * p.takerFeeBps;
    MulMono(o.notional + v, whole, p.takerFeeBps);
    MulDivBracket(whole, p.takerFeeBps, BPS_DENOMINATOR);
    assert o.fee + fee <= TakerFee(p, whole).value;
  }

  lemma SellFillKeepsCovered(o: Order, size: u128, price: u128, fee: u128)
    requires Covered(o) && o.side == Sell && Fillable(o, size, price)
    requires FillOrder(o, size, price, fee).1 == Ok(Unit)
    ensures Covered(FillOrder(o, size, price, fee).0)
    ensures Escrow(FillOrder(o, size, price, fee).0) == Escrow(o) - size
  {
  }

  // ----- whole runs of fills -----

  datatype FillRequest = FillRequest(size: u128, price: u128, fee: u128)

  /** Fills in the order they happen, stopping at the first refusal. */
  function FillAll(o: Order, fills: seq<FillRequest>): (Order, Result<Unit, DomainError>)
    decreases |fills|
  {
    if fills == [] then (o, Ok(Unit))
    else
      var (o', r) := FillOrder(o, fills[0].size, fills[0].price, fills[0].fee);
      if r.Err? then (o', r) else FillAll(o', fills[1..])
  }

  function TotalSize(fills: seq<FillRequest>): nat {
    if fills == [] then 0 else fills[0].size + TotalSize(fills[1..])
  }

  /** Fills of positive size, none above the limit price, none charged more than the policy allows. */
  ghost predicate WithinTerms(p: Policy, limit: u128, fills: seq<FillRequest>)
    requires p.Valid()
  {
    forall i :: 0 <= i < |fills| ==>
      && 0 < fills[i].size
      && fills[i].price <= limit
      && (Value(fills[i].price, fills[i].size).Some? ==>
            fills[i].fee <= TakerFee(p, Value(fills[i].price, fills[i].size).value).GetOr(0))
  }

  lemma {:induction false} FillAllCovered(p: Policy, o: Order, fills: seq<FillRequest>)
    requires p.Valid()
    requires Covered(o) && o.side == Buy && FeeRoom(p, o)
    requires fills != [] ==> o.state.IsResting()
    requires TotalSize(fills) <= o.Remaining()
    requires WithinTerms(p, o.price, fills)
    ensures FillAll(o, fills).1 == Ok(Unit)
    ensures var o' := FillAll(o, fills).0;
            && Covered(o')
            && o'.filled == o.filled + TotalSize(fills)
            && o'.reserved == o.reserved
            && (fills != [] ==> o'.state == if o'.filled == o.size then Filled else PartiallyFilled)
    decreases |fills|
  {
    if fills != [] {
      var f := fills[0];
      ValueMono(f.price, o.price, f.size, o.size);
      var v := Value(f.price, f.size).value;
      TakerFeeBound(p, v);
      MulMono(f.fee, TakerFee(p, v).value, BPS_DENOMINATOR);
      TakerFeeKeepsRoom(p, o, f.size, f.price, f.fee);
      BuyFillKeepsCovered(o, f.size, f.price, f.fee);
      var o' := FillOrder(o, f.size, f.price, f.fee).0;
      if fills[1..] != [] {
        assert fills[1..][0].size > 0;
      }
      FillAllCovered(p, o', fills[1..]);
    }
  }

  /**
  The reserve of a buy covers every possible history of it: whatever sequence of fills within its
  size and limit, each charged at most the floored taker fee on its floored notional, all of them
  are accepted, and once the order is filled or cancelled what it spent and what it releases add up
  to what it reserved.
   */
  lemma ReserveCoversEveryHistory(p: Policy, o: Order, fills: seq<FillRequest>, reason: CancelReason)
    requires p.Valid() && o.size > 0 && o.side == Buy
    requires o.filled == o.notional == o.fee == 0 && o.state == Open
    requires BuyReserve(p, o.size, o.price).Some?
    requires o.reserved == Cash(BuyReserve(p, o.size, o.price).value)
    requires TotalSize(fills) <= o.size
    requires WithinTerms(p, o.price, fills)
    ensures FillAll(o, fills).1 == Ok(Unit)
    ensures var o' := FillAll(o, fills).0;
            var ended := if o'.state == Filled then o' else CancelOrder(o', reason).0;
            && o'.notional + o'.fee <= o.reserved.cash
            && (Release(ended) == None || Release(ended).value.Cash?)
            && o.reserved.cash == ended.notional + ended.fee
                                + if Release(ended).Some? then Release(ended).value.cash else 0
  {
    PlacedCovered(p, o);
    FillAllCovered(p, o, fills);
    var o' := FillAll(o, fills).0;
    FillAllKeepsSide(o, fills);
    CoveredEscrow(o');
    var ended := if o'.state == Filled then o' else CancelOrder(o', reason).0;
    ReleaseIsEscrow(ended);
  }

  lemma {:induction false} FillAllKeepsSide(o: Order, fills: seq<FillRequest>)
    ensures FillAll(o, fills).0.side == o.side
    decreases |fills|
  {
    if fills != [] {
      FillAllKeepsSide(FillOrder(o, fills[0].size, fills[0].price, fills[0].fee).0, fills[1..]);
    }
  }
}
