/**
The matching engine (domain/src/book.rs), and what makes its outcome the best one a taker could get
from the queue it is handed.
 */
module Matching {
  import opened Base
  import opened Money
  import opened Ledger
  import opened Book

  /** A maker, as handed to the engine. */
  datatype RestingOrder = RestingOrder(id: Uuid, user: UserId, price: u128, remaining: u128)

  /** The taker; a market order comes with the limit derived for it. */
  datatype Incoming = Incoming(id: Uuid, user: UserId, side: Side, tif: Tif, price: u128, size: u128)

  /** One trade the engine decided, at the maker's price. */
  datatype Fill = Fill(maker: Uuid, makerUser: UserId, price: u128, size: u128)

  datatype Rejection = SelfTrade | WouldCross

  datatype Outcome = Outcome(fills: seq<Fill>, remainder: u128, rests: bool)

  predicate Crosses(incoming: Incoming, maker: RestingOrder) {
    match incoming.side
    case Buy => maker.price <= incoming.price
    case Sell => maker.price >= incoming.price
  }

  /** What the walk over `resting` trades when `remaining` units are still wanted. */
  function Walk(incoming: Incoming, resting: seq<RestingOrder>, remaining: u128): Result<(seq<Fill>, u128), Rejection>
    decreases |resting|
  {
    if resting == [] || remaining == 0 || !Crosses(incoming, resting[0]) then Ok(([], remaining))
    else if resting[0].user == incoming.user then Err(SelfTrade)
    else if incoming.tif == Alo then Err(WouldCross)
    else if resting[0].remaining == 0 then Walk(incoming, resting[1..], remaining)
    else
      var size := if remaining <= resting[0].remaining then remaining else resting[0].remaining;
      var (fills, left) :- Walk(incoming, resting[1..], remaining - size);
      Ok(([Fill(resting[0].id, resting[0].user, resting[0].price, size)] + fills, left))
  }

  function Decide(incoming: Incoming, resting: seq<RestingOrder>): Result<Outcome, Rejection> {
    var (fills, left) :- Walk(incoming, resting, incoming.size);
    Ok(Outcome(fills, left, left != 0 && incoming.tif != Ioc))
  }

  /** `match_order`, as the loop the engine runs. */
  method MatchOrder(incoming: Incoming, resting: seq<RestingOrder>) returns (r: Result<Outcome, Rejection>)
    ensures r == Decide(incoming, resting)
  {
    var remaining: u128 := incoming.size;
    var fills: seq<Fill> := [];
    var i: nat := 0;
    assert resting[0..] == resting;
    PrependNothing(Walk(incoming, resting, incoming.size));
    while i < |resting|
      invariant i <= |resting|
      invariant Prepend(fills, Walk(incoming, resting[i..], remaining)) == Walk(incoming, resting, incoming.size)
    {
      var maker := resting[i];
      assert resting[i..][0] == maker && resting[i..][1..] == resting[i + 1..];
      if remaining == 0 || !Crosses(incoming, maker) {
        break;
      }
      if maker.user == incoming.user {
        return Err(SelfTrade);
      }
      if incoming.tif == Alo {
        return Err(WouldCross);
      }
      i := i + 1;
      if maker.remaining == 0 {
        continue;
      }
      var size: u128 := if remaining <= maker.remaining then remaining else maker.remaining;
      PrependOne(fills, Fill(maker.id, maker.user, maker.price, size), Walk(incoming, resting[i..], remaining - size));
      fills := fills + [Fill(maker.id, maker.user, maker.price, size)];
      remaining := remaining - size;
    }
    assert fills + [] == fills;
    var rests := remaining != 0 && match incoming.tif { case Gtc | Alo => true case Ioc => false };
    return Ok(Outcome(fills, remaining, rests));
  }

  ghost function Prepend(done: seq<Fill>, rest: Result<(seq<Fill>, u128), Rejection>): Result<(seq<Fill>, u128), Rejection> {
    match rest
    case Ok((fills, left)) => Ok((done + fills, left))
    case Err(e) => Err(e)
  }

  lemma PrependNothing(rest: Result<(seq<Fill>, u128), Rejection>)
    ensures Prepend([], rest) == rest
  {
    if rest.Ok? {
      assert [] + rest.value.0 == rest.value.0;
    }
  }

  lemma PrependOne(done: seq<Fill>, fill: Fill, rest: Result<(seq<Fill>, u128), Rejection>)
    ensures Prepend(done + [fill], rest) == Prepend(done, Prepend([fill], rest))
  {
    if rest.Ok? {
      assert done + [fill] + rest.value.0 == done + ([fill] + rest.value.0);
    }
  }

  // ----- what an accepted match trades -----

  /** The opposite side as the adapter hands it over: best price first. */
  ghost predicate BestFirst(side: Side, resting: seq<RestingOrder>) {
    forall i, j :: 0 <= i < j < |resting| ==> NoWorse(side, resting[i].price, resting[j].price)
  }

  /** Whether a taker of `side` would take `price` at least as gladly as `other`. */
  predicate NoWorse(side: Side, price: u128, other: u128) {
    match side
    case Buy => price <= other
    case Sell => price >= other
  }

  function Traded(fills: seq<Fill>): nat {
    if fills == [] then 0 else fills[0].size + Traded(fills[1..])
  }

  /** Everything on the opposite side the incoming order could trade with. */
  function CrossingSize(incoming: Incoming, resting: seq<RestingOrder>): nat {
    if resting == [] then 0
    else (if Crosses(incoming, resting[0]) then resting[0].remaining else 0) + CrossingSize(incoming, resting[1..])
  }

  lemma NothingCrosses(incoming: Incoming, resting: seq<RestingOrder>)
    requires BestFirst(incoming.side, resting)
    requires resting != [] && !Crosses(incoming, resting[0])
    ensures CrossingSize(incoming, resting) == 0
    decreases |resting|
  {
    if |resting| > 1 {
      NothingCrosses(incoming, resting[1..]);
    }
  }

  lemma {:induction false} WalkTrades(incoming: Incoming, resting: seq<RestingOrder>, remaining: u128)
    requires BestFirst(incoming.side, resting)
    requires Walk(incoming, resting, remaining).Ok?
    ensures var (fills, left) := Walk(incoming, resting, remaining).value;
            Traded(fills) == Min(remaining, CrossingSize(incoming, resting)) && left == remaining - Traded(fills)
    decreases |resting|
  {
    if resting == [] || remaining == 0 {
    } else if !Crosses(incoming, resting[0]) {
      NothingCrosses(incoming, resting);
    } else {
      var size := if remaining <= resting[0].remaining then remaining else resting[0].remaining;
      WalkTrades(incoming, resting[1..], remaining - size);
    }
  }

  /** Fills follow the queue: each is the maker in its place, consumed whole except possibly the last. */
  ghost predicate FollowsQueue(fills: seq<Fill>, resting: seq<RestingOrder>) {
    && |fills| <= |resting|
    && forall i :: 0 <= i < |fills| ==>
         && fills[i].maker == resting[i].id
         && fills[i].makerUser == resting[i].user
         && fills[i].price == resting[i].price
         && 0 < fills[i].size <= resting[i].remaining
         && (i < |fills| - 1 ==> fills[i].size == resting[i].remaining)
  }

  lemma {:induction false} WalkFollowsQueue(incoming: Incoming, resting: seq<RestingOrder>, remaining: u128)
    requires forall i :: 0 <= i < |resting| ==> resting[i].remaining > 0
    requires Walk(incoming, resting, remaining).Ok?
    ensures FollowsQueue(Walk(incoming, resting, remaining).value.0, resting)
    decreases |resting|
  {
    if resting == [] || remaining == 0 || !Crosses(incoming, resting[0]) {
    } else {
      var size := if remaining <= resting[0].remaining then remaining else resting[0].remaining;
      WalkFollowsQueue(incoming, resting[1..], remaining - size);
      var rest := Walk(incoming, resting[1..], remaining - size).value.0;
      var fills := Walk(incoming, resting, remaining).value.0;
      assert fills[1..] == rest;
      forall i | 0 <= i < |fills|
        ensures i < |fills| - 1 ==> fills[i].size == resting[i].remaining
        ensures fills[i].maker == resting[i].id && fills[i].makerUser == resting[i].user
        ensures fills[i].price == resting[i].price && 0 < fills[i].size <= resting[i].remaining
      {
        if i > 0 {
          assert fills[i] == rest[i - 1] && resting[i] == resting[1..][i - 1];
        }
      }
    }
  }

  /** When something is left over, every crossing maker was consumed whole. */
  lemma {:induction false} LeftoverConsumesCrossing(incoming: Incoming, resting: seq<RestingOrder>, remaining: u128)
    requires forall i :: 0 <= i < |resting| ==> resting[i].remaining > 0
    requires BestFirst(incoming.side, resting)
    requires Walk(incoming, resting, remaining).Ok?
    requires Walk(incoming, resting, remaining).value.1 > 0
    ensures var fills := Walk(incoming, resting, remaining).value.0;
            forall i :: 0 <= i < |resting| && Crosses(incoming, resting[i]) ==>
              i < |fills| && fills[i].maker == resting[i].id && fills[i].size == resting[i].remaining
    decreases |resting|
  {
    if resting == [] || remaining == 0 || !Crosses(incoming, resting[0]) {
      assert forall i :: 0 < i < |resting| ==> NoWorse(incoming.side, resting[0].price, resting[i].price);
    } else {
      var size := if remaining <= resting[0].remaining then remaining else resting[0].remaining;
      LeftoverConsumesCrossing(incoming, resting[1..], remaining - size);
      var rest := Walk(incoming, resting[1..], remaining - size).value.0;
      var fills := Walk(incoming, resting, remaining).value.0;
      assert fills[1..] == rest;
      forall i | 0 <= i < |resting| && Crosses(incoming, resting[i])
        ensures i < |fills| && fills[i].maker == resting[i].id && fills[i].size == resting[i].remaining
      {
        if i > 0 {
          assert resting[i] == resting[1..][i - 1];
          assert fills[i] == rest[i - 1];
        }
      }
    }
  }

  /** Every fill crosses the limit, belongs to someone else, and is never a post-only order's. */
  lemma {:induction false} WalkFillsAreFair(incoming: Incoming, resting: seq<RestingOrder>, remaining: u128)
    requires Walk(incoming, resting, remaining).Ok?
    ensures var fills := Walk(incoming, resting, remaining).value.0;
            && (forall i :: 0 <= i < |fills| ==>
                  && fills[i].makerUser != incoming.user
                  && fills[i].size > 0
                  && (incoming.side == Buy ==> fills[i].price <= incoming.price)
                  && (incoming.side == Sell ==> fills[i].price >= incoming.price))
            && (incoming.tif == Alo ==> fills == [])
    decreases |resting|
  {
    if resting == [] || remaining == 0 || !Crosses(incoming, resting[0]) {
    } else {
      var size := if remaining <= resting[0].remaining then remaining else resting[0].remaining;
      WalkFillsAreFair(incoming, resting[1..], remaining - size);
    }
  }

  // ----- no better way to trade -----

  /** A price as a cost: what a buyer pays, or the negative of what a seller receives. */
  function CostOf(side: Side, price: u128): int {
    var amount: int := price;
    if side == Buy then amount else -amount
  }

  function FillsCost(side: Side, fills: seq<Fill>): int {
    if fills == [] then 0 else fills[0].size * CostOf(side, fills[0].price) + FillsCost(side, fills[1..])
  }

  /** Another way to trade: how many units to take from each resting order. */
  function Taken(take: seq<nat>): nat {
    if take == [] then 0 else take[0] + Taken(take[1..])
  }

  function TakeCost(side: Side, take: seq<nat>, resting: seq<RestingOrder>): int
    requires |take| == |resting|
  {
    if take == [] then 0 else take[0] * CostOf(side, resting[0].price) + TakeCost(side, take[1..], resting[1..])
  }

  /** A take is possible when it stays within each maker's size and only uses crossing makers. */
  ghost predicate Possible(incoming: Incoming, take: seq<nat>, resting: seq<RestingOrder>) {
    && |take| == |resting|
    && forall i :: 0 <= i < |take| ==>
         take[i] <= resting[i].remaining && (!Crosses(incoming, resting[i]) ==> take[i] == 0)
  }

  lemma {:induction false} TakeCostFloor(incoming: Incoming, take: seq<nat>, resting: seq<RestingOrder>, p: int)
    requires |take| == |resting|
    requires forall i :: 0 <= i < |resting| ==> p <= CostOf(incoming.side, resting[i].price)
    ensures TakeCost(incoming.side, take, resting) >= Taken(take) * p
  {
    if take != [] {
      TakeCostFloor(incoming, take[1..], resting[1..], p);
      MulMonoInt(p, CostOf(incoming.side, resting[0].price), take[0]);
      assert (take[0] + Taken(take[1..])) * p == take[0] * p + Taken(take[1..]) * p;
    }
  }

  /**
  The exchange argument: a take of `extra` more units than the walk trades costs at least the walk
  plus those units at any price no maker beats.
   */
  lemma {:induction false} WalkIsCheapest(incoming: Incoming, resting: seq<RestingOrder>, remaining: u128,
                                          take: seq<nat>, extra: nat, p: int)
    requires BestFirst(incoming.side, resting)
    requires Walk(incoming, resting, remaining).Ok?
    requires Possible(incoming, take, resting)
    requires Taken(take) == Traded(Walk(incoming, resting, remaining).value.0) + extra
    requires forall i :: 0 <= i < |resting| ==> p <= CostOf(incoming.side, resting[i].price)
    ensures TakeCost(incoming.side, take, resting)
         >= FillsCost(incoming.side, Walk(incoming, resting, remaining).value.0) + extra * p
    decreases |resting|
  {
    if resting == [] || remaining == 0 || !Crosses(incoming, resting[0]) {
      TakeCostFloor(incoming, take, resting, p);
    } else {
      var size := if remaining <= resting[0].remaining then remaining else resting[0].remaining;
      WalkHead(incoming, resting, remaining, size);
      var rest := Walk(incoming, resting[1..], remaining - size).value.0;
      var p0 := CostOf(incoming.side, resting[0].price);
      HeadIsBest(incoming.side, resting);
      if take[0] <= size {
        WalkIsCheapest(incoming, resting[1..], remaining - size, take[1..], extra + (size - take[0]), p0);
      } else {
        TakeCostFloor(incoming, take[1..], resting[1..], p0);
        assert rest == [] && Taken(take[1..]) == extra + (size - take[0]);
      }
      ExchangeStep(size, take[0], extra, p, p0, TakeCost(incoming.side, take[1..], resting[1..]), FillsCost(incoming.side, rest));
    }
  }

  /** Moving `size - taken` units from later makers to the first one does not raise the cost. */
  lemma ExchangeStep(size: int, taken: int, extra: nat, p: int, p0: int, restTake: int, restFills: int)
    requires p <= p0
    requires restTake >= restFills + (extra + (size - taken)) * p0
    ensures taken * p0 + restTake >= size * p0 + restFills + extra * p
  {
    MulMonoInt(p, p0, extra);
    assert (extra + (size - taken)) * p0 == extra * p0 + size * p0 - taken * p0;
  }

  /** The first maker's share of the walk, whether or not it had anything left to trade. */
  lemma WalkHead(incoming: Incoming, resting: seq<RestingOrder>, remaining: u128, size: u128)
    requires Walk(incoming, resting, remaining).Ok?
    requires resting != [] && remaining > 0 && Crosses(incoming, resting[0])
    requires size == if remaining <= resting[0].remaining then remaining else resting[0].remaining
    ensures Walk(incoming, resting[1..], remaining - size).Ok?
    ensures var fills, rest := Walk(incoming, resting, remaining).value.0, Walk(incoming, resting[1..], remaining - size).value.0;
            && Traded(fills) == size + Traded(rest)
            && FillsCost(incoming.side, fills) == size * CostOf(incoming.side, resting[0].price) + FillsCost(incoming.side, rest)
            && (size < resting[0].remaining ==> rest == [])
  {
    var fills, rest := Walk(incoming, resting, remaining).value.0, Walk(incoming, resting[1..], remaining - size).value.0;
    if size > 0 {
      assert fills[1..] == rest;
    }
  }

  lemma HeadIsBest(side: Side, resting: seq<RestingOrder>)
    requires BestFirst(side, resting) && resting != []
    ensures forall i :: 0 <= i < |resting[1..]| ==> CostOf(side, resting[0].price) <= CostOf(side, resting[1..][i].price)
    ensures BestFirst(side, resting[1..])
  {
    forall i | 0 <= i < |resting[1..]|
      ensures CostOf(side, resting[0].price) <= CostOf(side, resting[1..][i].price)
    {
      assert resting[1..][i] == resting[i + 1];
    }
  }

  lemma {:induction false} LowestCost(side: Side, resting: seq<RestingOrder>) returns (p: int)
    ensures forall i :: 0 <= i < |resting| ==> p <= CostOf(side, resting[i].price)
  {
    if resting == [] {
      p := 0;
    } else {
      p := LowestCost(side, resting[1..]);
      if CostOf(side, resting[0].price) < p {
        p := CostOf(side, resting[0].price);
      }
      forall i | 0 <= i < |resting| ensures p <= CostOf(side, resting[i].price) {
        if i > 0 {
          assert resting[i] == resting[1..][i - 1];
        }
      }
    }
  }

  /**
  The engine's guarantee. Over a best-first opposite side of positive orders, an accepted match
  trades as much as it can, follows the queue consuming every maker but the last, never trades with
  its own side, and costs a buyer no more (pays a seller no less), before flooring, than any other
  way to take the same units from crossing makers.
   */
  lemma AcceptedMatchIsBest(incoming: Incoming, resting: seq<RestingOrder>, take: seq<nat>)
    requires BestFirst(incoming.side, resting)
    requires forall i :: 0 <= i < |resting| ==> resting[i].remaining > 0
    requires Decide(incoming, resting).Ok?
    ensures var out := Decide(incoming, resting).value;
            && Traded(out.fills) == Min(incoming.size, CrossingSize(incoming, resting))
            && out.remainder == incoming.size - Traded(out.fills)
            && FollowsQueue(out.fills, resting)
            && (forall i :: 0 <= i < |out.fills| ==> out.fills[i].makerUser != incoming.user)
            && (incoming.tif == Alo ==> out.fills == [])
            && (Possible(incoming, take, resting) && Taken(take) == Traded(out.fills) ==>
                  FillsCost(incoming.side, out.fills) <= TakeCost(incoming.side, take, resting))
  {
    WalkTrades(incoming, resting, incoming.size);
    WalkFollowsQueue(incoming, resting, incoming.size);
    WalkFillsAreFair(incoming, resting, incoming.size);
    var out := Decide(incoming, resting).value;
    if Possible(incoming, take, resting) && Taken(take) == Traded(out.fills) {
      var p := LowestCost(incoming.side, resting);
      WalkIsCheapest(incoming, resting, incoming.size, take, 0, p);
    }
  }

  // ----- exactly when an order is refused -----

  function SizeOf(resting: seq<RestingOrder>): nat {
    if resting == [] then 0 else resting[0].remaining + SizeOf(resting[1..])
  }

  /** The walk gets as far as maker `i`: everyone up to it crosses, and those before cannot fill the order. */
  ghost predicate Reaches(incoming: Incoming, resting: seq<RestingOrder>, want: u128, i: nat) {
    && i < |resting|
    && (forall j :: 0 <= j <= i ==> Crosses(incoming, resting[j]))
    && SizeOf(resting[..i]) < want
  }

  lemma ReachesTail(incoming: Incoming, resting: seq<RestingOrder>, want: u128, i: nat)
    requires 0 < i && resting != []
    requires Crosses(incoming, resting[0])
    requires resting[0].remaining < want
    ensures Reaches(incoming, resting, want, i) <==> Reaches(incoming, resting[1..], want - resting[0].remaining, i - 1)
  {
    if i < |resting| {
      assert resting[..i][0] == resting[0] && resting[..i][1..] == resting[1..][..i - 1];
      assert SizeOf(resting[..i]) == resting[0].remaining + SizeOf(resting[1..][..i - 1]);
      assert forall j :: 0 < j < |resting| ==> resting[j] == resting[1..][j - 1];
    }
  }

  /** The walk gets to a maker it must not trade with. */
  ghost predicate Barred(incoming: Incoming, resting: seq<RestingOrder>, want: u128, i: nat) {
    Reaches(incoming, resting, want, i) && (resting[i].user == incoming.user || incoming.tif == Alo)
  }

  ghost predicate Stopped(incoming: Incoming, resting: seq<RestingOrder>, want: u128) {
    exists i: nat :: Barred(incoming, resting, want, i)
  }

  lemma NobodyIsReached(incoming: Incoming, resting: seq<RestingOrder>, want: u128)
    requires resting == [] || want == 0 || !Crosses(incoming, resting[0])
    ensures forall i: nat :: !Reaches(incoming, resting, want, i)
  {
  }

  lemma OnlyTheFirstIsReached(incoming: Incoming, resting: seq<RestingOrder>, want: u128)
    requires resting != [] && want <= resting[0].remaining
    ensures forall i: nat :: Reaches(incoming, resting, want, i) ==> i == 0
  {
    forall i: nat | Reaches(incoming, resting, want, i) ensures i == 0 {
      if i > 0 {
        assert resting[..i][0] == resting[0];
        assert SizeOf(resting[..i]) >= resting[0].remaining;
      }
    }
  }

  lemma BarredLater(incoming: Incoming, resting: seq<RestingOrder>, want: u128)
    requires resting != [] && Crosses(incoming, resting[0]) && resting[0].remaining < want
    requires resting[0].user != incoming.user && incoming.tif != Alo
    ensures Stopped(incoming, resting, want) <==> Stopped(incoming, resting[1..], want - resting[0].remaining)
  {
    var want' := want - resting[0].remaining;
    if i: nat :| Barred(incoming, resting, want, i) {
      ReachesTail(incoming, resting, want, i);
      assert Barred(incoming, resting[1..], want', i - 1);
    }
    if i: nat :| Barred(incoming, resting[1..], want', i) {
      ReachesTail(incoming, resting, want, i + 1);
      assert Barred(incoming, resting, want, i + 1);
    }
  }

  /**
  An order is refused exactly when the walk reaches a maker it must not trade with: one of the
  taker's own, or any maker at all for a post-only order.
   */
  lemma {:induction false} RefusedIff(incoming: Incoming, resting: seq<RestingOrder>, want: u128)
    ensures Walk(incoming, resting, want).Err? <==>
              exists i: nat :: Barred(incoming, resting, want, i)
    decreases |resting|
  {
    if resting == [] || want == 0 || !Crosses(incoming, resting[0]) {
      NobodyIsReached(incoming, resting, want);
    } else if resting[0].user == incoming.user || incoming.tif == Alo {
      assert Barred(incoming, resting, want, 0);
    } else if want <= resting[0].remaining {
      OnlyTheFirstIsReached(incoming, resting, want);
      assert Walk(incoming, resting[1..], 0) == Ok(([], 0));
    } else {
      BarredLater(incoming, resting, want);
      RefusedIff(incoming, resting[1..], want - resting[0].remaining);
    }
  }
}
