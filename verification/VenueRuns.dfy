/**
Whole placements and whole runs of the book: a placement's fills are settled to the end, whatever
became terminal is released, and the invariant of the venue survives every step of every run.
 */
module VenueRuns {
  import opened Base
  import opened Ledger
  import opened Pricing
  import opened Book
  import opened Matching
  import opened Venue
  import opened VenueSafety

  // ----- a placement's fills -----

  ghost predicate DistinctMakers(fills: seq<Fill>) {
    forall i, j :: 0 <= i < j < |fills| ==> fills[i].maker != fills[j].maker
  }

  /** The fills still to settle all fit the orders on the list. */
  ghost predicate Ready(es: seq<Entry>, taker: Uuid, fills: seq<Fill>, p: Policy)
    requires p.Valid()
  {
    && AllCovered(es) && UniqueIds(es)
    && IndexOf(es, taker) < |es|
    && DistinctMakers(fills)
    && var t := es[IndexOf(es, taker)].order;
       && (t.side == Buy ==> FeeRoom(p, t))
       && Traded(fills) <= t.Remaining()
       && forall i :: 0 <= i < |fills| ==> Matches(es, taker, fills[i])
  }

  lemma TradedSplit(fills: seq<Fill>, i: nat)
    requires i < |fills|
    ensures Traded(fills) >= fills[i].size
  {
    if i > 0 {
      TradedSplit(fills[1..], i - 1);
    }
  }

  /** What recording one fill changes: the two orders' progress, nothing else. */
  lemma RecordFillEffects(es: seq<Entry>, taker: Uuid, f: Fill, p: Policy)
    requires p.Valid()
    requires RecordFill(es, taker, f, p).Some?
    ensures var es' := RecordFill(es, taker, f, p).value.0;
            var ti, mi := IndexOf(es, taker), IndexOf(es, f.maker);
            && SameOrders(es, es')
            && es'[ti].order.filled == es[ti].order.filled + f.size
            && es'[mi].order.filled == es[mi].order.filled + f.size
            && forall i :: 0 <= i < |es| && i != ti && i != mi ==> es'[i] == es[i]
  {
    var ti, mi := IndexOf(es, taker), IndexOf(es, f.maker);
    var fee := TakerFee(p, Value(f.price, f.size).value).value;
    FillKeepsTerms(es[ti].order, f.size, f.price, fee);
    FillKeepsTerms(es[mi].order, f.size, f.price, 0);
  }

  /** The taker after a fill: still covered, still with room for its fees. */
  lemma RecordFillTaker(es: seq<Entry>, taker: Uuid, fills: seq<Fill>, p: Policy)
    requires p.Valid() && fills != []
    requires Ready(es, taker, fills, p)
    requires RecordFill(es, taker, fills[0], p).Some?
    ensures var es' := RecordFill(es, taker, fills[0], p).value.0;
            var t' := es'[IndexOf(es, taker)].order;
            && AllCovered(es')
            && (t'.side == Buy ==> FeeRoom(p, t'))
            && Traded(fills[1..]) <= t'.Remaining()
            && (t'.Remaining() > 0 ==> t'.state.IsResting())
  {
    assert Matches(es, taker, fills[0]);
    var f := fills[0];
    var t, m := es[IndexOf(es, taker)].order, es[IndexOf(es, f.maker)].order;
    var notional := Value(f.price, f.size).value;
    var fee := TakerFee(p, notional).value;
    FillPairCovered(p, t, m, f.size, f.price, notional, fee);
    FillKeepsTerms(t, f.size, f.price, fee);
  }

  lemma StillReady(es: seq<Entry>, taker: Uuid, fills: seq<Fill>, p: Policy)
    requires p.Valid() && fills != []
    requires Ready(es, taker, fills, p)
    requires RecordFill(es, taker, fills[0], p).Some?
    ensures Ready(RecordFill(es, taker, fills[0], p).value.0, taker, fills[1..], p)
  {
    var es' := RecordFill(es, taker, fills[0], p).value.0;
    RecordFillEffects(es, taker, fills[0], p);
    RecordFillTaker(es, taker, fills, p);
    SameOrdersIndex(es, es', taker);
    forall i | 0 <= i < |fills[1..]| ensures Matches(es', taker, fills[1..][i]) {
      var f := fills[i + 1];
      assert Matches(es, taker, f);
      SameOrdersIndex(es, es', f.maker);
      assert fills[0].maker != f.maker;
      TradedSplit(fills[1..], i);
    }
    forall i, j | 0 <= i < j < |fills[1..]| ensures fills[1..][i].maker != fills[1..][j].maker {
      assert fills[i + 1].maker != fills[j + 1].maker;
    }
  }

  /** The fills recorded on the orders, before the ledger is asked anything. */
  function RecordAll(es: seq<Entry>, taker: Uuid, fills: seq<Fill>, p: Policy): Option<seq<Entry>>
    requires p.Valid()
    decreases |fills|
  {
    if fills == [] then Some(es)
    else
      var (es', _) :- RecordFill(es, taker, fills[0], p);
      RecordAll(es', taker, fills[1..], p)
  }

  /** Settling a placement is refused by the orders or not at all: never by the ledger. */
  lemma {:induction false} LedgerSettlesWhatOrdersAccept(es: seq<Entry>, l: State, taker: Uuid, fills: seq<Fill>, p: Policy)
    requires p.Valid()
    requires Working(es, l) && Ready(es, taker, fills, p)
    ensures SettleFills(es, l, taker, fills, p).Some? <==> RecordAll(es, taker, fills, p).Some?
    ensures SettleFills(es, l, taker, fills, p).Some? ==>
              var (es', l') := SettleFills(es, l, taker, fills, p).value;
              Working(es', l') && Some(es') == RecordAll(es, taker, fills, p)
    decreases |fills|
  {
    if fills != [] && RecordFill(es, taker, fills[0], p).Some? {
      assert Matches(es, taker, fills[0]);
      RecordFillKeeps(es, l, taker, fills[0], p);
      StillReady(es, taker, fills, p);
      var (es', ops) := RecordFill(es, taker, fills[0], p).value;
      LedgerSettlesWhatOrdersAccept(es', ApplyChain(l, ops).value, taker, fills[1..], p);
    }
  }

  /** After a placement's fills: the same orders, all covered, and the taker gained every fill. */
  lemma {:induction false} RecordAllTaker(es: seq<Entry>, taker: Uuid, fills: seq<Fill>, p: Policy)
    requires p.Valid()
    requires Ready(es, taker, fills, p)
    requires RecordAll(es, taker, fills, p).Some?
    ensures var es' := RecordAll(es, taker, fills, p).value;
            && SameOrders(es, es')
            && AllCovered(es')
            && es'[IndexOf(es, taker)].order.filled == es[IndexOf(es, taker)].order.filled + Traded(fills)
    decreases |fills|
  {
    if fills != [] {
      var es1 := RecordFill(es, taker, fills[0], p).value.0;
      RecordFillEffects(es, taker, fills[0], p);
      StillReady(es, taker, fills, p);
      SameOrdersIndex(es, es1, taker);
      RecordAllTaker(es1, taker, fills[1..], p);
      SameOrdersTrans(es, es1, RecordAll(es, taker, fills, p).value);
    }
  }

  lemma SameOrdersTrans(a: seq<Entry>, b: seq<Entry>, c: seq<Entry>)
    requires SameOrders(a, b) && SameOrders(b, c)
    ensures SameOrders(a, c)
  {
  }

  predicate Names(fills: seq<Fill>, id: Uuid) {
    exists j :: 0 <= j < |fills| && fills[j].maker == id
  }

  /** An order no fill names is left alone. */
  lemma {:induction false} RecordAllUntouched(es: seq<Entry>, taker: Uuid, fills: seq<Fill>, p: Policy, i: nat)
    requires p.Valid()
    requires Ready(es, taker, fills, p)
    requires RecordAll(es, taker, fills, p).Some?
    requires i < |es| && es[i].order.id != taker && !Names(fills, es[i].order.id)
    ensures |RecordAll(es, taker, fills, p).value| == |es|
    ensures RecordAll(es, taker, fills, p).value[i] == es[i]
    decreases |fills|
  {
    RecordAllTaker(es, taker, fills, p);
    if fills != [] {
      var es1 := RecordFill(es, taker, fills[0], p).value.0;
      RecordFillEffects(es, taker, fills[0], p);
      StillReady(es, taker, fills, p);
      assert fills[0].maker != es[i].order.id;
      RecordAllUntouched(es1, taker, fills[1..], p, i);
    }
  }

  lemma FirstMakerGains(es: seq<Entry>, taker: Uuid, fills: seq<Fill>, p: Policy)
    requires p.Valid()
    requires Ready(es, taker, fills, p)
    requires RecordAll(es, taker, fills, p).Some?
    requires fills != []
    ensures MakerGained(es, RecordAll(es, taker, fills, p).value, fills[0])
  {
    assert Matches(es, taker, fills[0]);
    var es1 := RecordFill(es, taker, fills[0], p).value.0;
    RecordFillEffects(es, taker, fills[0], p);
    StillReady(es, taker, fills, p);
    var mi := IndexOf(es, fills[0].maker);
    assert forall i :: 0 <= i < |fills[1..]| ==> fills[1..][i] == fills[i + 1];
    RecordAllUntouched(es1, taker, fills[1..], p, mi);
  }

  ghost predicate MakerGained(es: seq<Entry>, es': seq<Entry>, f: Fill) {
    var mi := IndexOf(es, f.maker);
    mi < |es| == |es'| && es'[mi].order.filled == es[mi].order.filled + f.size
  }

  /** Each maker gains exactly its own fill. */
  lemma {:induction false} RecordAllMaker(es: seq<Entry>, taker: Uuid, fills: seq<Fill>, p: Policy, j: nat)
    requires p.Valid()
    requires Ready(es, taker, fills, p)
    requires RecordAll(es, taker, fills, p).Some?
    requires j < |fills|
    ensures MakerGained(es, RecordAll(es, taker, fills, p).value, fills[j])
    decreases |fills|
  {
    if j == 0 {
      FirstMakerGains(es, taker, fills, p);
    } else {
      assert Matches(es, taker, fills[j]) && fills[0].maker != fills[j].maker;
      var es1 := RecordFill(es, taker, fills[0], p).value.0;
      RecordFillEffects(es, taker, fills[0], p);
      StillReady(es, taker, fills, p);
      SameOrdersIndex(es, es1, fills[j].maker);
      RecordAllMaker(es1, taker, fills[1..], p, j - 1);
    }
  }

  // ----- releasing what is terminal -----

  /** The entries still on the book. */
  function Standing(es: seq<Entry>): seq<Entry> {
    if es == [] then []
    else
      var last := es[|es| - 1];
      if last.order.state.IsResting() then Standing(es[..|es| - 1]) + [last] else Standing(es[..|es| - 1])
  }

  lemma StandingMembers(es: seq<Entry>)
    ensures forall e :: e in Standing(es) <==> e in es && e.order.state.IsResting()
  {
    if es != [] {
      StandingMembers(es[..|es| - 1]);
      assert es == es[..|es| - 1] + [es[|es| - 1]];
    }
  }

  lemma {:induction false} StandingSorted(es: seq<Entry>)
    requires Sorted(es)
    ensures Sorted(Standing(es))
  {
    if es != [] {
      var init, last := es[..|es| - 1], es[|es| - 1];
      StandingSorted(init);
      StandingMembers(init);
      forall e | e in Standing(init) && SameQueue(e.order, last.order) ensures Precedes(e, last) {
        var i :| 0 <= i < |init| && init[i] == e;
        assert es[i] == e;
      }
    }
  }

  lemma {:induction false} StandingUnique(es: seq<Entry>)
    requires UniqueIds(es)
    ensures UniqueIds(Standing(es))
  {
    if es != [] {
      var init, last := es[..|es| - 1], es[|es| - 1];
      StandingUnique(init);
      StandingMembers(init);
      forall e | e in Standing(init) ensures e.order.id != last.order.id {
        var i :| 0 <= i < |init| && init[i] == e;
        assert es[i] == e;
      }
    }
  }

  /** Nothing on the list is rejected: the ledger's late refusal is not a step of this machine. */
  ghost predicate Live(es: seq<Entry>) {
    forall i :: 0 <= i < |es| ==> es[i].order.state != Rejected
  }

  lemma ReleasePosts(l: State, o: Order)
    requires Guarded(l) && OpenClear(l.open)
    requires Covered(o)
    requires o.state == Filled || o.state == Cancelled
    requires forall k :: IsEscrow(k) ==> Balance(l, k) >= ShareOf(o, k)
    ensures ApplyChain(l, ReleaseOps(o)).Some?
    ensures var l' := ApplyChain(l, ReleaseOps(o)).value;
            && l'.open == l.open
            && Guarded(l')
            && forall k :: IsEscrow(k) ==> Balance(l', k) == Balance(l, k) - ShareOf(o, k)
  {
    CoveredEscrow(o);
    ReleaseIsEscrow(o);
    if Escrow(o) != 0 {
      var k := if o.side == Buy then BookCash(o.user) else BookShares(o.service, o.user);
      var t := if o.side == Buy then CashTransfer(o.user, o.user, Escrow(o)) else UnitsTransfer(o.service, o.user, o.user, Escrow(o));
      HeldClear(l.open, k);
      assert Balance(l, k) >= ShareOf(o, k);
      LegPosts(l, t);
      forall k | IsEscrow(k) ensures Balance(AfterLeg(l, t), k) == Balance(l, k) - ShareOf(o, k) {
        assert Available(AfterLeg(l, t), k) == Available(l, k) + Effect(t, k);
      }
    }
  }

  /** Sweeping always succeeds, keeps exactly what stands, and pays out exactly the difference. */
  lemma {:induction false} SweepReleases(es: seq<Entry>, l: State)
    requires AllCovered(es) && Live(es)
    requires Guarded(l) && OpenClear(l.open)
    requires forall k :: IsEscrow(k) ==> Balance(l, k) >= EscrowOf(es, k)
    ensures Sweep(es, l).Some?
    ensures var (kept, l') := Sweep(es, l).value;
            && kept == Standing(es)
            && l'.open == l.open
            && Guarded(l')
            && forall k :: IsEscrow(k) ==> Balance(l', k) == Balance(l, k) - EscrowOf(es, k) + EscrowOf(kept, k)
    decreases |es|
  {
    if es != [] {
      var init, last := es[..|es| - 1], es[|es| - 1];
      forall k | IsEscrow(k) ensures Balance(l, k) >= EscrowOf(init, k) {
        ShareNonNegative(last.order, k);
      }
      SweepReleases(init, l);
      var (kept, l1) := Sweep(init, l).value;
      assert AllCovered(kept) by {
        StandingMembers(init);
        forall i | 0 <= i < |kept| ensures Covered(kept[i].order) {
          assert kept[i] in init;
        }
      }
      if last.order.state.IsResting() {
        forall k ensures EscrowOf(kept + [last], k) == EscrowOf(kept, k) + ShareOf(last.order, k) {
          EscrowConcat(kept, [last], k);
          EscrowOne(last, k);
        }
      } else {
        forall k | IsEscrow(k) ensures Balance(l1, k) >= ShareOf(last.order, k) {
          EscrowNonNegative(kept, k);
        }
        ReleasePosts(l1, last.order);
      }
    }
  }

  // ----- the queues -----

  lemma {:induction false} InsertSorted(es: seq<Entry>, e: Entry)
    requires Sorted(es)
    requires forall i :: 0 <= i < |es| ==> es[i].arrival < e.arrival
    ensures Sorted(Insert(es, e))
  {
    var k := InsertAt(es, e.order);
    InsertSpot(es, e.order);
    var r := Insert(es, e);
    forall i, j | 0 <= i < j < |r| && SameQueue(r[i].order, r[j].order) ensures Precedes(r[i], r[j]) {
      if i == k {
        assert r[j] == es[j - 1];
        if j - 1 > k {
          assert k < |es| && (SameQueue(es[k].order, es[j - 1].order) ==> Precedes(es[k], es[j - 1]));
        }
      } else if j == k {
        assert r[i] == es[i];
      } else {
        var i', j' := if i < k then i else i - 1, if j < k then j else j - 1;
        assert r[i] == es[i'] && r[j] == es[j'];
      }
    }
  }

  /** Everyone ahead of the insertion point in the queue is no worse, and the one at it is worse. */
  lemma {:induction false} InsertSpot(es: seq<Entry>, o: Order)
    ensures var k := InsertAt(es, o);
            && (forall i :: 0 <= i < k && SameQueue(es[i].order, o) ==> !Better(o.side, o.price, es[i].order.price))
            && (k < |es| ==> SameQueue(es[k].order, o) && Better(o.side, o.price, es[k].order.price))
  {
    if es != [] && !(SameQueue(es[0].order, o) && Better(o.side, o.price, es[0].order.price)) {
      InsertSpot(es[1..], o);
      assert forall i :: 0 < i < |es| ==> es[i] == es[1..][i - 1];
    }
  }

  function AsResting(o: Order): RestingOrder {
    RestingOrder(o.id, o.user, o.price, o.Remaining())
  }

  /** Each order of a queue is an entry of the book, and each such entry is in the queue. */
  lemma {:induction false} QueueMembers(es: seq<Entry>, service: ServiceId, side: Side)
    ensures forall r :: r in Queue(es, service, side) <==>
              exists e :: e in es && e.order.service == service && e.order.side == side && AsResting(e.order) == r
    decreases |es|
  {
    if es != [] {
      QueueMembers(es[1..], service, side);
      var tail := Queue(es[1..], service, side);
      forall r | r in Queue(es, service, side)
        ensures exists e :: e in es && e.order.service == service && e.order.side == side && AsResting(e.order) == r
      {
        if r in tail {
          var e :| e in es[1..] && e.order.service == service && e.order.side == side && AsResting(e.order) == r;
          assert e in es;
        } else {
          assert es[0] in es;
        }
      }
      forall r, e | e in es && e.order.service == service && e.order.side == side && AsResting(e.order) == r
        ensures r in Queue(es, service, side)
      {
        if e != es[0] {
          assert e in es[1..];
          assert r in tail;
        }
      }
    }
  }

  lemma {:induction false} QueueBestFirst(es: seq<Entry>, service: ServiceId, side: Side)
    requires Sorted(es)
    ensures BestFirst(side.Opposite(), Queue(es, service, side))
    decreases |es|
  {
    if es != [] {
      assert Sorted(es[1..]) by {
        assert forall i :: 0 <= i < |es[1..]| ==> es[1..][i] == es[i + 1];
      }
      QueueBestFirst(es[1..], service, side);
      QueueMembers(es[1..], service, side);
      var tail := Queue(es[1..], service, side);
      forall r | r in tail && es[0].order.service == service && es[0].order.side == side
        ensures NoWorse(side.Opposite(), es[0].order.price, r.price)
      {
        var e :| e in es[1..] && e.order.service == service && e.order.side == side && AsResting(e.order) == r;
        var i :| 0 <= i < |es[1..]| && es[1..][i] == e;
        assert es[i + 1] == e && Precedes(es[0], es[i + 1]);
      }
    }
  }

  ghost predicate DistinctQueue(q: seq<RestingOrder>) {
    forall i, j :: 0 <= i < j < |q| ==> q[i].id != q[j].id
  }

  lemma {:induction false} QueueDistinct(es: seq<Entry>, service: ServiceId, side: Side)
    requires UniqueIds(es)
    ensures DistinctQueue(Queue(es, service, side))
    decreases |es|
  {
    if es != [] {
      assert UniqueIds(es[1..]) by {
        assert forall i :: 0 <= i < |es[1..]| ==> es[1..][i] == es[i + 1];
      }
      QueueDistinct(es[1..], service, side);
      QueueMembers(es[1..], service, side);
      var tail := Queue(es[1..], service, side);
      forall r | r in tail ensures r.id != es[0].order.id {
        var e :| e in es[1..] && e.order.service == service && e.order.side == side && AsResting(e.order) == r;
        var i :| 0 <= i < |es[1..]| && es[1..][i] == e;
        assert es[i + 1] == e;
      }
      var q := Queue(es, service, side);
      if es[0].order.service == service && es[0].order.side == side {
        assert q == [AsResting(es[0].order)] + tail;
        forall i, j | 0 <= i < j < |q| ensures q[i].id != q[j].id {
          assert q[j] == tail[j - 1] && tail[j - 1] in tail;
          assert i > 0 ==> q[i] == tail[i - 1];
        }
      } else {
        assert q == tail;
      }
    }
  }
}
