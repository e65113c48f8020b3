/**
Payments, withdrawals and redemptions together, over one outbox and one ledger. Each saga raises a
reservation and at most one fact that ends it; the relay applies facts in the order each saga raised
them, leg by leg, and what the ledger refuses stays parked. Whatever the interleaving, a reservation
stands exactly between the relay of its two facts, and clearing holds what begun settlements still owe.
 */
module Clearing {
  import opened Base
  import opened Ledger

  /** What a saga tells the ledger: reserve, settle the reservation and post some legs, or void it. */
  datatype SagaFact =
    | Opening(rid: ReservationId, transfer: Transfer)
    | Settling(rid: ReservationId, legs: seq<Transfer>)
    | Releasing(rid: ReservationId)

  function Posts(legs: seq<Transfer>): seq<Op> {
    if legs == [] then [] else [Post(legs[0])] + Posts(legs[1..])
  }

  /** The operation on the fact's reservation, which comes before its legs. */
  function FirstOp(f: SagaFact): Op {
    match f
    case Opening(rid, transfer) => Reserve(Reservation(rid, transfer))
    case Settling(rid, _) => Settle(rid)
    case Releasing(rid) => Void(rid)
  }

  function LegsOf(f: SagaFact): seq<Transfer> {
    if f.Settling? then f.legs else []
  }

  function Ops(f: SagaFact): seq<Op> {
    [FirstOp(f)] + Posts(LegsOf(f))
  }

  /** What some legs do to the clearing account. */
  function ClearingNet(legs: seq<Transfer>): int {
    if legs == [] then 0 else Effect(legs[0], WithdrawalClearing) + ClearingNet(legs[1..])
  }

  /** An ending fits its opening: a settlement takes out of clearing exactly what the reservation put there. */
  predicate Ends(first: SagaFact, f: SagaFact) {
    match f
    case Opening(_, _) => false
    case Settling(_, legs) => first.Opening? && ClearingNet(legs) == -Effect(first.transfer, WithdrawalClearing)
    case Releasing(_) => first.Opening?
  }

  /** One saga's story: nothing, its opening, or its opening and one ending. */
  predicate Story(rid: ReservationId, facts: seq<SagaFact>) {
    && |facts| <= 2
    && (|facts| >= 1 ==> facts[0].Opening? && facts[0].rid == rid)
    && (|facts| == 2 ==> Ends(facts[0], facts[1]) && facts[1].rid == rid)
  }

  // ----- the system -----

  /**
  The ledger, the log of every fact raised, the facts the relay has not begun yet, and the legs it still
  owes of those it has.
   */
  datatype System = System(ledger: State, log: seq<SagaFact>, outbox: seq<SagaFact>, owed: seq<Transfer>)

  /** The facts of one saga in a list of them. */
  function Of(facts: seq<SagaFact>, rid: ReservationId): seq<SagaFact> {
    if facts == [] then []
    else if facts[0].rid == rid then [facts[0]] + Of(facts[1..], rid)
    else Of(facts[1..], rid)
  }

  /** No earlier fact of the same saga waits before position `k`. */
  predicate Due(outbox: seq<SagaFact>, k: nat)
    requires k < |outbox|
  {
    forall j :: 0 <= j < k ==> outbox[j].rid != outbox[k].rid
  }

  predicate TouchesClearing(t: Transfer) {
    t.debit == WithdrawalClearing || t.credit == WithdrawalClearing
  }

  /** Ledger activity of everyone else: no saga's reservation, nothing on clearing. */
  predicate Foreign(op: Op) {
    match op
    case Post(t) => !TouchesClearing(t)
    case Reserve(r) => r.id.HoldReservation? && !TouchesClearing(r.transfer)
    case Settle(id) => id.HoldReservation?
    case Void(id) => id.HoldReservation?
  }

  datatype Step = Raise(fact: SagaFact) | RelayAt(index: nat) | PayLeg(index: nat) | Others(op: Op)

  /** A saga raises the next fact of its story. */
  function RaiseFact(s: System, f: SagaFact): System {
    var story := Of(s.log, f.rid) + [f];
    if !f.rid.HoldReservation? && Story(f.rid, story)
    then s.(log := s.log + [f], outbox := s.outbox + [f]) else s
  }

  predicate Begins(s: System, k: nat) {
    k < |s.outbox| && Due(s.outbox, k) && Apply(s.ledger, FirstOp(s.outbox[k])).Some?
  }

  /** The relay begins a due fact and owes its legs, or leaves it parked. */
  function RelayFact(s: System, k: nat): System {
    if Begins(s, k)
    then System(Apply(s.ledger, FirstOp(s.outbox[k])).value, s.log, s.outbox[..k] + s.outbox[k + 1..], s.owed + LegsOf(s.outbox[k]))
    else s
  }

  /** A leg owed is posted, or stays owed. */
  function PayOwed(s: System, i: nat): System {
    if i < |s.owed| && Apply(s.ledger, Post(s.owed[i])).Some?
    then s.(ledger := Apply(s.ledger, Post(s.owed[i])).value, owed := s.owed[..i] + s.owed[i + 1..])
    else s
  }

  function OthersAct(s: System, op: Op): System {
    if Foreign(op) then s.(ledger := Apply(s.ledger, op).GetOr(s.ledger)) else s
  }

  function Next(s: System, step: Step): System {
    match step
    case Raise(f) => RaiseFact(s, f)
    case RelayAt(k) => RelayFact(s, k)
    case PayLeg(i) => PayOwed(s, i)
    case Others(op) => OthersAct(s, op)
  }

  function Run(s: System, steps: seq<Step>): System
    decreases |steps|
  {
    if steps == [] then s else Run(Next(s, steps[0]), steps[1..])
  }

  const EMPTY: System := System(State([], []), [], [], [])

  /**
  Where one saga stands: what waits is the end of its story, and its reservation stands exactly when
  its opening, and nothing more, has been relayed.
   */
  ghost predicate Stage(open: seq<Reservation>, story: seq<SagaFact>, waiting: seq<SagaFact>, rid: ReservationId) {
    && |waiting| <= |story|
    && (story != [] ==> story[0].Opening?)
    && (|waiting| == |story| ==> waiting == story)
    && (|waiting| == 1 && |story| == 2 ==> waiting[0] == story[1])
    && ReservedTransfer(open, rid) == if |story| - |waiting| == 1 then Some(story[0].transfer) else None
  }

  ghost predicate InStep(s: System, rid: ReservationId) {
    && Story(rid, Of(s.log, rid))
    && Stage(s.ledger.open, Of(s.log, rid), Of(s.outbox, rid), rid)
  }

  ghost predicate HoldsClear(open: seq<Reservation>) {
    forall i :: 0 <= i < |open| && open[i].id.HoldReservation? ==> !TouchesClearing(open[i].transfer)
  }

  ghost predicate LedgerClear(l: State, owed: seq<Transfer>) {
    Guarded(l) && Balance(l, WithdrawalClearing) + ClearingNet(owed) == 0 && HoldsClear(l.open)
  }

  ghost predicate OnlySagas(outbox: seq<SagaFact>) {
    forall i :: 0 <= i < |outbox| ==> !outbox[i].rid.HoldReservation?
  }

  ghost predicate AllInStep(s: System) {
    forall rid: ReservationId :: !rid.HoldReservation? ==> InStep(s, rid)
  }

  ghost predicate Valid(s: System) {
    LedgerClear(s.ledger, s.owed) && OnlySagas(s.outbox) && AllInStep(s)
  }

  lemma {:induction false} OfAppend(outbox: seq<SagaFact>, f: SagaFact, rid: ReservationId)
    ensures Of(outbox + [f], rid) == if f.rid == rid then Of(outbox, rid) + [f] else Of(outbox, rid)
  {
    var all := outbox + [f];
    if outbox == [] {
      assert all[1..] == [];
    } else {
      assert all[0] == outbox[0] && all[1..] == outbox[1..] + [f];
      OfAppend(outbox[1..], f, rid);
    }
  }

  /** Taking the first waiting fact of its saga out of the outbox. */
  lemma {:induction false} OfRemove(outbox: seq<SagaFact>, k: nat, rid: ReservationId)
    requires k < |outbox| && Due(outbox, k)
    ensures var rest := outbox[..k] + outbox[k + 1..];
            if outbox[k].rid == rid
            then Of(outbox, rid) == [outbox[k]] + Of(rest, rid)
            else Of(rest, rid) == Of(outbox, rid)
  {
    var rest := outbox[..k] + outbox[k + 1..];
    if k == 0 {
      assert rest == outbox[1..];
    } else {
      var tail := outbox[1..];
      assert outbox[0].rid != outbox[k].rid;
      assert Due(tail, k - 1) by {
        assert forall j :: 0 <= j < |tail| ==> tail[j] == outbox[j + 1];
      }
      OfRemove(tail, k - 1, rid);
      assert rest[0] == outbox[0] && rest[1..] == tail[..k - 1] + tail[k..];
    }
  }

  // ----- raising -----

  lemma RaiseKeepsStep(s: System, f: SagaFact, rid: ReservationId)
    requires InStep(s, rid)
    ensures InStep(RaiseFact(s, f), rid)
  {
    OfAppend(s.outbox, f, rid);
    OfAppend(s.log, f, rid);
    if f.rid == rid && RaiseFact(s, f) != s {
      StageGrows(s.ledger.open, Of(s.log, rid), Of(s.outbox, rid), rid, f);
    }
  }

  /** Raising the next fact of a story adds it to what waits. */
  lemma StageGrows(open: seq<Reservation>, story: seq<SagaFact>, waiting: seq<SagaFact>, rid: ReservationId, f: SagaFact)
    requires Stage(open, story, waiting, rid)
    requires story == [] ==> f.Opening?
    requires |story| <= 1
    ensures Stage(open, story + [f], waiting + [f], rid)
  {
  }

  // ----- relaying -----

  lemma OneOp(l: State, op: Op)
    ensures ApplyChain(l, [op]) == Apply(l, op)
  {
    assert [op][1..] == [];
    if Apply(l, op).Some? {
      assert ApplyChain(Apply(l, op).value, []) == Apply(l, op);
    }
  }

  lemma SettlingSplits(l: State, rid: ReservationId, legs: seq<Transfer>)
    ensures ApplyChain(l, Ops(Settling(rid, legs)))
         == if Apply(l, Settle(rid)).Some? then ApplyChain(Apply(l, Settle(rid)).value, Posts(legs)) else None
  {
    assert Ops(Settling(rid, legs))[1..] == Posts(legs);
  }

  lemma {:induction false} NetConcat(a: seq<Transfer>, b: seq<Transfer>)
    ensures ClearingNet(a + b) == ClearingNet(a) + ClearingNet(b)
  {
    if a == [] {
      assert a + b == b;
    } else {
      assert (a + b)[0] == a[0] && (a + b)[1..] == a[1..] + b;
      NetConcat(a[1..], b);
    }
  }

  lemma NetWithout(legs: seq<Transfer>, i: nat)
    requires i < |legs|
    ensures ClearingNet(legs[..i] + legs[i + 1..]) == ClearingNet(legs) - Effect(legs[i], WithdrawalClearing)
  {
    NetConcat(legs[..i], legs[i + 1..]);
    NetConcat(legs[..i], legs[i..]);
    assert legs[..i] + legs[i..] == legs && legs[i..][1..] == legs[i + 1..];
  }

  /** The open reservations after a relayed fact. */
  function OpenAfter(open: seq<Reservation>, f: SagaFact): seq<Reservation> {
    match f
    case Opening(rid, transfer) => open + [Reservation(rid, transfer)]
    case Settling(rid, _) => Without(open, rid)
    case Releasing(rid) => Without(open, rid)
  }

  /** Beginning a fact changes the one reservation it names, and puts into clearing what its legs take out. */
  lemma RelayEffect(l: State, story: seq<SagaFact>, f: SagaFact)
    requires Guarded(l)
    requires f.Opening? || (story != [] && Ends(story[0], f) && ReservedTransfer(l.open, f.rid) == Some(story[0].transfer))
    requires Apply(l, FirstOp(f)).Some?
    ensures Guarded(Apply(l, FirstOp(f)).value)
    ensures Apply(l, FirstOp(f)).value.open == OpenAfter(l.open, f)
    ensures Balance(Apply(l, FirstOp(f)).value, WithdrawalClearing) + ClearingNet(LegsOf(f)) == Balance(l, WithdrawalClearing)
    ensures f.Opening? ==> ReservedTransfer(l.open, f.rid) == None
  {
    ApplyKeepsGuard(l, FirstOp(f));
    if f.Settling? {
      PostedAppend(l.posted, story[0].transfer, WithdrawalClearing);
    }
  }

  /** The due fact of a saga: which of its two it is, by what still waits. */
  lemma DueFact(s: System, k: nat)
    requires Valid(s) && k < |s.outbox| && Due(s.outbox, k)
    ensures var rid := s.outbox[k].rid;
            var story, left := Of(s.log, rid), |Of(s.log, rid)| - |Of(s.outbox, rid)|;
            && 0 <= left < |story| <= 2 && s.outbox[k] == story[left]
            && story[0].Opening?
            && (if left == 0 then s.outbox[k].Opening?
                else Ends(story[0], s.outbox[k]) && ReservedTransfer(s.ledger.open, rid) == Some(story[0].transfer))
  {
    var rid := s.outbox[k].rid;
    assert InStep(s, rid);
    OfRemove(s.outbox, k, rid);
    assert Of(s.outbox, rid)[0] == s.outbox[k];
  }

  lemma RelayLookup(open: seq<Reservation>, f: SagaFact, rid: ReservationId)
    ensures ReservedTransfer(OpenAfter(open, f), rid)
         == if f.rid != rid then ReservedTransfer(open, rid) else if f.Opening? then Some(f.transfer) else None
  {
    match f
    case Opening(id, transfer) => assert (open + [Reservation(id, transfer)])[..|open|] == open;
    case Settling(id, _) => WithoutLookup(open, id, rid);
    case Releasing(id) => WithoutLookup(open, id, rid);
  }

  lemma RelayKeepsStep(s: System, k: nat, rid: ReservationId)
    requires Valid(s) && k < |s.outbox| && Due(s.outbox, k) && !rid.HoldReservation?
    requires Apply(s.ledger, FirstOp(s.outbox[k])).Some?
    ensures InStep(RelayFact(s, k), rid)
  {
    assert InStep(s, rid);
    DueFact(s, k);
    RelayEffect(s.ledger, Of(s.log, s.outbox[k].rid), s.outbox[k]);
    OfRemove(s.outbox, k, rid);
    RelayLookup(s.ledger.open, s.outbox[k], rid);
    StageMoves(s.ledger.open, Of(s.log, rid), Of(s.outbox, rid), rid, s.outbox[k], Of(RelayFact(s, k).outbox, rid));
  }

  /** A saga's stage after some due fact is relayed. */
  lemma StageMoves(open: seq<Reservation>, story: seq<SagaFact>, waiting: seq<SagaFact>, rid: ReservationId,
                   f: SagaFact, waiting': seq<SagaFact>)
    requires Stage(open, story, waiting, rid) && |story| <= 2
    requires f.Opening? ==> f.rid != rid || ReservedTransfer(open, rid) == None
    requires !f.Opening? && f.rid == rid ==> |story| - |waiting| == 1
    requires f.Opening? && f.rid == rid ==> |story| == |waiting|
    requires if f.rid == rid then waiting == [f] + waiting' else waiting' == waiting
    requires ReservedTransfer(OpenAfter(open, f), rid)
          == if f.rid != rid then ReservedTransfer(open, rid) else if f.Opening? then Some(f.transfer) else None
    ensures Stage(OpenAfter(open, f), story, waiting', rid)
  {
  }

  lemma RelayKeepsHolds(s: System, k: nat)
    requires Valid(s) && k < |s.outbox|
    ensures HoldsClear(OpenAfter(s.ledger.open, s.outbox[k]))
  {
    WithoutIsSublist(s.ledger.open, s.outbox[k].rid);
    var open := OpenAfter(s.ledger.open, s.outbox[k]);
    forall i | 0 <= i < |open| && open[i].id.HoldReservation? ensures !TouchesClearing(open[i].transfer) {
      assert open[i] in open;
      assert open[i] in s.ledger.open;
    }
  }

  // ----- everyone else -----

  lemma OthersKeepLookup(l: State, op: Op, rid: ReservationId)
    requires !rid.HoldReservation? && Foreign(op) && Apply(l, op).Some?
    ensures ReservedTransfer(Apply(l, op).value.open, rid) == ReservedTransfer(l.open, rid)
  {
    match op
    case Post(_) =>
    case Reserve(r) => assert (l.open + [r])[..|l.open|] == l.open;
    case Settle(id) => WithoutLookup(l.open, id, rid);
    case Void(id) => WithoutLookup(l.open, id, rid);
  }

  lemma SameStep(s: System, s': System, rid: ReservationId)
    requires InStep(s, rid)
    requires s'.log == s.log && s'.outbox == s.outbox
    requires ReservedTransfer(s'.ledger.open, rid) == ReservedTransfer(s.ledger.open, rid)
    ensures InStep(s', rid)
  {
  }

  lemma OthersKeepStep(s: System, op: Op, rid: ReservationId)
    requires InStep(s, rid) && !rid.HoldReservation?
    ensures InStep(OthersAct(s, op), rid)
  {
    if Foreign(op) && Apply(s.ledger, op).Some? {
      OthersKeepLookup(s.ledger, op, rid);
    }
    SameStep(s, OthersAct(s, op), rid);
  }

  lemma OthersKeepHolds(l: State, op: Op)
    requires HoldsClear(l.open) && Foreign(op) && Apply(l, op).Some?
    ensures HoldsClear(Apply(l, op).value.open)
  {
    match op
    case Post(_) =>
    case Reserve(_) =>
    case Settle(id) => HoldsClearWithout(l.open, id);
    case Void(id) => HoldsClearWithout(l.open, id);
  }

  lemma OthersAvoidClearing(l: State, op: Op)
    requires HoldsClear(l.open) && Foreign(op) && Apply(l, op).Some?
    ensures Balance(Apply(l, op).value, WithdrawalClearing) == Balance(l, WithdrawalClearing)
  {
    match op
    case Post(t) => PostedAppend(l.posted, t, WithdrawalClearing);
    case Settle(id) =>
      ReservedTransferFinds(l.open, id);
      PostedAppend(l.posted, ReservedTransfer(l.open, id).value, WithdrawalClearing);
    case _ =>
  }

  lemma OthersKeepLedger(s: System, op: Op)
    requires Valid(s)
    requires Foreign(op) && Apply(s.ledger, op).Some?
    ensures LedgerClear(Apply(s.ledger, op).value, s.owed)
  {
    ApplyKeepsGuard(s.ledger, op);
    OthersKeepHolds(s.ledger, op);
    OthersAvoidClearing(s.ledger, op);
  }

  lemma HoldsClearWithout(open: seq<Reservation>, id: ReservationId)
    requires HoldsClear(open)
    ensures HoldsClear(Without(open, id))
  {
    WithoutIsSublist(open, id);
    var w := Without(open, id);
    assert forall i :: 0 <= i < |w| ==> w[i] in open;
  }

  // ----- runs -----

  lemma RaiseKeepsValid(s: System, f: SagaFact)
    requires Valid(s)
    ensures Valid(RaiseFact(s, f))
  {
    var s' := RaiseFact(s, f);
    assert AllInStep(s') by {
      forall rid: ReservationId | !rid.HoldReservation? ensures InStep(s', rid) {
        assert InStep(s, rid);
        RaiseKeepsStep(s, f, rid);
      }
    }
    assert OnlySagas(s'.outbox) && s'.ledger == s.ledger;
  }

  lemma RelayKeepsAllInStep(s: System, k: nat)
    requires Valid(s) && k < |s.outbox| && Due(s.outbox, k)
    requires Apply(s.ledger, FirstOp(s.outbox[k])).Some?
    ensures AllInStep(RelayFact(s, k))
  {
    forall rid: ReservationId | !rid.HoldReservation? ensures InStep(RelayFact(s, k), rid) {
      RelayKeepsStep(s, k, rid);
    }
  }

  lemma RelayKeepsLedger(s: System, k: nat)
    requires Valid(s) && k < |s.outbox| && Due(s.outbox, k)
    requires Apply(s.ledger, FirstOp(s.outbox[k])).Some?
    ensures LedgerClear(RelayFact(s, k).ledger, RelayFact(s, k).owed)
  {
    DueFact(s, k);
    NetConcat(s.owed, LegsOf(s.outbox[k]));
    RelayEffect(s.ledger, Of(s.log, s.outbox[k].rid), s.outbox[k]);
    RelayKeepsHolds(s, k);
  }

  lemma RelayKeepsOutbox(outbox: seq<SagaFact>, k: nat)
    requires OnlySagas(outbox) && k < |outbox|
    ensures OnlySagas(outbox[..k] + outbox[k + 1..])
  {
  }

  lemma RelayKeepsValid(s: System, k: nat)
    requires Valid(s)
    ensures Valid(RelayFact(s, k))
  {
    if Begins(s, k) {
      RelayKeepsLedger(s, k);
      RelayKeepsOutbox(s.outbox, k);
      RelayKeepsAllInStep(s, k);
    }
  }

  lemma PayKeepsLedger(s: System, i: nat)
    requires Valid(s) && i < |s.owed| && Apply(s.ledger, Post(s.owed[i])).Some?
    ensures LedgerClear(PayOwed(s, i).ledger, PayOwed(s, i).owed)
  {
    ApplyKeepsGuard(s.ledger, Post(s.owed[i]));
    PostedAppend(s.ledger.posted, s.owed[i], WithdrawalClearing);
    NetWithout(s.owed, i);
  }

  lemma PayKeepsValid(s: System, i: nat)
    requires Valid(s)
    ensures Valid(PayOwed(s, i))
  {
    if i < |s.owed| && Apply(s.ledger, Post(s.owed[i])).Some? {
      PayKeepsLedger(s, i);
      forall rid: ReservationId | !rid.HoldReservation? ensures InStep(PayOwed(s, i), rid) {
        assert InStep(s, rid);
        SameStep(s, PayOwed(s, i), rid);
      }
    }
  }

  lemma OthersKeepValid(s: System, op: Op)
    requires Valid(s)
    ensures Valid(OthersAct(s, op))
  {
    if Foreign(op) && Apply(s.ledger, op).Some? {
      OthersKeepLedger(s, op);
    }
    assert AllInStep(OthersAct(s, op)) by {
      forall rid: ReservationId | !rid.HoldReservation? ensures InStep(OthersAct(s, op), rid) {
        assert InStep(s, rid);
        OthersKeepStep(s, op, rid);
      }
    }
  }

  lemma {:induction false} RunKeepsValid(s: System, steps: seq<Step>)
    requires Valid(s)
    ensures Valid(Run(s, steps))
    decreases |steps|
  {
    if steps != [] {
      match steps[0] {
        case Raise(f) => RaiseKeepsValid(s, f);
        case RelayAt(k) => RelayKeepsValid(s, k);
        case PayLeg(i) => PayKeepsValid(s, i);
        case Others(op) => OthersKeepValid(s, op);
      }
      RunKeepsValid(Next(s, steps[0]), steps[1..]);
    }
  }

  lemma EmptyIsValid()
    ensures Valid(EMPTY)
  {
  }

  // ----- what is pending into clearing -----

  function PendingIntoClearing(open: seq<Reservation>): nat {
    if open == [] then 0 else PendingIntoClearing(open[..|open| - 1]) + IntoClearing(open[|open| - 1].transfer)
  }

  function IntoClearing(t: Transfer): nat {
    if t.credit == WithdrawalClearing then t.amount else 0
  }

  /** What a saga in flight, its opening relayed and its ending not, has reserved into clearing. */
  function InFlight(s: System, rid: ReservationId): nat {
    var story := Of(s.log, rid);
    if |story| - |Of(s.outbox, rid)| == 1 && story[0].Opening? then IntoClearing(story[0].transfer) else 0
  }

  function InFlightTotal(s: System, rids: seq<ReservationId>): nat {
    if rids == [] then 0 else InFlight(s, rids[0]) + InFlightTotal(s, rids[1..])
  }

  function OpenFor(open: seq<Reservation>, rid: ReservationId): nat {
    match ReservedTransfer(open, rid)
    case Some(t) => IntoClearing(t)
    case None => 0
  }

  function OpenTotal(open: seq<Reservation>, rids: seq<ReservationId>): nat {
    if rids == [] then 0 else OpenFor(open, rids[0]) + OpenTotal(open, rids[1..])
  }

  ghost predicate NoDuplicateIds(rids: seq<ReservationId>) {
    forall i, j :: 0 <= i < j < |rids| ==> rids[i] != rids[j]
  }

  lemma {:induction false} OpenTotalAppend(open: seq<Reservation>, r: Reservation, rids: seq<ReservationId>)
    requires NoDuplicateIds(rids)
    requires ReservedTransfer(open, r.id) == None
    ensures OpenTotal(open + [r], rids) == OpenTotal(open, rids) + if r.id in rids then IntoClearing(r.transfer) else 0
    decreases |rids|
  {
    assert (open + [r])[..|open|] == open;
    if rids != [] {
      var rest := rids[1..];
      assert rids == [rids[0]] + rest;
      assert forall i :: 0 <= i < |rest| ==> rest[i] == rids[i + 1];
      OpenTotalAppend(open, r, rest);
    }
  }

  lemma {:induction false} NothingOpen(rids: seq<ReservationId>)
    ensures OpenTotal([], rids) == 0
  {
    if rids != [] {
      NothingOpen(rids[1..]);
    }
  }

  /** Every reservation into clearing is named by `rids`. */
  ghost predicate Covers(rids: seq<ReservationId>, open: seq<Reservation>) {
    && NoDuplicateIds(rids)
    && forall i :: 0 <= i < |open| && open[i].transfer.credit == WithdrawalClearing ==> open[i].id in rids
  }

  lemma {:induction false} OpenTotalIsPending(open: seq<Reservation>, rids: seq<ReservationId>)
    requires DistinctIds(open) && Covers(rids, open)
    ensures OpenTotal(open, rids) == PendingIntoClearing(open)
    decreases |open|
  {
    if open == [] {
      NothingOpen(rids);
    } else {
      var init, last := open[..|open| - 1], open[|open| - 1];
      assert open == init + [last];
      OpenTotalIsPending(init, rids);
      ReservedTransferFinds(init, last.id);
      OpenTotalAppend(init, last, rids);
    }
  }

  lemma {:induction false} TotalsAgree(s: System, rids: seq<ReservationId>)
    requires Valid(s)
    requires forall rid :: rid in rids ==> !rid.HoldReservation?
    ensures InFlightTotal(s, rids) == OpenTotal(s.ledger.open, rids)
  {
    if rids != [] {
      assert rids[0] in rids;
      assert InStep(s, rids[0]);
      TotalsAgree(s, rids[1..]);
    }
  }

  /** The sagas that have raised a fact, each once. */
  function Sagas(log: seq<SagaFact>): seq<ReservationId> {
    if log == [] then []
    else
      var rest := Sagas(log[1..]);
      if log[0].rid.HoldReservation? || log[0].rid in rest then rest else [log[0].rid] + rest
  }

  lemma {:induction false} SagasAreTold(log: seq<SagaFact>)
    ensures NoDuplicateIds(Sagas(log))
    ensures forall rid :: rid in Sagas(log) <==> !rid.HoldReservation? && Of(log, rid) != []
  {
    if log != [] {
      SagasAreTold(log[1..]);
    }
  }

  lemma SagasCover(s: System)
    requires Valid(s)
    ensures Covers(Sagas(s.log), s.ledger.open)
  {
    SagasAreTold(s.log);
    var open := s.ledger.open;
    forall i | 0 <= i < |open| && open[i].transfer.credit == WithdrawalClearing ensures open[i].id in Sagas(s.log) {
      assert InStep(s, open[i].id);
      ReservedTransferFinds(open, open[i].id);
    }
  }

  /**
  In every run from nothing, under any interleaving of sagas and of their legs, and any parking: clearing
  itself holds exactly what begun settlements still owe, what is pending into it is exactly what the sagas
  in flight reserved, and no account is below what is reserved on it.
   */
  lemma ClearingHoldsExactlyWhatIsInFlight(steps: seq<Step>, k: AccountKey)
    ensures var s := Run(EMPTY, steps);
            && Balance(s.ledger, WithdrawalClearing) + ClearingNet(s.owed) == 0
            && PendingIntoClearing(s.ledger.open) == InFlightTotal(s, Sagas(s.log))
            && Balance(s.ledger, k) >= Held(s.ledger.open, k) >= 0
  {
    EmptyIsValid();
    RunKeepsValid(EMPTY, steps);
    var s := Run(EMPTY, steps);
    SagasAreTold(s.log);
    SagasCover(s);
    OpenTotalIsPending(s.ledger.open, Sagas(s.log));
    TotalsAgree(s, Sagas(s.log));
    GuardedBalances(s.ledger, k);
  }

  /** The steps that apply a whole fact, leg after leg. */
  function WholeFact(k: nat, legs: seq<Transfer>): seq<Step> {
    [RelayAt(k)] + seq(|legs|, i => PayLeg(0))
  }

  lemma {:induction false} LegsInTurn(s: System)
    requires ApplyChain(s.ledger, Posts(s.owed)).Some?
    ensures Run(s, seq(|s.owed|, i => PayLeg(0))) == s.(ledger := ApplyChain(s.ledger, Posts(s.owed)).value, owed := [])
    decreases |s.owed|
  {
    if s.owed != [] {
      var steps := seq(|s.owed|, i => PayLeg(0));
      assert Posts(s.owed)[0] == Post(s.owed[0]) && Posts(s.owed)[1..] == Posts(s.owed[1..]);
      assert s.owed[..0] + s.owed[1..] == s.owed[1..];
      assert steps[1..] == seq(|s.owed| - 1, i => PayLeg(0));
      LegsInTurn(PayOwed(s, 0));
    }
  }

  /** A fact whose operations are a chain the ledger takes can be applied whole, and then nothing is owed. */
  lemma WholeFactIsItsLegs(s: System, k: nat)
    requires k < |s.outbox| && Due(s.outbox, k) && s.owed == []
    requires ApplyChain(s.ledger, Ops(s.outbox[k])).Some?
    ensures Run(s, WholeFact(k, LegsOf(s.outbox[k])))
         == s.(ledger := ApplyChain(s.ledger, Ops(s.outbox[k])).value, outbox := s.outbox[..k] + s.outbox[k + 1..])
  {
    var f := s.outbox[k];
    var steps := WholeFact(k, LegsOf(f));
    assert Ops(f)[0] == FirstOp(f) && Ops(f)[1..] == Posts(LegsOf(f));
    assert s.owed + LegsOf(f) == LegsOf(f);
    assert steps[0] == RelayAt(k) && steps[1..] == seq(|LegsOf(f)|, i => PayLeg(0));
    LegsInTurn(RelayFact(s, k));
  }

  // ----- endings find their reservation -----

  /** When a saga's ending is due, its reservation stands, and is the one its opening made. */
  lemma EndingFindsItsReservation(steps: seq<Step>, k: nat)
    requires k < |Run(EMPTY, steps).outbox| && Due(Run(EMPTY, steps).outbox, k)
    requires !Run(EMPTY, steps).outbox[k].Opening?
    ensures var s := Run(EMPTY, steps);
            var story := Of(s.log, s.outbox[k].rid);
            && |story| == 2 && story[1] == s.outbox[k] && story[0].Opening?
            && ReservedTransfer(s.ledger.open, s.outbox[k].rid) == Some(story[0].transfer)
  {
    EmptyIsValid();
    RunKeepsValid(EMPTY, steps);
    DueFact(Run(EMPTY, steps), k);
  }

  /** A release that is due is therefore never refused. */
  lemma ReleasesAreNeverRefused(s: System, k: nat)
    requires Valid(s) && k < |s.outbox| && Due(s.outbox, k)
    requires s.outbox[k].Releasing?
    ensures Begins(s, k)
  {
    DueFact(s, k);
  }
}
