/**
The double-entry ledger as the domain describes it (domain/src/balance.rs): accounts on three
ledgers, posted transfers, pending reservations, and the non-negative guard on each account's
normal side. A ledger is its history: balances are read off the posted transfers and the
reservations still open.
 */
module Ledger {
  import opened Base
  import opened Money

  /** A UUID, as the 128-bit number it is. */
  type Uuid = u128
  type UserId = Uuid
  type ServiceId = string
  type ScopeId = string
  type Label = string

  datatype Network = Bep20 | Trc20 | Ton | Polygon

  datatype LedgerKind = Usdt | UsdMock | Share

  /** Which side counts up; the guard keeps that side at or above the other. */
  datatype Normal = Debit | Credit

  datatype AccountKey =
    | CryptoWallet(network: Network)
    | UserClaim(user: UserId)
    | ServiceClaim(service: ServiceId)
    | WithdrawalClearing
    | BankCustody
    | UserShares(service: ServiceId, user: UserId)
    | SharesOutstanding(service: ServiceId)
    | FeeShares(service: ServiceId)
    | BookShares(service: ServiceId, user: UserId)
    | BookCash(user: UserId)
    | ScopeClaim(user: UserId, scope: ScopeId)
    | ScopeAccount(scope: ScopeId, name: Label)
    | HoldClearing
  {
    function Ledger(): LedgerKind {
      match this
      case BankCustody => UsdMock
      case UserShares(_, _) | SharesOutstanding(_) | FeeShares(_) | BookShares(_, _) => Share
      case _ => Usdt
    }

    function Normal(): Normal {
      match this
      case CryptoWallet(_) | BankCustody | UserShares(_, _) | FeeShares(_) | BookShares(_, _) => Debit
      case _ => Credit
    }

    /** Where value physically is: the debit-normal accounts of the USDT ledger. */
    predicate IsCustody() {
      Ledger() == Usdt && Normal() == Debit
    }

    /** Whose value it is: the credit-normal accounts of the USDT ledger. */
    predicate IsClaim() {
      Ledger() == Usdt && Normal() == Credit
    }

    /** A holding of units of `s`: a user's, a user's escrow on the book, or the fee class. */
    predicate HoldsUnitsOf(s: ServiceId) {
      (UserShares? || BookShares? || FeeShares?) && service == s
    }
  }

  datatype Transfer = Transfer(debit: AccountKey, credit: AccountKey, amount: nat)

  /** What a pending transfer is for; ids are minted once, so each names one reservation. */
  datatype ReservationId =
    | PaymentReservation(id: Uuid)
    | WithdrawalReservation(id: Uuid)
    | RedemptionReservation(id: Uuid)
    | HoldReservation(id: Uuid, version: nat)

  datatype Reservation = Reservation(id: ReservationId, transfer: Transfer)

  datatype State = State(posted: seq<Transfer>, open: seq<Reservation>)

  // ----- balances -----

  /** What one posted transfer does to an account's balance, signed by its normal side. */
  function Effect(t: Transfer, k: AccountKey): int {
    var credited := (if t.credit == k then t.amount else 0) - (if t.debit == k then t.amount else 0);
    if k.Normal() == Credit then credited else -credited
  }

  function Posted(ts: seq<Transfer>, k: AccountKey): int {
    if ts == [] then 0 else Posted(ts[..|ts| - 1], k) + Effect(ts[|ts| - 1], k)
  }

  /** The side of a transfer that lowers a balance. */
  function Takes(t: Transfer, k: AccountKey): nat {
    if (k.Normal() == Credit && t.debit == k) || (k.Normal() == Debit && t.credit == k) then t.amount else 0
  }

  /** What open reservations hold back from an account. */
  function Held(open: seq<Reservation>, k: AccountKey): nat {
    if open == [] then 0 else Held(open[..|open| - 1], k) + Takes(open[|open| - 1].transfer, k)
  }

  function Balance(l: State, k: AccountKey): int {
    Posted(l.posted, k)
  }

  function Available(l: State, k: AccountKey): int {
    Balance(l, k) - Held(l.open, k)
  }

  // ----- operations -----

  /** A ledger operation: post outright, reserve, post a reservation, or void one. */
  datatype Op =
    | Post(transfer: Transfer)
    | Reserve(reservation: Reservation)
    | Settle(id: ReservationId)
    | Void(id: ReservationId)

  /** Two different accounts of one ledger, a positive amount, and no guarded balance overdrawn. */
  predicate Admits(l: State, t: Transfer) {
    && t.amount > 0
    && t.debit != t.credit
    && t.debit.Ledger() == t.credit.Ledger()
    && (t.debit.Normal() == Credit ==> t.amount <= Available(l, t.debit))
    && (t.credit.Normal() == Debit ==> t.amount <= Available(l, t.credit))
  }

  /** The open reservations without those named `id`. */
  function Without(open: seq<Reservation>, id: ReservationId): seq<Reservation> {
    if open == [] then []
    else
      var last := open[|open| - 1];
      var rest := Without(open[..|open| - 1], id);
      if last.id == id then rest else rest + [last]
  }

  /** The transfer of the reservation named `id` (the last one, were there several). */
  function ReservedTransfer(open: seq<Reservation>, id: ReservationId): Option<Transfer> {
    if open == [] then None
    else if open[|open| - 1].id == id then Some(open[|open| - 1].transfer)
    else ReservedTransfer(open[..|open| - 1], id)
  }

  function Apply(l: State, op: Op): Option<State> {
    match op
    case Post(t) =>
      if Admits(l, t) then Some(l.(posted := l.posted + [t])) else None
    case Reserve(r) =>
      if Admits(l, r.transfer) && ReservedTransfer(l.open, r.id) == None
      then Some(l.(open := l.open + [r])) else None
    case Settle(id) =>
      var t :- ReservedTransfer(l.open, id);
      Some(State(l.posted + [t], Without(l.open, id)))
    case Void(id) =>
      var _ :- ReservedTransfer(l.open, id);
      Some(l.(open := Without(l.open, id)))
  }

  /** A linked chain: every operation applies, or none does. */
  function ApplyChain(l: State, ops: seq<Op>): Option<State>
    decreases |ops|
  {
    if ops == [] then Some(l)
    else
      var next :- Apply(l, ops[0]);
      ApplyChain(next, ops[1..])
  }

  // ----- how the readings move -----

  lemma PostedAppend(ts: seq<Transfer>, t: Transfer, k: AccountKey)
    ensures Posted(ts + [t], k) == Posted(ts, k) + Effect(t, k)
  {
    assert (ts + [t])[..|ts|] == ts;
  }

  lemma HeldAppend(open: seq<Reservation>, r: Reservation, k: AccountKey)
    ensures Held(open + [r], k) == Held(open, k) + Takes(r.transfer, k)
  {
    assert (open + [r])[..|open|] == open;
  }

  /** No two open reservations share an id. */
  ghost predicate DistinctIds(open: seq<Reservation>) {
    forall i, j :: 0 <= i < j < |open| ==> open[i].id != open[j].id
  }

  lemma ReservedTransferFinds(open: seq<Reservation>, id: ReservationId)
    ensures ReservedTransfer(open, id).Some? <==> exists i :: 0 <= i < |open| && open[i].id == id
    ensures ReservedTransfer(open, id).Some? ==>
              exists i :: 0 <= i < |open| && open[i].id == id && open[i].transfer == ReservedTransfer(open, id).value
  {
    if open != [] {
      var n := |open| - 1;
      ReservedTransferFinds(open[..n], id);
      if open[n].id != id && ReservedTransfer(open[..n], id).Some? {
        var i :| 0 <= i < n && open[..n][i].id == id && open[..n][i].transfer == ReservedTransfer(open[..n], id).value;
        assert open[i] == open[..n][i];
      }
      if i :| 0 <= i < |open| && open[i].id == id {
        if i < n {
          assert open[..n][i].id == id;
        }
      }
    }
  }

  lemma WithoutAbsent(open: seq<Reservation>, id: ReservationId)
    requires ReservedTransfer(open, id) == None
    ensures Without(open, id) == open
  {
    if open != [] {
      WithoutAbsent(open[..|open| - 1], id);
      assert open == open[..|open| - 1] + [open[|open| - 1]];
    }
  }

  lemma {:induction false} WithoutIsSublist(open: seq<Reservation>, id: ReservationId)
    ensures forall r :: r in Without(open, id) <==> r in open && r.id != id
  {
    if open != [] {
      var init, last := open[..|open| - 1], open[|open| - 1];
      WithoutIsSublist(init, id);
      assert open == init + [last];
    }
  }

  lemma {:induction false} WithoutKeepsDistinct(open: seq<Reservation>, id: ReservationId)
    requires DistinctIds(open)
    ensures DistinctIds(Without(open, id))
  {
    if open != [] {
      var init, last := open[..|open| - 1], open[|open| - 1];
      WithoutKeepsDistinct(init, id);
      WithoutIsSublist(init, id);
      forall r | r in init ensures r.id != last.id {
        var i :| 0 <= i < |init| && init[i] == r;
        assert open[i] == r;
      }
    }
  }

  lemma {:induction false} WithoutLookup(open: seq<Reservation>, id: ReservationId, other: ReservationId)
    ensures ReservedTransfer(Without(open, id), other)
         == if other == id then None else ReservedTransfer(open, other)
  {
    if open != [] {
      var init, last := open[..|open| - 1], open[|open| - 1];
      WithoutLookup(init, id, other);
      var w := Without(init, id);
      assert (w + [last])[..|w|] == w;
    }
  }

  /** Removing the one reservation named `id` gives back exactly what it held. */
  lemma {:induction false} HeldWithout(open: seq<Reservation>, id: ReservationId, k: AccountKey)
    requires DistinctIds(open)
    ensures Held(open, k) == Held(Without(open, id), k)
                           + match ReservedTransfer(open, id) case None => 0 case Some(t) => Takes(t, k)
  {
    if open != [] {
      var init, last := open[..|open| - 1], open[|open| - 1];
      HeldWithout(init, id, k);
      if last.id == id {
        ReservedTransferFinds(init, id);
      } else {
        HeldAppend(Without(init, id), last, k);
      }
    }
  }

  // ----- the guard -----

  /** Nothing reserved or posted ever takes a guarded account below zero. */
  ghost predicate Guarded(l: State) {
    && DistinctIds(l.open)
    && forall k :: Available(l, k) >= 0
  }

  /** A guarded ledger never shows a negative balance: reservations only hold back more. */
  lemma GuardedBalances(l: State, k: AccountKey)
    requires Guarded(l)
    ensures Balance(l, k) >= Held(l.open, k) >= 0
  {
    assert Available(l, k) >= 0;
  }

  lemma SettleAvailable(l: State, id: ReservationId, k: AccountKey)
    requires DistinctIds(l.open)
    requires ReservedTransfer(l.open, id).Some?
    ensures var t := ReservedTransfer(l.open, id).value;
            var l' := Apply(l, Settle(id)).value;
            Available(l', k) == Available(l, k) + Takes(t, k) + Effect(t, k)
  {
    var t := ReservedTransfer(l.open, id).value;
    PostedAppend(l.posted, t, k);
    HeldWithout(l.open, id, k);
  }

  /** The ledger posts a transfer exactly when it moves something between two accounts of one ledger and keeps every guard. */
  lemma PostedIff(l: State, t: Transfer)
    requires Guarded(l)
    ensures Apply(l, Post(t)).Some? <==>
              && t.amount > 0 && t.debit != t.credit && t.debit.Ledger() == t.credit.Ledger()
              && Guarded(State(l.posted + [t], l.open))
  {
    var after := State(l.posted + [t], l.open);
    forall k ensures Available(after, k) == Available(l, k) + Effect(t, k) {
      PostedAppend(l.posted, t, k);
    }
    if Admits(l, t) {
      PostKeepsGuard(l, t);
    } else if t.amount > 0 && t.debit != t.credit && t.debit.Ledger() == t.credit.Ledger() {
      var short := if t.debit.Normal() == Credit && t.amount > Available(l, t.debit) then t.debit else t.credit;
      assert Available(after, short) < 0;
    }
  }

  lemma PostKeepsGuard(l: State, t: Transfer)
    requires Guarded(l)
    requires Admits(l, t)
    ensures Guarded(l.(posted := l.posted + [t]))
  {
    var l' := l.(posted := l.posted + [t]);
    forall k ensures Available(l', k) >= 0 {
      assert Available(l, k) >= 0;
      PostedAppend(l.posted, t, k);
    }
  }

  lemma ReserveKeepsGuard(l: State, r: Reservation)
    requires Guarded(l)
    requires Admits(l, r.transfer) && ReservedTransfer(l.open, r.id) == None
    ensures Guarded(l.(open := l.open + [r]))
  {
    var l' := l.(open := l.open + [r]);
    ReservedTransferFinds(l.open, r.id);
    forall k ensures Available(l', k) >= 0 {
      assert Available(l, k) >= 0;
      HeldAppend(l.open, r, k);
    }
  }

  /** Every operation the ledger accepts keeps every guard. */
  lemma ApplyKeepsGuard(l: State, op: Op)
    requires Guarded(l)
    requires Apply(l, op).Some?
    ensures Guarded(Apply(l, op).value)
  {
    match op
    case Post(t) => PostKeepsGuard(l, t);
    case Reserve(r) => ReserveKeepsGuard(l, r);
    case Settle(id) =>
      WithoutKeepsDistinct(l.open, id);
      forall k ensures Available(Apply(l, op).value, k) >= 0 {
        assert Available(l, k) >= 0;
        SettleAvailable(l, id, k);
      }
    case Void(id) =>
      WithoutKeepsDistinct(l.open, id);
      forall k ensures Available(Apply(l, op).value, k) >= 0 {
        assert Available(l, k) >= 0;
        HeldWithout(l.open, id, k);
      }
  }

  lemma {:induction false} ChainKeepsGuard(l: State, ops: seq<Op>)
    requires Guarded(l)
    requires ApplyChain(l, ops).Some?
    ensures Guarded(ApplyChain(l, ops).value)
    decreases |ops|
  {
    if ops != [] {
      ApplyKeepsGuard(l, ops[0]);
      ChainKeepsGuard(Apply(l, ops[0]).value, ops[1..]);
    }
  }
}
