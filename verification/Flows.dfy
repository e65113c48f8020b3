/**
Every money fact the domain raises, as the ledger legs its event states, and what any interleaving
of those legs keeps: posted custody equals posted claims, each product's supply equals its
holdings, nothing is ever posted on the hold clearing account, and no guarded account is negative.
 */
module Flows {
  import opened Base
  import opened Ledger
  import opened Venue
  import Book

  /** Who can pay or be paid. */
  datatype Party = UserParty(user: UserId) | ServiceParty(service: ServiceId) | Treasury {
    function ClaimKey(): AccountKey {
      match this
      case UserParty(user) => UserClaim(user)
      case ServiceParty(service) => ServiceClaim(service)
      case Treasury => TREASURY_ACCOUNT
    }
  }

  const TREASURY_ACCOUNT: AccountKey := ScopeAccount("main", "treasury")

  /** Where a fee banking keeps for its own service lands. */
  datatype FeePayee = PayService(service: ServiceId) | PayScopeAccount(scope: ScopeId, name: Label) {
    function ClaimKey(): AccountKey {
      match this
      case PayService(service) => ServiceClaim(service)
      case PayScopeAccount(scope, name) => ScopeAccount(scope, name)
    }
  }

  /** A user's money in `main`, or their compartment in another scope. */
  datatype Compartment = MainWallet | InScope(scope: ScopeId) {
    function ClaimKey(user: UserId): AccountKey {
      match this
      case MainWallet => UserClaim(user)
      case InScope(scope) => ScopeClaim(user, scope)
    }
  }

  datatype UnitHolder = HolderUser(user: UserId) | HolderAllocation {
    function SharesKey(service: ServiceId): AccountKey {
      match this
      case HolderUser(user) => UserShares(service, user)
      case HolderAllocation => FeeShares(service)
    }
  }

  datatype HoldDestination = ToAccount(name: Label) | ToUser(user: UserId) {
    function Key(scope: ScopeId): AccountKey {
      match this
      case ToAccount(name) => ScopeAccount(scope, name)
      case ToUser(user) => ScopeClaim(user, scope)
    }
  }

  datatype PaidLine = PaidLine(user: UserId, amount: nat)

  datatype Fact =
    | Deposited(party: Party, network: Network, amount: nat)
    | Subscribed(user: UserId, service: ServiceId, cash: nat, units: nat)
    | UnitsMinted(service: ServiceId, holder: UnitHolder, units: nat)
    | UnitsRetired(service: ServiceId, holder: UnitHolder, units: nat)
    | RedemptionRequested(id: Uuid, user: UserId, service: ServiceId, units: nat)
    | RedemptionSettled(id: Uuid, user: UserId, service: ServiceId, cash: nat)
    | RedemptionReleased(id: Uuid)
    | FeeCharged(user: UserId, service: ServiceId, units: nat)
    | FeeSettled(service: ServiceId, units: nat, cash: nat)
    | OrderLocked(order: Book.Order)
    | Traded(service: ServiceId, buyer: UserId, seller: UserId, taker: Book.Side, size: nat, notional: nat, fee: nat)
    | OrderReleased(order: Book.Order)
    | PaymentReserved(id: Uuid, payer: Party, amount: nat)
    | PaymentSettled(id: Uuid, payee: Party, amount: nat)
    | PaymentReleased(id: Uuid)
    | WithdrawalRequested(id: Uuid, claim: Party, amount: nat)
    | WithdrawalSettled(id: Uuid, network: Network, amount: nat, fee: nat, feePayee: FeePayee)
    | WithdrawalReleased(id: Uuid)
    | HoldPlaced(id: Uuid, scope: ScopeId, user: UserId, amount: nat, version: nat)
    | HoldCaptured(id: Uuid, scope: ScopeId, user: UserId, version: nat, released: nat, held: nat, amount: nat, destination: HoldDestination)
    | HoldReleased(id: Uuid, released: nat)
    | CompartmentMoved(user: UserId, from: Compartment, to: Compartment, amount: nat)
    | ScopeTransferred(scope: ScopeId, source: Label, toScope: ScopeId, target: Label, amount: nat)
    | ScopePaidOut(scope: ScopeId, source: Label, lines: seq<PaidLine>)
    | InvoicePaid(scope: ScopeId, target: Label, amount: nat, user: UserId, from: Compartment)
    | ScopeCharged(scope: ScopeId, user: UserId, target: Label, amount: nat)

  function PayoutOps(scope: ScopeId, from: Label, lines: seq<PaidLine>): seq<Op> {
    if lines == [] then []
    else [Post(Transfer(ScopeAccount(scope, from), ScopeClaim(lines[0].user, scope), lines[0].amount))]
         + PayoutOps(scope, from, lines[1..])
  }

  /** The ledger operations of a fact, as its event's documentation states them. */
  function Plan(f: Fact): seq<Op> {
    match f
    case Deposited(party, network, amount) =>
      [Post(Transfer(CryptoWallet(network), party.ClaimKey(), amount))]
    case Subscribed(user, service, cash, units) =>
      [Post(Transfer(UserClaim(user), ServiceClaim(service), cash)),
       Post(Transfer(UserShares(service, user), SharesOutstanding(service), units))]
    case UnitsMinted(service, holder, units) =>
      [Post(Transfer(holder.SharesKey(service), SharesOutstanding(service), units))]
    case UnitsRetired(service, holder, units) =>
      [Post(Transfer(SharesOutstanding(service), holder.SharesKey(service), units))]
    case RedemptionRequested(id, user, service, units) =>
      [Reserve(Reservation(RedemptionReservation(id), Transfer(SharesOutstanding(service), UserShares(service, user), units)))]
    case RedemptionSettled(id, user, service, cash) =>
      [Settle(RedemptionReservation(id)), Post(Transfer(ServiceClaim(service), UserClaim(user), cash))]
    case RedemptionReleased(id) => [Void(RedemptionReservation(id))]
    case FeeCharged(user, service, units) =>
      [Post(Transfer(FeeShares(service), UserShares(service, user), units))]
    case FeeSettled(service, units, cash) =>
      [Post(Transfer(SharesOutstanding(service), FeeShares(service), units)),
       Post(Transfer(ServiceClaim(service), ServiceClaim(FEE_ALLOCATION), cash))]
    case OrderLocked(order) => Leg(LockTransfer(order))
    case Traded(service, buyer, seller, taker, size, notional, fee) => TradeOps(service, buyer, seller, taker, size, notional, fee)
    case OrderReleased(order) => ReleaseOps(order)
    case PaymentReserved(id, source, amount) =>
      [Reserve(Reservation(PaymentReservation(id), Transfer(source.ClaimKey(), WithdrawalClearing, amount)))]
    case PaymentSettled(id, destination, amount) =>
      [Settle(PaymentReservation(id)), Post(Transfer(WithdrawalClearing, destination.ClaimKey(), amount))]
    case PaymentReleased(id) => [Void(PaymentReservation(id))]
    case WithdrawalRequested(id, claim, amount) =>
      [Reserve(Reservation(WithdrawalReservation(id), Transfer(claim.ClaimKey(), WithdrawalClearing, amount)))]
    case WithdrawalSettled(id, network, amount, fee, payee) =>
      [Settle(WithdrawalReservation(id))]
      + Leg(Transfer(WithdrawalClearing, CryptoWallet(network), if fee <= amount then amount - fee else 0))
      + Leg(Transfer(WithdrawalClearing, payee.ClaimKey(), fee))
    case WithdrawalReleased(id) => [Void(WithdrawalReservation(id))]
    case HoldPlaced(id, scope, user, amount, version) =>
      [Reserve(Reservation(HoldReservation(id, version), Transfer(ScopeClaim(user, scope), HoldClearing, amount)))]
    case HoldCaptured(id, scope, user, version, released, held, amount, to) =>
      [Void(HoldReservation(id, released)),
       Post(Transfer(ScopeClaim(user, scope), to.Key(scope), amount))]
      + (if amount < held
         then [Reserve(Reservation(HoldReservation(id, version), Transfer(ScopeClaim(user, scope), HoldClearing, held - amount)))]
         else [])
    case HoldReleased(id, released) => [Void(HoldReservation(id, released))]
    case CompartmentMoved(user, from, to, amount) =>
      [Post(Transfer(from.ClaimKey(user), to.ClaimKey(user), amount))]
    case ScopeTransferred(scope, from, toScope, to, amount) =>
      [Post(Transfer(ScopeAccount(scope, from), ScopeAccount(toScope, to), amount))]
    case ScopePaidOut(scope, from, lines) => PayoutOps(scope, from, lines)
    case InvoicePaid(scope, to, amount, payer, from) =>
      [Post(Transfer(from.ClaimKey(payer), ScopeAccount(scope, to), amount))]
    case ScopeCharged(scope, user, to, amount) =>
      [Post(Transfer(ScopeClaim(user, scope), ScopeAccount(scope, to), amount))]
  }

  /** Each leg by itself: one the ledger refuses changes nothing, and the next is tried. */
  function ApplyEach(l: State, ops: seq<Op>): State
    decreases |ops|
  {
    if ops == [] then l else ApplyEach(Apply(l, ops[0]).GetOr(l), ops[1..])
  }

  /** Every operation is a leg of some fact, whatever became of the other legs of it. */
  ghost predicate Legs(ops: seq<Op>) {
    forall op <- ops :: exists f :: op in Plan(f)
  }

  /** Applied whole, or parked: a fact the ledger refuses changes nothing. */
  function Relay(l: State, f: Fact): State {
    ApplyChain(l, Plan(f)).GetOr(l)
  }

  function RelayAll(l: State, fs: seq<Fact>): State
    decreases |fs|
  {
    if fs == [] then l else RelayAll(Relay(l, fs[0]), fs[1..])
  }

  /** The legs that posted when whole facts are relayed. */
  function PostedLegs(l: State, fs: seq<Fact>): seq<Op>
    decreases |fs|
  {
    if fs == [] then []
    else (if ApplyChain(l, Plan(fs[0])).Some? then Plan(fs[0]) else []) + PostedLegs(Relay(l, fs[0]), fs[1..])
  }

  lemma {:induction false} ApplyEachSplits(l: State, a: seq<Op>, b: seq<Op>)
    ensures ApplyEach(l, a + b) == ApplyEach(ApplyEach(l, a), b)
    decreases |a|
  {
    if a == [] {
      assert a + b == b;
    } else {
      assert (a + b)[0] == a[0] && (a + b)[1..] == a[1..] + b;
      ApplyEachSplits(Apply(l, a[0]).GetOr(l), a[1..], b);
    }
  }

  lemma {:induction false} ChainIsEach(l: State, ops: seq<Op>)
    requires ApplyChain(l, ops).Some?
    ensures ApplyEach(l, ops) == ApplyChain(l, ops).value
    decreases |ops|
  {
    if ops != [] {
      ChainIsEach(Apply(l, ops[0]).value, ops[1..]);
    }
  }

  /** Facts that apply whole or are parked are legs that apply one by one. */
  lemma {:induction false} WholeFactsAreLegs(l: State, fs: seq<Fact>)
    ensures Legs(PostedLegs(l, fs)) && RelayAll(l, fs) == ApplyEach(l, PostedLegs(l, fs))
    decreases |fs|
  {
    if fs != [] {
      var first := if ApplyChain(l, Plan(fs[0])).Some? then Plan(fs[0]) else [];
      WholeFactsAreLegs(Relay(l, fs[0]), fs[1..]);
      if ApplyChain(l, Plan(fs[0])).Some? {
        ChainIsEach(l, Plan(fs[0]));
      }
      ApplyEachSplits(l, first, PostedLegs(Relay(l, fs[0]), fs[1..]));
    }
  }

  // ----- what makes a leg sound -----

  /** A leg stays on one ledger; a leg of units stays within one product; only holds touch hold clearing. */
  predicate Sound(t: Transfer) {
    && t.debit.Ledger() == t.credit.Ledger()
    && t.debit.Ledger() != UsdMock
    && (t.debit.Ledger() == Share ==> t.debit.service == t.credit.service)
  }

  predicate AvoidsHolds(t: Transfer) {
    t.debit != HoldClearing && t.credit != HoldClearing
  }

  predicate SoundOp(op: Op) {
    match op
    case Post(t) => Sound(t) && AvoidsHolds(t)
    case Reserve(r) => Sound(r.transfer) && (r.id.HoldReservation? || AvoidsHolds(r.transfer))
    case Settle(id) => !id.HoldReservation?
    case Void(_) => true
  }

  ghost predicate SoundOps(ops: seq<Op>) {
    forall i :: 0 <= i < |ops| ==> SoundOp(ops[i])
  }

  lemma PayoutSound(scope: ScopeId, source: Label, lines: seq<PaidLine>)
    ensures SoundOps(PayoutOps(scope, source, lines))
  {
    if lines != [] {
      PayoutSound(scope, source, lines[1..]);
    }
  }

  predicate IsUnitFact(f: Fact) {
    || f.Subscribed? || f.UnitsMinted? || f.UnitsRetired? || f.RedemptionRequested? || f.RedemptionSettled?
    || f.RedemptionReleased? || f.FeeCharged? || f.FeeSettled?
  }

  predicate IsBookFact(f: Fact) {
    f.OrderLocked? || f.Traded? || f.OrderReleased?
  }

  predicate IsClearingFact(f: Fact) {
    || f.PaymentReserved? || f.PaymentSettled? || f.PaymentReleased?
    || f.WithdrawalRequested? || f.WithdrawalSettled? || f.WithdrawalReleased?
  }

  lemma UnitFactsSound(f: Fact)
    requires IsUnitFact(f)
    ensures SoundOps(Plan(f))
  {
  }

  lemma BookFactsSound(f: Fact)
    requires IsBookFact(f)
    ensures SoundOps(Plan(f))
  {
  }

  lemma ClearingFactsSound(f: Fact)
    requires IsClearingFact(f)
    ensures SoundOps(Plan(f))
  {
  }

  lemma ScopeFactsSound(f: Fact)
    requires !IsUnitFact(f) && !IsBookFact(f) && !IsClearingFact(f)
    ensures SoundOps(Plan(f))
  {
    match f
    case ScopePaidOut(scope, source, lines) => PayoutSound(scope, source, lines);
    case _ =>
  }

  /** Every fact the domain raises moves money soundly. */
  lemma EveryPlanIsSound(f: Fact)
    ensures SoundOps(Plan(f))
  {
    if IsUnitFact(f) {
      UnitFactsSound(f);
    } else if IsBookFact(f) {
      BookFactsSound(f);
    } else if IsClearingFact(f) {
      ClearingFactsSound(f);
    } else {
      ScopeFactsSound(f);
    }
  }

  // ----- what any sound history keeps -----

  ghost predicate SoundLedger(l: State) {
    && (forall i :: 0 <= i < |l.posted| ==> Sound(l.posted[i]) && AvoidsHolds(l.posted[i]))
    && (forall i :: 0 <= i < |l.open| ==> Sound(l.open[i].transfer) && (l.open[i].id.HoldReservation? || AvoidsHolds(l.open[i].transfer)))
  }

  lemma ApplyKeepsSound(l: State, op: Op)
    requires SoundLedger(l) && SoundOp(op)
    requires Apply(l, op).Some?
    ensures SoundLedger(Apply(l, op).value)
  {
    if op.Settle? || op.Void? {
      ReservedTransferFinds(l.open, op.id);
      WithoutIsSublist(l.open, op.id);
      var w := Without(l.open, op.id);
      assert forall i :: 0 <= i < |w| ==> w[i] in l.open;
    }
  }

  lemma LegIsSound(op: Op, f: Fact)
    requires op in Plan(f)
    ensures SoundOp(op)
  {
    EveryPlanIsSound(f);
  }

  lemma LegsAreSound(ops: seq<Op>)
    requires Legs(ops)
    ensures SoundOps(ops)
  {
    forall i | 0 <= i < |ops| ensures SoundOp(ops[i]) {
      assert ops[i] in ops;
      var f :| ops[i] in Plan(f);
      LegIsSound(ops[i], f);
    }
  }

  lemma {:induction false} EachKeepsSound(l: State, ops: seq<Op>)
    requires SoundLedger(l) && Guarded(l) && SoundOps(ops)
    ensures SoundLedger(ApplyEach(l, ops)) && Guarded(ApplyEach(l, ops))
    decreases |ops|
  {
    if ops != [] {
      if Apply(l, ops[0]).Some? {
        ApplyKeepsSound(l, ops[0]);
        ApplyKeepsGuard(l, ops[0]);
      }
      EachKeepsSound(Apply(l, ops[0]).GetOr(l), ops[1..]);
    }
  }

  // ----- summing balances over accounts -----

  /** A class of accounts whose balances are summed. */
  datatype Class = Custody | Claims | Holdings(service: ServiceId) | Supply(service: ServiceId)

  predicate Member(c: Class, k: AccountKey) {
    match c
    case Custody => k.IsCustody()
    case Claims => k.IsClaim()
    case Holdings(s) => k.HoldsUnitsOf(s)
    case Supply(s) => k == SharesOutstanding(s)
  }

  function SumBalances(l: State, keys: seq<AccountKey>): int {
    if keys == [] then 0 else Balance(l, keys[0]) + SumBalances(l, keys[1..])
  }

  /** What a history of transfers does to a class as a whole. */
  ghost function ClassNet(ts: seq<Transfer>, c: Class): int {
    if ts == [] then 0 else ClassNet(ts[..|ts| - 1], c) + ClassEffect(ts[|ts| - 1], c)
  }

  ghost function ClassEffect(t: Transfer, c: Class): int {
    OneSide(t.debit, 0 - t.amount, c) + OneSide(t.credit, t.amount, c)
  }

  ghost function OneSide(k: AccountKey, credited: int, c: Class): int {
    if !Member(c, k) then 0 else if k.Normal() == Credit then credited else -credited
  }

  ghost predicate NoDuplicates(keys: seq<AccountKey>) {
    forall i, j :: 0 <= i < j < |keys| ==> keys[i] != keys[j]
  }

  /** A list of accounts is the whole class, as far as the history knows it. */
  ghost predicate Lists(keys: seq<AccountKey>, c: Class, ts: seq<Transfer>) {
    && NoDuplicates(keys)
    && (forall k :: k in keys ==> Member(c, k))
    && (forall i :: 0 <= i < |ts| ==>
          && (Member(c, ts[i].debit) ==> ts[i].debit in keys)
          && (Member(c, ts[i].credit) ==> ts[i].credit in keys))
  }

  function Joined(keys: seq<AccountKey>, c: Class, k: AccountKey): seq<AccountKey> {
    if Member(c, k) && k !in keys then keys + [k] else keys
  }

  /** The accounts of a class the history has touched, each once. */
  function AccountsOf(ts: seq<Transfer>, c: Class): seq<AccountKey> {
    if ts == [] then []
    else
      var last := ts[|ts| - 1];
      Joined(Joined(AccountsOf(ts[..|ts| - 1], c), c, last.debit), c, last.credit)
  }

  lemma JoinedIsListed(keys: seq<AccountKey>, c: Class, k: AccountKey)
    requires NoDuplicates(keys) && forall k :: k in keys ==> Member(c, k)
    ensures NoDuplicates(Joined(keys, c, k)) && forall k :: k in Joined(keys, c, k) ==> Member(c, k)
    ensures (Member(c, k) ==> k in Joined(keys, c, k)) && forall j :: j in keys ==> j in Joined(keys, c, k)
  {
  }

  lemma {:induction false} AccountsAreListed(ts: seq<Transfer>, c: Class)
    ensures Lists(AccountsOf(ts, c), c, ts)
  {
    if ts != [] {
      var before, last := ts[..|ts| - 1], ts[|ts| - 1];
      AccountsAreListed(before, c);
      JoinedIsListed(AccountsOf(before, c), c, last.debit);
      JoinedIsListed(Joined(AccountsOf(before, c), c, last.debit), c, last.credit);
    }
  }

  /** What the accounts of a class come to together. */
  function TotalOf(l: State, c: Class): int {
    SumBalances(l, AccountsOf(l.posted, c))
  }

  ghost function SumEffects(t: Transfer, keys: seq<AccountKey>): int {
    if keys == [] then 0 else Effect(t, keys[0]) + SumEffects(t, keys[1..])
  }

  lemma {:induction false} SumEffectsOnce(t: Transfer, keys: seq<AccountKey>, c: Class)
    requires NoDuplicates(keys)
    requires forall k :: k in keys ==> Member(c, k)
    ensures SumEffects(t, keys) == (if t.debit in keys then OneSide(t.debit, 0 - t.amount, c) else 0)
                                 + (if t.credit in keys then OneSide(t.credit, t.amount, c) else 0)
  {
    if keys != [] {
      var rest := keys[1..];
      assert keys == [keys[0]] + rest;
      assert NoDuplicates(rest) by {
        assert forall i :: 0 <= i < |rest| ==> rest[i] == keys[i + 1];
      }
      SumEffectsOnce(t, rest, c);
      assert keys[0] !in rest by {
        assert forall i :: 0 <= i < |rest| ==> rest[i] == keys[i + 1];
      }
    }
  }

  lemma {:induction false} SumBalancesAppend(ts: seq<Transfer>, t: Transfer, open: seq<Reservation>, keys: seq<AccountKey>)
    ensures SumBalances(State(ts + [t], open), keys) == SumBalances(State(ts, open), keys) + SumEffects(t, keys)
  {
    if keys != [] {
      SumBalancesAppend(ts, t, open, keys[1..]);
      PostedAppend(ts, t, keys[0]);
    }
  }

  lemma {:induction false} NothingPosted(open: seq<Reservation>, keys: seq<AccountKey>)
    ensures SumBalances(State([], open), keys) == 0
  {
    if keys != [] {
      NothingPosted(open, keys[1..]);
    }
  }

  /** Summed account by account, over whatever list of the class, or transfer by transfer, its balance is the same. */
  lemma {:induction false} SumIsClassNet(ts: seq<Transfer>, open: seq<Reservation>, keys: seq<AccountKey>, c: Class)
    requires Lists(keys, c, ts)
    ensures SumBalances(State(ts, open), keys) == ClassNet(ts, c)
  {
    if ts == [] {
      NothingPosted(open, keys);
    } else {
      var init, last := ts[..|ts| - 1], ts[|ts| - 1];
      SumIsClassNet(init, open, keys, c);
      assert ts == init + [last];
      SumBalancesAppend(init, last, open, keys);
      SumEffectsOnce(last, keys, c);
    }
  }

  lemma {:induction false} NetsAgree(ts: seq<Transfer>, service: ServiceId)
    requires forall i :: 0 <= i < |ts| ==> Sound(ts[i])
    ensures ClassNet(ts, Custody) == ClassNet(ts, Claims)
    ensures ClassNet(ts, Holdings(service)) == ClassNet(ts, Supply(service))
  {
    if ts != [] {
      NetsAgree(ts[..|ts| - 1], service);
      assert Sound(ts[|ts| - 1]);
    }
  }

  lemma {:induction false} HoldClearingUntouched(ts: seq<Transfer>)
    requires forall i :: 0 <= i < |ts| ==> AvoidsHolds(ts[i])
    ensures Posted(ts, HoldClearing) == 0
  {
    if ts != [] {
      HoldClearingUntouched(ts[..|ts| - 1]);
      assert AvoidsHolds(ts[|ts| - 1]);
    }
  }

  const EMPTY_LEDGER: State := State([], [])

  lemma TotalIsClassNet(l: State, c: Class)
    ensures TotalOf(l, c) == ClassNet(l.posted, c)
  {
    AccountsAreListed(l.posted, c);
    SumIsClassNet(l.posted, l.open, AccountsOf(l.posted, c), c);
  }

  /**
  The platform's invariant: after every single leg of any interleaving of any facts, refused legs
  skipped, posted custody equals posted claims.
   */
  lemma CustodyEqualsClaims(ops: seq<Op>)
    requires Legs(ops)
    ensures TotalOf(ApplyEach(EMPTY_LEDGER, ops), Custody) == TotalOf(ApplyEach(EMPTY_LEDGER, ops), Claims)
  {
    var l := ApplyEach(EMPTY_LEDGER, ops);
    LegsAreSound(ops);
    EachKeepsSound(EMPTY_LEDGER, ops);
    NetsAgree(l.posted, "");
    TotalIsClassNet(l, Custody);
    TotalIsClassNet(l, Claims);
  }

  /** A product's supply is what its holders, their escrows on the book and its fee class hold, after every leg. */
  lemma SupplyEqualsHoldings(ops: seq<Op>, service: ServiceId)
    requires Legs(ops)
    ensures Balance(ApplyEach(EMPTY_LEDGER, ops), SharesOutstanding(service)) == TotalOf(ApplyEach(EMPTY_LEDGER, ops), Holdings(service))
  {
    var l := ApplyEach(EMPTY_LEDGER, ops);
    LegsAreSound(ops);
    EachKeepsSound(EMPTY_LEDGER, ops);
    NetsAgree(l.posted, service);
    TotalIsClassNet(l, Holdings(service));
    SumIsClassNet(l.posted, l.open, [SharesOutstanding(service)], Supply(service));
    assert SumBalances(l, [SharesOutstanding(service)]) == Balance(l, SharesOutstanding(service)) + SumBalances(l, []);
  }

  /** No account is ever below what is reserved on it, so none is negative; hold clearing stays unposted. */
  lemma NoAccountIsNegative(ops: seq<Op>, k: AccountKey)
    requires Legs(ops)
    ensures Balance(ApplyEach(EMPTY_LEDGER, ops), k) >= Held(ApplyEach(EMPTY_LEDGER, ops).open, k) >= 0
    ensures Balance(ApplyEach(EMPTY_LEDGER, ops), HoldClearing) == 0
  {
    LegsAreSound(ops);
    EachKeepsSound(EMPTY_LEDGER, ops);
    GuardedBalances(ApplyEach(EMPTY_LEDGER, ops), k);
    HoldClearingUntouched(ApplyEach(EMPTY_LEDGER, ops).posted);
  }

  /** The invariants, for facts that apply whole or are parked. */
  lemma WholeFactsKeepTheBooks(fs: seq<Fact>, service: ServiceId)
    ensures TotalOf(RelayAll(EMPTY_LEDGER, fs), Custody) == TotalOf(RelayAll(EMPTY_LEDGER, fs), Claims)
    ensures Balance(RelayAll(EMPTY_LEDGER, fs), SharesOutstanding(service)) == TotalOf(RelayAll(EMPTY_LEDGER, fs), Holdings(service))
  {
    WholeFactsAreLegs(EMPTY_LEDGER, fs);
    CustodyEqualsClaims(PostedLegs(EMPTY_LEDGER, fs));
    SupplyEqualsHoldings(PostedLegs(EMPTY_LEDGER, fs), service);
  }

  /** The wallets of the four networks are all of custody. */
  lemma WalletsAreCustody(ts: seq<Transfer>)
    ensures Lists([CryptoWallet(Bep20), CryptoWallet(Trc20), CryptoWallet(Ton), CryptoWallet(Polygon)], Custody, ts)
  {
    var wallets := [CryptoWallet(Bep20), CryptoWallet(Trc20), CryptoWallet(Ton), CryptoWallet(Polygon)];
    forall k: AccountKey | Member(Custody, k) ensures k in wallets {
      match k.network {
        case Bep20 => assert wallets[0] == k;
        case Trc20 => assert wallets[1] == k;
        case Ton => assert wallets[2] == k;
        case Polygon => assert wallets[3] == k;
      }
    }
  }
}
