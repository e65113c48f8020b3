/**
The gates money passes without an approval (domain/src/scopes.rs, scope_ledger.rs, scope_operations.rs):
each reads the trailing day, and so bounds every day.
 */
module Gates {
  import opened Base
  import opened Money
  import Ledger
  import opened Windows

  const MAX_PAYOUT_LINE: u128 := 1_000_000_000_000_000_000_000

  type ClientId = string

  // ----- a scope's policy -----

  datatype ScopePolicy = ScopePolicy(
    minKycLevel: nat, maxPerMove: Option<u128>, maxMovedIn24h: Option<u128>, maxBalance: Option<u128>,
    autoPayoutPerOp: u128, autoPayout24h: u128, autoTransferPerOp: u128, autoTransfer24h: u128, scopeBudget24h: u128)

  datatype MoveRefusal = KycLevel | MaxPerMove | MaxMovedIn24h | MaxBalance

  datatype LedgerRefusal = ApprovalRequired | MandateRequired

  /** Whether `more` on top of `base` stays within a cap, when there is one; a sum past the type does not. */
  predicate WithinCap(cap: Option<u128>, base: u128, more: u128) {
    cap.None? || (CheckedAdd(base, more).Some? && CheckedAdd(base, more).value <= cap.value)
  }

  function AdmitMoveIn(p: ScopePolicy, kycLevel: nat, amount: u128, movedIn24h: u128, balance: u128): Result<Unit, MoveRefusal> {
    if kycLevel < p.minKycLevel then Err(KycLevel)
    else if p.maxPerMove.Some? && amount > p.maxPerMove.value then Err(MaxPerMove)
    else if !WithinCap(p.maxMovedIn24h, movedIn24h, amount) then Err(MaxMovedIn24h)
    else if !WithinCap(p.maxBalance, balance, amount) then Err(MaxBalance)
    else Ok(Unit.Unit)
  }

  function AdmitAutoTransfer(p: ScopePolicy, amount: u128, transferred24h: u128): Result<Unit, LedgerRefusal> {
    if amount > p.autoTransferPerOp then Err(ApprovalRequired)
    else
      var total := CheckedAdd(transferred24h, amount);
      if total.None? || total.value > p.autoTransfer24h then Err(ApprovalRequired) else Ok(Unit.Unit)
  }

  predicate OverScopeBudget(p: ScopePolicy, scopeOut24h: u128, amount: u128) {
    CheckedAdd(scopeOut24h, amount).None? || CheckedAdd(scopeOut24h, amount).value > p.scopeBudget24h
  }

  function AdmitAutoPayout(p: ScopePolicy, total: u128, maxLine: u128, paid24h: u128, scopeOut24h: u128): Result<Unit, LedgerRefusal> {
    if total > p.autoPayoutPerOp || maxLine > MAX_PAYOUT_LINE then Err(ApprovalRequired)
    else
      var paid := CheckedAdd(paid24h, total);
      if paid.None? || paid.value > p.autoPayout24h then Err(ApprovalRequired)
      else if OverScopeBudget(p, scopeOut24h, total) then Err(ApprovalRequired)
      else Ok(Unit.Unit)
  }

  /** A move in is admitted exactly within every rule at once, the sums taken without overflow. */
  lemma MoveInAdmittedIff(p: ScopePolicy, kycLevel: nat, amount: u128, movedIn24h: u128, balance: u128)
    ensures AdmitMoveIn(p, kycLevel, amount, movedIn24h, balance).Ok? <==>
              && kycLevel >= p.minKycLevel
              && (p.maxPerMove.Some? ==> amount <= p.maxPerMove.value)
              && (p.maxMovedIn24h.Some? ==> movedIn24h + amount <= p.maxMovedIn24h.value)
              && (p.maxBalance.Some? ==> balance + amount <= p.maxBalance.value)
  {
  }

  /** Why a move in is refused: the first rule it breaks. */
  lemma MoveInRefusedFor(p: ScopePolicy, kycLevel: nat, amount: u128, movedIn24h: u128, balance: u128)
    requires AdmitMoveIn(p, kycLevel, amount, movedIn24h, balance).Err?
    ensures AdmitMoveIn(p, kycLevel, amount, movedIn24h, balance).error
            == if kycLevel < p.minKycLevel then KycLevel
               else if p.maxPerMove.Some? && amount > p.maxPerMove.value then MaxPerMove
               else if p.maxMovedIn24h.Some? && movedIn24h + amount > p.maxMovedIn24h.value then MaxMovedIn24h
               else MaxBalance
  {
  }

  /** A transfer is automatic exactly within both ceilings. */
  lemma AutoTransferAdmittedIff(p: ScopePolicy, amount: u128, transferred24h: u128)
    ensures AdmitAutoTransfer(p, amount, transferred24h).Ok? <==>
              amount <= p.autoTransferPerOp && transferred24h + amount <= p.autoTransfer24h
    ensures AdmitAutoTransfer(p, amount, transferred24h).Err? ==> AdmitAutoTransfer(p, amount, transferred24h).error == ApprovalRequired
  {
  }

  /** A payout is automatic exactly within its ceilings, the largest line of 1000 USDT, and the scope's budget. */
  lemma AutoPayoutAdmittedIff(p: ScopePolicy, total: u128, maxLine: u128, paid24h: u128, scopeOut24h: u128)
    ensures AdmitAutoPayout(p, total, maxLine, paid24h, scopeOut24h).Ok? <==>
              && total <= p.autoPayoutPerOp && maxLine <= 1_000_000_000_000_000_000_000
              && paid24h + total <= p.autoPayout24h && scopeOut24h + total <= p.scopeBudget24h
    ensures OverScopeBudget(p, scopeOut24h, total) <==> scopeOut24h + total > p.scopeBudget24h
    ensures AdmitAutoPayout(p, total, maxLine, paid24h, scopeOut24h).Err? ==>
              AdmitAutoPayout(p, total, maxLine, paid24h, scopeOut24h).error == ApprovalRequired
  {
  }

  // ----- moves in -----

  /** Who moves money in, and what else is read about them just before. */
  datatype MoveIn = MoveIn(user: Ledger.UserId, kycLevel: nat, balance: u128)

  function MovesOf(user: Ledger.UserId): MoveIn -> bool {
    (k: MoveIn) => k.user == user
  }

  /** The gate of moves in; a figure or an amount past the type is not one the gate is asked about. */
  predicate MovePasses(p: ScopePolicy, log: seq<Entry<MoveIn>>, k: MoveIn, amount: nat, at: int) {
    var moved := Sum(log, MovesOf(k.user), at - DAY, at);
    amount < TWO128 && moved < TWO128 && AdmitMoveIn(p, k.kycLevel, amount, moved, k.balance).Ok?
  }

  function MoveGate(p: ScopePolicy): Gate<MoveIn> {
    (log: seq<Entry<MoveIn>>, k: MoveIn, amount: nat, at: int) => MovePasses(p, log, k, amount, at)
  }

  /** In every window of a day of every run, a user moves into a scope at most its daily cap. */
  lemma MovesInAreBounded(p: ScopePolicy, steps: seq<Step<MoveIn>>, user: Ledger.UserId, from: int)
    requires p.maxMovedIn24h.Some? && Chronological(steps)
    ensures Sum(Run([], steps, MoveGate(p)), MovesOf(user), from, from + 86_400) <= p.maxMovedIn24h.value
  {
    assert Bounds(MoveGate(p), MovesOf(user), MovesOf(user), Always(p.maxMovedIn24h.value)) by {
      forall log: seq<Entry<MoveIn>>, k: MoveIn, amount: nat, at: int | MoveGate(p)(log, k, amount, at) && MovesOf(user)(k)
        ensures Sum(log, MovesOf(user), at - DAY, at) + amount <= p.maxMovedIn24h.value
      {
        assert MovePasses(p, log, k, amount, at);
      }
    }
    GateBoundsEveryDay(steps, MoveGate(p), MovesOf(user), MovesOf(user), Always(p.maxMovedIn24h.value), from, p.maxMovedIn24h.value);
  }

  /** The gate refuses no move in that keeps every rule with what the user moved in the trailing day. */
  lemma MovePassesIff(p: ScopePolicy, log: seq<Entry<MoveIn>>, k: MoveIn, amount: u128, at: int)
    requires Sum(log, MovesOf(k.user), at - 86_400, at) < TWO128
    ensures MovePasses(p, log, k, amount, at) <==>
              && k.kycLevel >= p.minKycLevel
              && (p.maxPerMove.Some? ==> amount <= p.maxPerMove.value)
              && (p.maxMovedIn24h.Some? ==> Sum(log, MovesOf(k.user), at - 86_400, at) + amount <= p.maxMovedIn24h.value)
              && (p.maxBalance.Some? ==> k.balance + amount <= p.maxBalance.value)
  {
    MoveInAdmittedIff(p, k.kycLevel, amount, Sum(log, MovesOf(k.user), at - 86_400, at), k.balance);
  }

  // ----- automatic transfers -----

  function ByClient(client: ClientId): ClientId -> bool {
    (k: ClientId) => k == client
  }

  predicate TransferPasses(p: ScopePolicy, log: seq<Entry<ClientId>>, k: ClientId, amount: nat, at: int) {
    var transferred := Sum(log, ByClient(k), at - DAY, at);
    amount < TWO128 && transferred < TWO128 && AdmitAutoTransfer(p, amount, transferred).Ok?
  }

  function TransferGate(p: ScopePolicy): Gate<ClientId> {
    (log: seq<Entry<ClientId>>, k: ClientId, amount: nat, at: int) => TransferPasses(p, log, k, amount, at)
  }

  lemma TransferPassesIff(p: ScopePolicy, log: seq<Entry<ClientId>>, k: ClientId, amount: u128, at: int)
    requires Sum(log, ByClient(k), at - 86_400, at) < TWO128
    ensures TransferPasses(p, log, k, amount, at) <==>
              amount <= p.autoTransferPerOp && Sum(log, ByClient(k), at - 86_400, at) + amount <= p.autoTransfer24h
  {
    AutoTransferAdmittedIff(p, amount, Sum(log, ByClient(k), at - 86_400, at));
  }

  lemma AutoTransfersAreBounded(p: ScopePolicy, steps: seq<Step<ClientId>>, client: ClientId, from: int)
    requires Chronological(steps)
    ensures Sum(Run([], steps, TransferGate(p)), ByClient(client), from, from + 86_400) <= p.autoTransfer24h
  {
    assert Bounds(TransferGate(p), ByClient(client), ByClient(client), Always(p.autoTransfer24h)) by {
      forall log: seq<Entry<ClientId>>, k: ClientId, amount: nat, at: int | TransferGate(p)(log, k, amount, at) && ByClient(client)(k)
        ensures Sum(log, ByClient(client), at - DAY, at) + amount <= p.autoTransfer24h
      {
        assert TransferPasses(p, log, k, amount, at);
      }
    }
    GateBoundsEveryDay(steps, TransferGate(p), ByClient(client), ByClient(client), Always(p.autoTransfer24h), from, p.autoTransfer24h);
  }
}
