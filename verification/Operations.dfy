/**
Operations that wait for an approval (domain/src/scope_operations.rs): what a client may ask for, what
the approvers are shown of it, and the one decision it ends in.
 */
module Operations {
  import opened Base
  import opened Money
  import opened Ledger
  import opened Text
  import opened Decimal
  import opened Sorting
  import opened Lines
  import opened Keys

  datatype PayoutLine = PayoutLine(user: UserId, subject: string, amount: u128)

  function Requested(line: PayoutLine): Line {
    Line(line.subject, line.amount)
  }

  function RequestedLines(lines: seq<PayoutLine>): (r: seq<Line>)
    ensures |r| == |lines|
  {
    Map(lines, Requested)
  }

  datatype Body =
    | Payout(lines: seq<PayoutLine>, distribution: bool, overScopeBudget: bool)
    | Transfer(toScope: ScopeId, to: Label, amount: u128)

  datatype Kind = ScopePayout | AccountTransfer | ScopeTransfer

  datatype Operation = Operation(id: Uuid, client: string, scope: ScopeId, from: Label, body: Body) {
    function Kind(): Kind {
      match body
      case Payout(_, _, _) => ScopePayout
      case Transfer(toScope, _, _) => if toScope == scope then AccountTransfer else ScopeTransfer
    }
  }

  predicate IsClientId(s: string) {
    && 1 <= |s| <= 64 && 'a' <= s[0] <= 'z'
    && forall i :: 0 <= i < |s| ==> 'a' <= s[i] <= 'z' || '0' <= s[i] <= '9' || s[i] == '_' || s[i] == '-'
  }

  predicate UsersRepeat(lines: seq<PayoutLine>) {
    exists i, j :: 0 <= i < j < |lines| && lines[i].user == lines[j].user
  }

  /** The amount an operation moves, or the refusal of a request for it. */
  function Request(o: Operation): Result<u128, DomainError> {
    if o.scope == MAIN then Err(Validation)
    else if IsReserved(o.from) then Err(Forbidden)
    else
      match o.body
      case Payout(lines, _, _) =>
        if !Acceptable(RequestedLines(lines)) then Err(Validation)
        else if UsersRepeat(lines) then Err(Validation)
        else Ok(Total(RequestedLines(lines)))
      case Transfer(toScope, to, amount) =>
        if amount == 0 then Err(Validation)
        else if toScope == MAIN || IsReserved(to) then Err(Forbidden)
        else if toScope == o.scope && to == o.from then Err(Validation)
        else Ok(amount)
  }

  /** The identifiers of an operation are well formed, as their own types see to. */
  predicate WellFormed(o: Operation) {
    && IsClientId(o.client) && IsScopeId(o.scope) && IsLabel(o.from)
    && (o.body.Transfer? ==> IsScopeId(o.body.toScope) && IsLabel(o.body.to))
  }

  // ----- what the approvers are shown -----

  datatype Key =
    | Amount | Distribution | FromAccount | LinesDigest | MaxLine | OverScopeBudget | Recipient | Recipients | Service
    | ToAccount | TotalAmount

  function KeyText(k: Key): string {
    match k
    case Amount => "amount"
    case Distribution => "distribution"
    case FromAccount => "from_account"
    case LinesDigest => "lines_digest"
    case MaxLine => "max_line"
    case OverScopeBudget => "over_scope_budget"
    case Recipient => "recipient"
    case Recipients => "recipients"
    case Service => "service"
    case ToAccount => "to_account"
    case TotalAmount => "total"
  }

  datatype Value = Words(words: string) | Cash(cash: u128) | Flag(raised: bool) | Person(subject: string) | Count(count: nat)

  function TypeName(v: Value): string {
    match v
    case Words(_) => "TEXT"
    case Cash(_) => "AMOUNT"
    case Flag(_) => "FLAG"
    case Person(_) => "USER"
    case Count(_) => "COUNT"
  }

  function Encoded(v: Value): string {
    match v
    case Words(words) => words
    case Cash(cash) => ToDecimalString(cash) + " USDT"
    case Flag(raised) => if raised then "true" else "false"
    case Person(subject) => subject
    case Count(count) => NatText(count)
  }

  datatype Field = Field(key: Key, value: Value)

  function NameOf(f: Field): string {
    KeyText(f.key)
  }

  function FieldLine(f: Field): string {
    KeyText(f.key) + ['\t'] + (TypeName(f.value) + ['\t'] + Encoded(f.value))
  }

  /** Every line followed by a newline. */
  function Terminated(lines: seq<string>): string {
    if lines == [] then [] else lines[0] + ['\n'] + Terminated(lines[1..])
  }

  function KindText(k: Kind): string {
    match k
    case ScopePayout => "bank:scope_payout"
    case AccountTransfer => "bank:account_transfer"
    case ScopeTransfer => "bank:scope_transfer"
  }

  function Payload(kind: string, scope: string, subjectRef: string, fields: seq<Field>): string {
    Terminated(["ev-approval-v1", kind, scope, subjectRef] + Map(SortBy(fields, NameOf), FieldLine))
  }

  method PushLine(out: string, f: Field) returns (longer: string)
    ensures longer == out + FieldLine(f) + ['\n']
  {
    longer := out + KeyText(f.key);
    longer := longer + ['\t'];
    longer := longer + TypeName(f.value);
    longer := longer + ['\t'];
    longer := longer + Encoded(f.value);
    longer := longer + ['\n'];
  }

  lemma NextField(header: seq<string>, sorted: seq<Field>, i: nat)
    requires i < |sorted|
    ensures Terminated(header + Map(sorted[..i + 1], FieldLine))
            == Terminated(header + Map(sorted[..i], FieldLine)) + FieldLine(sorted[i]) + ['\n']
  {
    var before := header + Map(sorted[..i], FieldLine);
    assert sorted[..i + 1][..i] == sorted[..i];
    assert header + Map(sorted[..i + 1], FieldLine) == before + [FieldLine(sorted[i])];
    TerminatedOne(before, FieldLine(sorted[i]));
  }

  /** The payload grows one field at a time, in the order of the keys. */
  method BuildPayload(kind: string, scope: string, subjectRef: string, fields: seq<Field>) returns (out: string)
    ensures out == Payload(kind, scope, subjectRef, fields)
  {
    var sorted := SortBy(fields, NameOf);
    var first := "ev-approval-v1";
    out := first + ['\n'] + kind + ['\n'] + scope + ['\n'] + subjectRef + ['\n'];
    HeaderText(first, kind, scope, subjectRef);
    for i := 0 to |sorted|
      invariant out == Terminated([first, kind, scope, subjectRef] + Map(sorted[..i], FieldLine))
    {
      NextField([first, kind, scope, subjectRef], sorted, i);
      out := PushLine(out, sorted[i]);
    }
    assert sorted[..|sorted|] == sorted;
  }

  lemma HeaderText(a: string, b: string, c: string, d: string)
    ensures Terminated([a, b, c, d] + Map([], FieldLine)) == a + ['\n'] + b + ['\n'] + c + ['\n'] + d + ['\n']
  {
    assert [a, b, c, d] + Map([], FieldLine) == [] + [a] + [b] + [c] + [d];
    TerminatedOne([], a);
    TerminatedOne([] + [a], b);
    TerminatedOne([] + [a] + [b], c);
    TerminatedOne([] + [a] + [b] + [c], d);
    assert [] + a == a;
  }

  lemma {:induction false} TerminatedOne(lines: seq<string>, last: string)
    ensures Terminated(lines + [last]) == Terminated(lines) + last + ['\n']
  {
    if lines == [] {
      assert lines + [last] == [last];
    } else {
      TerminatedOne(lines[1..], last);
      assert (lines + [last])[1..] == lines[1..] + [last];
    }
  }

  function AccountText(scope: ScopeId, name: Label): string {
    Joined(scope, name)
  }

  function SubjectRef(id: Uuid): string {
    "pending_operation:" + UuidText(id)
  }

  function Largest(lines: seq<Line>): u128 {
    if lines == [] then 0 else
      var before := Largest(lines[..|lines| - 1]);
      if before >= lines[|lines| - 1].amount then before else lines[|lines| - 1].amount
  }

  /** What the approvers of an operation are shown. */
  datatype Shown =
    | ShownPayout(client: string, account: string, total: u128, recipients: nat, largest: u128, digest: string,
                  distribution: bool, overScopeBudget: bool, recipient: Option<string>)
    | ShownTransfer(client: string, account: string, to: string, amount: u128)

  /** Rendered from the stored operation alone, given the digest its lines are hashed with. */
  function Show(o: Operation, digest: string -> string): Shown
    requires Request(o).Ok?
  {
    match o.body
    case Payout(lines, distribution, overScopeBudget) =>
      var requested := RequestedLines(lines);
      ShownPayout(o.client, AccountText(o.scope, o.from), Request(o).value, |lines|, Largest(requested),
                  digest(LinesDigestInput(requested)), distribution, overScopeBudget,
                  if |lines| == 1 then Some(lines[0].subject) else None)
    case Transfer(toScope, to, amount) =>
      ShownTransfer(o.client, AccountText(o.scope, o.from), AccountText(toScope, to), amount)
  }

  function Fields(s: Shown): seq<Field> {
    match s
    case ShownPayout(client, account, total, recipients, largest, digest, distribution, overScopeBudget, recipient) =>
      [Field(Service, Words(client)), Field(FromAccount, Words(account)), Field(TotalAmount, Cash(total)),
       Field(Recipients, Count(recipients)), Field(MaxLine, Cash(largest)), Field(LinesDigest, Words(digest)),
       Field(Distribution, Flag(distribution)), Field(OverScopeBudget, Flag(overScopeBudget))]
      + (if recipient.Some? then [Field(Recipient, Person(recipient.value))] else [])
    case ShownTransfer(client, account, to, amount) =>
      [Field(Service, Words(client)), Field(FromAccount, Words(account)), Field(ToAccount, Words(to)), Field(Amount, Cash(amount))]
  }

  function OperationPayload(o: Operation, digest: string -> string): string
    requires Request(o).Ok?
  {
    Payload(KindText(o.Kind()), o.scope, SubjectRef(o.id), Fields(Show(o, digest)))
  }

  // ----- the decision -----

  datatype OperationState = AwaitingApproval | Executed | Rejected | Failed

  datatype Progress = Progress(state: OperationState, resultId: Option<string>, failureReason: Option<string>)

  datatype Decision = Execute(resultId: string) | Reject(reason: string) | Fail(reason: string)

  /** One decision taken: only while awaiting, and for good. */
  function Decide(p: Progress, d: Decision): (Progress, Result<Unit, DomainError>) {
    if p.state != AwaitingApproval then (p, Err(Conflict))
    else
      match d
      case Execute(resultId) => (p.(state := Executed, resultId := Some(resultId)), Ok(Unit.Unit))
      case Reject(reason) => (p.(state := Rejected, failureReason := Some(reason)), Ok(Unit.Unit))
      case Fail(reason) => (p.(state := Failed, failureReason := Some(reason)), Ok(Unit.Unit))
  }

  class PendingOperation {
    const operation: Operation
    const total: u128
    var progress: Progress

    constructor (operation: Operation, total: u128)
      requires Request(operation) == Ok(total)
      ensures this.operation == operation && this.total == total
      ensures progress == Progress(AwaitingApproval, None, None)
    {
      this.operation, this.total, progress := operation, total, Progress(AwaitingApproval, None, None);
    }

    method LeaveAwaiting(to: OperationState) returns (r: Result<Unit, DomainError>)
      modifies this
      ensures old(progress.state) == AwaitingApproval ==> r == Ok(Unit.Unit) && progress == old(progress).(state := to)
      ensures old(progress.state) != AwaitingApproval ==> r == Err(Conflict) && progress == old(progress)
    {
      match progress.state
      case AwaitingApproval =>
        progress := progress.(state := to);
        return Ok(Unit.Unit);
      case Executed | Rejected | Failed =>
        return Err(Conflict);
    }

    method MarkExecuted(resultId: string) returns (r: Result<Unit, DomainError>)
      modifies this
      ensures (progress, r) == Decide(old(progress), Execute(resultId))
    {
      r := LeaveAwaiting(Executed);
      if r.Ok? {
        progress := progress.(resultId := Some(resultId));
      }
    }

    method MarkRejected(reason: string) returns (r: Result<Unit, DomainError>)
      modifies this
      ensures (progress, r) == Decide(old(progress), Reject(reason))
    {
      r := LeaveAwaiting(Rejected);
      if r.Ok? {
        progress := progress.(failureReason := Some(reason));
      }
    }

    method MarkFailed(reason: string) returns (r: Result<Unit, DomainError>)
      modifies this
      ensures (progress, r) == Decide(old(progress), Fail(reason))
    {
      r := LeaveAwaiting(Failed);
      if r.Ok? {
        progress := progress.(failureReason := Some(reason));
      }
    }
  }

  function DecideAll(p: Progress, decisions: seq<Decision>): Progress
    decreases |decisions|
  {
    if decisions == [] then p else DecideAll(Decide(p, decisions[0]).0, decisions[1..])
  }

  /** The first decision is the only one: whatever follows is refused and changes nothing. */
  lemma {:induction false} FirstDecisionStands(decisions: seq<Decision>)
    requires decisions != []
    ensures DecideAll(Progress(AwaitingApproval, None, None), decisions)
            == Decide(Progress(AwaitingApproval, None, None), decisions[0]).0
  {
    DecidedStays(Decide(Progress(AwaitingApproval, None, None), decisions[0]).0, decisions[1..]);
  }

  lemma {:induction false} DecidedStays(p: Progress, decisions: seq<Decision>)
    requires p.state != AwaitingApproval
    ensures DecideAll(p, decisions) == p
    decreases |decisions|
  {
    if decisions != [] {
      DecidedStays(p, decisions[1..]);
    }
  }
}
