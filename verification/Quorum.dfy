/**
The owners' quorum (domain/src/consilium.rs): opening one over a roster, recording votes, the tally, and
the ways a consilium closes.
 */
module Quorum {
  import opened Base
  import opened Ledger

  const MIN_OWNERS: nat := 3
  const TTL_SECS: int := 259_200
  const I64_MAX: int := 0x7fff_ffff_ffff_ffff
  const U64_MAX: nat := 0xffff_ffff_ffff_ffff

  datatype Decision = Pending | Approve | Reject

  datatype Status = Open | Approved | Rejected | Expired | Cancelled | Executed | ExecutionFailed

  /** What an approval was spent on. */
  datatype Effect =
    | PaidOut(withdrawal: Uuid)
    | Paid(payment: Uuid)
    | Marked(valuation: Uuid)
    | TermsChanged(change: Uuid)
    | Issued(issuance: Uuid)
    | Subscribed(subscription: Uuid)

  /** One recorded answer; `counts` goes when the voter loses the seat. */
  datatype Vote = Vote(voter: UserId, decision: Decision, at: int, counts: bool)

  datatype Event =
    | Opened(ownerCount: nat, threshold: nat, expiresAt: int)
    | VoteRecorded(voter: UserId, decision: Decision, at: int)
    | ApprovedAt(approvals: nat, threshold: nat, at: int)
    | RejectedAt(rejections: nat, at: int)
    | CancelledAt(at: int)
    | ExpiredAt(at: int)
    | ExecutedAt(effect: Effect, at: int)
    | FailedAt(reason: string, at: int)

  /** The least strict majority. */
  function Threshold(ownerCount: nat): nat {
    ownerCount / 2 + 1
  }

  predicate Has(roster: seq<UserId>, owner: UserId) {
    owner in roster
  }

  /** First occurrences, in order. */
  function Deduplicated(owners: seq<UserId>): seq<UserId> {
    if owners == [] then []
    else
      var before := Deduplicated(owners[..|owners| - 1]);
      var last := owners[|owners| - 1];
      if Has(before, last) then before else before + [last]
  }

  function AllBut(roster: seq<UserId>, user: UserId): seq<UserId> {
    if roster == [] then []
    else
      var before := AllBut(roster[..|roster| - 1], user);
      var last := roster[|roster| - 1];
      if last == user then before else before + [last]
  }

  function Counted(votes: seq<Vote>, decision: Decision): nat {
    if votes == [] then 0
    else
      var last := votes[|votes| - 1];
      Counted(votes[..|votes| - 1], decision) + if last.counts && last.decision == decision then 1 else 0
  }

  function AnswerOf(votes: seq<Vote>, voter: UserId): Option<Decision> {
    if votes == [] then None
    else if votes[0].voter == voter then Some(votes[0].decision)
    else AnswerOf(votes[1..], voter)
  }

  /** A consilium's fields, as a value. */
  datatype View = View(
    initiator: UserId, ownerCount: nat, threshold: nat, eligible: seq<UserId>, votes: seq<Vote>, status: Status,
    expiresAt: int, decidedAt: Option<int>, executed: Option<Effect>, failure: Option<string>,
    version: nat, log: seq<Event>)
  {
    function Approvals(): nat {
      Counted(votes, Approve)
    }

    function Rejections(): nat {
      Counted(votes, Reject)
    }

    function Raise(event: Event): View {
      this.(version := Min(version + 1, U64_MAX), log := log + [event])
    }
  }

  function OpenOver(initiator: UserId, owners: seq<UserId>, createdAt: int): Result<View, DomainError> {
    var roster := Deduplicated(owners);
    if !Has(roster, initiator) then Err(Forbidden)
    else if |roster| < MIN_OWNERS then Err(Validation)
    else
      var threshold := Threshold(|roster|);
      var expiresAt := Min(createdAt + TTL_SECS, I64_MAX);
      Ok(View(initiator, |roster|, threshold, AllBut(roster, initiator), [], Open, expiresAt, None, None, None, 1,
              [Opened(|roster|, threshold, expiresAt)]))
  }

  function Decided(v: View, status: Status, at: int): View {
    var event := match status
      case Approved => ApprovedAt(v.Approvals(), v.threshold, at)
      case Rejected => RejectedAt(v.Rejections(), at)
      case Cancelled => CancelledAt(at)
      case _ => ExpiredAt(at);
    v.(status := status, decidedAt := Some(at)).Raise(event)
  }

  function Settled(v: View, at: int): View {
    if v.status != Open then v
    else if v.Approvals() >= v.threshold then Decided(v, Approved, at)
    else if v.Rejections() > Max(|v.eligible| - v.threshold, 0) then Decided(v, Rejected, at)
    else v
  }

  type Answer = Result<Unit, DomainError>

  function Voted(v: View, voter: UserId, decision: Decision, at: int): (View, Answer) {
    if decision == Pending then (v, Err(Validation))
    else if !Has(v.eligible, voter) then (v, Err(Forbidden))
    else if AnswerOf(v.votes, voter).Some? then
      (v, if AnswerOf(v.votes, voter).value == decision then Ok(Unit.Unit) else Err(Conflict))
    else if v.status != Open then (v, Err(Conflict))
    else
      var voted := v.(votes := v.votes + [Vote(voter, decision, at, true)]);
      (Settled(voted.Raise(VoteRecorded(voter, decision, at)), at), Ok(Unit.Unit))
  }

  function Closed(v: View, target: Status, at: int): (View, Answer) {
    if v.status == target then (v, Ok(Unit.Unit))
    else if v.status != Open then (v, Err(Conflict))
    else (Decided(v, target, at), Ok(Unit.Unit))
  }

  function TimedOut(v: View, at: int): (View, Answer) {
    if v.status == Open && at < v.expiresAt then (v, Err(Conflict)) else Closed(v, Expired, at)
  }

  function Carried(v: View, effect: Effect, at: int): (View, Answer) {
    if v.status == Executed then (v, if v.executed == Some(effect) then Ok(Unit.Unit) else Err(Conflict))
    else if v.status != Approved then (v, Err(Conflict))
    else (v.(status := Executed, executed := Some(effect)).Raise(ExecutedAt(effect, at)), Ok(Unit.Unit))
  }

  function Failed(v: View, reason: string, at: int): (View, Answer) {
    if v.status == ExecutionFailed then (v, Ok(Unit.Unit))
    else if v.status != Approved then (v, Err(Conflict))
    else (v.(status := ExecutionFailed, failure := Some(reason)).Raise(FailedAt(reason, at)), Ok(Unit.Unit))
  }

  // ----- the aggregate -----

  method Deduplicate(owners: seq<UserId>) returns (roster: seq<UserId>)
    ensures roster == Deduplicated(owners)
  {
    roster := [];
    for i := 0 to |owners|
      invariant roster == Deduplicated(owners[..i])
    {
      assert owners[..i + 1][..i] == owners[..i];
      if !Has(roster, owners[i]) {
        roster := roster + [owners[i]];
      }
    }
    assert owners[..|owners|] == owners;
  }

  method Except(roster: seq<UserId>, user: UserId) returns (eligible: seq<UserId>)
    ensures eligible == AllBut(roster, user)
  {
    eligible := [];
    for i := 0 to |roster|
      invariant eligible == AllBut(roster[..i], user)
    {
      assert roster[..i + 1][..i] == roster[..i];
      if roster[i] != user {
        eligible := eligible + [roster[i]];
      }
    }
    assert roster[..|roster|] == roster;
  }

  method OpenConsilium(initiator: UserId, owners: seq<UserId>, createdAt: int)
    returns (r: Result<Consilium, DomainError>)
    ensures r.Ok? <==> OpenOver(initiator, owners, createdAt).Ok?
    ensures r.Err? ==> r == Err(OpenOver(initiator, owners, createdAt).error)
    ensures r.Ok? ==> fresh(r.value) && r.value.AsView() == OpenOver(initiator, owners, createdAt).value
  {
    var roster := Deduplicate(owners);
    if !Has(roster, initiator) {
      return Err(Forbidden);
    }
    if |roster| < MIN_OWNERS {
      return Err(Validation);
    }
    var eligible := Except(roster, initiator);
    var record := new Consilium(initiator, |roster|, eligible, Min(createdAt + TTL_SECS, I64_MAX));
    return Ok(record);
  }

  class Consilium {
    const initiator: UserId
    const ownerCount: nat
    const threshold: nat
    const eligible: seq<UserId>
    const expiresAt: int
    var votes: seq<Vote>
    var status: Status
    var decidedAt: Option<int>
    var executed: Option<Effect>
    var failure: Option<string>
    var version: nat
    var pending: seq<Event>

    ghost function AsView(): View
      reads this
    {
      View(initiator, ownerCount, threshold, eligible, votes, status, expiresAt, decidedAt, executed, failure, version, pending)
    }

    constructor (initiator: UserId, ownerCount: nat, eligible: seq<UserId>, expiresAt: int)
      ensures AsView() == View(initiator, ownerCount, Threshold(ownerCount), eligible, [], Open, expiresAt, None, None, None, 1,
                               [Opened(ownerCount, Threshold(ownerCount), expiresAt)])
    {
      this.initiator, this.ownerCount, this.threshold := initiator, ownerCount, Threshold(ownerCount);
      this.eligible, this.expiresAt := eligible, expiresAt;
      votes, status, decidedAt, executed, failure, version := [], Open, None, None, None, 1;
      pending := [Opened(ownerCount, Threshold(ownerCount), expiresAt)];
    }

    method Raise(event: Event)
      modifies this`version, this`pending
      ensures AsView() == old(AsView()).Raise(event)
    {
      version := Min(version + 1, U64_MAX);
      pending := pending + [event];
    }

    method RecordVote(voter: UserId, decision: Decision, at: int) returns (r: Answer)
      modifies this
      ensures (AsView(), r) == Voted(old(AsView()), voter, decision, at)
    {
      if decision == Pending {
        return Err(Validation);
      }
      if !Has(eligible, voter) {
        return Err(Forbidden);
      }
      var existing := AnswerOf(votes, voter);
      if existing.Some? {
        return if existing.value == decision then Ok(Unit.Unit) else Err(Conflict);
      }
      if status != Open {
        return Err(Conflict);
      }
      votes := votes + [Vote(voter, decision, at, true)];
      Raise(VoteRecorded(voter, decision, at));
      SettleTally(at);
      return Ok(Unit.Unit);
    }

    method SettleTally(at: int)
      modifies this
      ensures AsView() == Settled(old(AsView()), at)
    {
      if status != Open {
        return;
      }
      if Counted(votes, Approve) >= threshold {
        Decide(Approved, at);
      } else if Counted(votes, Reject) > Max(|eligible| - threshold, 0) {
        Decide(Rejected, at);
      }
    }

    method Decide(target: Status, at: int)
      modifies this
      ensures AsView() == Decided(old(AsView()), target, at)
    {
      status := target;
      decidedAt := Some(at);
      match target
      case Approved => Raise(ApprovedAt(Counted(votes, Approve), threshold, at));
      case Rejected => Raise(RejectedAt(Counted(votes, Reject), at));
      case Cancelled => Raise(CancelledAt(at));
      case _ => Raise(ExpiredAt(at));
    }

    method CloseOpen(target: Status, at: int) returns (r: Answer)
      modifies this
      ensures (AsView(), r) == Closed(old(AsView()), target, at)
    {
      if status == target {
        return Ok(Unit.Unit);
      }
      if status != Open {
        return Err(Conflict);
      }
      Decide(target, at);
      return Ok(Unit.Unit);
    }

    method Cancel(at: int) returns (r: Answer)
      modifies this
      ensures (AsView(), r) == Closed(old(AsView()), Cancelled, at)
    {
      r := CloseOpen(Cancelled, at);
    }

    method Expire(at: int) returns (r: Answer)
      modifies this
      ensures (AsView(), r) == TimedOut(old(AsView()), at)
    {
      if status == Open && at < expiresAt {
        return Err(Conflict);
      }
      r := CloseOpen(Expired, at);
    }

    method MarkExecuted(effect: Effect, at: int) returns (r: Answer)
      modifies this
      ensures (AsView(), r) == Carried(old(AsView()), effect, at)
    {
      if status == Executed {
        return if executed == Some(effect) then Ok(Unit.Unit) else Err(Conflict);
      }
      if status != Approved {
        return Err(Conflict);
      }
      status := Executed;
      executed := Some(effect);
      Raise(ExecutedAt(effect, at));
      return Ok(Unit.Unit);
    }

    method MarkExecutionFailed(reason: string, at: int) returns (r: Answer)
      modifies this
      ensures (AsView(), r) == Failed(old(AsView()), reason, at)
    {
      if status == ExecutionFailed {
        return Ok(Unit.Unit);
      }
      if status != Approved {
        return Err(Conflict);
      }
      status := ExecutionFailed;
      failure := Some(reason);
      Raise(FailedAt(reason, at));
      return Ok(Unit.Unit);
    }
  }
}
