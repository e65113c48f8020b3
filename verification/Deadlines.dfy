/**
A consilium's window (domain/src/consilium.rs): the time of a vote is recorded and never compared with
the end of the window, so what the window bounds is left to whoever calls.
 */
module Deadlines {
  import opened Base
  import opened Ledger
  import opened Quorum
  import opened QuorumRuns
  import opened Verdicts

  /** A verdict reached by votes, or what became of one. */
  predicate ByVotes(status: Status) {
    status in {Approved, Rejected, Executed, ExecutionFailed}
  }

  /** Undated while open, and dated by the last recorded vote once votes have decided. */
  ghost predicate DatedByLastVote(v: View) {
    && (v.status == Open ==> v.decidedAt.None?)
    && (ByVotes(v.status) ==> v.votes != [] && v.decidedAt == Some(v.votes[|v.votes| - 1].at))
  }

  lemma StepKeepsDating(v: View, c: Command)
    requires DatedByLastVote(v)
    ensures DatedByLastVote(Step(v, c))
  {
  }

  lemma {:induction false} RunKeepsDating(v: View, commands: seq<Command>)
    requires DatedByLastVote(v)
    ensures DatedByLastVote(Run(v, commands)) && Run(v, commands).expiresAt == v.expiresAt
    decreases |commands|
  {
    if commands != [] {
      StepKeepsDating(v, commands[0]);
      RunKeepsDating(Step(v, commands[0]), commands[1..]);
    }
  }

  /**
  When a verdict is late. Over every run, a consilium decided by votes was decided within its window
  exactly when the vote that decided it, the last one recorded, was cast within it.
   */
  lemma VerdictIsAsLateAsItsVote(initiator: UserId, owners: seq<UserId>, createdAt: int, commands: seq<Command>)
    requires OpenOver(initiator, owners, createdAt).Ok?
    ensures var z := Run(OpenOver(initiator, owners, createdAt).value, commands);
            ByVotes(z.status) ==>
              && z.votes != [] && z.decidedAt.Some?
              && (z.decidedAt.value < z.expiresAt <==> z.votes[|z.votes| - 1].at < z.expiresAt)
              && z.expiresAt == Min(createdAt + 259_200, I64_MAX)
  {
    RunKeepsDating(OpenOver(initiator, owners, createdAt).value, commands);
  }

  /** So a caller who takes no vote past the window gets no late verdict. */
  ghost predicate InTime(commands: seq<Command>, expiresAt: int) {
    forall i :: 0 <= i < |commands| && commands[i].CastVote? ==> commands[i].at < expiresAt
  }

  ghost predicate VotesInTime(v: View) {
    forall i :: 0 <= i < |v.votes| ==> v.votes[i].at < v.expiresAt
  }

  lemma StepKeepsInTime(v: View, c: Command)
    requires VotesInTime(v) && (c.CastVote? ==> c.at < v.expiresAt)
    ensures VotesInTime(Step(v, c)) && Step(v, c).expiresAt == v.expiresAt
  {
  }

  lemma {:induction false} RunKeepsInTime(v: View, commands: seq<Command>)
    requires VotesInTime(v) && InTime(commands, v.expiresAt)
    ensures VotesInTime(Run(v, commands))
    decreases |commands|
  {
    if commands != [] {
      StepKeepsInTime(v, commands[0]);
      RunKeepsInTime(Step(v, commands[0]), commands[1..]);
    }
  }

  lemma VotesInTimeDecideInTime(initiator: UserId, owners: seq<UserId>, createdAt: int, commands: seq<Command>)
    requires OpenOver(initiator, owners, createdAt).Ok?
    requires InTime(commands, OpenOver(initiator, owners, createdAt).value.expiresAt)
    ensures var z := Run(OpenOver(initiator, owners, createdAt).value, commands);
            ByVotes(z.status) ==> z.decidedAt.Some? && z.decidedAt.value < z.expiresAt
  {
    var v := OpenOver(initiator, owners, createdAt).value;
    RunKeepsDating(v, commands);
    RunKeepsInTime(v, commands);
  }

  /** Past the window nothing but a recorded expiry stands in the way: at any time, the approval that was missing carries. */
  lemma TheMissingApprovalCarriesAtAnyTime(v: View, voter: UserId, at: int)
    requires Valid(v) && v.status == Open && voter in v.eligible && AnswerOf(v.votes, voter).None?
    ensures Voted(v, voter, Approve, at).0.status == Approved <==> v.Approvals() + 1 == v.threshold
    ensures Voted(v, voter, Approve, at).0.status == Approved ==> Voted(v, voter, Approve, at).0.decidedAt == Some(at)
  {
    CountedAppend(v.votes, Vote(voter, Approve, at, true), Approve);
    Recorded(v, voter, Approve, at);
  }

  /** Two approvals at any time carry a consilium of two seats, and its request can then execute. */
  lemma TwoApprovalsCarry(v: View, at: int, effect: Effect)
    requires Valid(v) && v.status == Open && v.eligible == [2, 3] && v.votes == []
    ensures var z := Step(Step(Step(v, CastVote(2, Approve, at)), CastVote(3, Approve, at)), Carry(effect, at));
            z.status == Executed && z.decidedAt == Some(at) && z.expiresAt == v.expiresAt
  {
    var one := Vote(2, Approve, at, true);
    OneOfTwoIsUndecided(v, [], 2, at);
    var v1 := Step(v, CastVote(2, Approve, at));
    assert [] + [one] == [one];
    assert v1.votes == [one];
    CountedAppend([], one, Approve);
    StepKeepsValid(v, CastVote(2, Approve, at));
    assert AnswerOf([one], 3).None?;
    TheMissingApprovalCarriesAtAnyTime(v1, 3, at);
  }

  /** Such a run: of three owners, both seats approve after the window has closed, and the request executes. */
  lemma LateVotesExecute()
    ensures OpenOver(1, [1, 2, 3], 0).Ok?
    ensures var z := Run(OpenOver(1, [1, 2, 3], 0).value,
                         [CastVote(2, Approve, 300_000), CastVote(3, Approve, 300_000), Carry(Paid(7), 300_000)]);
            z.status == Executed && z.decidedAt == Some(300_000) && z.expiresAt == 259_200
  {
    ThreeOwners(0);
    OpensOverTheRoster(1, [1, 2, 3], 0);
    var v := OpenOver(1, [1, 2, 3], 0).value;
    TwoApprovalsCarry(v, 300_000, Paid(7));
    RunOfThree(v, CastVote(2, Approve, 300_000), CastVote(3, Approve, 300_000), Carry(Paid(7), 300_000));
  }
}
