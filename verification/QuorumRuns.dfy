/**
What every run of a consilium keeps: who may decide, that the verdict ignores the order of votes, when
it is reached, and what losing a seat can and cannot do.
 */
module QuorumRuns {
  import opened Base
  import opened Ledger
  import opened Quorum

  // ----- opening -----

  ghost predicate Distinct(s: seq<UserId>) {
    forall i, j :: 0 <= i < j < |s| ==> s[i] != s[j]
  }

  ghost function Members(s: seq<UserId>): set<UserId> {
    set x | x in s
  }

  lemma {:induction false} DeduplicatedKeepsMembers(owners: seq<UserId>)
    ensures Distinct(Deduplicated(owners))
    ensures forall x :: x in Deduplicated(owners) <==> x in owners
  {
    if owners != [] {
      DeduplicatedKeepsMembers(owners[..|owners| - 1]);
      assert owners == owners[..|owners| - 1] + [owners[|owners| - 1]];
    }
  }

  lemma AppendDistinct(s: seq<UserId>, x: UserId)
    requires Distinct(s) && x !in s
    ensures Distinct(s + [x])
  {
  }

  lemma {:induction false} WithoutDropsOne(roster: seq<UserId>, user: UserId)
    requires Distinct(roster)
    ensures Distinct(AllBut(roster, user))
    ensures forall x :: x in AllBut(roster, user) <==> x in roster && x != user
    ensures |AllBut(roster, user)| == |roster| - if user in roster then 1 else 0
  {
    if roster != [] {
      var before := roster[..|roster| - 1];
      var last := roster[|roster| - 1];
      WithoutDropsOne(before, user);
      assert roster == before + [last];
      if last != user {
        AppendDistinct(AllBut(before, user), last);
      }
    }
  }

  lemma {:induction false} DistinctSize(s: seq<UserId>)
    requires Distinct(s)
    ensures |Members(s)| == |s|
  {
    if s != [] {
      var before := s[..|s| - 1];
      DistinctSize(before);
      assert s == before + [s[|s| - 1]];
      assert Members(s) == Members(before) + {s[|s| - 1]};
      assert s[|s| - 1] !in before by {
        forall i | 0 <= i < |before| ensures before[i] != s[|s| - 1] {
          assert s[i] != s[|s| - 1];
        }
      }
    }
  }

  /**
  A consilium opens exactly when the initiator is one of at least three distinct owners. The seats are
  then every other owner, once each, and the threshold is the least strict majority of all the owners:
  within reach of the seats, though the initiator has none.
   */
  lemma OpensOverTheRoster(initiator: UserId, owners: seq<UserId>, createdAt: int)
    ensures OpenOver(initiator, owners, createdAt).Ok? <==> initiator in owners && |Members(owners)| >= 3
    ensures OpenOver(initiator, owners, createdAt).Err? ==>
              OpenOver(initiator, owners, createdAt).error == if initiator in owners then Validation else Forbidden
    ensures OpenOver(initiator, owners, createdAt).Ok? ==>
              var v := OpenOver(initiator, owners, createdAt).value;
              && Members(v.eligible) == Members(owners) - {initiator} && Distinct(v.eligible)
              && v.ownerCount == |Members(owners)| == |v.eligible| + 1
              && 2 * v.threshold > v.ownerCount >= 2 * (v.threshold - 1)
              && v.threshold <= |v.eligible|
              && Valid(v)
  {
    var roster := Deduplicated(owners);
    DeduplicatedKeepsMembers(owners);
    DistinctSize(roster);
    assert Members(roster) == Members(owners);
    WithoutDropsOne(roster, initiator);
  }

  // ----- what every run keeps -----

  /** Answers on the record, counted or not. */
  function Given(votes: seq<Vote>, decision: Decision): nat {
    if votes == [] then 0
    else Given(votes[..|votes| - 1], decision) + if votes[|votes| - 1].decision == decision then 1 else 0
  }

  function Voters(votes: seq<Vote>): seq<UserId> {
    seq(|votes|, i requires 0 <= i < |votes| => votes[i].voter)
  }

  ghost predicate Ballots(v: View) {
    && Distinct(Voters(v.votes))
    && (forall i :: 0 <= i < |v.votes| ==> v.votes[i].voter in v.eligible && v.votes[i].decision != Pending)
  }

  /** What holds of a consilium between any two calls. */
  ghost predicate Valid(v: View) {
    && Distinct(v.eligible)
    && v.ownerCount == |v.eligible| + 1 && v.threshold == Threshold(v.ownerCount) && v.threshold <= |v.eligible|
    && Ballots(v)
    && (v.status == Open ==> v.Approvals() < v.threshold && v.Rejections() <= |v.eligible| - v.threshold)
    && (v.status in {Approved, Executed, ExecutionFailed} ==> Given(v.votes, Approve) >= v.threshold)
    && (v.status == Rejected ==> Given(v.votes, Reject) > |v.eligible| - v.threshold)
    && (v.status == Expired ==> v.decidedAt.Some? && v.decidedAt.value >= v.expiresAt)
    && (v.status == Executed <==> v.executed.Some?)
  }

  /** A vote whose seat was lost stays on the record and no longer counts. */
  function Voided(votes: seq<Vote>, voter: UserId): seq<Vote> {
    seq(|votes|, i requires 0 <= i < |votes| =>
      if votes[i].voter == voter then votes[i].(counts := false) else votes[i])
  }

  datatype Command =
    | CastVote(voter: UserId, decision: Decision, at: int)
    | LoseSeat(voter: UserId)
    | Withdraw(at: int)
    | TimeOut(at: int)
    | Carry(effect: Effect, at: int)
    | GiveUp(reason: string, at: int)

  function Step(v: View, c: Command): View {
    match c
    case CastVote(voter, decision, at) => Voted(v, voter, decision, at).0
    case LoseSeat(voter) => v.(votes := Voided(v.votes, voter))
    case Withdraw(at) => Closed(v, Cancelled, at).0
    case TimeOut(at) => TimedOut(v, at).0
    case Carry(effect, at) => Carried(v, effect, at).0
    case GiveUp(reason, at) => Failed(v, reason, at).0
  }

  function Run(v: View, commands: seq<Command>): View
    decreases |commands|
  {
    if commands == [] then v else Run(Step(v, commands[0]), commands[1..])
  }

  lemma CountedAppend(votes: seq<Vote>, vote: Vote, d: Decision)
    ensures Counted(votes + [vote], d) == Counted(votes, d) + if vote.counts && vote.decision == d then 1 else 0
    ensures Given(votes + [vote], d) == Given(votes, d) + if vote.decision == d then 1 else 0
  {
    assert (votes + [vote])[..|votes|] == votes;
  }

  lemma {:induction false} CountedIsGiven(votes: seq<Vote>, d: Decision)
    ensures Counted(votes, d) <= Given(votes, d)
    ensures (forall i :: 0 <= i < |votes| ==> votes[i].counts) ==> Counted(votes, d) == Given(votes, d)
  {
    if votes != [] {
      CountedIsGiven(votes[..|votes| - 1], d);
    }
  }

  lemma {:induction false} VoidingLowers(votes: seq<Vote>, voter: UserId, d: Decision)
    ensures Counted(Voided(votes, voter), d) <= Counted(votes, d)
    ensures Given(Voided(votes, voter), d) == Given(votes, d)
  {
    if votes != [] {
      var before := votes[..|votes| - 1];
      VoidingLowers(before, voter, d);
      assert Voided(votes, voter)[..|votes| - 1] == Voided(before, voter);
    }
  }

  lemma {:induction false} NoAnswerMeansNoVote(votes: seq<Vote>, voter: UserId)
    ensures AnswerOf(votes, voter).None? <==> forall i :: 0 <= i < |votes| ==> votes[i].voter != voter
  {
    if votes != [] {
      NoAnswerMeansNoVote(votes[1..], voter);
    }
  }

  lemma VotedKeepsBallots(v: View, voter: UserId, decision: Decision, at: int)
    requires Ballots(v) && voter in v.eligible && decision != Pending && AnswerOf(v.votes, voter).None?
    ensures Ballots(v.(votes := v.votes + [Vote(voter, decision, at, true)]))
  {
    NoAnswerMeansNoVote(v.votes, voter);
    assert Voters(v.votes + [Vote(voter, decision, at, true)]) == Voters(v.votes) + [voter];
    AppendDistinct(Voters(v.votes), voter);
  }

  lemma VoteKeepsValid(v: View, voter: UserId, decision: Decision, at: int)
    requires Valid(v) && v.status == Open
    requires voter in v.eligible && decision != Pending && AnswerOf(v.votes, voter).None?
    ensures Valid(Voted(v, voter, decision, at).0)
  {
    var vote := Vote(voter, decision, at, true);
    VotedKeepsBallots(v, voter, decision, at);
    CountedAppend(v.votes, vote, Approve);
    CountedAppend(v.votes, vote, Reject);
    CountedIsGiven(v.votes + [vote], Approve);
    CountedIsGiven(v.votes + [vote], Reject);
    SettledKeepsValid(v.(votes := v.votes + [vote]).Raise(VoteRecorded(voter, decision, at)), at);
  }

  /** Settling restores what an answer may have broken: an open consilium whose tally is decided. */
  lemma SettledKeepsValid(v: View, at: int)
    requires v.status == Open && v.executed.None? && Distinct(v.eligible) && Ballots(v)
    requires v.ownerCount == |v.eligible| + 1 && v.threshold == Threshold(v.ownerCount) && v.threshold <= |v.eligible|
    requires v.Approvals() <= Given(v.votes, Approve) && v.Rejections() <= Given(v.votes, Reject)
    ensures Valid(Settled(v, at))
  {
  }

  lemma LosingASeatKeepsValid(v: View, voter: UserId)
    requires Valid(v)
    ensures Valid(v.(votes := Voided(v.votes, voter)))
  {
    VoidingLowers(v.votes, voter, Approve);
    VoidingLowers(v.votes, voter, Reject);
    assert Voters(Voided(v.votes, voter)) == Voters(v.votes);
  }

  lemma StepKeepsValid(v: View, c: Command)
    requires Valid(v)
    ensures Valid(Step(v, c))
  {
    if c.LoseSeat? {
      LosingASeatKeepsValid(v, c.voter);
    } else if c.CastVote? {
      if v.status == Open && c.decision != Pending && c.voter in v.eligible && AnswerOf(v.votes, c.voter).None? {
        VoteKeepsValid(v, c.voter, c.decision, c.at);
      }
    }
  }

  lemma {:induction false} RunKeepsValid(v: View, commands: seq<Command>)
    requires Valid(v)
    ensures Valid(Run(v, commands))
    ensures Run(v, commands).eligible == v.eligible && Run(v, commands).initiator == v.initiator
    decreases |commands|
  {
    if commands != [] {
      StepKeepsValid(v, commands[0]);
      RunKeepsValid(Step(v, commands[0]), commands[1..]);
    }
  }

  /** The seats that answered one way, counted or not. */
  ghost function Sided(votes: seq<Vote>, decision: Decision): set<UserId> {
    set i | 0 <= i < |votes| && votes[i].decision == decision :: votes[i].voter
  }

  lemma {:induction false} SidedSize(votes: seq<Vote>, decision: Decision)
    requires Distinct(Voters(votes))
    ensures |Sided(votes, decision)| == Given(votes, decision)
  {
    if votes != [] {
      var before, last := votes[..|votes| - 1], votes[|votes| - 1];
      assert Voters(before) == Voters(votes)[..|votes| - 1];
      SidedSize(before, decision);
      SidedAppend(before, last, decision);
      assert votes == before + [last];
      forall i | 0 <= i < |before| ensures before[i].voter != last.voter {
        assert Voters(votes)[i] != Voters(votes)[|votes| - 1];
      }
    }
  }

  lemma SidedAppend(votes: seq<Vote>, vote: Vote, decision: Decision)
    ensures Sided(votes + [vote], decision) == Sided(votes, decision) + if vote.decision == decision then {vote.voter} else {}
  {
    var all := votes + [vote];
    forall x ensures x in Sided(all, decision) <==> x in Sided(votes, decision) || (vote.decision == decision && x == vote.voter) {
      if x in Sided(votes, decision) {
        var i :| 0 <= i < |votes| && votes[i].decision == decision && votes[i].voter == x;
        assert all[i] == votes[i];
      }
      if vote.decision == decision && x == vote.voter {
        assert all[|votes|] == vote;
      }
    }
  }

  /**
  Nothing executes without the quorum: after any run, a consilium approved, executed or failed in
  execution has the recorded approval of more than half of all owners, the initiator not among them.
   */
  lemma ExecutionNeedsTheQuorum(initiator: UserId, owners: seq<UserId>, createdAt: int, commands: seq<Command>)
    requires OpenOver(initiator, owners, createdAt).Ok?
    ensures var z := Run(OpenOver(initiator, owners, createdAt).value, commands);
            z.status in {Approved, Executed, ExecutionFailed} ==>
              && 2 * |Sided(z.votes, Approve)| > |Members(owners)|
              && Sided(z.votes, Approve) <= Members(owners) - {initiator}
  {
    var v := OpenOver(initiator, owners, createdAt).value;
    OpensOverTheRoster(initiator, owners, createdAt);
    RunKeepsValid(v, commands);
    var z := Run(v, commands);
    SidedSize(z.votes, Approve);
    forall x | x in Sided(z.votes, Approve) ensures x in Members(owners) - {initiator} {
      assert x in v.eligible;
      assert x in Members(v.eligible);
    }
  }

  predicate Terminal(status: Status) {
    status in {Rejected, Expired, Cancelled, Executed, ExecutionFailed}
  }

  /** A terminal consilium answers no command with a change: its status, effect and log are final. */
  lemma {:induction false} TerminalIsFinal(v: View, commands: seq<Command>)
    requires Terminal(v.status)
    ensures var z := Run(v, commands);
            z.status == v.status && z.executed == v.executed && z.decidedAt == v.decidedAt && z.log == v.log
    decreases |commands|
  {
    if commands != [] {
      TerminalIsFinal(Step(v, commands[0]), commands[1..]);
    }
  }

  // ----- the log -----

  /** What the events raised so far say happened. */
  datatype Story =
    | Nothing
    | Told(status: Status, votes: seq<(UserId, Decision, int)>, decidedAt: Option<int>, executed: Option<Effect>, failure: Option<string>)

  /** One more event; `None` when it cannot follow what was told. */
  function Tell(s: Story, e: Event): Option<Story> {
    match s
    case Nothing => if e.Opened? then Some(Told(Open, [], None, None, None)) else None
    case Told(status, votes, _, _, _) =>
      match e
      case Opened(_, _, _) => None
      case VoteRecorded(voter, decision, at) => if status == Open then Some(s.(votes := votes + [(voter, decision, at)])) else None
      case ApprovedAt(_, _, at) => if status == Open then Some(s.(status := Approved, decidedAt := Some(at))) else None
      case RejectedAt(_, at) => if status == Open then Some(s.(status := Rejected, decidedAt := Some(at))) else None
      case CancelledAt(at) => if status == Open then Some(s.(status := Cancelled, decidedAt := Some(at))) else None
      case ExpiredAt(at) => if status == Open then Some(s.(status := Expired, decidedAt := Some(at))) else None
      case ExecutedAt(effect, at) => if status == Approved then Some(s.(status := Executed, executed := Some(effect))) else None
      case FailedAt(reason, at) => if status == Approved then Some(s.(status := ExecutionFailed, failure := Some(reason))) else None
  }

  function TellAll(log: seq<Event>): Option<Story> {
    if log == [] then Some(Nothing)
    else
      var s :- TellAll(log[..|log| - 1]);
      Tell(s, log[|log| - 1])
  }

  lemma TellAppend(log: seq<Event>, e: Event)
    requires TellAll(log).Some?
    ensures TellAll(log + [e]) == Tell(TellAll(log).value, e)
  {
    assert (log + [e])[..|log|] == log;
  }

  function Cast(votes: seq<Vote>): seq<(UserId, Decision, int)> {
    seq(|votes|, i requires 0 <= i < |votes| => (votes[i].voter, votes[i].decision, votes[i].at))
  }

  function StoryOf(v: View): Story {
    Told(v.status, Cast(v.votes), v.decidedAt, v.executed, v.failure)
  }

  ghost predicate LogAgrees(v: View) {
    TellAll(v.log) == Some(StoryOf(v)) && v.version == Min(|v.log|, U64_MAX)
  }

  lemma DecidedAgrees(v: View, status: Status, at: int)
    requires LogAgrees(v) && v.status == Open && status in {Approved, Rejected, Cancelled, Expired}
    ensures LogAgrees(Decided(v, status, at))
  {
    var z := Decided(v, status, at);
    TellAppend(v.log, z.log[|v.log|]);
  }

  lemma SettledAgrees(v: View, at: int)
    requires LogAgrees(v)
    ensures LogAgrees(Settled(v, at))
  {
    if v.status == Open && Settled(v, at) != v {
      DecidedAgrees(v, if v.Approvals() >= v.threshold then Approved else Rejected, at);
    }
  }

  lemma VotedAgrees(v: View, voter: UserId, decision: Decision, at: int)
    requires LogAgrees(v)
    ensures LogAgrees(Voted(v, voter, decision, at).0)
  {
    if Voted(v, voter, decision, at).1 == Ok(Unit.Unit) && AnswerOf(v.votes, voter).None? {
      var voted := v.(votes := v.votes + [Vote(voter, decision, at, true)]).Raise(VoteRecorded(voter, decision, at));
      TellAppend(v.log, VoteRecorded(voter, decision, at));
      assert Cast(voted.votes) == Cast(v.votes) + [(voter, decision, at)];
      SettledAgrees(voted, at);
    }
  }

  lemma ClosedAgrees(v: View, target: Status, at: int)
    requires LogAgrees(v) && target in {Cancelled, Expired}
    ensures LogAgrees(Closed(v, target, at).0)
  {
    if v.status == Open {
      DecidedAgrees(v, target, at);
    }
  }

  lemma CarriedAgrees(v: View, effect: Effect, at: int)
    requires LogAgrees(v)
    ensures LogAgrees(Step(v, Carry(effect, at)))
  {
    TellAppend(v.log, ExecutedAt(effect, at));
  }

  lemma GivenUpAgrees(v: View, reason: string, at: int)
    requires LogAgrees(v)
    ensures LogAgrees(Step(v, GiveUp(reason, at)))
  {
    TellAppend(v.log, FailedAt(reason, at));
  }

  lemma StepAgrees(v: View, c: Command)
    requires LogAgrees(v)
    ensures LogAgrees(Step(v, c))
  {
    match c
    case CastVote(voter, decision, at) => VotedAgrees(v, voter, decision, at);
    case LoseSeat(voter) => assert Cast(Voided(v.votes, voter)) == Cast(v.votes);
    case Withdraw(at) => ClosedAgrees(v, Cancelled, at);
    case TimeOut(at) => ClosedAgrees(v, Expired, at);
    case Carry(effect, at) => CarriedAgrees(v, effect, at);
    case GiveUp(reason, at) => GivenUpAgrees(v, reason, at);
  }

  lemma {:induction false} RunAgrees(v: View, commands: seq<Command>)
    requires LogAgrees(v)
    ensures LogAgrees(Run(v, commands))
    decreases |commands|
  {
    if commands != [] {
      StepAgrees(v, commands[0]);
      RunAgrees(Step(v, commands[0]), commands[1..]);
    }
  }

  lemma OpeningAgrees(initiator: UserId, owners: seq<UserId>, createdAt: int)
    requires OpenOver(initiator, owners, createdAt).Ok?
    ensures LogAgrees(OpenOver(initiator, owners, createdAt).value)
  {
    var v := OpenOver(initiator, owners, createdAt).value;
    TellAppend([], v.log[0]);
    assert [] + [v.log[0]] == v.log;
    assert Cast([]) == [];
  }

  /**
  The log alone tells every run: replaying it from the opening never meets an event that cannot follow,
  and arrives at the status, the answers in order, the time of the verdict, the effect and the reason
  the consilium holds.
   */
  lemma LogTellsEveryRun(initiator: UserId, owners: seq<UserId>, createdAt: int, commands: seq<Command>)
    requires OpenOver(initiator, owners, createdAt).Ok?
    ensures var z := Run(OpenOver(initiator, owners, createdAt).value, commands);
            TellAll(z.log) == Some(StoryOf(z)) && z.version == Min(|z.log|, U64_MAX)
  {
    OpeningAgrees(initiator, owners, createdAt);
    RunAgrees(OpenOver(initiator, owners, createdAt).value, commands);
  }
}
