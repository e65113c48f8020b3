/**
The verdict a tally reaches (domain/src/consilium.rs): it does not depend on the order of votes, it is
recorded at the first vote after which nothing could change it, and what lost seats do to that.
 */
module Verdicts {
  import opened Base
  import opened Ledger
  import opened Quorum
  import opened QuorumRuns

  datatype Ballot = Ballot(voter: UserId, decision: Decision, at: int)

  /** Votes cast one after the other; those a decided consilium refuses change nothing. */
  function CastAll(v: View, ballots: seq<Ballot>): View
    decreases |ballots|
  {
    if ballots == [] then v
    else CastAll(Voted(v, ballots[0].voter, ballots[0].decision, ballots[0].at).0, ballots[1..])
  }

  function Approving(ballots: seq<Ballot>): nat {
    if ballots == [] then 0
    else (if ballots[0].decision == Approve then 1 else 0) + Approving(ballots[1..])
  }

  /** Every seat that has not answered, answering once. */
  ghost predicate Completes(v: View, ballots: seq<Ballot>) {
    && |v.votes| + |ballots| == |v.eligible|
    && (forall i :: 0 <= i < |ballots| ==>
          ballots[i].voter in v.eligible && ballots[i].decision != Pending && AnswerOf(v.votes, ballots[i].voter).None?)
    && (forall i, j :: 0 <= i < j < |ballots| ==> ballots[i].voter != ballots[j].voter)
  }

  ghost predicate AllCount(v: View) {
    forall i :: 0 <= i < |v.votes| ==> v.votes[i].counts
  }

  function Uncounted(votes: seq<Vote>): nat {
    if votes == [] then 0
    else Uncounted(votes[..|votes| - 1]) + if votes[|votes| - 1].counts then 0 else 1
  }

  lemma {:induction false} TallySplits(votes: seq<Vote>)
    requires forall i :: 0 <= i < |votes| ==> votes[i].decision != Pending
    ensures Counted(votes, Approve) + Counted(votes, Reject) + Uncounted(votes) == |votes|
    ensures (forall i :: 0 <= i < |votes| ==> votes[i].counts) ==> Uncounted(votes) == 0
  {
    if votes != [] {
      TallySplits(votes[..|votes| - 1]);
    }
  }

  lemma {:induction false} ApprovingBounded(ballots: seq<Ballot>)
    ensures Approving(ballots) <= |ballots|
  {
    if ballots != [] {
      ApprovingBounded(ballots[1..]);
    }
  }

  lemma {:induction false} DecidedIgnoresVotes(v: View, ballots: seq<Ballot>)
    requires v.status != Open
    ensures CastAll(v, ballots) == v
    decreases |ballots|
  {
    if ballots != [] {
      DecidedIgnoresVotes(v, ballots[1..]);
    }
  }

  lemma NextCompletes(v: View, ballots: seq<Ballot>)
    requires Valid(v) && v.status == Open && ballots != [] && Completes(v, ballots)
    ensures Completes(Voted(v, ballots[0].voter, ballots[0].decision, ballots[0].at).0, ballots[1..])
  {
    var first := ballots[0];
    var votes := v.votes + [Vote(first.voter, first.decision, first.at, true)];
    forall i | 1 <= i < |ballots| ensures AnswerOf(votes, ballots[i].voter).None? {
      NoAnswerMeansNoVote(v.votes, ballots[i].voter);
      NoAnswerMeansNoVote(votes, ballots[i].voter);
    }
  }

  lemma Recorded(v: View, voter: UserId, decision: Decision, at: int)
    requires v.status == Open && voter in v.eligible && decision != Pending && AnswerOf(v.votes, voter).None?
    ensures var z := Voted(v, voter, decision, at).0;
            && z.votes == v.votes + [Vote(voter, decision, at, true)] && z.eligible == v.eligible && z.threshold == v.threshold
            && z.status == if z.Approvals() >= z.threshold then Approved
                           else if z.Rejections() > Max(|z.eligible| - z.threshold, 0) then Rejected else Open
  {
  }

  /** One vote on an open consilium whose votes all count. */
  lemma OneVote(v: View, voter: UserId, decision: Decision, at: int)
    requires Valid(v) && v.status == Open && AllCount(v)
    requires voter in v.eligible && decision != Pending && AnswerOf(v.votes, voter).None?
    ensures var z := Voted(v, voter, decision, at).0;
            && Valid(z) && AllCount(z) && z.eligible == v.eligible && z.threshold == v.threshold && |z.votes| == |v.votes| + 1
            && z.Approvals() == v.Approvals() + (if decision == Approve then 1 else 0)
            && z.status == if z.Approvals() >= z.threshold then Approved
                           else if |z.votes| - z.Approvals() > |z.eligible| - z.threshold then Rejected else Open
  {
    VoteKeepsValid(v, voter, decision, at);
    Recorded(v, voter, decision, at);
    var z := Voted(v, voter, decision, at).0;
    assert AllCount(z);
    CountedAppend(v.votes, Vote(voter, decision, at, true), Approve);
    TallyOf(z);
  }

  lemma TallyOf(v: View)
    requires Ballots(v)
    ensures v.Approvals() + v.Rejections() + Uncounted(v.votes) == |v.votes|
    ensures AllCount(v) ==> Uncounted(v.votes) == 0
  {
    TallySplits(v.votes);
  }

  /**
  From any open consilium whose votes all count, every way of completing the ballot ends approved when
  the approvals reach the threshold and rejected when they do not: no order leaves it open.
   */
  lemma {:induction false} CompletionDecides(v: View, ballots: seq<Ballot>)
    requires Valid(v) && v.status == Open && AllCount(v) && Completes(v, ballots)
    ensures CastAll(v, ballots).status == if v.Approvals() + Approving(ballots) >= v.threshold then Approved else Rejected
    decreases |ballots|
  {
    if ballots == [] {
      TallySplits(v.votes);
    } else {
      var first := ballots[0];
      OneVote(v, first.voter, first.decision, first.at);
      NextCompletes(v, ballots);
      ApprovingBounded(ballots[1..]);
      var next := Voted(v, first.voter, first.decision, first.at).0;
      if next.status == Open {
        CompletionDecides(next, ballots[1..]);
      } else {
        DecidedIgnoresVotes(next, ballots[1..]);
      }
    }
  }

  // ----- the order of votes -----

  /** The ballots of an assignment, cast in one order. */
  function InOrder(order: seq<UserId>, approvers: set<UserId>, at: UserId -> int): seq<Ballot> {
    seq(|order|, i requires 0 <= i < |order| =>
      Ballot(order[i], if order[i] in approvers then Approve else Reject, at(order[i])))
  }

  lemma OneMoreIn(seats: seq<UserId>, chosen: set<UserId>)
    requires seats != [] && Distinct(seats)
    ensures |chosen * Members(seats)| == |chosen * Members(seats[1..])| + if seats[0] in chosen then 1 else 0
  {
    assert seats == [seats[0]] + seats[1..];
    assert seats[0] !in seats[1..];
    assert chosen * Members(seats) == chosen * Members(seats[1..]) + if seats[0] in chosen then {seats[0]} else {};
  }

  lemma {:induction false} ApprovingInOrder(order: seq<UserId>, approvers: set<UserId>, at: UserId -> int)
    requires Distinct(order)
    ensures Approving(InOrder(order, approvers, at)) == |approvers * Members(order)|
  {
    if order == [] {
      assert approvers * Members(order) == {};
    } else {
      ApprovingInOrder(order[1..], approvers, at);
      assert InOrder(order, approvers, at)[1..] == InOrder(order[1..], approvers, at);
      OneMoreIn(order, approvers);
    }
  }

  /**
  The verdict does not depend on the order of votes. Of a consilium just opened, whichever seats approve
  and the rest rejecting, every order of casting ends the same way: approved when the approving seats
  reach the threshold, rejected otherwise.
   */
  lemma OrderDoesNotMatter(initiator: UserId, owners: seq<UserId>, createdAt: int, order: seq<UserId>,
                           approvers: set<UserId>, at: UserId -> int)
    requires OpenOver(initiator, owners, createdAt).Ok?
    requires Distinct(order) && Members(order) == Members(owners) - {initiator}
    requires approvers <= Members(order)
    ensures CastAll(OpenOver(initiator, owners, createdAt).value, InOrder(order, approvers, at)).status
            == if 2 * |approvers| > |Members(owners)| then Approved else Rejected
  {
    var v := OpenOver(initiator, owners, createdAt).value;
    var ballots := InOrder(order, approvers, at);
    OpensOverTheRoster(initiator, owners, createdAt);
    DistinctSize(order);
    DistinctSize(v.eligible);
    forall i | 0 <= i < |ballots| ensures ballots[i].voter in v.eligible {
      assert order[i] in Members(order);
    }
    CompletionDecides(v, ballots);
    ApprovingInOrder(order, approvers, at);
    assert approvers * Members(order) == approvers;
  }

  // ----- the moment of the verdict -----

  /** What a completed ballot would tally. */
  function Final(v: View, ballots: seq<Ballot>): nat {
    v.Approvals() + Approving(ballots)
  }

  /** The seats that have not answered, all answering alike. */
  function Rest(v: View, seats: seq<UserId>, decision: Decision): seq<Ballot> {
    if seats == [] then []
    else (if AnswerOf(v.votes, seats[0]).None? then [Ballot(seats[0], decision, 0)] else []) + Rest(v, seats[1..], decision)
  }

  lemma {:induction false} RestIsSeated(v: View, seats: seq<UserId>, decision: Decision)
    requires Distinct(seats)
    ensures forall i :: 0 <= i < |Rest(v, seats, decision)| ==>
              var b := Rest(v, seats, decision)[i];
              b.voter in seats && b.decision == decision && AnswerOf(v.votes, b.voter).None?
    ensures forall i, j :: 0 <= i < j < |Rest(v, seats, decision)| ==>
              Rest(v, seats, decision)[i].voter != Rest(v, seats, decision)[j].voter
  {
    if seats != [] {
      RestIsSeated(v, seats[1..], decision);
    }
  }

  lemma {:induction false} RestApproves(v: View, seats: seq<UserId>, decision: Decision)
    ensures Approving(Rest(v, seats, decision)) == if decision == Approve then |Rest(v, seats, decision)| else 0
  {
    if seats != [] {
      RestApproves(v, seats[1..], decision);
      if AnswerOf(v.votes, seats[0]).None? {
        assert Rest(v, seats, decision)[1..] == Rest(v, seats[1..], decision);
      } else {
        assert Rest(v, seats, decision) == Rest(v, seats[1..], decision);
      }
    }
  }

  lemma {:induction false} RestCounts(v: View, seats: seq<UserId>, decision: Decision)
    requires Distinct(seats)
    ensures |Rest(v, seats, decision)| + |Members(Voters(v.votes)) * Members(seats)| == |seats|
  {
    var voted := Members(Voters(v.votes));
    if seats == [] {
      assert voted * Members(seats) == {};
    } else {
      RestCounts(v, seats[1..], decision);
      AnsweredIsVoted(v.votes, seats[0]);
      OneMoreIn(seats, voted);
    }
  }

  lemma AnsweredIsVoted(votes: seq<Vote>, voter: UserId)
    ensures AnswerOf(votes, voter).Some? <==> voter in Members(Voters(votes))
  {
    NoAnswerMeansNoVote(votes, voter);
    if AnswerOf(votes, voter).Some? {
      var i :| 0 <= i < |votes| && votes[i].voter == voter;
      assert Voters(votes)[i] == voter;
    }
  }

  lemma RestCompletes(v: View, decision: Decision)
    requires Valid(v) && decision != Pending
    ensures Completes(v, Rest(v, v.eligible, decision))
    ensures Approving(Rest(v, v.eligible, decision)) == if decision == Approve then |v.eligible| - |v.votes| else 0
  {
    RestIsSeated(v, v.eligible, decision);
    RestApproves(v, v.eligible, decision);
    RestCounts(v, v.eligible, decision);
    DistinctSize(Voters(v.votes));
    assert Members(Voters(v.votes)) * Members(v.eligible) == Members(Voters(v.votes)) by {
      forall x | x in Members(Voters(v.votes)) ensures x in Members(v.eligible) {
        var i :| 0 <= i < |v.votes| && v.votes[i].voter == x;
      }
    }
  }

  /**
  The verdict is recorded at the first vote after which nothing could change it. Between any two votes,
  while every vote counts: the consilium is open exactly when the remaining seats could still bring it
  to either verdict, approved exactly when they all end approved, rejected exactly when none does.
   */
  lemma DecidedExactlyWhenSettled(v: View)
    requires Valid(v) && AllCount(v) && v.status in {Open, Approved, Rejected}
    ensures v.status == Open <==>
            && (exists b :: Completes(v, b) && Final(v, b) >= v.threshold)
            && (exists b :: Completes(v, b) && Final(v, b) < v.threshold)
    ensures v.status == Approved <==> forall b :: Completes(v, b) ==> Final(v, b) >= v.threshold
    ensures v.status == Rejected <==> forall b :: Completes(v, b) ==> Final(v, b) < v.threshold
  {
    CountedIsGiven(v.votes, Approve);
    CountedIsGiven(v.votes, Reject);
    TallySplits(v.votes);
    RestCompletes(v, Approve);
    RestCompletes(v, Reject);
    var yes, no := Rest(v, v.eligible, Approve), Rest(v, v.eligible, Reject);
    assert Final(v, yes) >= v.threshold <==> v.status != Rejected;
    assert Final(v, no) < v.threshold <==> v.status != Approved;
    forall b | Completes(v, b)
      ensures Final(v, no) <= Final(v, b) <= Final(v, yes)
    {
      ApprovingBounded(b);
    }
  }

  // ----- lost seats -----

  /**
  Rejecting early stays sound when seats were lost: the moment a vote rejects, no answers of the seats
  still silent could have carried the counted approvals to the threshold.
   */
  lemma RejectionIsSound(v: View, voter: UserId, decision: Decision, at: int, ballots: seq<Ballot>)
    requires Valid(v) && v.status == Open
    requires Voted(v, voter, decision, at).0.status == Rejected && Completes(Voted(v, voter, decision, at).0, ballots)
    ensures Final(Voted(v, voter, decision, at).0, ballots) < v.threshold
  {
    VoteKeepsValid(v, voter, decision, at);
    TallySplits(Voted(v, voter, decision, at).0.votes);
    ApprovingBounded(ballots);
  }

  /**
  It is not complete: when the last seat answers, the consilium stays open, with nobody left to ask,
  exactly when the approvals are short of the threshold by no more than the answers that were voided.
   */
  lemma LastVoteStaysOpenIff(v: View, voter: UserId, decision: Decision, at: int)
    requires Valid(v) && v.status == Open && |v.votes| + 1 == |v.eligible|
    requires voter in v.eligible && decision != Pending && AnswerOf(v.votes, voter).None?
    ensures var z := Voted(v, voter, decision, at).0;
            z.status == Open <==> z.Approvals() < z.threshold <= z.Approvals() + Uncounted(z.votes)
  {
    VoteKeepsValid(v, voter, decision, at);
    TallySplits(Voted(v, voter, decision, at).0.votes);
  }

  lemma ThreeOwners(at: int)
    ensures OpenOver(1, [1, 2, 3], at).Ok?
    ensures OpenOver(1, [1, 2, 3], at).value.eligible == [2, 3]
  {
    assert [1, 2, 3][..2] == [1, 2] && [1, 2][..1] == [1];
    assert Deduplicated([1]) == [1];
    assert Deduplicated([1, 2]) == [1, 2];
    assert AllBut([1], 1) == [];
    assert AllBut([1, 2], 1) == [2];
  }

  /** With a threshold of two, an answer not counted and one approval leave the tally undecided. */
  lemma OneOfTwoIsUndecided(v: View, votes: seq<Vote>, voter: UserId, at: int)
    requires v.status == Open && v.threshold == 2 && v.eligible == [2, 3] && voter in v.eligible
    requires v.votes == votes && AnswerOf(votes, voter).None?
    requires Counted(votes, Approve) == 0 && Counted(votes, Reject) == 0
    ensures var z := Voted(v, voter, Approve, at).0;
            && z.status == Open && z.votes == votes + [Vote(voter, Approve, at, true)]
            && z.eligible == v.eligible && z.threshold == 2
  {
    CountedAppend(votes, Vote(voter, Approve, at, true), Approve);
    CountedAppend(votes, Vote(voter, Approve, at, true), Reject);
  }

  lemma RunOfThree(v: View, c0: Command, c1: Command, c2: Command)
    ensures Run(v, [c0, c1, c2]) == Step(Step(Step(v, c0), c1), c2)
  {
    assert [c0, c1, c2][1..] == [c1, c2] && [c1, c2][1..] == [c2];
    assert Run(Step(Step(v, c0), c1), [c2]) == Step(Step(Step(v, c0), c1), c2);
  }

  /** Such a run: of three owners, one seat approves and is lost, and the other approves too. */
  lemma StuckWithEverySeatAnswered(at: int)
    ensures OpenOver(1, [1, 2, 3], at).Ok?
    ensures var z := Run(OpenOver(1, [1, 2, 3], at).value, [CastVote(2, Approve, at), LoseSeat(2), CastVote(3, Approve, at)]);
            z.status == Open && |z.votes| == |z.eligible|
  {
    ThreeOwners(at);
    var v := OpenOver(1, [1, 2, 3], at).value;
    OpensOverTheRoster(1, [1, 2, 3], at);
    OneOfTwoIsUndecided(v, [], 2, at);
    var v1 := Step(v, CastVote(2, Approve, at));
    var lost := Vote(2, Approve, at, false);
    var v2 := Step(v1, LoseSeat(2));
    assert v2.votes == [lost];
    CountedAppend([], lost, Approve);
    CountedAppend([], lost, Reject);
    assert [] + [lost] == [lost];
    OneOfTwoIsUndecided(v2, [lost], 3, at);
    RunOfThree(v, CastVote(2, Approve, at), LoseSeat(2), CastVote(3, Approve, at));
  }
}
