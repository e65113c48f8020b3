/**
What lost seats do to an early rejection (domain/src/consilium.rs): which votes leave a consilium open
although nothing can carry it any more, and what losing a seat does by itself.
 */
module LostSeats {
  import opened Base
  import opened Ledger
  import opened Quorum
  import opened QuorumRuns
  import opened Verdicts

  /** Seats that have not answered. */
  function Silent(v: View): int {
    |v.eligible| - |v.votes|
  }

  /** Open, although no answers of the silent seats could bring the approvals to the threshold. */
  ghost predicate Missed(v: View) {
    v.status == Open && forall b :: Completes(v, b) ==> Final(v, b) < v.threshold
  }

  /** What the silent seats can still bring: at most one approval each, and exactly that when all approve. */
  lemma OutOfReachMeans(v: View)
    requires Valid(v)
    ensures Silent(v) >= 0
    ensures (forall b :: Completes(v, b) ==> Final(v, b) < v.threshold) <==> v.Approvals() + Silent(v) < v.threshold
  {
    RestCompletes(v, Approve);
    assert Final(v, Rest(v, v.eligible, Approve)) == v.Approvals() + Silent(v);
    forall b | Completes(v, b) ensures Final(v, b) <= v.Approvals() + Silent(v) {
      ApprovingBounded(b);
    }
  }

  /** A recorded vote leaves the consilium valid, and open exactly when both tallies are short. */
  lemma TallyAfterVote(v: View, voter: UserId, decision: Decision, at: int)
    requires Valid(v) && v.status == Open
    requires voter in v.eligible && decision != Pending && AnswerOf(v.votes, voter).None?
    ensures var z := Voted(v, voter, decision, at).0;
            && Valid(z)
            && (z.status == Open <==> z.Approvals() < z.threshold <= z.Approvals() + Silent(z) + Uncounted(z.votes))
  {
    VoteKeepsValid(v, voter, decision, at);
    Recorded(v, voter, decision, at);
    TallyOf(Voted(v, voter, decision, at).0);
  }

  /**
  Which votes miss a rejection. Any recorded vote, with any seats lost before it, leaves the consilium
  open and out of reach exactly when the counted approvals fall short even with every silent seat, and
  would not with the answers that were voided.
   */
  lemma VoteMissesIff(v: View, voter: UserId, decision: Decision, at: int)
    requires Valid(v) && v.status == Open
    requires voter in v.eligible && decision != Pending && AnswerOf(v.votes, voter).None?
    ensures var z := Voted(v, voter, decision, at).0;
            Missed(z) <==> z.Approvals() + Silent(z) < z.threshold <= z.Approvals() + Silent(z) + Uncounted(z.votes)
  {
    TallyAfterVote(v, voter, decision, at);
    OutOfReachMeans(Voted(v, voter, decision, at).0);
  }

  /** Without voided answers no vote misses. */
  lemma NothingVoidedNothingMissed(v: View, voter: UserId, decision: Decision, at: int)
    requires Valid(v) && v.status == Open && AllCount(v)
    requires voter in v.eligible && decision != Pending && AnswerOf(v.votes, voter).None?
    ensures !Missed(Voted(v, voter, decision, at).0)
  {
    OneVote(v, voter, decision, at);
    TallyOf(Voted(v, voter, decision, at).0);
    VoteMissesIff(v, voter, decision, at);
  }

  // ----- losing a seat by itself -----

  /** Whether the answer of `voter` is an approval that counts. */
  ghost predicate Carries(votes: seq<Vote>, voter: UserId) {
    exists i :: 0 <= i < |votes| && votes[i].voter == voter && votes[i].counts && votes[i].decision == Approve
  }

  lemma {:induction false} VoidingTakesOne(votes: seq<Vote>, voter: UserId)
    requires Distinct(Voters(votes))
    ensures Counted(Voided(votes, voter), Approve) == Counted(votes, Approve) - if Carries(votes, voter) then 1 else 0
  {
    if votes != [] {
      var before, last := votes[..|votes| - 1], votes[|votes| - 1];
      assert Voters(before) == Voters(votes)[..|votes| - 1];
      VoidingTakesOne(before, voter);
      assert Voided(votes, voter)[..|votes| - 1] == Voided(before, voter);
      assert votes == before + [last];
      CarriesOnce(before, last, voter);
    }
  }

  lemma CarriesOnce(before: seq<Vote>, last: Vote, voter: UserId)
    requires Distinct(Voters(before + [last]))
    ensures var here := last.voter == voter && last.counts && last.decision == Approve;
            && (Carries(before + [last], voter) <==> Carries(before, voter) || here)
            && (last.voter == voter ==> !Carries(before, voter))
  {
    var all := before + [last];
    assert all[|before|] == last && Voters(all)[|before|] == last.voter;
    forall i | 0 <= i < |before| ensures all[i] == before[i] && before[i].voter != last.voter {
      assert Voters(all)[i] == before[i].voter;
    }
  }

  /**
  Losing a seat never decides, whatever it makes of the tally: nothing is counted again before the next
  vote. It puts an open consilium out of reach exactly when the voter's approval counted and was needed.
   */
  lemma LosingASeatNeverDecides(v: View, voter: UserId)
    requires Valid(v) && v.status == Open && !Missed(v)
    ensures var z := Step(v, LoseSeat(voter));
            && z.status == Open && z.log == v.log
            && (Missed(z) <==> Carries(v.votes, voter) && v.Approvals() + Silent(v) == v.threshold)
  {
    LosingASeatKeepsValid(v, voter);
    OutOfReachMeans(v);
    OutOfReachMeans(Step(v, LoseSeat(voter)));
    VoidingTakesOne(v.votes, voter);
  }
}
