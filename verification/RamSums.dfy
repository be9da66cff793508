/** The per-account sum that vote4ram keeps beside its votes. */
module RamSums {
  import opened Base
  import opened Totals
  import opened VoteLedger
  import opened VoteRuns

  function RamOf(voter: Name): (VoteKey, Vote) -> int {
    (k: VoteKey, v: Vote) => if k.voter == voter then v.voteage.staked else 0
  }

  ghost predicate SumOk(s: Ledger, voter: Name) {
    (if voter in s.vote4ramsum then s.vote4ramsum[voter] else 0) == Total(s.votes4ram, RamOf(voter)) &&
    (voter !in s.vote4ramsum ==> forall k | k in s.votes4ram :: k.voter != voter)
  }

  lemma VoteKeepsSum(s: Ledger, kind: Kind, v: Name, bp: Name, stake: int, h: nat, voter: Name)
    requires v in s.available && bp in s.bps && SumOk(s, voter)
    ensures SumOk(AfterVote(s, kind, v, bp, stake, h), voter)
  {
    hide Total, AddStake;
    var key := VoteKey(v, bp);
    TotalUpdate(s.votes4ram, RamOf(voter), key, RowAfterVote(s.votes4ram, key, stake, h));
  }

  lemma EffectKeepsSum(s: Ledger, c: Context, a: Action, voter: Name)
    requires Can(s, c, a) && SumOk(s, voter)
    ensures SumOk(Effect(s, c, a), voter)
  {
    hide Total, ClaimedAge, Share, BudgetReward, AfterVote;
    match a
    case VoteFor(kind, v, bp, stake) => VoteKeepsSum(s, kind, v, bp, stake, c.height, voter);
    case Unfreeze(kind, v, bp) =>
      var key := VoteKey(v, bp);
      if kind == ForRam {
        TotalUpdate(s.votes4ram, RamOf(voter), key, s.votes4ram[key].(unstaking := 0));
      }
    case _ =>
  }

  lemma {:induction false} RunKeepsSum(s: Ledger, run: seq<Step>, voter: Name)
    requires SumOk(s, voter)
    ensures SumOk(Exec(s, run), voter)
    decreases |run|
  {
    hide SumOk, Effect;
    if run != [] {
      if Can(s, run[0].c, run[0].a) {
        EffectKeepsSum(s, run[0].c, run[0].a, voter);
      }
      RunKeepsSum(Next(s, run[0].c, run[0].a), run[1..], voter);
    }
  }

  /** In every reachable state an account's vote4ram sum is what it has staked for RAM on all producers together,
      although vote4ram only ever adds the change of one vote, and the first time the whole stake. */
  lemma RamSumsAgree(g: Ledger, run: seq<Step>, voter: Name)
    requires Genesis(g)
    ensures var s := Exec(g, run);
      (if voter in s.vote4ramsum then s.vote4ramsum[voter] else 0) == Total(s.votes4ram, RamOf(voter))
  {
    RunKeepsSum(g, run, voter);
  }
}
