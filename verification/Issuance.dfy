/** What a block mints for the producers, their voters and the budget account (reward_bps). */
module Issuance {
  import opened Base
  import opened Totals
  import opened StakeAge
  import opened VoteLedger
  import opened VoteAges

  const MINTED_PER_BLOCK: int := BLOCK_REWARD_VOTER + BLOCK_REWARD_BPS_VOTER + BLOCK_BUDGET_REWARD
  const DISTRIBUTED_PER_BLOCK: int := BLOCK_REWARD_VOTER + BLOCK_REWARD_BPS_VOTER

  lemma FloorShare(reward: int, stake: int, all: int)
    requires 0 <= reward && 0 <= stake && 0 < all
    ensures 0 <= TruncDiv(reward * stake, all)
    ensures TruncDiv(reward * stake, all) * all <= reward * stake
  {
    NonNegativeProduct(reward, stake);
    FloorBound(reward * stake, all);
  }

  /** Whatever the commission, a producer and its voters together get no more than its part of both rewards. */
  lemma SharesAreBounded(b: Bp, all: int)
    requires 0 <= b.totalStaked && 0 < all && 1 <= b.commission <= 10000
    ensures 0 <= AccountShare(b, all) && 0 <= PoolShare(b, all)
    ensures (AccountShare(b, all) + PoolShare(b, all)) * all <= DISTRIBUTED_PER_BLOCK * b.totalStaked
  {
    var voter, own := VoterReward(b, all), TruncDiv(BLOCK_REWARD_BPS_VOTER * b.totalStaked, all);
    FloorShare(BLOCK_REWARD_VOTER, b.totalStaked, all);
    FloorShare(BLOCK_REWARD_BPS_VOTER, b.totalStaked, all);
    CommissionSplit(voter, b.commission);
    var split := TruncDiv(voter * b.commission, 10000) + TruncDiv(voter * (10000 - b.commission), 10000);
    assert AccountShare(b, all) + PoolShare(b, all) == own + split;
    ScaledSum(own, split, voter, all);
  }

  lemma CommissionSplit(voter: int, commission: int)
    requires 0 <= voter && 0 <= commission <= 10000
    ensures 0 <= TruncDiv(voter * commission, 10000) && 0 <= TruncDiv(voter * (10000 - commission), 10000)
    ensures TruncDiv(voter * commission, 10000) + TruncDiv(voter * (10000 - commission), 10000) <= voter
  {
    assert voter * commission + voter * (10000 - commission) == voter * 10000;
    assert 0 <= voter * commission && 0 <= voter * (10000 - commission);
  }

  lemma ScaledSum(own: int, split: int, voter: int, all: int)
    requires split <= voter && 0 < all
    ensures (own + split) * all <= own * all + voter * all
  {
    assert (own + split) * all == own * all + split * all;
    assert split * all <= voter * all;
  }

  lemma StakeNonNegative(s: Ledger, o: Overdue, now: nat, b: Name)
    requires RowsOk(s, now) && Balanced(s, o, b)
    ensures 0 <= StakeIn(s.bps, b)
  {
    TotalNonNegative(s.votes, StakeOn(b));
    TotalNonNegative(s.votes4ram, StakeOn(b));
    TotalNonNegative(s.fixvotes, FixStakeOn(b));
  }

  function EarnedScaled(s: Ledger, able: set<Name>): (Name, Bp) -> int {
    (n: Name, b: Bp) => EarnedBy(s, able)(n, b) * s.gvotestat
  }

  function StakeScaled(): (Name, Bp) -> int {
    (n: Name, b: Bp) => DISTRIBUTED_PER_BLOCK * b.totalStaked
  }

  function Nothing(): (Name, Bp) -> int {
    (n: Name, b: Bp) => 0
  }

  /** The producers and their voters never get more than 30000 units of a block, so the unsigned subtraction
      that computes the budget's part cannot wrap. */
  lemma DistributedIsBounded(s: Ledger, o: Overdue, now: nat, able: set<Name>)
    requires Inv(s, o, now) && s.gvotestat > 0
    ensures 0 <= Total(s.bps, EarnedBy(s, able)) <= DISTRIBUTED_PER_BLOCK
    ensures BudgetReward(s, able) == MINTED_PER_BLOCK - Total(s.bps, EarnedBy(s, able)) >= BLOCK_BUDGET_REWARD
  {
    hide Total;
    forall n | n in s.bps
      ensures 0 <= EarnedBy(s, able)(n, s.bps[n])
      ensures EarnedScaled(s, able)(n, s.bps[n]) <= StakeScaled()(n, s.bps[n])
    {
      assert Balanced(s, o, n);
      StakeNonNegative(s, o, now, n);
      if Earns(s, able, n) {
        SharesAreBounded(s.bps[n], s.gvotestat);
      }
    }
    TotalNonNegative(s.bps, EarnedBy(s, able));
    TotalMono(s.bps, EarnedScaled(s, able), StakeScaled());
    TotalZero(s.bps, Nothing());
    TotalLine(s.bps, EarnedScaled(s, able), EarnedBy(s, able), s.gvotestat, Nothing());
    TotalLine(s.bps, StakeScaled(), BpStake(), DISTRIBUTED_PER_BLOCK, Nothing());
    CancelLe(Total(s.bps, EarnedBy(s, able)), DISTRIBUTED_PER_BLOCK, s.gvotestat);
  }

  lemma IssueKeepsRows(s: Ledger, o: Overdue, now: nat, able: set<Name>)
    requires Inv(s, o, now) && CanIssue(s, able) && s.gvotestat > 0
    ensures RowsOk(AfterIssue(s, able), now)
  {
    hide Total, VoteOk, FixOk;
    var s' := AfterIssue(s, able);
    assert s'.bps.Keys == s.bps.Keys;
    forall n | n in s.bps
      ensures BpOk(s'.bps[n], now)
      ensures Earns(s, able, n) ==> 0 <= AccountShare(s.bps[n], s.gvotestat)
    {
      assert Balanced(s, o, n);
      StakeNonNegative(s, o, now, n);
      if Earns(s, able, n) {
        SharesAreBounded(s.bps[n], s.gvotestat);
      }
    }
    hide AccountShare, PoolShare;
  }

  lemma IssueKeeps(s: Ledger, o: Overdue, now: nat, able: set<Name>)
    requires Inv(s, o, now) && CanIssue(s, able)
    ensures Inv(AfterIssue(s, able), o, now)
  {
    hide Total, RowsOk, PoolShare, AccountShare;
    if s.gvotestat > 0 {
      IssueKeepsRows(s, o, now, able);
      var s' := AfterIssue(s, able);
      TotalKept(s.bps, s'.bps, BpStake());
      forall b: Name ensures Balanced(s', o, b) {
        assert Balanced(s, o, b);
      }
    }
  }

  // ---- who gets what ----

  function OwnReward(s: Ledger, n: Name): int {
    if n in s.bpsreward then s.bpsreward[n] else 0
  }

  /** Not banned, with more than a 25000th of all stake, a commission rate in range, and able. */
  predicate SharesIn(s: Ledger, able: set<Name>, n: Name)
    requires n in s.bps
  {
    n !in s.blacklist && s.bps[n].totalStaked > s.gvotestat / 25000 && 1 <= s.bps[n].commission <= 10000 && n in able
  }

  /** A block splits what a producer's voters get for its stake: commission in ten thousand goes to the producer, on
      top of its own reward, and the rest to the voters' pool, each rounded down. Who does not share in it gets
      nothing. */
  lemma IssuePays(s: Ledger, able: set<Name>, n: Name)
    requires CanIssue(s, able) && 0 < s.gvotestat && n in s.bps && 0 <= s.bps[n].totalStaked
    ensures var s', b := AfterIssue(s, able), s.bps[n];
      s'.bps.Keys == s.bps.Keys && s'.bps[n] == b.(rewardsPool := s'.bps[n].rewardsPool) &&
      var voters, own := (25000 * b.totalStaked) / s.gvotestat, (5000 * b.totalStaked) / s.gvotestat;
      var pool, account := s'.bps[n].rewardsPool - b.rewardsPool, OwnReward(s', n) - OwnReward(s, n);
      if SharesIn(s, able, n) then
        10000 * pool <= voters * (10000 - b.commission) < 10000 * (pool + 1) &&
        account == own + (voters * b.commission) / 10000
      else pool == 0 && account == 0
  {
    hide AfterIssue, AccountShare, PoolShare, SharesIn, OwnReward, CanIssue;
    IssueRow(s, able, n);
    SharesInRange(s, able, n);
    if SharesIn(s, able, n) {
      SharesAre(s.bps[n], s.gvotestat);
    }
  }

  lemma SharesInRange(s: Ledger, able: set<Name>, n: Name)
    requires n in s.bps
    ensures SharesIn(s, able, n) ==> 1 <= s.bps[n].commission <= 10000
  {
  }

  lemma IssueRow(s: Ledger, able: set<Name>, n: Name)
    requires CanIssue(s, able) && 0 < s.gvotestat && n in s.bps
    ensures var s', b := AfterIssue(s, able), s.bps[n];
      s'.bps.Keys == s.bps.Keys && s'.bps[n] == b.(rewardsPool := s'.bps[n].rewardsPool) &&
      s'.bps[n].rewardsPool - b.rewardsPool == (if SharesIn(s, able, n) then PoolShare(b, s.gvotestat) else 0) &&
      OwnReward(s', n) - OwnReward(s, n) == if SharesIn(s, able, n) then AccountShare(b, s.gvotestat) else 0
  {
    hide Total, BudgetReward, AccountShare, PoolShare;
  }

  lemma SharesAre(b: Bp, all: int)
    requires 0 <= b.totalStaked && 0 < all && 1 <= b.commission <= 10000
    ensures var voters, own := (25000 * b.totalStaked) / all, (5000 * b.totalStaked) / all;
      10000 * PoolShare(b, all) <= voters * (10000 - b.commission) < 10000 * (PoolShare(b, all) + 1) &&
      AccountShare(b, all) == own + (voters * b.commission) / 10000
  {
    NonNegativeProduct(25000, b.totalStaked);
    NonNegativeProduct(5000, b.totalStaked);
    FloorBound(25000 * b.totalStaked, all);
    CommissionIsSplit((25000 * b.totalStaked) / all, b.commission);
  }

  lemma CommissionIsSplit(voters: int, commission: int)
    requires 0 <= voters && 1 <= commission <= 10000
    ensures var pool := TruncDiv(voters * (10000 - commission), 10000);
      10000 * pool <= voters * (10000 - commission) < 10000 * (pool + 1)
    ensures TruncDiv(voters * commission, 10000) == (voters * commission) / 10000
  {
    NonNegativeProduct(voters, commission);
    NonNegativeProduct(voters, 10000 - commission);
    FloorBound(voters * (10000 - commission), 10000);
  }

  /** A block changes nothing but the pools, the producers' rewards and the budget account. */
  lemma IssueLeaves(s: Ledger, able: set<Name>)
    requires CanIssue(s, able)
    ensures var s' := AfterIssue(s, able);
      s' == s.(available := s'.available, bps := s'.bps, bpsreward := s'.bpsreward) &&
      s'.available.Keys == s.available.Keys &&
      (forall n | n in s.available && n != BUDGET_ACCOUNT :: s'.available[n] == s.available[n]) &&
      forall n | n !in s.bps :: OwnReward(s', n) == OwnReward(s, n)
  {
    hide Total, AccountShare, PoolShare, BudgetReward;
  }
}
