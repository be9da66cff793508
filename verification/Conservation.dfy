/** Core tokens are neither made nor lost by the ledger's actions; a block mints exactly its fixed amount. */
module Conservation {
  import opened Base
  import opened Totals
  import opened StakeAge
  import opened VoteLedger
  import opened VoteAges
  import opened Issuance
  import opened VoteRuns

  function Amount(): (Name, int) -> int {
    (n: Name, amount: int) => amount
  }

  function VoteTokens(): (VoteKey, Vote) -> int {
    (k: VoteKey, v: Vote) => v.voteage.staked + v.unstaking
  }

  function FixTokens(): (FixKey, FixVote) -> int {
    (k: FixKey, f: FixVote) => f.principal
  }

  function PoolTokens(): (Name, Bp) -> int {
    (n: Name, b: Bp) => b.rewardsPool
  }

  /** Everything the ledger holds: balances, stakes and unstaking amounts, locked principals, reward pools and the
      producers' own rewards. */
  ghost function Tokens(s: Ledger): int {
    Total(s.available, Amount()) + Total(s.votes, VoteTokens()) + Total(s.votes4ram, VoteTokens())
    + Total(s.fixvotes, FixTokens()) + Total(s.bps, PoolTokens()) + Total(s.bpsreward, Amount())
  }

  /** What an action adds to the ledger. */
  ghost function Inflow(s: Ledger, a: Action): int {
    match a
    case Issue(able) => if s.gvotestat > 0 then MINTED_PER_BLOCK else 0
    case PayBp(bp, blockShare) => blockShare
    case _ => 0
  }

  lemma PoolsKept(bps: map<Name, Bp>, bp: Name, h: nat, amount: int)
    requires bp in bps
    ensures Total(AddStake(bps, bp, h, amount), PoolTokens()) == Total(bps, PoolTokens())
  {
    hide Total;
    TotalUpdate(bps, PoolTokens(), bp, bps[bp].AddTotalStaked(h, amount));
  }

  lemma TransferConserves(s: Ledger, from: Name, to: Name, quantity: int)
    requires from in s.available && to in s.available
    ensures Tokens(AfterTransfer(s, from, to, quantity)) == Tokens(s)
  {
    hide Total;
    var paid: map<Name, int> := s.available[from := s.available[from] - quantity];
    TotalUpdate(s.available, Amount(), from, s.available[from] - quantity);
    TotalUpdate(paid, Amount(), to, paid[to] + quantity);
  }

  lemma VoteConserves(s: Ledger, kind: Kind, voter: Name, bp: Name, stake: int, h: nat)
    requires voter in s.available && bp in s.bps && 0 <= stake
    ensures Tokens(AfterVote(s, kind, voter, bp, stake, h)) == Tokens(s)
  {
    hide Total;
    var key, change := VoteKey(voter, bp), VoteChange(s, kind, voter, bp, stake);
    TotalUpdate(s.Table(kind), VoteTokens(), key, RowAfterVote(s.Table(kind), key, stake, h));
    TotalUpdate(s.available, Amount(), voter, s.available[voter] - change);
    PoolsKept(s.bps, bp, h, change);
  }

  lemma RevoteConserves(s: Ledger, voter: Name, frombp: Name, tobp: Name, restake: int, h: nat)
    requires frombp in s.bps && tobp in s.bps && VoteKey(voter, frombp) in s.votes && frombp != tobp
    ensures Tokens(AfterRevote(s, voter, frombp, tobp, restake, h)) == Tokens(s)
  {
    hide Total;
    var kf, kt := VoteKey(voter, frombp), VoteKey(voter, tobp);
    var rf, rt := RowLeft(s.votes, kf, restake, h), RowJoined(s.votes, kt, restake, h);
    TotalUpdate(s.votes, VoteTokens(), kf, rf);
    TotalUpdate(s.votes[kf := rf], VoteTokens(), kt, rt);
    PoolsKept(s.bps, frombp, h, -restake);
    PoolsKept(AddStake(s.bps, frombp, h, -restake), tobp, h, restake);
  }

  lemma UnfreezeConserves(s: Ledger, kind: Kind, voter: Name, bp: Name)
    requires voter in s.available && VoteKey(voter, bp) in s.Table(kind)
    ensures Tokens(AfterUnfreeze(s, kind, voter, bp)) == Tokens(s)
  {
    hide Total;
    var key, table := VoteKey(voter, bp), s.Table(kind);
    TotalUpdate(table, VoteTokens(), key, table[key].(unstaking := 0));
    TotalUpdate(s.available, Amount(), voter, s.available[voter] + table[key].unstaking);
  }

  /** Erased rows were withdrawn, so they held no principal. */
  lemma ClaimKeepsPrincipals(s: Ledger, now: nat, voter: Name, bp: Name, h: nat)
    requires FixesOk(s.bps.Keys, s.fixvotes, now)
    ensures Total(FixAfterClaim(s.fixvotes, voter, bp, h), FixTokens()) == Total(s.fixvotes, FixTokens())
  {
    hide Total;
    var fix' := FixAfterClaim(s.fixvotes, voter, bp, h);
    forall k: FixKey ensures WeightAt(fix', FixTokens(), k) == WeightAt(s.fixvotes, FixTokens(), k) {
      assert k in s.fixvotes ==> FixOk(s.fixvotes[k], now);
    }
    TotalKept(s.fixvotes, fix', FixTokens());
  }

  lemma ClaimConserves(s: Ledger, now: nat, voter: Name, bp: Name, h: nat)
    requires voter in s.available && bp in s.bps && 0 < s.bps[bp].GetAge(h) && FixesOk(s.bps.Keys, s.fixvotes, now)
    ensures Tokens(AfterClaim(s, voter, bp, h)) == Tokens(s)
  {
    hide Total, ClaimedAge, Share, FixesOk;
    var s' := AfterClaim(s, voter, bp, h);
    TotalUpdate(s.available, Amount(), voter, s'.available[voter]);
    TotalUpdate(s.bps, PoolTokens(), bp, s'.bps[bp]);
    TotalKept(s.votes, s'.votes, VoteTokens());
    ClaimKeepsPrincipals(s, now, voter, bp, h);
  }

  lemma VoteFixConserves(s: Ledger, voter: Name, bp: Name, t: FixType, stake: int, source: Source, id: nat, h: nat)
    requires voter in s.available && bp in s.bps && FixKey(voter, id) !in s.fixvotes && source != Unsupported
    requires source == UnstakingToken ==> VoteKey(voter, bp) in s.votes
    ensures Tokens(AfterVoteFix(s, voter, bp, t, stake, source, id, h)) == Tokens(s)
  {
    hide Total;
    var key, row := VoteKey(voter, bp), FixRow(bp, t, stake, h);
    TotalUpdate(s.fixvotes, FixTokens(), FixKey(voter, id), row);
    PoolsKept(s.bps, bp, h, row.power.staked);
    if source == AccountToken {
      TotalUpdate(s.available, Amount(), voter, s.available[voter] - stake);
    } else {
      TotalUpdate(s.votes, VoteTokens(), key, s.votes[key].(unstaking := s.votes[key].unstaking - stake));
    }
  }

  lemma RevoteFixConserves(s: Ledger, key: FixKey, bp: Name, h: nat)
    requires key in s.fixvotes && s.fixvotes[key].bp in s.bps && bp in s.bps
    ensures Tokens(AfterRevoteFix(s, key, bp, h)) == Tokens(s)
  {
    hide Total;
    var f := s.fixvotes[key];
    TotalUpdate(s.fixvotes, FixTokens(), key, f.(bp := bp).CleanAge(h));
    PoolsKept(s.bps, f.bp, h, -f.power.staked);
    PoolsKept(AddStake(s.bps, f.bp, h, -f.power.staked), bp, h, f.power.staked);
  }

  lemma OutFixVoteConserves(s: Ledger, key: FixKey, h: nat)
    requires key in s.fixvotes && s.fixvotes[key].bp in s.bps
    ensures Tokens(AfterOutFixVote(s, key, h)) == Tokens(s)
  {
    hide Total;
    var f := s.fixvotes[key];
    var vk := VoteKey(key.voter, f.bp);
    TotalUpdate(s.fixvotes, FixTokens(), key, f.(principal := 0, isWithdraw := true));
    TotalUpdate(s.votes, VoteTokens(), vk, RowAfterOut(s.votes, vk, f.principal, h));
    PoolsKept(s.bps, f.bp, h, -f.power.staked);
  }

  lemma UpdateBpConserves(s: Ledger, bp: Name, commission: nat)
    ensures Tokens(AfterUpdateBp(s, bp, commission)) == Tokens(s)
  {
    hide Total;
    TotalUpdate(s.bps, PoolTokens(), bp, AfterUpdateBp(s, bp, commission).bps[bp]);
  }

  lemma PayBpConserves(s: Ledger, bp: Name, blockShare: int)
    requires bp in s.available
    ensures Tokens(AfterPayBp(s, bp, blockShare)) == Tokens(s) + blockShare
  {
    hide Total;
    TotalUpdate(s.available, Amount(), bp, AfterPayBp(s, bp, blockShare).available[bp]);
    TotalUpdate(s.bpsreward, Amount(), bp, 0);
  }

  // ---- issuance ----

  function AccountPart(s: Ledger, able: set<Name>): (Name, Bp) -> int
    requires s.gvotestat > 0
  {
    (n: Name, b: Bp) => if Earns(s, able, n) && s.gvotestat > 0 then AccountShare(b, s.gvotestat) else 0
  }

  function PoolPart(s: Ledger, able: set<Name>): (Name, Bp) -> int
    requires s.gvotestat > 0
  {
    (n: Name, b: Bp) => if Earns(s, able, n) && s.gvotestat > 0 then PoolShare(b, s.gvotestat) else 0
  }

  /** The producers' accounts and pools grow by what was distributed. */
  lemma IssueDistributes(s: Ledger, able: set<Name>)
    requires s.gvotestat > 0
    ensures Total(BpsAfterIssue(s, able), PoolTokens()) + Total(BpsrewardAfterIssue(s, able), Amount()) ==
            Total(s.bps, PoolTokens()) + Total(s.bpsreward, Amount()) + Total(s.bps, EarnedBy(s, able))
  {
    hide Total, AccountShare, PoolShare;
    TotalSplit(BpsAfterIssue(s, able), PoolTokens(), s.bps, PoolTokens(), s.bps, PoolPart(s, able));
    TotalSplit(BpsrewardAfterIssue(s, able), Amount(), s.bpsreward, Amount(), s.bps, AccountPart(s, able));
    TotalSplit(s.bps, EarnedBy(s, able), s.bps, AccountPart(s, able), s.bps, PoolPart(s, able));
  }

  /** Fixed issuance: with any stake at all a block mints exactly 45000 units, whatever the stakes, commissions and
      ineligible producers are; without stake it mints nothing. */
  lemma FixedIssuance(s: Ledger, o: Overdue, now: nat, able: set<Name>)
    requires Inv(s, o, now) && CanIssue(s, able)
    ensures Tokens(AfterIssue(s, able)) == Tokens(s) + if s.gvotestat > 0 then MINTED_PER_BLOCK else 0
    ensures s.gvotestat > 0 ==>
            BUDGET_ACCOUNT in s.available &&
            AfterIssue(s, able).available[BUDGET_ACCOUNT] >= s.available[BUDGET_ACCOUNT] + BLOCK_BUDGET_REWARD
  {
    hide Total;
    if s.gvotestat > 0 {
      DistributedIsBounded(s, o, now, able);
      IssueDistributes(s, able);
      TotalUpdate(s.available, Amount(), BUDGET_ACCOUNT, s.available[BUDGET_ACCOUNT] + BudgetReward(s, able));
    }
  }

  // ---- runs ----

  lemma EffectConserves(s: Ledger, o: Overdue, c: Context, a: Action)
    requires Inv(s, o, c.height) && Can(s, c, a)
    ensures Tokens(Effect(s, c, a)) == Tokens(s) + Inflow(s, a)
  {
    hide Total, Balanced, Tokens, TableOk, FixesOk, NoneNegative, BpsOk;
    match a
    case Transfer(from, to, quantity) => TransferConserves(s, from, to, quantity);
    case VoteFor(kind, voter, bp, stake) => VoteConserves(s, kind, voter, bp, stake, c.height);
    case Revote(voter, frombp, tobp, restake) => RevoteConserves(s, voter, frombp, tobp, restake, c.height);
    case Unfreeze(kind, voter, bp) => UnfreezeConserves(s, kind, voter, bp);
    case Claim(voter, bp) => ClaimConserves(s, c.height, voter, bp, c.height);
    case VoteFix(voter, bp, typ, stake, source, id) =>
      VoteFixConserves(s, voter, bp, FindType(FIX_TYPES, typ).value, stake, source, id, c.height);
    case RevoteFix(voter, id, bp) => RevoteFixConserves(s, FixKey(voter, id), bp, c.height);
    case OutFixVote(voter, id) => OutFixVoteConserves(s, FixKey(voter, id), c.height);
    case UpdateBp(bp, commission) => UpdateBpConserves(s, bp, commission);
    case RemoveBp(bp) => BlacklistConserves(s, bp);
    case PayBp(bp, blockShare) => PayBpConserves(s, bp, blockShare);
    case Issue(able) => FixedIssuance(s, o, c.height, able);
  }

  lemma BlacklistConserves(s: Ledger, bp: Name)
    ensures Tokens(s.(blacklist := s.blacklist + {bp})) == Tokens(s)
  {
  }

  /** Minted and paid in over a run; an aborted action adds nothing. */
  ghost function InflowOf(s: Ledger, run: seq<Step>): int
    decreases |run|
  {
    if run == [] then 0
    else
      (if Can(s, run[0].c, run[0].a) then Inflow(s, run[0].a) else 0)
      + InflowOf(Next(s, run[0].c, run[0].a), run[1..])
  }

  lemma {:induction false} RunConserves(s: Ledger, o: Overdue, now: nat, run: seq<Step>)
    requires Inv(s, o, now) && Ordered(now, run)
    ensures Tokens(Exec(s, run)) == Tokens(s) + InflowOf(s, run)
    decreases |run|
  {
    hide Inv, Tokens, Effect, Inflow, OverdueAfter;
    if run != [] {
      var c, a := run[0].c, run[0].a;
      StepKeeps(s, o, now, c, a);
      InvLater(s, o, now, c.height);
      if Can(s, c, a) {
        EffectConserves(s, o, c, a);
      }
      RunConserves(Next(s, c, a), OverdueAfter(o, s, c, a), c.height, run[1..]);
    }
  }

  lemma InvLater(s: Ledger, o: Overdue, now: nat, h: nat)
    requires Inv(s, o, now) && now <= h
    ensures Inv(s, o, h)
  {
    hide Balanced, RowsOk, Total;
    RowsStayOk(s, now, h);
  }

  /** Over every run: the tokens held at the end are those of the beginning plus what was minted and paid in, and no
      balance, stake, unstaking amount, principal or pool is negative. */
  lemma CoreTokenConservation(g: Ledger, run: seq<Step>)
    requires Genesis(g) && Ordered(0, run)
    ensures Tokens(Exec(g, run)) == Total(g.available, Amount()) + InflowOf(g, run)
    ensures var s := Exec(g, run);
      NoneNegative(s.available) && NoneNegative(s.bpsreward) &&
      (forall k | k in s.votes :: 0 <= s.votes[k].voteage.staked && 0 <= s.votes[k].unstaking) &&
      (forall k | k in s.votes4ram :: 0 <= s.votes4ram[k].voteage.staked && 0 <= s.votes4ram[k].unstaking) &&
      (forall k | k in s.fixvotes :: 0 <= s.fixvotes[k].principal) &&
      (forall b | b in s.bps :: 0 <= s.bps[b].rewardsPool)
  {
    GenesisInv(g);
    RunKeeps(g, map[], 0, run);
    RunConserves(g, map[], 0, run);
  }

  /** In every reachable state a block with any stake mints exactly 45000 units and hands out at most 30000 of them to
      producers and voters; the budget account gets the rest. */
  lemma IssuanceInRuns(g: Ledger, run: seq<Step>, able: set<Name>)
    requires Genesis(g) && Ordered(0, run) && CanIssue(Exec(g, run), able)
    ensures var s := Exec(g, run); var s' := AfterIssue(s, able);
      Tokens(s') == Tokens(s) + (if s.gvotestat > 0 then MINTED_PER_BLOCK else 0) &&
      (s.gvotestat > 0 ==>
         0 <= Total(s.bps, EarnedBy(s, able)) <= DISTRIBUTED_PER_BLOCK &&
         BUDGET_ACCOUNT in s.available &&
         s'.available[BUDGET_ACCOUNT] == s.available[BUDGET_ACCOUNT] + MINTED_PER_BLOCK
                                            - Total(s.bps, EarnedBy(s, able)))
  {
    GenesisInv(g);
    RunKeeps(g, map[], 0, run);
    var s, o, now := Exec(g, run), OverdueOf(g, map[], run), HeightAfter(0, run);
    hide Total, Inv, Exec, Tokens, BpsAfterIssue, BpsrewardAfterIssue, EarnedBy;
    FixedIssuance(s, o, now, able);
    if s.gvotestat > 0 {
      DistributedIsBounded(s, o, now, able);
    }
  }

  /** In every reachable state, for every producer: its part of the block, split by its commission. */
  lemma RewardsInRuns(g: Ledger, run: seq<Step>, able: set<Name>, n: Name)
    requires Genesis(g) && Ordered(0, run) && CanIssue(Exec(g, run), able)
    requires 0 < Exec(g, run).gvotestat && n in Exec(g, run).bps
    ensures var s := Exec(g, run); var s', b := AfterIssue(s, able), s.bps[n];
      s'.bps.Keys == s.bps.Keys &&
      var voters, own := (25000 * b.totalStaked) / s.gvotestat, (5000 * b.totalStaked) / s.gvotestat;
      var pool, account := s'.bps[n].rewardsPool - b.rewardsPool, OwnReward(s', n) - OwnReward(s, n);
      if SharesIn(s, able, n) then
        10000 * pool <= voters * (10000 - b.commission) < 10000 * (pool + 1) &&
        account == own + (voters * b.commission) / 10000
      else pool == 0 && account == 0
  {
    GenesisInv(g);
    RunKeeps(g, map[], 0, run);
    hide Total, Exec, AfterIssue, CanIssue, RowsOk;
    assert Balanced(Exec(g, run), OverdueOf(g, map[], run), n);
    StakeNonNegative(Exec(g, run), OverdueOf(g, map[], run), HeightAfter(0, run), n);
    hide Inv, Balanced, SharesIn, OwnReward;
    IssuePays(Exec(g, run), able, n);
  }
}
