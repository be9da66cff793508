/** Runs of the voting ledger: any sequence of actions at heights that never go back, aborted ones included. */
module VoteRuns {
  import opened Base
  import opened Totals
  import opened StakeAge
  import opened VoteLedger
  import opened VoteAges
  import opened Issuance

  datatype Step = Step(c: Context, a: Action)

  ghost function Exec(s: Ledger, run: seq<Step>): Ledger
    decreases |run|
  {
    if run == [] then s else Exec(Next(s, run[0].c, run[0].a), run[1..])
  }

  ghost function OverdueOf(s: Ledger, o: Overdue, run: seq<Step>): Overdue
    decreases |run|
  {
    if run == [] then o
    else OverdueOf(Next(s, run[0].c, run[0].a), OverdueAfter(o, s, run[0].c, run[0].a), run[1..])
  }

  predicate Ordered(now: nat, run: seq<Step>)
    decreases |run|
  {
    run == [] || (now <= run[0].c.height && Ordered(run[0].c.height, run[1..]))
  }

  function HeightAfter(now: nat, run: seq<Step>): nat
    decreases |run|
  {
    if run == [] then now else HeightAfter(run[0].c.height, run[1..])
  }

  /** Balances only: nobody has voted and no producer is registered. */
  predicate Genesis(s: Ledger) {
    NoneNegative(s.available) && s.votes == map[] && s.votes4ram == map[] && s.vote4ramsum == map[] &&
    s.fixvotes == map[] && s.bps == map[] && s.gvotestat == 0 && s.bpsreward == map[]
  }

  lemma GenesisInv(s: Ledger)
    requires Genesis(s)
    ensures Inv(s, map[], 0)
  {
    forall b: Name ensures Balanced(s, map[], b) {
    }
  }

  lemma EffectKeeps(s: Ledger, o: Overdue, c: Context, a: Action)
    requires Inv(s, o, c.height) && Can(s, c, a)
    ensures Inv(Effect(s, c, a), OverdueAfter(o, s, c, a), c.height)
  {
    hide Total, RowsOk, Balanced;
    match a
    case Transfer(from, to, quantity) => TransferKeeps(s, o, c, from, to, quantity);
    case VoteFor(kind, voter, bp, stake) => VoteKeeps(s, o, c, kind, voter, bp, stake);
    case Revote(voter, frombp, tobp, restake) => RevoteKeeps(s, o, c, voter, frombp, tobp, restake);
    case Unfreeze(kind, voter, bp) => UnfreezeKeeps(s, o, c, kind, voter, bp);
    case Claim(voter, bp) => ClaimKeeps(s, o, c, voter, bp);
    case VoteFix(voter, bp, typ, stake, source, id) => VoteFixKeeps(s, o, c, voter, bp, typ, stake, source, id);
    case RevoteFix(voter, id, bp) => RevoteFixKeeps(s, o, c, voter, id, bp);
    case OutFixVote(voter, id) => OutFixVoteKeeps(s, o, c, voter, id);
    case UpdateBp(bp, commission) => UpdateBpKeeps(s, o, c.height, bp, commission);
    case RemoveBp(bp) => RemoveBpKeeps(s, o, c.height, bp);
    case PayBp(bp, blockShare) => PayBpKeeps(s, o, c, bp, blockShare);
    case Issue(able) => IssueKeeps(s, o, c.height, able);
  }

  lemma TransferKeeps(s: Ledger, o: Overdue, c: Context, from: Name, to: Name, quantity: int)
    requires Inv(s, o, c.height) && CanTransfer(s, c, from, to, quantity)
    ensures Inv(AfterTransfer(s, from, to, quantity), o, c.height)
  {
    hide Total, VoteOk, FixOk;
    forall b: Name ensures Balanced(AfterTransfer(s, from, to, quantity), o, b) {
      assert Balanced(s, o, b);
    }
  }

  lemma RemoveBpKeeps(s: Ledger, o: Overdue, now: nat, bp: Name)
    requires Inv(s, o, now)
    ensures Inv(s.(blacklist := s.blacklist + {bp}), o, now)
  {
    hide Total, VoteOk, FixOk;
    forall b: Name ensures Balanced(s.(blacklist := s.blacklist + {bp}), o, b) {
      assert Balanced(s, o, b);
    }
  }

  lemma PayBpKeeps(s: Ledger, o: Overdue, c: Context, bp: Name, blockShare: int)
    requires Inv(s, o, c.height) && CanPayBp(s, c, bp, blockShare)
    ensures Inv(AfterPayBp(s, bp, blockShare), o, c.height)
  {
    hide Total, VoteOk, FixOk;
    forall b: Name ensures Balanced(AfterPayBp(s, bp, blockShare), o, b) {
      assert Balanced(s, o, b);
    }
  }

  lemma StepKeeps(s: Ledger, o: Overdue, now: nat, c: Context, a: Action)
    requires Inv(s, o, now) && now <= c.height
    ensures Inv(Next(s, c, a), OverdueAfter(o, s, c, a), c.height)
  {
    hide Total, RowsOk, Balanced, Effect;
    RowsStayOk(s, now, c.height);
    if Can(s, c, a) {
      EffectKeeps(s, o, c, a);
    }
  }

  lemma {:induction false} RunKeeps(s: Ledger, o: Overdue, now: nat, run: seq<Step>)
    requires Inv(s, o, now) && Ordered(now, run)
    ensures Inv(Exec(s, run), OverdueOf(s, o, run), HeightAfter(now, run))
    decreases |run|
  {
    hide Inv, Next, OverdueAfter;
    if run != [] {
      StepKeeps(s, o, now, run[0].c, run[0].a);
      RunKeeps(Next(s, run[0].c, run[0].a), OverdueAfter(o, s, run[0].c, run[0].a), run[0].c.height, run[1..]);
    }
  }

  // ---- the row of the global stake ----

  ghost function Excess(s: Ledger): int {
    s.gvotestat - Total(s.bps, BpStake())
  }

  lemma WholeOfOpposite(amount: int)
    ensures Whole(-amount) == -Whole(amount)
  {
  }

  lemma RevoteKeepsExcess(bps: map<Name, Bp>, from: Name, to: Name, h: nat, amount: int)
    requires from in bps && to in bps
    ensures Total(AddStake(AddStake(bps, from, h, -amount), to, h, amount), BpStake()) == Total(bps, BpStake())
  {
    hide Total, Whole;
    AddStakeMovesTotal(bps, from, h, -amount);
    AddStakeMovesTotal(AddStake(bps, from, h, -amount), to, h, amount);
    WholeOfOpposite(amount);
  }

  lemma IssueKeepsStakes(s: Ledger, able: set<Name>)
    requires s.gvotestat > 0
    ensures Total(BpsAfterIssue(s, able), BpStake()) == Total(s.bps, BpStake())
  {
    hide Total, PoolShare;
    TotalKept(s.bps, BpsAfterIssue(s, able), BpStake());
  }

  /** With the row there, every action moves it by what the sum over the producers moves; a wrong row stays as wrong. */
  lemma EffectKeepsExcess(s: Ledger, c: Context, a: Action)
    requires Can(s, c, a)
    ensures Excess(Effect(s, c, a)) == Excess(s)
  {
    hide Total, Whole, ClaimedAge, Share, BudgetReward, AddStake, BpsAfterIssue;
    match a
    case VoteFor(kind, voter, bp, stake) =>
      AddStakeMovesTotal(s.bps, bp, c.height, VoteChange(s, kind, voter, bp, stake));
      WholeOfOpposite(0);
    case Revote(voter, frombp, tobp, restake) => RevoteKeepsExcess(s.bps, frombp, tobp, c.height, restake);
    case Claim(voter, bp) => TotalUpdate(s.bps, BpStake(), bp, Effect(s, c, a).bps[bp]);
    case VoteFix(voter, bp, typ, stake, source, id) =>
      AddStakeMovesTotal(s.bps, bp, c.height, FixRow(bp, FindType(FIX_TYPES, typ).value, stake, c.height).power.staked);
    case RevoteFix(voter, id, bp) =>
      var f := s.fixvotes[FixKey(voter, id)];
      RevoteKeepsExcess(s.bps, f.bp, bp, c.height, f.power.staked);
    case OutFixVote(voter, id) =>
      var f := s.fixvotes[FixKey(voter, id)];
      AddStakeMovesTotal(s.bps, f.bp, c.height, -f.power.staked);
    case UpdateBp(bp, commission) => TotalUpdate(s.bps, BpStake(), bp, AfterUpdateBp(s, bp, commission).bps[bp]);
    case Issue(able) =>
      if s.gvotestat > 0 {
        IssueKeepsStakes(s, able);
      }
    case _ =>
  }

  lemma {:induction false} RunKeepsExcess(s: Ledger, run: seq<Step>)
    ensures Excess(Exec(s, run)) == Excess(s)
    decreases |run|
  {
    hide Excess, Can, Effect;
    if run != [] {
      if Can(s, run[0].c, run[0].a) {
        EffectKeepsExcess(s, run[0].c, run[0].a);
      }
      RunKeepsExcess(Next(s, run[0].c, run[0].a), run[1..]);
    }
  }

  // ---- the sums at a height ----

  function AgeOn(b: Name, h: nat): (VoteKey, Vote) -> int {
    (k: VoteKey, v: Vote) => if k.bp == b then v.voteage.GetAge(h) else 0
  }

  function FixAgeOn(b: Name, h: nat): (FixKey, FixVote) -> int {
    (k: FixKey, f: FixVote) => if f.bp == b then f.GetAge(h) else 0
  }

  function PendingOn(b: Name, h: nat): (FixKey, FixVote) -> int {
    (k: FixKey, f: FixVote) =>
      if f.bp == b && !f.isWithdraw && h > f.withdrawAt then f.power.Slope() * (h - f.withdrawAt) else 0
  }

  function FixLineOn(b: Name, h: nat): (FixKey, FixVote) -> int {
    (k: FixKey, f: FixVote) => FixAgeOn(b, h)(k, f) + PendingOn(b, h)(k, f)
  }

  /** Age the producer gained from fix-time votes after they stopped ageing: those taken out late, and those whose
      time is up but which are still in place. */
  ghost function OverdueAge(s: Ledger, o: Overdue, b: Name, h: nat): int {
    OverdueAt(o, b) + Total(s.fixvotes, PendingOn(b, h))
  }

  lemma VoteAgesAt(bps: set<Name>, table: map<VoteKey, Vote>, now: nat, h: nat, b: Name)
    requires TableOk(bps, table, now) && now <= h
    ensures Total(table, AgeOn(b, h)) == Total(table, StakeOn(b)) * h + Total(table, BaseOn(b))
    ensures 0 <= Total(table, AgeOn(b, h))
    ensures forall k | k in table && k.bp == b :: 0 <= table[k].voteage.GetAge(h) <= Total(table, AgeOn(b, h))
  {
    hide Total;
    forall k | k in table
      ensures 0 <= table[k].voteage.GetAge(h)
      ensures AgeOn(b, h)(k, table[k]) == StakeOn(b)(k, table[k]) * h + BaseOn(b)(k, table[k])
    {
      AgeGrows(table[k].voteage, now, h);
      AgeIsLine(table[k].voteage, h);
    }
    TotalLine(table, AgeOn(b, h), StakeOn(b), h, BaseOn(b));
    TotalNonNegative(table, AgeOn(b, h));
    forall k | k in table && k.bp == b ensures table[k].voteage.GetAge(h) <= Total(table, AgeOn(b, h)) {
      assert AgeOn(b, h)(k, table[k]) == table[k].voteage.GetAge(h);
    }
  }

  /** One fix-time vote at height h: what it may claim, and what it has run over. */
  lemma FixAgeAt(f: FixVote, now: nat, h: nat)
    requires FixOk(f, now) && now <= h
    ensures 0 <= f.GetAge(h)
    ensures h > f.withdrawAt ==> 0 <= f.power.Slope() * (h - f.withdrawAt)
    ensures f.isWithdraw ==> f.GetAge(h) == f.power.GetAge(f.withdrawAt)
    ensures f.GetAge(h) + (if h > f.withdrawAt then f.power.Slope() * (h - f.withdrawAt) else 0) ==
            f.power.Slope() * h + f.power.Base()
  {
    var e := Min(h, f.withdrawAt);
    assert f.power.updateHeight <= e;
    AgeGrows(f.power, f.power.updateHeight, e);
    AgeIsLine(f.power, e);
    Distribute(e, h - e, f.power.Slope());
  }

  lemma FixRowAt(k: FixKey, f: FixVote, now: nat, h: nat, b: Name)
    requires FixOk(f, now) && now <= h
    ensures FixAgeOn(b, h)(k, f) + PendingOn(b, h)(k, f) == FixStakeOn(b)(k, f) * h + FixBaseOn(b)(k, f)
    ensures 0 <= FixAgeOn(b, h)(k, f) && 0 <= PendingOn(b, h)(k, f)
  {
    FixAgeAt(f, now, h);
  }

  lemma FixAgesAt(bps: set<Name>, fix: map<FixKey, FixVote>, now: nat, h: nat, b: Name)
    requires FixesOk(bps, fix, now) && now <= h
    ensures Total(fix, FixAgeOn(b, h)) + Total(fix, PendingOn(b, h)) ==
      Total(fix, FixStakeOn(b)) * h + Total(fix, FixBaseOn(b))
    ensures 0 <= Total(fix, FixAgeOn(b, h)) && 0 <= Total(fix, PendingOn(b, h))
  {
    hide Total, FixOk, FixAgeOn, PendingOn, FixStakeOn, FixBaseOn;
    forall k | k in fix
      ensures FixLineOn(b, h)(k, fix[k]) == FixStakeOn(b)(k, fix[k]) * h + FixBaseOn(b)(k, fix[k])
      ensures 0 <= FixAgeOn(b, h)(k, fix[k]) && 0 <= PendingOn(b, h)(k, fix[k])
    {
      FixRowAt(k, fix[k], now, h, b);
    }
    TotalLine(fix, FixLineOn(b, h), FixStakeOn(b), h, FixBaseOn(b));
    TotalNonNegative(fix, FixAgeOn(b, h));
    TotalNonNegative(fix, PendingOn(b, h));
    TotalSplit(fix, FixLineOn(b, h), fix, FixAgeOn(b, h), fix, PendingOn(b, h));
  }

  /** A producer's age at any height not before the last action is exactly the ages of the votes on it, plus a
      non-negative overdue part. */
  lemma AgeAtHeight(s: Ledger, o: Overdue, now: nat, h: nat, b: Name)
    requires Inv(s, o, now) && now <= h && b in s.bps
    ensures s.bps[b].GetAge(h) ==
            Total(s.votes, AgeOn(b, h)) + Total(s.votes4ram, AgeOn(b, h)) + Total(s.fixvotes, FixAgeOn(b, h))
            + OverdueAge(s, o, b, h)
    ensures 0 <= OverdueAge(s, o, b, h)
    ensures 0 <= Total(s.votes, AgeOn(b, h)) && 0 <= Total(s.votes4ram, AgeOn(b, h)) &&
      0 <= Total(s.fixvotes, FixAgeOn(b, h))
  {
    hide Total, TableOk, FixesOk, NoneNegative, BpsOk;
    assert Balanced(s, o, b);
    VoteAgesAt(s.bps.Keys, s.votes, now, h, b);
    VoteAgesAt(s.bps.Keys, s.votes4ram, now, h, b);
    FixAgesAt(s.bps.Keys, s.fixvotes, now, h, b);
    BpAgeIsLine(s.bps[b], h);
    Distribute(Total(s.votes, StakeOn(b)), Total(s.votes4ram, StakeOn(b)), h);
    Distribute(Total(s.votes, StakeOn(b)) + Total(s.votes4ram, StakeOn(b)), Total(s.fixvotes, FixStakeOn(b)), h);
  }

  /** In every reachable state and at every later height: exact vote-age accounting. */
  lemma VoteAgeAccounting(g: Ledger, run: seq<Step>, h: nat, b: Name)
    requires Genesis(g) && Ordered(0, run) && HeightAfter(0, run) <= h
    requires b in Exec(g, run).bps
    ensures var s, o := Exec(g, run), OverdueOf(g, map[], run);
      s.bps[b].GetAge(h) ==
        Total(s.votes, AgeOn(b, h)) + Total(s.votes4ram, AgeOn(b, h)) + Total(s.fixvotes, FixAgeOn(b, h))
        + OverdueAge(s, o, b, h) &&
      0 <= OverdueAge(s, o, b, h)
  {
    GenesisInv(g);
    RunKeeps(g, map[], 0, run);
    AgeAtHeight(Exec(g, run), OverdueOf(g, map[], run), HeightAfter(0, run), h, b);
  }

  lemma NothingStakedAtGenesis(g: Ledger)
    requires Genesis(g)
    ensures Excess(g) == 0
  {
  }

  /** In every reachable state: a producer's stake is the whole-token sum of the votes on it that are not taken out,
      the global stake is the sum over the producers, every stake is whole tokens, and no row was last settled in
      the future, so no height subtraction is negative. */
  lemma StakeAggregates(g: Ledger, run: seq<Step>, b: Name)
    requires Genesis(g) && Ordered(0, run)
    requires b in Exec(g, run).bps
    ensures var s, now := Exec(g, run), HeightAfter(0, run);
      s.bps[b].totalStaked ==
        Total(s.votes, StakeOn(b)) + Total(s.votes4ram, StakeOn(b)) + Total(s.fixvotes, FixStakeOn(b)) >= 0 &&
      s.gvotestat == Total(s.bps, BpStake()) &&
      s.bps[b].updateHeight <= now &&
      (forall k | k in s.votes :: 10000 * s.votes[k].voteage.Slope() == s.votes[k].voteage.staked
                                  && s.votes[k].voteage.updateHeight <= now) &&
      (forall k | k in s.votes4ram :: 10000 * s.votes4ram[k].voteage.Slope() == s.votes4ram[k].voteage.staked
                                      && s.votes4ram[k].voteage.updateHeight <= now) &&
      (forall k | k in s.fixvotes :: 10000 * s.fixvotes[k].power.Slope() == s.fixvotes[k].power.staked
                                     && s.fixvotes[k].power.updateHeight <= Min(now, s.fixvotes[k].withdrawAt))
  {
    GenesisInv(g);
    RunKeepsExcess(g, run);
    NothingStakedAtGenesis(g);
    RunKeeps(g, map[], 0, run);
    hide Total, Exec;
    var s, o, now := Exec(g, run), OverdueOf(g, map[], run), HeightAfter(0, run);
    assert Balanced(s, o, b);
    StakeNonNegative(s, o, now, b);
    forall k | k in s.votes ensures 10000 * s.votes[k].voteage.Slope() == s.votes[k].voteage.staked {
      WholeParts(s.votes[k].voteage.staked);
    }
    forall k | k in s.votes4ram ensures 10000 * s.votes4ram[k].voteage.Slope() == s.votes4ram[k].voteage.staked {
      WholeParts(s.votes4ram[k].voteage.staked);
    }
    forall k | k in s.fixvotes ensures 10000 * s.fixvotes[k].power.Slope() == s.fixvotes[k].power.staked {
      WholeParts(s.fixvotes[k].power.staked);
    }
  }
}
