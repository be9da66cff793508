/** The aggregates the producers carry agree with the votes, after every action of every run. */
module VoteAges {
  import opened Base
  import opened Totals
  import opened StakeAge
  import opened VoteLedger

  // ---- what each row contributes to a producer ----

  function StakeOn(b: Name): (VoteKey, Vote) -> int {
    (k: VoteKey, v: Vote) => if k.bp == b then v.voteage.Slope() else 0
  }

  function BaseOn(b: Name): (VoteKey, Vote) -> int {
    (k: VoteKey, v: Vote) => if k.bp == b then v.voteage.Base() else 0
  }

  // A fix-time vote counts towards the stake until it is taken out. Until then its age and the overdue age its
  // producer gains past withdrawAt form one line; afterwards only the capped age is left.
  function FixStakeOn(b: Name): (FixKey, FixVote) -> int {
    (k: FixKey, f: FixVote) => if f.bp == b && !f.isWithdraw then f.power.Slope() else 0
  }

  function FixBaseOn(b: Name): (FixKey, FixVote) -> int {
    (k: FixKey, f: FixVote) =>
      if f.bp != b then 0 else if f.isWithdraw then f.power.GetAge(f.withdrawAt) else f.power.Base()
  }

  function BpStake(): (Name, Bp) -> int {
    (n: Name, b: Bp) => b.totalStaked
  }

  function StakeIn(bps: map<Name, Bp>, b: Name): int {
    if b in bps then bps[b].totalStaked else 0
  }

  function BaseIn(bps: map<Name, Bp>, b: Name): int {
    if b in bps then bps[b].Base() else 0
  }

  /** Per producer, powered stake times the blocks between withdrawAt and the outfixvote that came later. */
  type Overdue = map<Name, int>

  function OverdueAt(o: Overdue, b: Name): int {
    if b in o then o[b] else 0
  }

  ghost function OverdueAfter(o: Overdue, s: Ledger, c: Context, a: Action): Overdue {
    if a.OutFixVote? && CanOutFixVote(s, c, a.voter, a.id) then
      var f := s.fixvotes[FixKey(a.voter, a.id)];
      o[f.bp := OverdueAt(o, f.bp) + f.power.Slope() * (c.height - f.withdrawAt)]
    else o
  }

  // ---- the invariant ----

  predicate VoteOk(v: Vote, now: nat) {
    v.voteage.Settled(now) && 0 <= v.unstaking && v.unstakeHeight <= now
  }

  predicate FixOk(f: FixVote, now: nat) {
    f.power.Settled(now) && 0 < f.power.staked && f.power.updateHeight <= f.withdrawAt &&
    0 <= f.principal && (f.isWithdraw ==> f.withdrawAt <= now && f.principal == 0)
  }

  predicate BpOk(b: Bp, now: nat) {
    b.updateHeight <= now && 0 <= b.rewardsPool
  }

  predicate NoneNegative(m: map<Name, int>) {
    forall n | n in m :: 0 <= m[n]
  }

  predicate BpsOk(bps: map<Name, Bp>, now: nat) {
    forall n | n in bps :: BpOk(bps[n], now)
  }

  predicate TableOk(bps: set<Name>, table: map<VoteKey, Vote>, now: nat) {
    forall k | k in table :: k.bp in bps && VoteOk(table[k], now)
  }

  predicate FixesOk(bps: set<Name>, fix: map<FixKey, FixVote>, now: nat) {
    forall k | k in fix :: fix[k].bp in bps && FixOk(fix[k], now)
  }

  predicate RowsOk(s: Ledger, now: nat) {
    NoneNegative(s.available) && NoneNegative(s.bpsreward) && BpsOk(s.bps, now) &&
    TableOk(s.bps.Keys, s.votes, now) && TableOk(s.bps.Keys, s.votes4ram, now) &&
    FixesOk(s.bps.Keys, s.fixvotes, now)
  }

  /** Stake and age of a producer are the sums over the rows that vote for it. */
  ghost predicate Balanced(s: Ledger, o: Overdue, b: Name) {
    StakeIn(s.bps, b) == Total(s.votes, StakeOn(b)) + Total(s.votes4ram, StakeOn(b))
                           + Total(s.fixvotes, FixStakeOn(b)) &&
    BaseIn(s.bps, b) == Total(s.votes, BaseOn(b)) + Total(s.votes4ram, BaseOn(b)) + Total(s.fixvotes, FixBaseOn(b))
                        + OverdueAt(o, b)
  }

  /** The global stake is at least the sum over the producers; how far it can exceed it, and when it does, is StakeRow's
      subject. */
  ghost predicate Inv(s: Ledger, o: Overdue, now: nat) {
    RowsOk(s, now) &&
    (forall b: Name :: Balanced(s, o, b)) &&
    Total(s.bps, BpStake()) <= s.gvotestat &&
    (forall b | b in o :: 0 <= o[b])
  }

  lemma RowsStayOk(s: Ledger, now: nat, h: nat)
    requires RowsOk(s, now) && now <= h
    ensures RowsOk(s, h)
  {
  }

  // ---- one write keeps a table in order ----

  lemma SetAvailable(m: map<Name, int>, n: Name, amount: int)
    requires NoneNegative(m) && 0 <= amount
    ensures NoneNegative(m[n := amount])
  {
  }

  lemma SetVote(bps: set<Name>, table: map<VoteKey, Vote>, key: VoteKey, row: Vote, h: nat)
    requires TableOk(bps, table, h) && key.bp in bps && VoteOk(row, h)
    ensures TableOk(bps, table[key := row], h)
  {
    hide VoteOk;
  }

  lemma SetFix(bps: set<Name>, fix: map<FixKey, FixVote>, key: FixKey, row: FixVote, h: nat)
    requires FixesOk(bps, fix, h) && row.bp in bps && FixOk(row, h)
    ensures FixesOk(bps, fix[key := row], h)
  {
    hide FixOk;
  }

  lemma SetStake(bps: map<Name, Bp>, bp: Name, h: nat, amount: int)
    requires BpsOk(bps, h) && bp in bps
    ensures AddStake(bps, bp, h, amount).Keys == bps.Keys && BpsOk(AddStake(bps, bp, h, amount), h)
  {
  }

  // ---- how one row write moves the sums ----

  function SlopeAt(table: map<VoteKey, Vote>, key: VoteKey): int {
    if key in table then table[key].voteage.Slope() else 0
  }

  function BaseAt(table: map<VoteKey, Vote>, key: VoteKey): int {
    if key in table then table[key].voteage.Base() else 0
  }

  lemma VoteRowMoves(table: map<VoteKey, Vote>, key: VoteKey, row: Vote, b: Name)
    ensures Total(table[key := row], StakeOn(b)) ==
            Total(table, StakeOn(b)) + if key.bp == b then row.voteage.Slope() - SlopeAt(table, key) else 0
    ensures Total(table[key := row], BaseOn(b)) ==
            Total(table, BaseOn(b)) + if key.bp == b then row.voteage.Base() - BaseAt(table, key) else 0
  {
    hide Total;
    TotalUpdate(table, StakeOn(b), key, row);
    TotalUpdate(table, BaseOn(b), key, row);
  }

  lemma FixRowMoves(fix: map<FixKey, FixVote>, key: FixKey, row: FixVote, b: Name)
    ensures Total(fix[key := row], FixStakeOn(b)) ==
            Total(fix, FixStakeOn(b)) - WeightAt(fix, FixStakeOn(b), key) + FixStakeOn(b)(key, row)
    ensures Total(fix[key := row], FixBaseOn(b)) ==
            Total(fix, FixBaseOn(b)) - WeightAt(fix, FixBaseOn(b), key) + FixBaseOn(b)(key, row)
  {
    hide Total;
    TotalUpdate(fix, FixStakeOn(b), key, row);
    TotalUpdate(fix, FixBaseOn(b), key, row);
  }

  lemma AddStakeMoves(bps: map<Name, Bp>, bp: Name, h: nat, amount: int, b: Name)
    requires bp in bps
    ensures var bps' := AddStake(bps, bp, h, amount);
      StakeIn(bps', b) == StakeIn(bps, b) + (if b == bp then Whole(amount) else 0) &&
      BaseIn(bps', b) == BaseIn(bps, b) - (if b == bp then Whole(amount) * h else 0)
  {
    BpRestakeTurnsLine(bps[bp], h, amount);
  }

  lemma AddStakeMovesTotal(bps: map<Name, Bp>, bp: Name, h: nat, amount: int)
    requires bp in bps
    ensures Total(AddStake(bps, bp, h, amount), BpStake()) == Total(bps, BpStake()) + Whole(amount)
  {
    hide Total;
    TotalUpdate(bps, BpStake(), bp, bps[bp].AddTotalStaked(h, amount));
  }

  // ---- vote ----

  /** A row whose stake moved to stake: slope by the change, base by the change times the height. */
  lemma VotedRow(table: map<VoteKey, Vote>, key: VoteKey, stake: int, h: nat)
    requires key in table ==> VoteOk(table[key], h)
    requires 0 <= stake && IsWhole(stake)
    ensures var row := RowAfterVote(table, key, stake, h);
      var change := Whole(stake - StakedIn(table, key));
      VoteOk(row, h) &&
      row.voteage.Slope() == SlopeAt(table, key) + change &&
      row.voteage.Base() == BaseAt(table, key) - change * h
  {
    WholeIsExact(stake, StakedIn(table, key));
    if key in table {
      RestakeTurnsLine(table[key].voteage, h, h, stake);
    }
  }

  lemma VoteKeepsRows(s: Ledger, c: Context, kind: Kind, voter: Name, bp: Name, stake: int)
    requires RowsOk(s, c.height) && CanVote(s, c, kind, voter, bp, stake)
    ensures RowsOk(AfterVote(s, kind, voter, bp, stake, c.height), c.height)
  {
    var key, h, change := VoteKey(voter, bp), c.height, VoteChange(s, kind, voter, bp, stake);
    VotedRow(s.Table(kind), key, stake, h);
    SetVote(s.bps.Keys, s.Table(kind), key, RowAfterVote(s.Table(kind), key, stake, h), h);
    SetStake(s.bps, bp, h, change);
    if change > 0 {
      SetAvailable(s.available, voter, s.available[voter] - change);
    }
    hide NoneNegative, BpsOk, TableOk, FixesOk, RowAfterVote, AddStake;
  }

  lemma VoteKeepsBalance(s: Ledger, o: Overdue, h: nat, kind: Kind, voter: Name, bp: Name, stake: int, b: Name)
    requires VoteKey(voter, bp) in s.Table(kind) ==> VoteOk(s.Table(kind)[VoteKey(voter, bp)], h)
    requires voter in s.available && bp in s.bps && 0 <= stake && IsWhole(stake)
    requires Balanced(s, o, b)
    ensures Balanced(AfterVote(s, kind, voter, bp, stake, h), o, b)
  {
    hide Total;
    var key, table := VoteKey(voter, bp), s.Table(kind);
    VotedRow(table, key, stake, h);
    VoteRowMoves(table, key, RowAfterVote(table, key, stake, h), b);
    AddStakeMoves(s.bps, bp, h, VoteChange(s, kind, voter, bp, stake), b);
  }

  lemma VoteKeeps(s: Ledger, o: Overdue, c: Context, kind: Kind, voter: Name, bp: Name, stake: int)
    requires Inv(s, o, c.height) && CanVote(s, c, kind, voter, bp, stake)
    ensures Inv(AfterVote(s, kind, voter, bp, stake, c.height), o, c.height)
  {
    hide Total, VoteOk, FixOk, BpOk;
    VoteKeepsRows(s, c, kind, voter, bp, stake);
    AddStakeMovesTotal(s.bps, bp, c.height, VoteChange(s, kind, voter, bp, stake));
    forall b: Name ensures Balanced(AfterVote(s, kind, voter, bp, stake, c.height), o, b) {
      VoteKeepsBalance(s, o, c.height, kind, voter, bp, stake, b);
    }
  }

  // ---- revote ----

  lemma LeftRow(votes: map<VoteKey, Vote>, key: VoteKey, restake: int, h: nat)
    requires key in votes && VoteOk(votes[key], h) && 0 < restake <= votes[key].voteage.staked && IsWhole(restake)
    ensures var row := RowLeft(votes, key, restake, h);
      VoteOk(row, h) &&
      row.voteage.Slope() == SlopeAt(votes, key) - Whole(restake) &&
      row.voteage.Base() == BaseAt(votes, key) + Whole(restake) * h
  {
    WholeIsExact(votes[key].voteage.staked, restake);
    RestakeTurnsLine(votes[key].voteage, h, h, votes[key].voteage.staked - restake);
  }

  lemma JoinedRow(votes: map<VoteKey, Vote>, key: VoteKey, restake: int, h: nat)
    requires key in votes ==> VoteOk(votes[key], h)
    requires 0 < restake && IsWhole(restake)
    ensures var row := RowJoined(votes, key, restake, h);
      VoteOk(row, h) &&
      row.voteage.Slope() == SlopeAt(votes, key) + Whole(restake) &&
      row.voteage.Base() == BaseAt(votes, key) - Whole(restake) * h
  {
    if key in votes {
      WholeIsExact(votes[key].voteage.staked, restake);
      RestakeTurnsLine(votes[key].voteage, h, h, votes[key].voteage.staked + restake);
    }
  }

  lemma NegatedProduct(w: int, h: int)
    ensures (-w) * h == -(w * h)
  {
  }

  lemma RevoteKeepsBalance(s: Ledger, o: Overdue, h: nat, voter: Name, frombp: Name, tobp: Name, restake: int, b: Name)
    requires var kf, kt := VoteKey(voter, frombp), VoteKey(voter, tobp);
      kf in s.votes && VoteOk(s.votes[kf], h) && restake <= s.votes[kf].voteage.staked &&
      (kt in s.votes ==> VoteOk(s.votes[kt], h))
    requires frombp != tobp && frombp in s.bps && tobp in s.bps && 0 < restake && IsWhole(restake)
    requires Balanced(s, o, b)
    ensures Balanced(AfterRevote(s, voter, frombp, tobp, restake, h), o, b)
  {
    hide Total, Whole, IsWhole, RowLeft, RowJoined;
    NegatedProduct(Whole(restake), h);
    var kf, kt := VoteKey(voter, frombp), VoteKey(voter, tobp);
    LeftRow(s.votes, kf, restake, h);
    JoinedRow(s.votes, kt, restake, h);
    WholeIsExact(restake, restake);
    AddStakeMoves(s.bps, frombp, h, -restake, b);
    AddStakeMoves(AddStake(s.bps, frombp, h, -restake), tobp, h, restake, b);
    var left := s.votes[kf := RowLeft(s.votes, kf, restake, h)];
    VoteRowMoves(s.votes, kf, RowLeft(s.votes, kf, restake, h), b);
    VoteRowMoves(left, kt, RowJoined(s.votes, kt, restake, h), b);
    assert SlopeAt(left, kt) == SlopeAt(s.votes, kt) && BaseAt(left, kt) == BaseAt(s.votes, kt);
  }

  lemma RevoteKeepsRows(s: Ledger, h: nat, voter: Name, frombp: Name, tobp: Name, restake: int)
    requires RowsOk(s, h) && frombp in s.bps && tobp in s.bps && 0 < restake && IsWhole(restake)
    requires VoteKey(voter, frombp) in s.votes && restake <= s.votes[VoteKey(voter, frombp)].voteage.staked
    ensures RowsOk(AfterRevote(s, voter, frombp, tobp, restake, h), h)
  {
    var kf, kt := VoteKey(voter, frombp), VoteKey(voter, tobp);
    var rf, rt := RowLeft(s.votes, kf, restake, h), RowJoined(s.votes, kt, restake, h);
    LeftRow(s.votes, kf, restake, h);
    JoinedRow(s.votes, kt, restake, h);
    SetVote(s.bps.Keys, s.votes, kf, rf, h);
    SetVote(s.bps.Keys, s.votes[kf := rf], kt, rt, h);
    SetStake(s.bps, frombp, h, -restake);
    SetStake(AddStake(s.bps, frombp, h, -restake), tobp, h, restake);
  }

  lemma RevoteKeeps(s: Ledger, o: Overdue, c: Context, voter: Name, frombp: Name, tobp: Name, restake: int)
    requires Inv(s, o, c.height) && CanRevote(s, c, voter, frombp, tobp, restake)
    ensures Inv(AfterRevote(s, voter, frombp, tobp, restake, c.height), o, c.height)
  {
    hide Total, VoteOk, FixOk, BpOk, NoneNegative, BpsOk, FixesOk;
    var h := c.height;
    RevoteKeepsRows(s, h, voter, frombp, tobp, restake);
    WholeIsExact(restake, restake);
    AddStakeMovesTotal(s.bps, frombp, h, -restake);
    AddStakeMovesTotal(AddStake(s.bps, frombp, h, -restake), tobp, h, restake);
    forall b: Name ensures Balanced(AfterRevote(s, voter, frombp, tobp, restake, h), o, b) {
      RevoteKeepsBalance(s, o, h, voter, frombp, tobp, restake, b);
    }
  }

  // ---- unfreeze ----

  lemma UnfreezeKeepsBalance(s: Ledger, o: Overdue, kind: Kind, voter: Name, bp: Name, b: Name)
    requires voter in s.available && VoteKey(voter, bp) in s.Table(kind) && Balanced(s, o, b)
    ensures Balanced(AfterUnfreeze(s, kind, voter, bp), o, b)
  {
    hide Total;
    var key, table := VoteKey(voter, bp), s.Table(kind);
    VoteRowMoves(table, key, table[key].(unstaking := 0), b);
  }

  lemma UnfreezeKeeps(s: Ledger, o: Overdue, c: Context, kind: Kind, voter: Name, bp: Name)
    requires Inv(s, o, c.height) && CanUnfreeze(s, c, kind, voter, bp)
    ensures Inv(AfterUnfreeze(s, kind, voter, bp), o, c.height)
  {
    hide Total, FixesOk, BpsOk;
    var key, table := VoteKey(voter, bp), s.Table(kind);
    SetAvailable(s.available, voter, s.available[voter] + table[key].unstaking);
    SetVote(s.bps.Keys, table, key, table[key].(unstaking := 0), c.height);
    forall b: Name ensures Balanced(AfterUnfreeze(s, kind, voter, bp), o, b) {
      UnfreezeKeepsBalance(s, o, kind, voter, bp, b);
    }
  }

  // ---- votefix ----

  lemma NewFixRow(bp: Name, t: FixType, stake: int, h: nat)
    requires 0 < stake && IsWhole(stake) && t in FIX_TYPES
    ensures var row := FixRow(bp, t, stake, h);
      FixOk(row, h) && row.power.Base() == -row.power.Slope() * h &&
      row.power.Slope() == Whole(row.power.staked) == t.power * Whole(stake)
  {
    assert t.power in {5, 10, 20, 40};
    WholeIsExact(stake, stake);
    WholeOf(t.power * Whole(stake));
    assert stake * t.power == 10000 * (t.power * Whole(stake));
  }

  lemma VoteFixKeepsBalance(s: Ledger, o: Overdue, h: nat, voter: Name, bp: Name, t: FixType, stake: int,
                            source: Source,
                            id: nat, b: Name)
    requires voter in s.available && bp in s.bps && 0 < stake && IsWhole(stake) && t in FIX_TYPES
    requires source == UnstakingToken ==> VoteKey(voter, bp) in s.votes
    requires FixKey(voter, id) !in s.fixvotes && Balanced(s, o, b)
    ensures Balanced(AfterVoteFix(s, voter, bp, t, stake, source, id, h), o, b)
  {
    hide Total, FixOk;
    var row, vk := FixRow(bp, t, stake, h), VoteKey(voter, bp);
    NewFixRow(bp, t, stake, h);
    AddStakeMoves(s.bps, bp, h, row.power.staked, b);
    FixRowMoves(s.fixvotes, FixKey(voter, id), row, b);
    if source == UnstakingToken {
      VoteRowMoves(s.votes, vk, s.votes[vk].(unstaking := s.votes[vk].unstaking - stake), b);
    }
  }

  lemma VoteFixKeepsRows(s: Ledger, c: Context, voter: Name, bp: Name, typ: string, stake: int, source: Source, id: nat)
    requires RowsOk(s, c.height) && CanVoteFix(s, c, voter, bp, typ, stake, source, id)
    ensures RowsOk(AfterVoteFix(s, voter, bp, FindType(FIX_TYPES, typ).value, stake, source, id, c.height), c.height)
  {
    var t, h, vk := FindType(FIX_TYPES, typ).value, c.height, VoteKey(voter, bp);
    NewFixRow(bp, t, stake, h);
    SetFix(s.bps.Keys, s.fixvotes, FixKey(voter, id), FixRow(bp, t, stake, h), h);
    SetStake(s.bps, bp, h, FixRow(bp, t, stake, h).power.staked);
    if source == AccountToken {
      SetAvailable(s.available, voter, s.available[voter] - stake);
    } else {
      SetVote(s.bps.Keys, s.votes, vk, s.votes[vk].(unstaking := s.votes[vk].unstaking - stake), h);
    }
  }

  lemma VoteFixKeeps(s: Ledger, o: Overdue, c: Context, voter: Name, bp: Name, typ: string, stake: int,
                     source: Source, id: nat)
    requires Inv(s, o, c.height) && CanVoteFix(s, c, voter, bp, typ, stake, source, id)
    ensures Inv(AfterVoteFix(s, voter, bp, FindType(FIX_TYPES, typ).value, stake, source, id, c.height), o, c.height)
  {
    hide Total, NoneNegative, BpsOk, TableOk, FixesOk, FixOk;
    var t, h := FindType(FIX_TYPES, typ).value, c.height;
    VoteFixKeepsRows(s, c, voter, bp, typ, stake, source, id);
    NewFixRow(bp, t, stake, h);
    AddStakeMovesTotal(s.bps, bp, h, FixRow(bp, t, stake, h).power.staked);
    forall b: Name ensures Balanced(AfterVoteFix(s, voter, bp, t, stake, source, id, h), o, b) {
      VoteFixKeepsBalance(s, o, h, voter, bp, t, stake, source, id, b);
    }
  }

  // ---- revotefix ----

  lemma MovedFixRow(f: FixVote, bp: Name, h: nat)
    requires FixOk(f, h) && !f.isWithdraw && f.withdrawAt > h && f.GetAge(h) == 0
    ensures var row := f.(bp := bp).CleanAge(h);
      FixOk(row, h) && row.power.Slope() == f.power.Slope() == Whole(f.power.staked) == -Whole(-f.power.staked) &&
      row.power.Base() == f.power.Base() == -Whole(f.power.staked) * h
  {
    WholeIsExact(f.power.staked, f.power.staked);
    CleanLowersLine(f.power, h);
    AgeIsLine(f.power, h);
  }

  lemma RevoteFixKeepsBalance(s: Ledger, o: Overdue, h: nat, key: FixKey, bp: Name, b: Name)
    requires key in s.fixvotes && s.fixvotes[key].bp in s.bps && bp in s.bps
    requires var f := s.fixvotes[key];
      FixOk(f, h) && f.bp != bp && !f.isWithdraw && f.withdrawAt > h && f.GetAge(h) == 0
    requires Balanced(s, o, b)
    ensures Balanced(AfterRevoteFix(s, key, bp, h), o, b)
  {
    hide Total;
    var f := s.fixvotes[key];
    MovedFixRow(f, bp, h);
    AddStakeMoves(s.bps, f.bp, h, -f.power.staked, b);
    AddStakeMoves(AddStake(s.bps, f.bp, h, -f.power.staked), bp, h, f.power.staked, b);
    FixRowMoves(s.fixvotes, key, f.(bp := bp).CleanAge(h), b);
  }

  lemma RevoteFixKeeps(s: Ledger, o: Overdue, c: Context, voter: Name, id: nat, bp: Name)
    requires Inv(s, o, c.height) && CanRevoteFix(s, c, voter, id, bp)
    ensures Inv(AfterRevoteFix(s, FixKey(voter, id), bp, c.height), o, c.height)
  {
    hide Total, FixOk, VoteOk;
    var h, key := c.height, FixKey(voter, id);
    var f := s.fixvotes[key];
    MovedFixRow(f, bp, h);
    AddStakeMovesTotal(s.bps, f.bp, h, -f.power.staked);
    AddStakeMovesTotal(AddStake(s.bps, f.bp, h, -f.power.staked), bp, h, f.power.staked);
    forall b: Name ensures Balanced(AfterRevoteFix(s, key, bp, h), o, b) {
      RevoteFixKeepsBalance(s, o, h, key, bp, b);
    }
  }

  // ---- outfixvote ----

  /** The producer's line drops the powered stake at h; the row keeps the age it had at withdrawAt; the
      difference is the overdue age. */
  lemma TakenFixRow(f: FixVote, h: nat)
    requires FixOk(f, h) && !f.isWithdraw && f.withdrawAt <= h
    ensures var row := f.(principal := 0, isWithdraw := true); var slope := f.power.Slope();
      FixOk(row, h) && slope == Whole(f.power.staked) == -Whole(-f.power.staked) &&
      0 <= slope * (h - f.withdrawAt) &&
      row.power.GetAge(row.withdrawAt) + slope * (h - f.withdrawAt) == f.power.Base() + slope * h
  {
    WholeIsExact(f.power.staked, f.power.staked);
    AgeIsLine(f.power, f.withdrawAt);
    Distribute(f.withdrawAt, h - f.withdrawAt, f.power.Slope());
  }

  lemma OutRow(votes: map<VoteKey, Vote>, key: VoteKey, principal: int, h: nat)
    requires key in votes ==> VoteOk(votes[key], h)
    requires 0 <= principal
    ensures var row := RowAfterOut(votes, key, principal, h);
      VoteOk(row, h) && row.voteage.Slope() == SlopeAt(votes, key) && row.voteage.Base() == BaseAt(votes, key)
  {
  }

  lemma OutFixVoteKeepsBalance(s: Ledger, o: Overdue, h: nat, key: FixKey, o': Overdue, b: Name)
    requires key in s.fixvotes && s.fixvotes[key].bp in s.bps
    requires var f := s.fixvotes[key];
      FixOk(f, h) && !f.isWithdraw && f.withdrawAt <= h &&
      (VoteKey(key.voter, f.bp) in s.votes ==> VoteOk(s.votes[VoteKey(key.voter, f.bp)], h)) &&
      o' == o[f.bp := OverdueAt(o, f.bp) + f.power.Slope() * (h - f.withdrawAt)]
    requires Balanced(s, o, b)
    ensures Balanced(AfterOutFixVote(s, key, h), o', b)
  {
    hide Total, RowAfterOut, AssetAge.GetAge, AssetAge.Base, AssetAge.Slope, Bp.AddTotalStaked;
    var f := s.fixvotes[key];
    var vk := VoteKey(key.voter, f.bp);
    TakenFixRow(f, h);
    OutRow(s.votes, vk, f.principal, h);
    AddStakeMoves(s.bps, f.bp, h, -f.power.staked, b);
    FixRowMoves(s.fixvotes, key, f.(principal := 0, isWithdraw := true), b);
    VoteRowMoves(s.votes, vk, RowAfterOut(s.votes, vk, f.principal, h), b);
  }

  lemma OutFixVoteKeeps(s: Ledger, o: Overdue, c: Context, voter: Name, id: nat)
    requires Inv(s, o, c.height) && CanOutFixVote(s, c, voter, id)
    ensures Inv(AfterOutFixVote(s, FixKey(voter, id), c.height), OverdueAfter(o, s, c, OutFixVote(voter, id)), c.height)
  {
    hide Total;
    var h, key := c.height, FixKey(voter, id);
    var o' := OverdueAfter(o, s, c, OutFixVote(voter, id));
    TakenFixRow(s.fixvotes[key], h);
    AddStakeMovesTotal(s.bps, s.fixvotes[key].bp, h, -s.fixvotes[key].power.staked);
    forall b: Name ensures Balanced(AfterOutFixVote(s, key, h), o', b) {
      OutFixVoteKeepsBalance(s, o, h, key, o', b);
    }
  }

  // ---- claim ----

  /** Over all rows of the voter at once: the stake stays, the base falls by the age claimed. */
  lemma ClaimMovesFix(fix: map<FixKey, FixVote>, voter: Name, bp: Name, h: nat, b: Name)
    requires forall k | k in fix :: FixOk(fix[k], h)
    ensures var fix' := FixAfterClaim(fix, voter, bp, h);
      Total(fix', FixStakeOn(b)) == Total(fix, FixStakeOn(b)) &&
      Total(fix', FixBaseOn(b)) ==
        Total(fix, FixBaseOn(b)) - if b == bp then Total(fix, FixAgeClaimed(voter, bp, h)) else 0
  {
    hide Total;
    var fix' := FixAfterClaim(fix, voter, bp, h);
    forall k: FixKey
      ensures WeightAt(fix', FixStakeOn(b), k) == WeightAt(fix, FixStakeOn(b), k)
      ensures WeightAt(fix, FixBaseOn(b), k) ==
              WeightAt(fix', FixBaseOn(b), k) + if b == bp then WeightAt(fix, FixAgeClaimed(voter, bp, h), k) else 0
    {
      if k in fix {
        CleanLowersLine(fix[k].power, Min(h, fix[k].withdrawAt));
      }
    }
    TotalKept(fix, fix', FixStakeOn(b));
    if b == bp {
      TotalSplit(fix, FixBaseOn(b), fix', FixBaseOn(b), fix, FixAgeClaimed(voter, bp, h));
    } else {
      TotalKept(fix, fix', FixBaseOn(b));
    }
  }

  lemma ClaimMovesVotes(votes: map<VoteKey, Vote>, key: VoteKey, h: nat, b: Name)
    ensures var votes' := VotesAfterClaim(votes, key, h);
      Total(votes', StakeOn(b)) == Total(votes, StakeOn(b)) &&
      Total(votes', BaseOn(b)) == Total(votes, BaseOn(b)) - if b == key.bp then VoteAgeClaimed(votes, key, h) else 0
  {
    hide Total;
    if key in votes {
      CleanLowersLine(votes[key].voteage, h);
      VoteRowMoves(votes, key, votes[key].(voteage := votes[key].voteage.CleanAge(h)), b);
    }
  }

  lemma ClaimKeepsBalance(s: Ledger, o: Overdue, voter: Name, bp: Name, h: nat, b: Name)
    requires voter in s.available && bp in s.bps && 0 < s.bps[bp].GetAge(h)
    requires FixesOk(s.bps.Keys, s.fixvotes, h)
    requires Balanced(s, o, b)
    ensures Balanced(AfterClaim(s, voter, bp, h), o, b)
  {
    hide Total, Share, FixOk;
    BpAgeIsLine(s.bps[bp], h);
    ClaimMovesVotes(s.votes, VoteKey(voter, bp), h, b);
    ClaimMovesFix(s.fixvotes, voter, bp, h, b);
  }

  lemma ClaimKeepsRows(s: Ledger, c: Context, voter: Name, bp: Name)
    requires RowsOk(s, c.height) && CanClaim(s, c, voter, bp)
    ensures RowsOk(AfterClaim(s, voter, bp, c.height), c.height)
  {
    hide Total, Share, ClaimedAge;
  }

  lemma ClaimKeeps(s: Ledger, o: Overdue, c: Context, voter: Name, bp: Name)
    requires Inv(s, o, c.height) && CanClaim(s, c, voter, bp)
    ensures Inv(AfterClaim(s, voter, bp, c.height), o, c.height)
  {
    hide Total, Share, ClaimedAge, VoteOk, FixOk;
    var h := c.height;
    ClaimKeepsRows(s, c, voter, bp);
    TotalUpdate(s.bps, BpStake(), bp, AfterClaim(s, voter, bp, h).bps[bp]);
    forall b: Name ensures Balanced(AfterClaim(s, voter, bp, h), o, b) {
      ClaimKeepsBalance(s, o, voter, bp, h, b);
    }
  }

  // ---- the actions that touch no vote ----

  lemma UpdateBpKeeps(s: Ledger, o: Overdue, now: nat, bp: Name, commission: nat)
    requires Inv(s, o, now)
    ensures Inv(AfterUpdateBp(s, bp, commission), o, now)
  {
    hide Total, VoteOk, FixOk;
    var s' := AfterUpdateBp(s, bp, commission);
    TotalUpdate(s.bps, BpStake(), bp, s'.bps[bp]);
    forall b: Name ensures Balanced(s', o, b) {
      assert Balanced(s, o, b);
    }
  }
}
