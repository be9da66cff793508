/** What each action of the ledger moves, from whom and to whom, in terms of the tables alone, and what follows for
    those who hold the rows: nobody else touches them, and what was staked comes back. */
module VoteEffects {
  import opened Base
  import opened Totals
  import opened StakeAge
  import opened VoteLedger
  import opened VoteRuns

  // ---- reading the tables ----

  /** The row, or what an account without one holds. */
  function Held(table: map<VoteKey, Vote>, key: VoteKey): Vote {
    if key in table then table[key] else Vote(NO_AGE, 0, 0)
  }

  /** The row of k may have been written or created; all others are as they were. */
  predicate OnlyAt<K, V(==)>(m: map<K, V>, m': map<K, V>, k: K) {
    k in m' && m'.Keys == m.Keys + {k} && forall j | j in m && j != k :: m'[j] == m[j]
  }

  /** The producer's stake moved by whole tokens at height h; age, pool and commission are as they were. */
  predicate Restaked(b: Bp, b': Bp, h: nat, tokens: int) {
    b'.totalStaked == b.totalStaked + tokens && b'.GetAge(h) == b.GetAge(h) &&
    b'.rewardsPool == b.rewardsPool && b'.commission == b.commission
  }

  // ---- transfer, unfreeze, bpclaim and the producers' rows ----

  /** A transfer moves the quantity from one account to the other; to itself it moves nothing. */
  lemma TransferMoves(s: Ledger, c: Context, from: Name, to: Name, quantity: int)
    requires Can(s, c, Transfer(from, to, quantity))
    ensures var s' := Next(s, c, Transfer(from, to, quantity));
      s' == s.(available := s'.available) && s'.available.Keys == s.available.Keys &&
      (forall n | n in s.available :: s'.available[n] ==
         s.available[n] + (if n == to then quantity else 0) - (if n == from then quantity else 0)) &&
      0 <= quantity <= s.available[from]
  {
  }

  /** An unfreeze moves the whole unstaking amount of one row to the voter's balance. */
  lemma UnfreezeMoves(s: Ledger, c: Context, kind: Kind, voter: Name, bp: Name)
    requires Can(s, c, Unfreeze(kind, voter, bp))
    ensures var s', key := Next(s, c, Unfreeze(kind, voter, bp)), VoteKey(voter, bp);
      s'.available == s.available[voter := s.available[voter] + Held(s.Table(kind), key).unstaking] &&
      OnlyAt(s.Table(kind), s'.Table(kind), key) &&
      s'.Table(kind)[key] == Held(s.Table(kind), key).(unstaking := 0) &&
      s' == s.(available := s'.available, votes := s'.votes, votes4ram := s'.votes4ram) &&
      (kind == Plain ==> s'.votes4ram == s.votes4ram) && (kind == ForRam ==> s'.votes == s.votes)
  {
  }

  /** A bpclaim moves what the producer is owed, and its block share, to its balance. */
  lemma PayBpMoves(s: Ledger, c: Context, bp: Name, share: int)
    requires Can(s, c, PayBp(bp, share))
    ensures var s' := Next(s, c, PayBp(bp, share)); var owed := if bp in s.bpsreward then s.bpsreward[bp] else 0;
      s'.available == s.available[bp := s.available[bp] + owed + share] &&
      s' == s.(available := s'.available, bpsreward := s'.bpsreward) && s'.bpsreward.Keys == s.bpsreward.Keys &&
      forall n | n in s.bpsreward :: s'.bpsreward[n] == if n == bp then 0 else s.bpsreward[n]
  {
  }

  /** Registering sets the commission and nothing else; a new producer has no stake, age or pool. */
  lemma UpdateBpSets(s: Ledger, c: Context, bp: Name, commission: nat)
    requires Can(s, c, UpdateBp(bp, commission))
    ensures var s' := Next(s, c, UpdateBp(bp, commission));
      s' == s.(bps := s'.bps) && OnlyAt(s.bps, s'.bps, bp) && s'.bps[bp].commission == commission &&
      s'.bps[bp] == (if bp in s.bps then s.bps[bp] else Bp(0, 0, 0, 0, 0)).(commission := commission)
  {
  }

  // ---- vote and revote ----

  /** At the height of a change the age is what it was; a new row has none. */
  lemma AgesAreKept(a: AssetAge, h: nat, amount: int)
    ensures a.ChangeStakedTo(h, amount).GetAge(h) == a.GetAge(h)
    ensures a.AddStakedBy(h, amount).GetAge(h) == a.GetAge(h) && a.MinusStakedBy(h, amount).GetAge(h) == a.GetAge(h)
    ensures AssetAge(amount, 0, h).GetAge(h) == 0 && NO_AGE.GetAge(h) == 0
  {
    WholeIsExact(0, 0);
    hide Whole;
  }

  /** A vote makes the stake on the producer what the voter says. What is added comes from its balance, what is taken
      off goes to unstaking, and the age so far is kept. */
  lemma VoteSets(s: Ledger, c: Context, kind: Kind, voter: Name, bp: Name, stake: int)
    requires Can(s, c, VoteFor(kind, voter, bp, stake))
    ensures var s', key, h := Next(s, c, VoteFor(kind, voter, bp, stake)), VoteKey(voter, bp), c.height;
      var row, row' := Held(s.Table(kind), key), Held(s'.Table(kind), key);
      OnlyAt(s.Table(kind), s'.Table(kind), key) && row'.voteage.staked == stake &&
      row'.voteage.GetAge(h) == row.voteage.GetAge(h) &&
      row'.unstaking == row.unstaking + Max(0, row.voteage.staked - stake) &&
      row'.unstakeHeight == (if stake < row.voteage.staked then h else row.unstakeHeight) &&
      s'.available == s.available[voter := s.available[voter] - Max(0, stake - row.voteage.staked)]
  {
    hide Whole, AssetAge.GetAge, Bp.AddTotalStaked, IsWhole;
    AgesAreKept(Held(s.Table(kind), VoteKey(voter, bp)).voteage, c.height, stake);
  }

  /** And the producer's stake moves by the difference, in whole tokens. */
  lemma VoteRestakes(s: Ledger, c: Context, kind: Kind, voter: Name, bp: Name, stake: int)
    requires Can(s, c, VoteFor(kind, voter, bp, stake))
    ensures var s', h := Next(s, c, VoteFor(kind, voter, bp, stake)), c.height;
      var added := stake - Held(s.Table(kind), VoteKey(voter, bp)).voteage.staked;
      OnlyAt(s.bps, s'.bps, bp) && Restaked(s.bps[bp], s'.bps[bp], h, Whole(added)) &&
      s'.fixvotes == s.fixvotes && s'.blacklist == s.blacklist && s'.bpsreward == s.bpsreward &&
      (kind == Plain ==> s'.votes4ram == s.votes4ram) && (kind == ForRam ==> s'.votes == s.votes)
  {
    BpRestakeTurnsLine(s.bps[bp], c.height, stake - Held(s.Table(kind), VoteKey(voter, bp)).voteage.staked);
    WholeIsExact(0, 0);
    hide Whole, RowAfterVote, IsWhole, Bp.AddTotalStaked, Bp.GetAge;
  }

  /** A revote moves exactly the amount asked for from the voter's stake on one producer to its stake on the other, and
      the producers' stakes with it; the ages so far stay where they are, and nobody else notices. */
  lemma RevoteMoves(s: Ledger, c: Context, voter: Name, frombp: Name, tobp: Name, restake: int)
    requires Can(s, c, Revote(voter, frombp, tobp, restake))
    ensures var s', h := Next(s, c, Revote(voter, frombp, tobp, restake)), c.height;
      var kf, kt := VoteKey(voter, frombp), VoteKey(voter, tobp);
      kf != kt && s'.votes.Keys == s.votes.Keys + {kf, kt} &&
      (forall k | k in s.votes && k != kf && k != kt :: s'.votes[k] == s.votes[k]) &&
      s'.votes[kf].voteage.staked == Held(s.votes, kf).voteage.staked - restake >= 0 &&
      s'.votes[kt].voteage.staked == Held(s.votes, kt).voteage.staked + restake &&
      (forall k | k == kf || k == kt ::
         s'.votes[k].voteage.GetAge(h) == Held(s.votes, k).voteage.GetAge(h) &&
         s'.votes[k].unstaking == Held(s.votes, k).unstaking &&
         s'.votes[k].unstakeHeight == Held(s.votes, k).unstakeHeight)
    ensures var s', h := Next(s, c, Revote(voter, frombp, tobp, restake)), c.height;
      s'.bps.Keys == s.bps.Keys && (forall n | n in s.bps && n != frombp && n != tobp :: s'.bps[n] == s.bps[n]) &&
      Restaked(s.bps[frombp], s'.bps[frombp], h, -Whole(restake)) &&
      Restaked(s.bps[tobp], s'.bps[tobp], h, Whole(restake)) && s' == s.(votes := s'.votes, bps := s'.bps)
  {
    BpRestakeTurnsLine(s.bps[frombp], c.height, -restake);
    BpRestakeTurnsLine(s.bps[tobp], c.height, restake);
    WholeIsExact(restake, restake);
    AgesAreKept(Held(s.votes, VoteKey(voter, frombp)).voteage, c.height, restake);
    AgesAreKept(Held(s.votes, VoteKey(voter, tobp)).voteage, c.height, restake);
    hide Whole, IsWhole, AssetAge.GetAge, Bp.GetAge, Bp.AddTotalStaked;
  }

  // ---- fix-time votes ----

  /** How many times its stake a fix-time vote counts, and for how many days it is locked. */
  predicate Promised(typ: string, times: int, days: int) {
    (typ == "fvote.a" && times == 5 && days == 90) || (typ == "fvote.b" && times == 10 && days == 180) ||
    (typ == "fvote.c" && times == 20 && days == 360) || (typ == "fvote.d" && times == 40 && days == 720)
  }

  lemma TypesArePromised(typ: string)
    requires FindType(FIX_TYPES, typ).Some?
    ensures var t := FindType(FIX_TYPES, typ).value; Promised(typ, t.power, t.days)
  {
  }

  /** A fix-time vote locks the stake for the days its type says, and counts the promised number of times for the
      producer from that block on. */
  lemma VoteFixLocks(s: Ledger, c: Context, voter: Name, bp: Name, typ: string, stake: int, source: Source, id: nat)
    requires Can(s, c, VoteFix(voter, bp, typ, stake, source, id))
    ensures var s', h := Next(s, c, VoteFix(voter, bp, typ, stake, source, id)), c.height;
      FixKey(voter, id) !in s.fixvotes && OnlyAt(s.fixvotes, s'.fixvotes, FixKey(voter, id)) &&
      OnlyAt(s.bps, s'.bps, bp) &&
      var f := s'.fixvotes[FixKey(voter, id)];
      f.bp == bp && f.principal == stake && !f.isWithdraw && f.start == h && f.GetAge(h) == 0 &&
      exists times, days ::
        Promised(typ, times, days) && f.power.staked == stake * times && f.withdrawAt == h + days * 28800 &&
        Restaked(s.bps[bp], s'.bps[bp], h, Whole(stake * times))
  {
    hide FindType, Promised, Whole, IsWhole, Bp.GetAge, Bp.AddTotalStaked, AssetAge.GetAge;
    var t := FindType(FIX_TYPES, typ).value;
    TypesArePromised(typ);
    BpRestakeTurnsLine(s.bps[bp], c.height, stake * t.power);
    AgesAreKept(NO_AGE, c.height, stake * t.power);
    var s' := Next(s, c, VoteFix(voter, bp, typ, stake, source, id));
    var f := s'.fixvotes[FixKey(voter, id)];
    assert f.power == AssetAge(stake * t.power, 0, c.height) && f.withdrawAt == c.height + t.days * 28800;
    assert Promised(typ, t.power, t.days) && f.power.staked == stake * t.power;
  }

  /** The stake comes from where the voter said, and from nowhere else; of an unstaking amount a part stays. */
  lemma VoteFixTakes(s: Ledger, c: Context, voter: Name, bp: Name, typ: string, stake: int, source: Source, id: nat)
    requires Can(s, c, VoteFix(voter, bp, typ, stake, source, id))
    ensures var s', key := Next(s, c, VoteFix(voter, bp, typ, stake, source, id)), VoteKey(voter, bp);
      (source == AccountToken ==>
         s'.available == s.available[voter := s.available[voter] - stake] && s'.available[voter] >= 0 &&
         s'.votes == s.votes) &&
      (source == UnstakingToken ==>
         s'.available == s.available && OnlyAt(s.votes, s'.votes, key) &&
         s'.votes[key] == s.votes[key].(unstaking := s.votes[key].unstaking - stake) && s'.votes[key].unstaking > 0) &&
      source != Unsupported && s'.votes4ram == s.votes4ram
  {
    hide FindType, Whole, IsWhole, AddStake, FixRow;
  }

  /** A revotefix takes the vote to another producer, as it is. */
  lemma RevoteFixMoves(s: Ledger, c: Context, voter: Name, id: nat, bp: Name)
    requires Can(s, c, RevoteFix(voter, id, bp))
    ensures var s', h, k := Next(s, c, RevoteFix(voter, id, bp)), c.height, FixKey(voter, id);
      var f := s.fixvotes[k];
      f.bp != bp && OnlyAt(s.fixvotes, s'.fixvotes, k) && s'.fixvotes[k].GetAge(h) == 0 &&
      s'.fixvotes[k] == f.(bp := bp, power := f.power.(age := 0, updateHeight := h)) &&
      s'.bps.Keys == s.bps.Keys && (forall n | n in s.bps && n != bp && n != f.bp :: s'.bps[n] == s.bps[n]) &&
      Restaked(s.bps[f.bp], s'.bps[f.bp], h, Whole(-f.power.staked)) &&
      Restaked(s.bps[bp], s'.bps[bp], h, Whole(f.power.staked)) && s' == s.(fixvotes := s'.fixvotes, bps := s'.bps)
  {
    var f := s.fixvotes[FixKey(voter, id)];
    BpRestakeTurnsLine(s.bps[f.bp], c.height, -f.power.staked);
    BpRestakeTurnsLine(s.bps[bp], c.height, f.power.staked);
    hide Whole;
  }

  /** Taking a fix-time vote out moves its principal to the voter's unstaking amount on that producer, locked anew from
      this block, and takes its power off the producer; the age it has earned can still be claimed. */
  lemma OutFixVoteMoves(s: Ledger, c: Context, voter: Name, id: nat)
    requires Can(s, c, OutFixVote(voter, id))
    ensures var s', h, k := Next(s, c, OutFixVote(voter, id)), c.height, FixKey(voter, id);
      var f := s.fixvotes[k]; var key := VoteKey(voter, f.bp);
      OnlyAt(s.votes, s'.votes, key) &&
      s'.votes[key] ==
        Held(s.votes, key).(unstaking := Held(s.votes, key).unstaking + f.principal, unstakeHeight := h) &&
      OnlyAt(s.fixvotes, s'.fixvotes, k) && s'.fixvotes[k] == f.(principal := 0, isWithdraw := true) &&
      (forall h' :: s'.fixvotes[k].GetAge(h') == f.GetAge(h')) &&
      OnlyAt(s.bps, s'.bps, f.bp) && Restaked(s.bps[f.bp], s'.bps[f.bp], h, Whole(-f.power.staked)) &&
      s'.available == s.available && s'.votes4ram == s.votes4ram
  {
    var f := s.fixvotes[FixKey(voter, id)];
    BpRestakeTurnsLine(s.bps[f.bp], c.height, -f.power.staked);
    hide Whole;
  }

  // ---- whose rows they are ----

  predicate SameAt<K, V(==)>(m: map<K, V>, m': map<K, V>, k: K) {
    (k in m' <==> k in m) && (k in m ==> m'[k] == m[k])
  }

  /** The account's rows in all three tables. */
  ghost predicate SameRows(s: Ledger, s': Ledger, n: Name) {
    (forall k: VoteKey | k.voter == n :: SameAt(s.votes, s'.votes, k) && SameAt(s.votes4ram, s'.votes4ram, k)) &&
    (forall k: FixKey | k.voter == n :: SameAt(s.fixvotes, s'.fixvotes, k))
  }

  lemma SameRowsTwice(s: Ledger, s1: Ledger, s2: Ledger, n: Name)
    requires SameRows(s, s1, n) && SameRows(s1, s2, n)
    ensures SameRows(s, s2, n)
  {
    forall k: VoteKey | k.voter == n ensures SameAt(s.votes, s2.votes, k) && SameAt(s.votes4ram, s2.votes4ram, k) {
      assert SameAt(s.votes, s1.votes, k) && SameAt(s.votes4ram, s1.votes4ram, k);
    }
    forall k: FixKey | k.voter == n ensures SameAt(s.fixvotes, s2.fixvotes, k) {
      assert SameAt(s.fixvotes, s1.fixvotes, k);
    }
  }

  lemma VotesAreOwners(s: Ledger, c: Context, a: Action, n: Name)
    requires Can(s, c, a) && (a.VoteFor? || a.Revote? || a.Unfreeze?) && c.signer != n
    ensures SameRows(s, Effect(s, c, a), n)
  {
    hide Whole, IsWhole, AddStake, RowAfterVote, RowLeft, RowJoined;
  }

  lemma FixVotesAreOwners(s: Ledger, c: Context, a: Action, n: Name)
    requires Can(s, c, a) && (a.VoteFix? || a.RevoteFix? || a.OutFixVote?) && c.signer != n
    ensures SameRows(s, Effect(s, c, a), n)
  {
    hide Whole, IsWhole, AddStake, FindType, FixRow, RowAfterOut;
  }

  lemma OthersHaveNoRows(s: Ledger, c: Context, a: Action, n: Name)
    requires Can(s, c, a) && (a.Transfer? || a.UpdateBp? || a.RemoveBp? || a.PayBp? || a.Issue?)
    ensures SameRows(s, Effect(s, c, a), n)
  {
    hide CanIssue, BudgetReward, BpsAfterIssue, BpsrewardAfterIssue;
  }

  lemma RowsAreOwners(s: Ledger, c: Context, a: Action, n: Name)
    requires Can(s, c, a) && !a.Claim? && (c.signer != n || a.Issue?)
    ensures SameRows(s, Effect(s, c, a), n)
  {
    hide Can, Effect, SameRows;
    if a.VoteFor? || a.Revote? || a.Unfreeze? {
      VotesAreOwners(s, c, a, n);
    } else if a.VoteFix? || a.RevoteFix? || a.OutFixVote? {
      FixVotesAreOwners(s, c, a, n);
    } else {
      OthersHaveNoRows(s, c, a, n);
    }
  }

  lemma BalancesAreOwners(s: Ledger, c: Context, a: Action, n: Name)
    requires Can(s, c, a) && !a.Claim? && n in s.available
    ensures n in Effect(s, c, a).available
    ensures c.signer != n || a.Issue? ==> Effect(s, c, a).available[n] >= s.available[n]
  {
    hide Total, Whole, FindType, ClaimedAge, AddStake, RowAfterVote, BpsAfterIssue, BpsrewardAfterIssue;
  }

  lemma ProducersStay(s: Ledger, c: Context, a: Action)
    requires Can(s, c, a) && !a.Claim?
    ensures s.bps.Keys <= Effect(s, c, a).bps.Keys
  {
    hide Total, Whole, FindType, ClaimedAge, RowAfterVote, BpsrewardAfterIssue, BudgetReward;
  }

  /** Only the account's own signature lowers its balance or touches its votes; accounts and producers stay. */
  lemma OnlyOwnerActs(s: Ledger, c: Context, a: Action, n: Name)
    ensures c.signer != n || a.Issue? ==> SameRows(s, Next(s, c, a), n)
    ensures n in s.available ==> n in Next(s, c, a).available
    ensures n in s.available && (c.signer != n || a.Issue?) ==> Next(s, c, a).available[n] >= s.available[n]
    ensures s.bps.Keys <= Next(s, c, a).bps.Keys
  {
    hide Can, Effect;
    if Can(s, c, a) {
      if a.Claim? {
        ClaimIsOwners(s, c, a, n);
      } else {
        ProducersStay(s, c, a);
        if c.signer != n || a.Issue? {
          RowsAreOwners(s, c, a, n);
        }
        if n in s.available {
          BalancesAreOwners(s, c, a, n);
        }
      }
    }
  }

  lemma ClaimIsOwners(s: Ledger, c: Context, a: Action, n: Name)
    requires a.Claim? && Can(s, c, a)
    ensures c.signer != n ==> SameRows(s, Next(s, c, a), n)
    ensures n in s.available ==> n in Next(s, c, a).available && Next(s, c, a).available[n] >= s.available[n]
    ensures s.bps.Keys <= Next(s, c, a).bps.Keys
  {
    hide Total, ClaimedAge;
  }

  /** Only a producer registers and sets its commission, within range; only the system account bans, whom it names, and
      nobody lifts a ban. */
  lemma ProducersAreEntitled(s: Ledger, c: Context, a: Action, n: Name)
    ensures var s' := Next(s, c, a);
      (n in s.bps ==> n in s'.bps) &&
      (n in s'.bps && (n in s.bps ==> s'.bps[n].commission != s.bps[n].commission) ==>
         c.signer == n && 1 <= s'.bps[n].commission <= 10000) &&
      (n in s'.blacklist <==> n in s.blacklist || (a == RemoveBp(n) && c.signer == SYSTEM_ACCOUNT))
  {
    hide Total, Whole, ClaimedAge, FindType, RowAfterVote, BpsrewardAfterIssue, BudgetReward, PoolShare;
  }

  /** Every action of the run is somebody else's. */
  predicate ByOthers(run: seq<Step>, n: Name) {
    forall i | 0 <= i < |run| :: run[i].c.signer != n || run[i].a.Issue?
  }

  /** Whatever others do, an account keeps its votes and loses no balance. */
  lemma {:induction false} OthersLeaveAlone(s: Ledger, run: seq<Step>, n: Name)
    requires ByOthers(run, n) && n in s.available
    ensures SameRows(s, Exec(s, run), n) && s.bps.Keys <= Exec(s, run).bps.Keys
    ensures n in Exec(s, run).available && Exec(s, run).available[n] >= s.available[n]
    decreases |run|
  {
    hide Next, SameRows;
    if run != [] {
      var s1 := Next(s, run[0].c, run[0].a);
      OnlyOwnerActs(s, run[0].c, run[0].a, n);
      OthersLeaveAlone(s1, run[1..], n);
      SameRowsTwice(s, s1, Exec(s1, run[1..]), n);
    } else {
      SameRowsIsReflexive(s, n);
    }
  }

  lemma SameRowsIsReflexive(s: Ledger, n: Name)
    ensures SameRows(s, s, n)
  {
  }

  // ---- what is locked stays locked ----

  /** A live fix-time vote with that principal and power, locked until that height. */
  predicate Locked(s: Ledger, k: FixKey, principal: int, power: int, until: nat) {
    k in s.fixvotes && !s.fixvotes[k].isWithdraw && s.fixvotes[k].withdrawAt == until &&
    s.fixvotes[k].principal == principal && s.fixvotes[k].power.staked == power
  }

  lemma LockStep(s: Ledger, c: Context, a: Action, k: FixKey, principal: int, power: int, until: nat)
    requires Locked(s, k, principal, power, until) && c.height < until
    ensures Locked(Next(s, c, a), k, principal, power, until)
  {
    OnlyOwnerActs(s, c, a, k.voter);
    if Can(s, c, a) {
      if a.Claim? {
        ClaimKeepsLocks(s, c, a, k);
      } else if a.RevoteFix? {
        RevoteFixMoves(s, c, a.voter, a.id, a.bp);
      } else if a.OutFixVote? {
        OutFixVoteMoves(s, c, a.voter, a.id);
      } else if a.VoteFix? {
        VoteFixLocks(s, c, a.voter, a.bp, a.typ, a.stake, a.source, a.id);
      } else {
        OthersKeepFixes(s, c, a);
      }
    }
  }

  lemma ClaimKeepsLocks(s: Ledger, c: Context, a: Action, k: FixKey)
    requires a.Claim? && Can(s, c, a) && k in s.fixvotes && !s.fixvotes[k].isWithdraw
    ensures k in Next(s, c, a).fixvotes
    ensures var f, f' := s.fixvotes[k], Next(s, c, a).fixvotes[k];
      f' == f.(power := f'.power) && f'.power.staked == f.power.staked
  {
    hide Total, ClaimedAge, Share;
  }

  lemma OthersKeepFixes(s: Ledger, c: Context, a: Action)
    requires Can(s, c, a) && !a.Claim? && !a.VoteFix? && !a.RevoteFix? && !a.OutFixVote?
    ensures Next(s, c, a).fixvotes == s.fixvotes
  {
    hide Total, Whole, AddStake, CanIssue, BpsAfterIssue, BpsrewardAfterIssue, BudgetReward;
  }

  /** Whatever anyone signs, its owner included, a fix-time vote keeps its principal and its power, and cannot be taken
      out, before the height its type promised. */
  lemma {:induction false} LockedUntil(s: Ledger, run: seq<Step>, k: FixKey, principal: int, power: int, until: nat)
    requires Locked(s, k, principal, power, until) && forall i | 0 <= i < |run| :: run[i].c.height < until
    ensures Locked(Exec(s, run), k, principal, power, until)
    ensures forall c: Context | c.height < until :: !Can(Exec(s, run), c, OutFixVote(k.voter, k.id))
    decreases |run|
  {
    hide Next;
    if run != [] {
      LockStep(s, run[0].c, run[0].a, k, principal, power, until);
      LockedUntil(Next(s, run[0].c, run[0].a), run[1..], k, principal, power, until);
    }
  }

  // ---- what is staked comes back ----

  /** Tokens taken off a vote are locked for FROZEN_DELAY blocks and not longer: after any actions of others the voter's
      unfreeze is accepted and returns them, with what was unstaking there before. */
  lemma StakeComesBack(s: Ledger, c: Context, kind: Kind, voter: Name, bp: Name, stake: int, others: seq<Step>,
                       c': Context)
    requires Can(s, c, VoteFor(kind, voter, bp, stake)) &&
      stake < Held(s.Table(kind), VoteKey(voter, bp)).voteage.staked
    requires 0 <= Held(s.Table(kind), VoteKey(voter, bp)).unstaking
    requires ByOthers(others, voter) && c'.signer == voter && c.height + FROZEN_DELAY < c'.height
    ensures var row := Held(s.Table(kind), VoteKey(voter, bp));
      var s2 := Exec(Next(s, c, VoteFor(kind, voter, bp, stake)), others);
      Can(s2, c', Unfreeze(kind, voter, bp)) &&
      Next(s2, c', Unfreeze(kind, voter, bp)).available[voter] ==
        s2.available[voter] + row.unstaking + row.voteage.staked - stake
  {
    var s1, key := Next(s, c, VoteFor(kind, voter, bp, stake)), VoteKey(voter, bp);
    VoteSets(s, c, kind, voter, bp, stake);
    hide Next, Exec;
    assert voter in s1.available && key in s1.Table(kind);
    OthersLeaveAlone(s1, others, voter);
    var s2 := Exec(s1, others);
    assert SameAt(s1.votes, s2.votes, key) && SameAt(s1.votes4ram, s2.votes4ram, key);
    UnfreezeIsAccepted(s2, c', kind, voter, bp);
  }

  lemma UnfreezeIsAccepted(s: Ledger, c: Context, kind: Kind, voter: Name, bp: Name)
    requires c.signer == voter && voter in s.available && VoteKey(voter, bp) in s.Table(kind)
    requires s.Table(kind)[VoteKey(voter, bp)].unstakeHeight + FROZEN_DELAY < c.height
    requires 0 < s.Table(kind)[VoteKey(voter, bp)].unstaking
    ensures Can(s, c, Unfreeze(kind, voter, bp))
    ensures Next(s, c, Unfreeze(kind, voter, bp)).available[voter] ==
            s.available[voter] + s.Table(kind)[VoteKey(voter, bp)].unstaking
  {
  }

  /** A fix-time vote can be taken out from the height its type promises, whatever others did in the meantime, and
      FROZEN_DELAY blocks later its principal is back in the balance. */
  lemma FixVoteComesBack(s: Ledger, c1: Context, voter: Name, bp: Name, typ: string, stake: int, source: Source,
                         id: nat, others1: seq<Step>, c2: Context, others2: seq<Step>, c3: Context)
    requires Can(s, c1, VoteFix(voter, bp, typ, stake, source, id)) && 0 <= Held(s.votes, VoteKey(voter, bp)).unstaking
    requires ByOthers(others1, voter) && ByOthers(others2, voter) && c2.signer == voter && c3.signer == voter
    requires var s1 := Next(s, c1, VoteFix(voter, bp, typ, stake, source, id));
      FixKey(voter, id) in s1.fixvotes ==> s1.fixvotes[FixKey(voter, id)].withdrawAt <= c2.height
    requires c2.height + FROZEN_DELAY < c3.height
    ensures var s2 := Exec(Next(s, c1, VoteFix(voter, bp, typ, stake, source, id)), others1);
      Can(s2, c2, OutFixVote(voter, id)) &&
      var s3 := Exec(Next(s2, c2, OutFixVote(voter, id)), others2);
      Can(s3, c3, Unfreeze(Plain, voter, bp)) &&
      Next(s3, c3, Unfreeze(Plain, voter, bp)).available[voter] >= s3.available[voter] + stake
  {
    var key, k := VoteKey(voter, bp), FixKey(voter, id);
    var s1 := Next(s, c1, VoteFix(voter, bp, typ, stake, source, id));
    FixVoteIsLocked(s, c1, voter, bp, typ, stake, source, id);
    hide Next, Exec;
    OthersLeaveAlone(s1, others1, voter);
    var s2 := Exec(s1, others1);
    assert SameAt(s1.fixvotes, s2.fixvotes, k) && SameAt(s1.votes, s2.votes, key);
    OutFixVoteIsAccepted(s2, c2, voter, id);
    OutFixVoteMoves(s2, c2, voter, id);
    var s2' := Next(s2, c2, OutFixVote(voter, id));
    OthersLeaveAlone(s2', others2, voter);
    var s3 := Exec(s2', others2);
    assert SameAt(s2'.votes, s3.votes, key);
    UnfreezeIsAccepted(s3, c3, Plain, voter, bp);
  }

  lemma FixVoteIsLocked(s: Ledger, c: Context, voter: Name, bp: Name, typ: string, stake: int, source: Source, id: nat)
    requires Can(s, c, VoteFix(voter, bp, typ, stake, source, id)) && 0 <= Held(s.votes, VoteKey(voter, bp)).unstaking
    ensures var s' := Next(s, c, VoteFix(voter, bp, typ, stake, source, id));
      voter in s'.available && FixKey(voter, id) in s'.fixvotes && bp in s'.bps &&
      var f := s'.fixvotes[FixKey(voter, id)];
      f.bp == bp && f.principal == stake > 0 && !f.isWithdraw && 0 <= Held(s'.votes, VoteKey(voter, bp)).unstaking
  {
    hide FindType, Whole;
  }

  lemma OutFixVoteIsAccepted(s: Ledger, c: Context, voter: Name, id: nat)
    requires c.signer == voter && voter in s.available && FixKey(voter, id) in s.fixvotes
    requires var f := s.fixvotes[FixKey(voter, id)]; f.bp in s.bps && f.withdrawAt <= c.height && !f.isWithdraw
    ensures Can(s, c, OutFixVote(voter, id))
  {
  }

  // ---- frozen accounts and banned producers ----

  /** A frozen account's stakes stay where they are, whatever anyone signs. */
  lemma FrozenKeepsStakes(s: Ledger, c: Context, a: Action, n: Name)
    requires n in c.frozen
    ensures var s' := Next(s, c, a);
      (forall k: VoteKey | k.voter == n ::
         Held(s'.votes, k).voteage.staked == Held(s.votes, k).voteage.staked &&
         Held(s'.votes4ram, k).voteage.staked == Held(s.votes4ram, k).voteage.staked) &&
      (forall k: FixKey | k.voter == n && k in s'.fixvotes ::
         k in s.fixvotes && s'.fixvotes[k].bp == s.fixvotes[k].bp &&
         s'.fixvotes[k].power.staked == s.fixvotes[k].power.staked)
  {
    hide Total, Whole, ClaimedAge, AddStake, FindType, CanIssue, Share;
  }

  /** The stake on a banned producer rises by a revote to it and by nothing else: revote does not look at the ban. */
  lemma BannedGainsByRevoteOnly(s: Ledger, c: Context, a: Action, n: Name)
    requires n in s.blacklist && n in s.bps
    requires forall k | k in s.fixvotes :: 0 <= s.fixvotes[k].power.staked
    ensures n in Next(s, c, a).bps && n in Next(s, c, a).blacklist
    ensures Next(s, c, a).bps[n].totalStaked > s.bps[n].totalStaked <==>
            Can(s, c, a) && a.Revote? && a.tobp == n
  {
    OnlyOwnerActs(s, c, a, n);
    if !Can(s, c, a) {
    } else if a.VoteFor? {
      VoteRestakes(s, c, a.kind, a.voter, a.bp, a.stake);
      if a.bp == n {
        BannedVoteIsLess(s, c, a, n);
      }
      hide Can, Next;
      WholeSign(a.stake - Held(s.Table(a.kind), VoteKey(a.voter, a.bp)).voteage.staked);
    } else if a.Revote? {
      RevoteMoves(s, c, a.voter, a.frombp, a.tobp, a.restake);
      RevoteIsPositive(s, c, a);
      hide Can, Next;
    } else if a.VoteFix? {
      VoteFixLocks(s, c, a.voter, a.bp, a.typ, a.stake, a.source, a.id);
    } else if a.RevoteFix? {
      RevoteFixMoves(s, c, a.voter, a.id, a.bp);
      WholeSign(-s.fixvotes[FixKey(a.voter, a.id)].power.staked);
    } else if a.OutFixVote? {
      OutFixVoteMoves(s, c, a.voter, a.id);
      WholeSign(-s.fixvotes[FixKey(a.voter, a.id)].power.staked);
    } else {
      OthersKeepStakes(s, c, a, n);
    }
  }

  lemma WholeSign(amount: int)
    ensures amount <= 0 ==> Whole(amount) <= 0
  {
  }

  lemma BannedVoteIsLess(s: Ledger, c: Context, a: Action, n: Name)
    requires Can(s, c, a) && a.VoteFor? && n in s.blacklist && n == a.bp
    ensures a.stake <= Held(s.Table(a.kind), VoteKey(a.voter, a.bp)).voteage.staked
  {
  }

  lemma RevoteIsPositive(s: Ledger, c: Context, a: Action)
    requires Can(s, c, a) && a.Revote?
    ensures 0 < Whole(a.restake) && a.frombp != a.tobp
  {
    WholeParts(a.restake);
  }

  lemma OthersKeepStakes(s: Ledger, c: Context, a: Action, n: Name)
    requires Can(s, c, a) && n in s.bps
    requires !a.VoteFor? && !a.Revote? && !a.VoteFix? && !a.RevoteFix? && !a.OutFixVote?
    ensures n in Next(s, c, a).bps && Next(s, c, a).bps[n].totalStaked == s.bps[n].totalStaked
    ensures s.blacklist <= Next(s, c, a).blacklist
  {
    hide Total, ClaimedAge, FixAfterClaim, BpsrewardAfterIssue, PoolShare;
  }

  // ---- an example ----

  function OneToken(): Ledger {
    Ledger(map[10 := 10000], map[], map[], map[], map[], map[], 0, {}, map[])
  }

  /** Both producers register, 10 votes for 20, and 30 is banned. */
  function UntilTheBan(): seq<Step> {
    [Step(Context(1, 20, {}), UpdateBp(20, 1)), Step(Context(1, 30, {}), UpdateBp(30, 1)),
     Step(Context(1, 10, {}), VoteFor(Plain, 10, 20, 10000)), Step(Context(1, SYSTEM_ACCOUNT, {}), RemoveBp(30))]
  }

  function Registered(): Ledger {
    OneToken().(bps := map[20 := Bp(0, 0, 0, 0, 1), 30 := Bp(0, 0, 0, 0, 1)])
  }

  function Voted(): Ledger {
    Registered().(available := map[10 := 0], votes := map[VoteKey(10, 20) := Vote(AssetAge(10000, 0, 1), 0, 0)],
                  bps := map[20 := Bp(1, 0, 1, 0, 1), 30 := Bp(0, 0, 0, 0, 1)], gvotestat := 1)
  }

  lemma FirstSteps()
    ensures var run := UntilTheBan();
      Next(Next(OneToken(), run[0].c, run[0].a), run[1].c, run[1].a) == Registered()
  {
  }

  lemma ThenVoted()
    ensures var step := UntilTheBan()[2]; Next(Registered(), step.c, step.a) == Voted()
  {
    OneIsWhole();
    hide Whole, IsWhole, CanIssue, CanClaim, FindType, Total, CanVoteFix, CanRevoteFix, CanOutFixVote;
  }

  lemma OneIsWhole()
    ensures Whole(10000) == 1 && IsWhole(10000)
  {
  }

  lemma ThenBanned()
    ensures var step := UntilTheBan()[3]; Next(Voted(), step.c, step.a) == Voted().(blacklist := {30})
  {
  }

  lemma TheBan()
    ensures Exec(OneToken(), UntilTheBan()) == Voted().(blacklist := {30})
  {
    FirstSteps();
    ThenVoted();
    ThenBanned();
    hide Next, OneToken, Registered, Voted;
    var run := UntilTheBan();
    assert run[1..][1..] == run[2..] && run[2..][1..] == run[3..] && run[3..][1..] == [];
  }

  /** After that run the banned producer has no stake, and a revote to it is accepted and gives it one token. */
  lemma BannedGains()
    ensures Genesis(OneToken()) && Ordered(0, UntilTheBan())
    ensures var s, c, a := Exec(OneToken(), UntilTheBan()), Context(1, 10, {}), Revote(10, 20, 30, 10000);
      30 in s.blacklist && 30 in s.bps && s.bps[30].totalStaked == 0 && Can(s, c, a) &&
      30 in Next(s, c, a).blacklist && 30 in Next(s, c, a).bps && Next(s, c, a).bps[30].totalStaked == 1
  {
    TheBan();
    ThenMoved();
    hide Exec, Next, Can, Voted;
  }

  lemma ThenMoved()
    ensures var s, c, a := Voted().(blacklist := {30}), Context(1, 10, {}), Revote(10, 20, 30, 10000);
      30 in s.blacklist && 30 in s.bps && s.bps[30].totalStaked == 0 && Can(s, c, a) &&
      30 in Next(s, c, a).blacklist && 30 in Next(s, c, a).bps && Next(s, c, a).bps[30].totalStaked == 1
  {
  }
}
