/** The system contract itself: its tables, updated in place by its actions. Each method's effect is the one the
    models of the ledger, of the block rounds and of the punishment protocol prescribe; where a check fails, the tables
    are as before: what was written until then is put back, as the host drops it. */
module SystemContract {
  import opened Base
  import opened Totals
  import opened StakeAge
  import opened VoteLedger
  import opened BlockRounds
  import Punishment
  import Election
  import LastProducers
  import BlockCredits
  import WatchRuns
  import VoteAges
  import VoteRuns
  import opened StakeRow

  const UPDATE_CYCLE: nat := NUM_OF_TOP_BPS * 5

  lemma WholeOfZero()
    ensures Whole(0) == 0
  {
  }

  /** What onblock asks the host: the time, the longest allowed age of a heartbeat, whether heartbeats and punishments
      count yet, and from which height schedules are updated. */
  datatype Settings = Settings(now: nat, hbMax: int, heartbeatOpen: bool, punishOpen: bool, updateFrom: int) {
    function MaxAge(): int {
      if hbMax < 0 then 3600 else hbMax
    }

    predicate UpdatesOpen(height: nat) {
      updateFrom < 0 || updateFrom <= height
    }
  }

  predicate PassesHeartbeat(n: Name, heartbeats: map<Name, nat>, x: Settings) {
    x.heartbeatOpen ==> n in heartbeats && x.now <= heartbeats[n] + x.MaxAge()
  }

  // A heartbeat, made by the action or by producing a block.
  datatype Pulse = Pulse(bp: Name, time: nat)

  function AfterPulses(heartbeats: map<Name, nat>, pulses: seq<Pulse>): map<Name, nat> {
    if pulses == [] then heartbeats
    else
      var last := pulses[|pulses| - 1];
      AfterPulses(heartbeats, pulses[..|pulses| - 1])[last.bp := last.time]
  }

  lemma OnePulse(heartbeats: map<Name, nat>, pulse: Pulse)
    ensures AfterPulses(heartbeats, [pulse]) == heartbeats[pulse.bp := pulse.time]
  {
    assert [pulse][..0] == [];
  }

  /** A producer passes the heartbeat test, once it counts, if and only if one of all the heartbeats so far is its own
      and recent enough. */
  lemma {:induction false} AliveIfRecent(pulses: seq<Pulse>, n: Name, x: Settings)
    requires forall i, j | 0 <= i < j < |pulses| :: pulses[i].time <= pulses[j].time
    ensures var beats := AfterPulses(map[], pulses);
      PassesHeartbeat(n, beats, x) <==>
        (x.heartbeatOpen ==>
           exists i :: 0 <= i < |pulses| && pulses[i].bp == n && x.now <= pulses[i].time + x.MaxAge())
  {
    if pulses != [] {
      var k := |pulses| - 1;
      AliveIfRecent(pulses[..k], n, x);
      assert forall i | 0 <= i < k :: pulses[..k][i] == pulses[i];
      if pulses[k].bp == n {
        assert forall i | 0 <= i <= k :: pulses[i].time <= pulses[k].time;
      }
    }
  }

  /** A recent heartbeat, enough pledge, not punished. */
  predicate MayEarn(n: Name, heartbeats: map<Name, nat>, pledges: map<Name, int>, monitors: map<Name, Monitor>,
                    x: Settings) {
    PassesHeartbeat(n, heartbeats, x) &&
    (x.punishOpen ==> n in pledges && pledges[n] > BASE_BLOCK_OUT_PLEDGE) &&
    !(n in monitors && monitors[n].status == Punished)
  }

  function AbleOf(names: set<Name>, heartbeats: map<Name, nat>, pledges: map<Name, int>, monitors: map<Name, Monitor>,
                  x: Settings): set<Name>
  {
    set n | n in names && MayEarn(n, heartbeats, pledges, monitors, x)
  }

  /** Who may earn in a block: its producer has just made a heartbeat, and the round it closes is settled. */
  ghost function AbleAt(s: Ledger, w: Watch, heartbeats: map<Name, nat>, b: Block, cfg: Config,
                        x: Settings): set<Name> {
    AbleOf(s.bps.Keys, heartbeats[b.bp := x.now], b.pledges, BlockStep(w, b, cfg).monitors, x)
  }

  /** Making a block is a heartbeat: the producer of the block lacks nothing but pledge or freedom from punishment. */
  lemma ProducerIsAlive(s: Ledger, w: Watch, heartbeats: map<Name, nat>, b: Block, cfg: Config, x: Settings)
    requires b.bp in s.bps
    ensures b.bp in AbleAt(s, w, heartbeats, b, cfg, x) <==>
            (x.punishOpen ==> b.bp in b.pledges && b.pledges[b.bp] > BASE_BLOCK_OUT_PLEDGE) &&
            !(b.bp in w.monitors && w.monitors[b.bp].status == Punished)
  {
    hide BlockStep;
    WatchRuns.BlocksLeavePunished(w, b, cfg, b.bp);
  }

  /** Who may earn in a block, by the heartbeats so far: a registered producer that makes the block or made a recent
      heartbeat, once these count, pledged enough, once punishments count, and is not punished. */
  lemma WhoMayEarn(s: Ledger, w: Watch, pulses: seq<Pulse>, b: Block, cfg: Config, x: Settings, n: Name)
    requires forall i, j | 0 <= i < j < |pulses| :: pulses[i].time <= pulses[j].time
    requires forall i | 0 <= i < |pulses| :: pulses[i].time <= x.now
    ensures n in AbleAt(s, w, AfterPulses(map[], pulses), b, cfg, x) <==>
            n in s.bps &&
            (x.heartbeatOpen && n != b.bp ==>
               exists i :: 0 <= i < |pulses| && pulses[i].bp == n && x.now <= pulses[i].time + x.MaxAge()) &&
            (x.punishOpen ==> n in b.pledges && b.pledges[n] > BASE_BLOCK_OUT_PLEDGE) &&
            !(n in w.monitors && w.monitors[n].status == Punished)
  {
    AliveIfRecent(pulses, n, x);
    WatchRuns.BlocksLeavePunished(w, b, cfg, n);
    hide BlockStep, AfterPulses;
  }

  class System {
    var available: map<Name, int>
    var votes: map<VoteKey, Vote>
    var votes4ram: map<VoteKey, Vote>
    var vote4ramsum: map<Name, int>
    var fixvotes: map<FixKey, FixVote>
    var bps: map<Name, Bp>
    var gvotestat: int
    var hasVotestat: bool  // whether the row of gvotestat is there
    var blacklist: set<Name>
    var bpsreward: map<Name, int>

    var schedules: map<nat, Schedule>
    var monitors: map<Name, Monitor>
    var blockReward: Option<BlockReward>
    var punishbps: map<Name, Proposal>
    var drainLog: map<LogKey, nat>
    var heartbeats: map<Name, nat>

    // The ring of the last producers; there is none before the first block.
    var last: LastProducers.Ring?

    ghost function LastRepr(): set<object>
      reads this
    {
      if last == null then {} else {last, last.producers}
    }

    ghost predicate Valid()
      reads this, LastRepr()
    {
      (last != null ==> last.Valid()) && forall v | v in schedules :: Distinct(Names(schedules[v]))
    }

    /** The producers of all blocks so far. */
    ghost function Blocks(): seq<Name>
      reads this, LastRepr()
    {
      if last == null then [] else last.blocks
    }

    function Tables(): Ledger
      reads this
    {
      Ledger(available, votes, votes4ram, vote4ramsum, fixvotes, bps, gvotestat, blacklist, bpsreward)
    }

    function Watched(): Watch
      reads this
    {
      Watch(schedules, monitors, blockReward, punishbps)
    }

    /** The state that runs start from: balances, and a schedule in force. */
    constructor (balances: map<Name, int>, version: nat, schedule: Schedule)
      requires VoteAges.NoneNegative(balances) && |schedule| == NUM_OF_TOP_BPS && Distinct(Names(schedule))
      ensures Valid() && VoteRuns.Genesis(Tables()) && available == balances && Blocks() == []
      ensures forall h :: BlockCredits.Start(BlockCredits.Chain(Watched(), version, h, BlockCredits.Payouts(h, 0)))
    {
      available, votes, votes4ram, vote4ramsum, fixvotes := balances, map[], map[], map[], map[];
      bps, gvotestat, blacklist, bpsreward := map[], 0, {}, map[];
      schedules, monitors, blockReward, punishbps := map[version := schedule], map[], None, map[];
      hasVotestat, drainLog, heartbeats, last := false, map[], map[], null;
    }

    // ---- transfer.cpp ----

    method TransferTo(c: Context, from: Name, to: Name, quantity: int) returns (ok: bool)
      modifies this`available
      ensures ok == Can(old(Tables()), c, Transfer(from, to, quantity))
      ensures Tables() == Next(old(Tables()), c, Transfer(from, to, quantity))
    {
      if c.signer != from || from !in available || to !in available { return false; }
      if !(0 <= quantity <= available[from]) || from in c.frozen { return false; }
      available := available[from := available[from] - quantity];
      available := available[to := available[to] + quantity];
      return true;
    }

    // ---- vote.cpp ----

    method Put(kind: Kind, key: VoteKey, row: Vote)
      modifies this`votes, this`votes4ram
      ensures votes == if kind == Plain then old(votes)[key := row] else old(votes)
      ensures votes4ram == if kind == ForRam then old(votes4ram)[key := row] else old(votes4ram)
    {
      if kind == Plain {
        votes := votes[key := row];
      } else {
        votes4ram := votes4ram[key := row];
      }
    }

    /** add_total_staked on the producer's row. */
    method AddTotalStaked(bp: Name, h: nat, amount: int)
      requires bp in bps
      modifies this`bps
      ensures bps == AddStake(old(bps), bp, h, amount)
    {
      bps := bps[bp := bps[bp].AddTotalStaked(h, amount)];
    }

    /** get_global_votestate: the row, created from the producers' stakes if it is not there. */
    method MakeVotestat()
      modifies this`gvotestat, this`hasVotestat
      ensures hasVotestat
      ensures gvotestat == StakeFound(!old(hasVotestat), old(gvotestat), bps)
    {
      if hasVotestat { return; }
      hide Total, Rest;
      var rest, sum := bps.Keys, 0;
      ghost var w := VoteAges.BpStake();
      RestOfAll(bps, w, rest);
      while rest != {}
        invariant rest <= bps.Keys && sum + Total(Rest(bps, rest), w) == Total(bps, w)
        decreases |rest|
      {
        var n :| n in rest;
        RestNext(bps, w, rest, n);
        sum := sum + bps[n].totalStaked;
        rest := rest - {n};
      }
      RestOfNone(bps, w);
      gvotestat, hasVotestat := sum, true;
    }

    method OnChangeTotalStaked(change: int)
      modifies this`gvotestat, this`hasVotestat
      ensures hasVotestat
      ensures gvotestat == StakeFound(!old(hasVotestat), old(gvotestat), bps) + Whole(change)
    {
      MakeVotestat();
      gvotestat := gvotestat + Whole(change);
    }

    /** The voter's row, found or new, with its stake changed. */
    static method VotedRow(table: map<VoteKey, Vote>, key: VoteKey, stake: int, h: nat) returns (change: int, row: Vote)
      ensures change == stake - StakedIn(table, key) && row == RowAfterVote(table, key, stake, h)
    {
      if key !in table {
        change, row := stake, Vote(AssetAge(stake, 0, h), 0, 0);
      } else {
        change := stake - table[key].voteage.staked;
        row := table[key].(voteage := table[key].voteage.ChangeStakedTo(h, stake));
        if change < 0 {
          row := row.(unstaking := row.unstaking - change, unstakeHeight := h);
        }
      }
    }

    /** What vote and vote4ram share; the sums of vote4ram are left to the caller. */
    method VoteByTyp(c: Context, kind: Kind, voter: Name, bp: Name, stake: int) returns (ok: bool, change: int)
      modifies this`available, this`votes, this`votes4ram, this`bps, this`gvotestat, this`hasVotestat
      ensures ok == CanVote(old(Tables()), c, kind, voter, bp, stake)
      ensures ok ==> change == VoteChange(old(Tables()), kind, voter, bp, stake)
      ensures hasVotestat == (old(hasVotestat) || (ok && change != 0))
      ensures gvotestat == if ok && change != 0 then StakeFound(!old(hasVotestat), old(gvotestat), bps) + Whole(change)
                           else old(gvotestat)
      ensures Tables() == if ok then AfterVote(old(Tables()), kind, voter, bp, stake, c.height)
                                       .(vote4ramsum := vote4ramsum, gvotestat := gvotestat)
                          else old(Tables())
    {
      hide AddStake, RowAfterVote, StakedIn, Whole, IsWhole, StakeFound;
      if c.signer != voter || voter !in available || bp !in bps { return false, 0; }
      if stake < 0 || !IsWhole(stake) || voter in c.frozen { return false, 0; }
      var row;
      change, row := VotedRow(Tables().Table(kind), VoteKey(voter, bp), stake, c.height);
      if change > available[voter] || (change > 0 && bp in blacklist) { return false, 0; }
      Put(kind, VoteKey(voter, bp), row);
      WholeOfZero();
      if change == 0 { return true, 0; }
      if change > 0 {
        available := available[voter := available[voter] - change];
      }
      AddTotalStaked(bp, c.height, change);
      OnChangeTotalStaked(change);
      return true, change;
    }

    method VoteOn(c: Context, voter: Name, bp: Name, stake: int) returns (ok: bool)
      modifies this`available, this`votes, this`votes4ram, this`bps, this`gvotestat, this`hasVotestat
      ensures ok == Can(old(Tables()), c, VoteFor(Plain, voter, bp, stake))
      ensures old(hasVotestat) ==> hasVotestat
      ensures Tables() == Next(Seen(old(Tables()), hasVotestat && !old(hasVotestat), bps),
                               c, VoteFor(Plain, voter, bp, stake))
    {
      var change;
      ok, change := VoteByTyp(c, Plain, voter, bp, stake);
      NextVoteSeen(old(Tables()), hasVotestat && !old(hasVotestat), bps, c, Plain, voter, bp, stake);
    }

    method Vote4Ram(c: Context, voter: Name, bp: Name, stake: int) returns (ok: bool)
      modifies this`available, this`votes, this`votes4ram, this`vote4ramsum, this`bps, this`gvotestat, this`hasVotestat
      ensures ok == Can(old(Tables()), c, VoteFor(ForRam, voter, bp, stake))
      ensures old(hasVotestat) ==> hasVotestat
      ensures Tables() == Next(Seen(old(Tables()), hasVotestat && !old(hasVotestat), bps),
                               c, VoteFor(ForRam, voter, bp, stake))
    {
      var change;
      ok, change := VoteByTyp(c, ForRam, voter, bp, stake);
      NextVoteSeen(old(Tables()), hasVotestat && !old(hasVotestat), bps, c, ForRam, voter, bp, stake);
      if !ok { return; }
      if voter !in vote4ramsum {
        vote4ramsum := vote4ramsum[voter := stake];
      } else {
        vote4ramsum := vote4ramsum[voter := vote4ramsum[voter] + change];
      }
    }

    method MoveVote(c: Context, voter: Name, frombp: Name, tobp: Name, restake: int) returns (ok: bool)
      modifies this`votes, this`bps
      ensures ok == Can(old(Tables()), c, Revote(voter, frombp, tobp, restake))
      ensures Tables() == Next(old(Tables()), c, Revote(voter, frombp, tobp, restake))
    {
      if c.signer != voter || frombp == tobp || restake <= 0 || !IsWhole(restake) || voter in c.frozen { return false; }
      if frombp !in bps || tobp !in bps { return false; }
      var kf, kt := VoteKey(voter, frombp), VoteKey(voter, tobp);
      if kf !in votes || restake > votes[kf].voteage.staked { return false; }
      votes := votes[kf := votes[kf].(voteage := votes[kf].voteage.MinusStakedBy(c.height, restake))];
      if kt !in votes {
        votes := votes[kt := Vote(AssetAge(restake, 0, c.height), 0, 0)];
      } else {
        votes := votes[kt := votes[kt].(voteage := votes[kt].voteage.AddStakedBy(c.height, restake))];
      }
      AddTotalStaked(frombp, c.height, -restake);
      AddTotalStaked(tobp, c.height, restake);
      return true;
    }

    method UnfreezeByTyp(c: Context, kind: Kind, voter: Name, bp: Name) returns (ok: bool)
      modifies this`available, this`votes, this`votes4ram
      ensures ok == Can(old(Tables()), c, Unfreeze(kind, voter, bp))
      ensures Tables() == Next(old(Tables()), c, Unfreeze(kind, voter, bp))
    {
      var key, table := VoteKey(voter, bp), Tables().Table(kind);
      if c.signer != voter || voter !in available || key !in table { return false; }
      if table[key].unstakeHeight + FROZEN_DELAY >= c.height || table[key].unstaking <= 0 { return false; }
      available := available[voter := available[voter] + table[key].unstaking];
      Put(kind, key, table[key].(unstaking := 0));
      return true;
    }

    /** The voter's fix-time votes on the producer, one by one: their ages are added up and start anew, and the
        withdrawn ones are erased. */
    method ClaimFixVotes(h: nat, voter: Name, bp: Name) returns (age: int)
      modifies this`fixvotes
      ensures age == Total(old(fixvotes), FixAgeClaimed(voter, bp, h))
      ensures fixvotes == FixAfterClaim(old(fixvotes), voter, bp, h)
    {
      hide Total, Rest, FixAfterClaim, FixClaimedBut;
      ghost var fix0, w := fixvotes, FixAgeClaimed(voter, bp, h);
      var rest := set k | k in fixvotes && ClaimedRow(voter, bp, k, fixvotes[k]);
      age := 0;
      RestOfAll(fix0, w, rest);
      ClaimedAtEnds(fix0, voter, bp, h);
      while rest != {}
        invariant rest <= fix0.Keys && forall k | k in rest :: ClaimedRow(voter, bp, k, fix0[k])
        invariant age + Total(Rest(fix0, rest), w) == Total(fix0, w)
        invariant fixvotes == FixClaimedBut(fix0, voter, bp, h, rest)
        decreases |rest|
      {
        var k :| k in rest;
        RestNext(fix0, w, rest, k);
        ClaimedNext(fix0, voter, bp, h, rest, k);
        age := age + fixvotes[k].GetAge(h);
        if !fixvotes[k].isWithdraw {
          fixvotes := fixvotes[k := fixvotes[k].CleanAge(h)];
        } else {
          fixvotes := fixvotes - {k};
        }
        rest := rest - {k};
      }
      RestOfNone(fix0, w);
    }

    method ClaimVote(h: nat, key: VoteKey) returns (age: int)
      modifies this`votes
      ensures age == VoteAgeClaimed(old(votes), key, h) && votes == VotesAfterClaim(old(votes), key, h)
    {
      age := 0;
      if key in votes {
        age := votes[key].voteage.GetAge(h);
        votes := votes[key := votes[key].(voteage := votes[key].voteage.CleanAge(h))];
      }
    }

    method ClaimReward(c: Context, voter: Name, bp: Name) returns (ok: bool)
      modifies this`available, this`votes, this`fixvotes, this`bps
      ensures ok == Can(old(Tables()), c, Claim(voter, bp))
      ensures Tables() == Next(old(Tables()), c, Claim(voter, bp))
    {
      hide Total, FixAfterClaim, FixAgeClaimed, VoteAgeClaimed, VotesAfterClaim, Bp.GetAge, TruncDiv;
      if c.signer != voter || voter !in available || bp !in bps { return false; }
      var votes0, fixvotes0 := votes, fixvotes;
      var voteAge := ClaimVote(c.height, VoteKey(voter, bp));
      var totalAge := bps[bp].GetAge(c.height);
      if totalAge <= 0 {
        votes := votes0;
        return false;
      }
      var fixAge := ClaimFixVotes(c.height, voter, bp);
      var age := voteAge + fixAge;
      var reward := TruncDiv(bps[bp].rewardsPool * age, totalAge);
      if !(0 <= reward <= bps[bp].rewardsPool) {
        votes, fixvotes := votes0, fixvotes0;
        return false;
      }
      available := available[voter := available[voter] + reward];
      bps := bps[bp := bps[bp].(rewardsPool := bps[bp].rewardsPool - reward, totalVoteage := totalAge - age,
                                updateHeight := c.height)];
      return true;
    }

    /** Takes the stake of a new fix-time vote from where the voter wants it taken. */
    method TakeStake(voter: Name, bp: Name, stake: int, source: Source) returns (ok: bool)
      requires voter in available
      modifies this`available, this`votes
      ensures var key := VoteKey(voter, bp);
        ok == (if source == AccountToken then stake <= old(available)[voter]
               else source == UnstakingToken && key in old(votes) && stake < old(votes)[key].unstaking) &&
        available == (if ok && source == AccountToken then old(available)[voter := old(available)[voter] - stake]
                      else old(available)) &&
        votes == (if ok && source == UnstakingToken
                  then old(votes)[key := old(votes)[key].(unstaking := old(votes)[key].unstaking - stake)]
                  else old(votes))
    {
      var key := VoteKey(voter, bp);
      match source {
        case AccountToken =>
          if stake > available[voter] { return false; }
          available := available[voter := available[voter] - stake];
        case UnstakingToken =>
          if key !in votes || stake >= votes[key].unstaking { return false; }
          votes := votes[key := votes[key].(unstaking := votes[key].unstaking - stake)];
        case Unsupported =>
          return false;
      }
      return true;
    }

    method LockVote(c: Context, voter: Name, bp: Name, typ: string, stake: int, source: Source, id: nat)
      returns (ok: bool)
      modifies this`available, this`votes, this`fixvotes, this`bps, this`gvotestat, this`hasVotestat
      ensures ok == Can(old(Tables()), c, VoteFix(voter, bp, typ, stake, source, id))
      ensures old(hasVotestat) ==> hasVotestat
      ensures Tables() == Next(Seen(old(Tables()), hasVotestat && !old(hasVotestat), bps),
                               c, VoteFix(voter, bp, typ, stake, source, id))
    {
      hide FindType, Whole, IsWhole, AddStake, FixRow, Can, Next, Effect, StakeFound;
      NextVoteFix(Tables(), c, voter, bp, typ, stake, source, id);
      NotCreated(Tables(), bps);
      var t := FindType(FIX_TYPES, typ);
      ok := c.signer == voter && t.Some? && voter in available && bp in bps && 0 < stake && IsWhole(stake) &&
            voter !in c.frozen && bp !in blacklist && FixKey(voter, id) !in fixvotes;
      if !ok { return; }
      ok := TakeStake(voter, bp, stake, source);
      if !ok { return; }
      AddFixVote(voter, bp, t.value, stake, id, c.height);
      NextVoteFixSeen(old(Tables()), !old(hasVotestat), bps, c, voter, bp, typ, stake, source, id);
      NotCreated(old(Tables()), bps);
    }

    method AddFixVote(voter: Name, bp: Name, t: FixType, stake: int, id: nat, h: nat)
      requires bp in bps
      modifies this`fixvotes, this`bps, this`gvotestat, this`hasVotestat
      ensures var row := FixRow(bp, t, stake, h);
        fixvotes == old(fixvotes)[FixKey(voter, id) := row] && bps == AddStake(old(bps), bp, h, row.power.staked) &&
        gvotestat == StakeFound(!old(hasVotestat), old(gvotestat), bps) + Whole(row.power.staked) && hasVotestat
    {
      var powered := stake * t.power;
      fixvotes := fixvotes[FixKey(voter, id) :=
        FixVote(bp, AssetAge(powered, 0, h), stake, h, h + t.days * BLOCK_NUM_PER_DAY, false)];
      AddTotalStaked(bp, h, powered);
      OnChangeTotalStaked(powered);
    }

    method MoveFixVote(c: Context, voter: Name, id: nat, bp: Name) returns (ok: bool)
      modifies this`fixvotes, this`bps
      ensures ok == Can(old(Tables()), c, RevoteFix(voter, id, bp))
      ensures Tables() == Next(old(Tables()), c, RevoteFix(voter, id, bp))
    {
      var key := FixKey(voter, id);
      if c.signer != voter || key !in fixvotes { return false; }
      var f := fixvotes[key];
      if f.bp == bp || f.isWithdraw || f.withdrawAt <= c.height || voter in c.frozen ||
        bp in blacklist { return false; }
      if f.bp !in bps || bp !in bps || f.GetAge(c.height) != 0 { return false; }
      fixvotes := fixvotes[key := f.(bp := bp).CleanAge(c.height)];
      AddTotalStaked(f.bp, c.height, -f.power.staked);
      AddTotalStaked(bp, c.height, f.power.staked);
      return true;
    }

    method TakeOutFixVote(c: Context, voter: Name, id: nat) returns (ok: bool)
      modifies this`votes, this`fixvotes, this`bps, this`gvotestat, this`hasVotestat
      ensures ok == Can(old(Tables()), c, OutFixVote(voter, id))
      ensures old(hasVotestat) ==> hasVotestat
      ensures Tables() == Next(Seen(old(Tables()), hasVotestat && !old(hasVotestat), bps), c, OutFixVote(voter, id))
    {
      hide Whole, AddStake, RowAfterOut, Next, Effect, StakeFound;
      NextOutSeen(Tables(), false, bps, c, voter, id);
      var key := FixKey(voter, id);
      if c.signer != voter || key !in fixvotes || voter !in available { return false; }
      var f := fixvotes[key];
      if f.bp !in bps || f.withdrawAt > c.height || f.isWithdraw { return false; }
      ReleaseFixVote(key, c.height);
      NextOutSeen(old(Tables()), !old(hasVotestat), bps, c, voter, id);
      return true;
    }

    /** The principal goes to unstaking, and the power is taken off the producer. */
    method ReleaseFixVote(key: FixKey, h: nat)
      requires key in fixvotes && fixvotes[key].bp in bps
      modifies this`votes, this`fixvotes, this`bps, this`gvotestat, this`hasVotestat
      ensures var f := old(fixvotes)[key]; var vk := VoteKey(key.voter, f.bp);
        votes == old(votes)[vk := RowAfterOut(old(votes), vk, f.principal, h)] &&
        fixvotes == old(fixvotes)[key := f.(principal := 0, isWithdraw := true)] &&
        bps == AddStake(old(bps), f.bp, h, -f.power.staked) && hasVotestat &&
        gvotestat == StakeFound(!old(hasVotestat), old(gvotestat), bps) + Whole(-f.power.staked)
    {
      hide AddStake, Whole, StakeFound;
      var f := fixvotes[key];
      var vk := VoteKey(key.voter, f.bp);
      if vk !in votes {
        votes := votes[vk := Vote(NO_AGE, f.principal, h)];
      } else {
        votes := votes[vk := votes[vk].(unstaking := votes[vk].unstaking + f.principal, unstakeHeight := h)];
      }
      fixvotes := fixvotes[key := f.(principal := 0, isWithdraw := true)];
      var change := -f.power.staked;
      AddTotalStaked(f.bp, h, change);
      OnChangeTotalStaked(change);
    }

    // ---- producer.cpp ----

    method Register(c: Context, bp: Name, commission: nat) returns (ok: bool)
      modifies this`bps
      ensures ok == Can(old(Tables()), c, UpdateBp(bp, commission))
      ensures Tables() == Next(old(Tables()), c, UpdateBp(bp, commission))
    {
      if c.signer != bp || !(1 <= commission <= 10000) { return false; }
      if bp !in bps {
        bps := bps[bp := Bp(0, 0, 0, 0, commission)];
      } else {
        bps := bps[bp := bps[bp].(commission := commission)];
      }
      return true;
    }

    method Beat(c: Context, bp: Name, now: nat) returns (ok: bool)
      modifies this`heartbeats
      ensures ok == (c.signer == bp && bp in bps)
      ensures heartbeats == AfterPulses(old(heartbeats), if ok then [Pulse(bp, now)] else [])
    {
      if c.signer != bp || bp !in bps { return false; }
      heartbeats := heartbeats[bp := now];
      OnePulse(old(heartbeats), Pulse(bp, now));
      return true;
    }

    method Ban(c: Context, bp: Name) returns (ok: bool)
      modifies this`blacklist
      ensures ok == Can(old(Tables()), c, RemoveBp(bp))
      ensures Tables() == Next(old(Tables()), c, RemoveBp(bp))
    {
      if c.signer != SYSTEM_ACCOUNT { return false; }
      blacklist := blacklist + {bp};
      return true;
    }

    /** bpclaim: the producer's share of the block reward and its own rewards, if together they are enough. */
    method ClaimBp(c: Context, bp: Name) returns (ok: bool)
      modifies this`available, this`bpsreward, this`blockReward, this`monitors
      ensures ok == (CanClaimShare(old(Watched()), bp) &&
        CanPayBp(old(Tables()), c, bp, BlockShare(old(Watched()), bp)))
      ensures Tables() == if ok then AfterPayBp(old(Tables()), bp, BlockShare(old(Watched()), bp)) else old(Tables())
      ensures Watched() == if ok then AfterClaimShare(old(Watched()), bp) else old(Watched())
    {
      hide TruncDiv;
      if c.signer != bp || bp !in available { return false; }
      var blockReward0, monitors0, bpsreward0 := blockReward, monitors, bpsreward;
      var share := 0;
      if blockReward.Some? && bp in monitors {
        var row, age := blockReward.value, monitors[bp].blockAge;
        if row.totalBlockAge <= 0 { return false; }
        share := TruncDiv(age * row.rewardBlockOut, row.totalBlockAge);
        if share >= row.rewardBlockOut { return false; }
        blockReward := Some(row.(totalBlockAge := row.totalBlockAge - age,
                                 rewardBlockOut := row.rewardBlockOut - share));
        monitors := monitors[bp := monitors[bp].(blockAge := 0)];
      }
      var own := 0;
      if bp in bpsreward {
        own := bpsreward[bp];
        bpsreward := bpsreward[bp := 0];
      }
      if own + share <= MIN_CLAIM_BP {
        blockReward, monitors, bpsreward := blockReward0, monitors0, bpsreward0;
        return false;
      }
      available := available[bp := available[bp] + (own + share)];
      return true;
    }

    // ---- onblock.cpp: issuance ----

    /** One producer's part of the block: its own reward, and its voters'. */
    method RewardOne(n: Name, all: int) returns (sum: int)
      requires n in bps && all > 0
      modifies this`bps, this`bpsreward
      ensures var b := old(bps)[n];
        sum == AccountShare(b, all) + PoolShare(b, all) &&
        bps == old(bps)[n := b.(rewardsPool := b.rewardsPool + PoolShare(b, all))] &&
        bpsreward == old(bpsreward)[n := (if n in old(bpsreward) then old(bpsreward)[n] else 0) + AccountShare(b, all)]
    {
      var b := bps[n];
      var voterReward := TruncDiv(BLOCK_REWARD_VOTER * b.totalStaked, all);
      var ownReward := TruncDiv(BLOCK_REWARD_BPS_VOTER * b.totalStaked, all);
      var account := ownReward + TruncDiv(voterReward * b.commission, 10000);
      if n !in bpsreward {
        bpsreward := bpsreward[n := account];
      } else {
        bpsreward := bpsreward[n := bpsreward[n] + account];
      }
      var pool := TruncDiv(voterReward * (10000 - b.commission), 10000);
      bps := bps[n := b.(rewardsPool := b.rewardsPool + pool)];
      sum := account + pool;
    }

    /** The producers that earn, one by one. */
    method RewardEach(pledges: map<Name, int>, x: Settings) returns (sum: int)
      requires gvotestat > 0
      modifies this`bps, this`bpsreward
      ensures var able := AbleOf(old(bps).Keys, heartbeats, pledges, monitors, x);
        bps == BpsAfterIssue(old(Tables()), able) && bpsreward == BpsrewardAfterIssue(old(Tables()), able) &&
        sum == Total(old(bps), EarnedBy(old(Tables()), able))
    {
      hide Total, Rest, EarnedBy, AccountShare, PoolShare, TruncDiv;
      hide BpsIssuedBut, RewardIssuedBut, BpsAfterIssue, BpsrewardAfterIssue;
      ghost var able := AbleOf(bps.Keys, heartbeats, pledges, monitors, x);
      ghost var s, w := Tables(), EarnedBy(Tables(), able);
      var threshold := TruncDiv(gvotestat, BLOCK_REWARD_VOTER);
      var rest := bps.Keys;
      sum := 0;
      RestOfAll(bps, w, rest);
      IssuedAtEnds(s, able);
      while rest != {}
        invariant rest <= s.bps.Keys
        invariant sum + Total(Rest(s.bps, rest), w) == Total(s.bps, w)
        invariant bps == BpsIssuedBut(s, able, rest) && bpsreward == RewardIssuedBut(s, able, rest)
        decreases |rest|
      {
        var n :| n in rest;
        RestNext(s.bps, w, rest, n);
        IssuedNext(s, able, rest, n);
        rest := rest - {n};
        if n in blacklist || bps[n].totalStaked <= threshold || bps[n].commission < 1 ||
          bps[n].commission > 10000 { continue; }
        if x.heartbeatOpen && (n !in heartbeats || heartbeats[n] + x.MaxAge() < x.now) { continue; }
        if x.punishOpen && (n !in pledges || pledges[n] <= BASE_BLOCK_OUT_PLEDGE) { continue; }
        if n in monitors && monitors[n].status == Punished { continue; }
        var earned := RewardOne(n, gvotestat);
        sum := sum + earned;
      }
      RestOfNone(s.bps, w);
    }

    /** What the producers and voters do not get of a block goes to the budget account. */
    method RewardBps(pledges: map<Name, int>, x: Settings) returns (ok: bool)
      modifies this`available, this`bps, this`bpsreward
      ensures var able := AbleOf(old(bps).Keys, heartbeats, pledges, monitors, x);
        ok == CanIssue(old(Tables()), able) && Tables() == if ok then AfterIssue(old(Tables()), able) else old(Tables())
    {
      hide Total, EarnedBy, BpsAfterIssue, BpsrewardAfterIssue, AbleOf;
      if gvotestat <= 0 { return true; }
      var bps0, bpsreward0 := bps, bpsreward;
      var sum := RewardEach(pledges, x);
      var budget := (BLOCK_REWARD_VOTER + BLOCK_REWARD_BPS_VOTER - sum + BLOCK_BUDGET_REWARD) % WORD32;
      if budget > 0 {
        if BUDGET_ACCOUNT !in available {
          bps, bpsreward := bps0, bpsreward0;
          return false;
        }
        available := available[BUDGET_ACCOUNT := available[BUDGET_ACCOUNT] + budget];
      }
      return true;
    }

    /** The part of onblock on the ledger: the row of the global stake, the heartbeat of the block's producer, the
        rewards. */
    method IssuePart(b: Block, x: Settings) returns (ok: bool)
      modifies this`available, this`bps, this`bpsreward, this`gvotestat, this`hasVotestat, this`heartbeats
      ensures var s := Seen(old(Tables()), !old(hasVotestat), old(bps));
        var able := AbleOf(old(bps).Keys, old(heartbeats)[b.bp := x.now], b.pledges, monitors, x);
        ok == CanIssue(s, able) && Tables() == if ok then AfterIssue(s, able) else old(Tables())
      ensures hasVotestat == (old(hasVotestat) || ok)
      ensures heartbeats == if ok then old(heartbeats)[b.bp := x.now] else old(heartbeats)
      ensures Watched() == old(Watched())
    {
      hide CanIssue, AfterIssue, AbleOf, Total;
      var gvotestat0, hasVotestat0, heartbeats0 := gvotestat, hasVotestat, heartbeats;
      MakeVotestat();
      heartbeats := heartbeats[b.bp := x.now];
      ok := RewardBps(b.pledges, x);
      if !ok {
        gvotestat, hasVotestat, heartbeats := gvotestat0, hasVotestat0, heartbeats0;
      }
    }

    // ---- onblock.cpp: block rounds ----

    static method FindProducer(sch: Schedule, n: Name) returns (i: nat)
      ensures i == Find(sch, n)
    {
      i := 0;
      while i < |sch| && sch[i].name != n
        invariant i <= |sch| && forall j | 0 <= j < i :: sch[j].name != n
      {
        i := i + 1;
      }
      FirstMatch(sch, n, i);
    }

    /** Where the last and the first standard producer stand in the schedule; the last match counts. */
    static method FindEnds(sch: Schedule, bp: Name, lastStandard: Name) returns (ifirst: nat, ilast: nat)
      requires Distinct(Names(sch))
      ensures ifirst == IndexOrFirst(sch, lastStandard) && ilast == IndexOrFirst(sch, bp)
    {
      ifirst, ilast := 0, 0;
      for i := 0 to |sch|
        invariant ilast == if Find(sch, bp) < i then Find(sch, bp) else 0
        invariant ifirst == if Find(sch, lastStandard) < i then Find(sch, lastStandard) else 0
      {
        FindDistinct(sch, i);
        if sch[i].name == bp {
          ilast := i;
        }
        if sch[i].name == lastStandard {
          ifirst := i;
        }
      }
    }

    static method CalDrainNum(isChangeSch: bool, index: nat, ifirst: nat, ilast: nat, pre: nat, current: nat)
      returns (result: int)
      ensures result == DrainNum(isChangeSch, index, ifirst, ilast, pre, current)
    {
      result := pre + BP_CYCLE_BLOCK_OUT - current;
      if ifirst <= index && index < ilast {
        result := result + 1;
      } else if ifirst > ilast && (ifirst <= index || index < ilast) {
        result := result + 1;
      }
      if isChangeSch && ifirst != ilast {
        result := result - 1;
      }
      // unsigned, see ComparesUnsigned
      if result < 0 || result > BP_CYCLE_BLOCK_OUT {
        result := BP_CYCLE_BLOCK_OUT;
      }
      if result < 0 {
        result := 0;
      }
    }

    static method IsReward(isChangeSch: bool, blockAmount: nat, lastAmount: nat) returns (result: bool)
      ensures result == IsRewardBlock(isChangeSch, blockAmount, lastAmount)
    {
      if isChangeSch { return true; }
      result := false;
      if blockAmount > lastAmount && blockAmount - lastAmount >= BP_CYCLE_BLOCK_OUT {
        result := true;
      }
    }

    /** One pass of the loop of reward_block. */
    static method SettleOne(r: Round, i: nat, p: Producer, m: Monitor) returns (m': Monitor, age: int, drain: int)
      ensures m' == Settled(r, i, p, m) && age == AgeEarned(r, p, m) && drain == DrainOf(r, i, p, m)
    {
      hide DrainNum;
      drain := CalDrainNum(r.isChangeSch, i, r.ifirst, r.ilast, m.lastBlockNum, p.amount);
      var produced := p.amount - m.lastBlockNum;
      age := produced * m.stability;
      if p.name !in r.pledges || r.pledges[p.name] <= BASE_BLOCK_OUT_PLEDGE {
        age := 0;
      }
      m' := m.(lastBlockNum := if r.isChangeSch then 0 else p.amount, blockAge := m.blockAge + age);
      if drain > 0 {
        m' := m'.(consecutiveDrain := m'.consecutiveDrain + drain, totalDrain := m'.totalDrain + drain,
          consecutiveProduce := 0);
      } else {
        m' := m'.(consecutiveDrain := 0, consecutiveProduce := m'.consecutiveProduce + produced);
      }
      if m'.consecutiveDrain > BP_PUNISH_DRAIN_NUM && m'.status == Normal {
        m' := m'.(status := LackPledge);
      }
      if (m'.consecutiveProduce + 1) % BP_PUNISH_DRAIN_NUM == 0 && m'.stability < r.cfg.weightLimit {
        m' := m'.(stability := m'.stability + 1);
      }
      if m'.consecutiveDrain > r.cfg.resetWeightNum {
        m' := m'.(stability := BASE_BLOCK_OUT_WEIGHT);
      }
      if m'.stability > r.cfg.weightLimit {
        m' := m'.(stability := r.cfg.weightLimit);
      }
    }

    /** A row of drained rounds that ends is logged if it was long enough. */
    method NoteDrain(r: Round, i: nat, p: Producer, m: Monitor, drain: int, height: nat)
      requires drain == DrainOf(r, i, p, m)
      modifies this`drainLog
      ensures drainLog == if EndsStreak(r, i, p, m) then old(drainLog)[LogKey(p.name, height) := m.consecutiveDrain]
                          else old(drainLog)
    {
      if drain <= 0 && m.consecutiveDrain > r.cfg.resetWeightNum {
        drainLog := drainLog[LogKey(p.name, height) := m.consecutiveDrain];
      }
    }

    /** Closes the round of one schedule: its producers are settled in order, ended rows of drained rounds are logged,
        and the fines go to the pledge contract. */
    method RewardBlock(sch: Schedule, b: Block, cfg: Config, isChangeSch: bool) returns (fines: seq<Fine>)
      requires blockReward.Some? && Distinct(Names(sch))
      modifies this`monitors, this`blockReward, this`drainLog
      ensures var row := old(blockReward).value;
        var r := Round(isChangeSch, IndexOrFirst(sch, row.lastStandardBp), IndexOrFirst(sch, b.bp), cfg, b.pledges);
        monitors == SettleUpTo(r, sch, old(monitors), |sch|) && fines == FinesUpTo(r, sch, old(monitors), |sch|) &&
        drainLog == old(drainLog) + LogUpTo(r, b.height, sch, old(monitors), |sch|) &&
        blockReward == Some(BlockReward(b.bp,
                                        row.rewardBlockOut + (b.height - row.lastRewardBlockNum) * BLOCK_OUT_REWARD,
                                        row.totalBlockAge + AgeUpTo(r, sch, old(monitors), |sch|),
                                        b.height))
    {
      hide Settled, DrainOf, AgeEarned, EndsStreak;
      var row := blockReward.value;
      var ifirst, ilast := FindEnds(sch, b.bp, row.lastStandardBp);
      var r := Round(isChangeSch, ifirst, ilast, cfg, b.pledges);
      var m0, total := monitors, 0;
      fines := [];
      for i := 0 to |sch|
        invariant monitors == SettleUpTo(r, sch, m0, i)
        invariant total == AgeUpTo(r, sch, m0, i) && fines == FinesUpTo(r, sch, m0, i)
        invariant drainLog == old(drainLog) + LogUpTo(r, b.height, sch, m0, i)
        invariant blockReward == Some(row)
      {
        var n := sch[i].name;
        var before := if n in monitors then monitors[n] else NEW_MONITOR;
        var m, age, drain := SettleOne(r, i, sch[i], before);
        MergeThenWrite(old(drainLog), LogUpTo(r, b.height, sch, m0, i), LogKey(n, b.height), before.consecutiveDrain);
        NoteDrain(r, i, sch[i], before, drain, b.height);
        total := total + age;
        monitors := monitors[n := m];
        if drain > 0 && n in b.pledges {
          fines := fines + [Fine(n, drain * DRAIN_BLOCK_PUNISH)];
        }
      }
      blockReward := Some(BlockReward(b.bp, row.rewardBlockOut + (b.height - row.lastRewardBlockNum) * BLOCK_OUT_REWARD,
                                      row.totalBlockAge + total, b.height));
    }

    /** The schedule of the block, created when it is new, and how many blocks its producer had made in it. */
    method NoteSchedule(b: Block) returns (isChangeSch: bool, amount: nat)
      requires |b.producers| >= NUM_OF_TOP_BPS
      modifies this`schedules
      ensures isChangeSch == (b.version !in old(schedules))
      ensures amount == if isChangeSch then 0 else AmountOf(old(schedules)[b.version], b.bp)
      ensures schedules == if isChangeSch
                           then old(schedules)[b.version := NewSchedule(b.producers[..NUM_OF_TOP_BPS], b.bp)]
                           else old(schedules)
    {
      isChangeSch, amount := false, 0;
      if b.version !in schedules {
        isChangeSch := true;
        schedules := schedules[b.version := NewSchedule(b.producers[..NUM_OF_TOP_BPS], b.bp)];
      } else {
        var i := FindProducer(schedules[b.version], b.bp);
        if i < |schedules[b.version]| {
          amount := schedules[b.version][i].amount;
        }
      }
    }

    method NoteProducer(bp: Name)
      requires last != null ==> last.Valid()
      modifies this`last, LastRepr()
      ensures last != null && last.Valid() && last.blocks == old(Blocks()) + [bp]
      ensures last == old(last) || (fresh(last) && fresh(last.producers))
      ensures Tables() == old(Tables()) && Watched() == old(Watched())
      ensures drainLog == old(drainLog) && heartbeats == old(heartbeats) && hasVotestat == old(hasVotestat)
    {
      if last == null {
        last := new LastProducers.Ring(bp);
      } else {
        last.Record(bp);
      }
    }

    /** The reward part of a block: a closed round is settled; without a row a new schedule creates it. */
    method RewardPart(b: Block, cfg: Config, isChangeSch: bool, amount: nat) returns (fines: seq<Fine>)
      requires b.version in schedules && forall v | v in schedules :: Distinct(Names(schedules[v]))
      requires IsRewardBlock(isChangeSch, amount, LastOf(monitors, b.bp)) && blockReward.Some? ==>
                 (if isChangeSch then b.version - 1 else b.version) in schedules
      modifies this`monitors, this`blockReward, this`drainLog
      ensures IsRewardBlock(isChangeSch, amount, LastOf(old(monitors), b.bp)) && old(blockReward).Some? ==>
        var row, sch := old(blockReward).value, schedules[if isChangeSch then b.version - 1 else b.version];
        var r := Round(isChangeSch, IndexOrFirst(sch, row.lastStandardBp), IndexOrFirst(sch, b.bp), cfg, b.pledges);
        monitors == SettleUpTo(r, sch, old(monitors), |sch|) && fines == FinesUpTo(r, sch, old(monitors), |sch|) &&
        drainLog == old(drainLog) + LogUpTo(r, b.height, sch, old(monitors), |sch|) &&
        blockReward == Some(BlockReward(b.bp,
                                        row.rewardBlockOut + (b.height - row.lastRewardBlockNum) * BLOCK_OUT_REWARD,
                                        row.totalBlockAge + AgeUpTo(r, sch, old(monitors), |sch|),
                                        b.height))
      ensures !IsRewardBlock(isChangeSch, amount, LastOf(old(monitors), b.bp)) || old(blockReward).None? ==>
        monitors == old(monitors) && fines == [] && drainLog == old(drainLog) &&
        blockReward == if isChangeSch && old(blockReward).None? then Some(BlockReward(b.bp, 0, 0, b.height))
                       else old(blockReward)
    {
      var closes := IsReward(isChangeSch, amount, if b.bp in monitors then monitors[b.bp].lastBlockNum else 0);
      fines := [];
      if closes {
        if blockReward.None? {
          if isChangeSch {
            blockReward := Some(BlockReward(b.bp, 0, 0, b.height));
          }
        } else {
          var version := if isChangeSch then b.version - 1 else b.version;
          fines := RewardBlock(schedules[version], b, cfg, isChangeSch);
        }
      }
    }

    /** What onblock does before it issues anything: the new schedule's row, and the reward part. */
    method WatchBlock(b: Block, cfg: Config) returns (isChangeSch: bool, fines: seq<Fine>)
      requires |b.producers| >= NUM_OF_TOP_BPS && Distinct(b.producers[..NUM_OF_TOP_BPS])
      requires forall v | v in schedules :: Distinct(Names(schedules[v]))
      requires ClosesRound(Watched(), b) && blockReward.Some? ==> ClosedVersion(Watched(), b) in schedules
      modifies this`schedules, this`monitors, this`blockReward, this`drainLog
      ensures isChangeSch == ChangesSchedule(old(Watched()), b)
      ensures schedules == if isChangeSch
                           then old(schedules)[b.version := NewSchedule(b.producers[..NUM_OF_TOP_BPS], b.bp)]
                           else old(schedules)
      ensures forall v | v in schedules :: Distinct(Names(schedules[v]))
      ensures b.version in schedules
      ensures Watched() == AfterRewardPart(old(Watched()), b, cfg).(schedules := schedules)
      ensures fines == FinesOf(old(Watched()), b, cfg, true)
      ensures drainLog == old(drainLog) + LogOf(old(Watched()), b, cfg, true)
    {
      hide SettleUpTo, AgeUpTo, FinesUpTo, LogUpTo;
      var amount;
      isChangeSch, amount := NoteSchedule(b);
      BlockCredits.NewScheduleNames(b.producers[..NUM_OF_TOP_BPS], b.bp);
      fines := RewardPart(b, cfg, isChangeSch, amount);
    }

    /** What onblock does after everything else: the ring, and the producer's count in a schedule that is not new. */
    method CountBlock(b: Block, isChangeSch: bool)
      requires Valid() && b.version in schedules
      modifies this`schedules, this`last, LastRepr()
      ensures Valid() && Blocks() == old(Blocks()) + [b.bp]
      ensures schedules == if isChangeSch then old(schedules)
                           else old(schedules)[b.version := Bump(old(schedules)[b.version], b.bp)]
      ensures Tables() == old(Tables()) && Watched() == old(Watched()).(schedules := schedules)
      ensures drainLog == old(drainLog) && heartbeats == old(heartbeats) && hasVotestat == old(hasVotestat)
    {
      hide LastProducers.EntryAt, Bump, Names, Distinct, LastProducers.Ring.Valid;
      NoteProducer(b.bp);
      if !isChangeSch {
        BlockCredits.BumpedSchedule(schedules[b.version], b.bp);
        schedules := schedules[b.version := Bump(schedules[b.version], b.bp)];
      }
    }

    /** Every UPDATE_CYCLE blocks, once updates are open, a new schedule is proposed. */
    method ElectIfDue(height: nat, order: seq<Name>, x: Settings) returns (proposed: Option<seq<Name>>)
      requires Election.TableOrder(order, Tables())
      ensures proposed.Some? <==> height % UPDATE_CYCLE == 0 && x.UpdatesOpen(height)
      ensures proposed.Some? ==> Election.Elected(proposed.value, Tables(), monitors)
    {
      proposed := None;
      if height % UPDATE_CYCLE == 0 && (x.updateFrom < 0 || x.updateFrom <= height) {
        var schedule := Election.UpdateElectedBps(order, Tables(), monitors);
        proposed := Some(schedule);
      }
    }

    /** The parts of onblock that may be undone: a missing budget account aborts it. */
    method WatchAndIssue(b: Block, cfg: Config, x: Settings) returns (ok: bool, isChangeSch: bool, fines: seq<Fine>)
      requires |b.producers| >= NUM_OF_TOP_BPS && Distinct(b.producers[..NUM_OF_TOP_BPS])
      requires forall v | v in schedules :: Distinct(Names(schedules[v]))
      requires ClosesRound(Watched(), b) && blockReward.Some? ==> ClosedVersion(Watched(), b) in schedules
      modifies this`schedules, this`monitors, this`blockReward, this`drainLog
      modifies this`available, this`bps, this`bpsreward, this`gvotestat, this`hasVotestat, this`heartbeats
      ensures var s := Seen(old(Tables()), !old(hasVotestat), old(bps));
        var able := AbleAt(s, old(Watched()), old(heartbeats), b, cfg, x);
        ok == CanIssue(s, able) && Tables() == if ok then AfterIssue(s, able) else old(Tables())
      ensures isChangeSch == ChangesSchedule(old(Watched()), b)
      ensures forall v | v in schedules :: Distinct(Names(schedules[v]))
      ensures ok ==> b.version in schedules
      ensures Watched() == if ok then AfterRewardPart(old(Watched()), b, cfg).(schedules := schedules)
                           else old(Watched())
      ensures ok ==> schedules == if isChangeSch
                then old(schedules)[b.version := NewSchedule(b.producers[..NUM_OF_TOP_BPS], b.bp)] else old(schedules)
      ensures hasVotestat == (old(hasVotestat) || ok)
      ensures heartbeats == if ok then old(heartbeats)[b.bp := x.now] else old(heartbeats)
      ensures drainLog == old(drainLog) + LogOf(old(Watched()), b, cfg, ok)
      ensures fines == FinesOf(old(Watched()), b, cfg, ok)
    {
      hide AfterRewardPart, BlockStep, ClosesRound, CanIssue, AfterIssue, FinesOf, LogOf, NewSchedule, AbleOf, AbleAt;
      hide Seen, Distinct, Names;
      BlockIs(Watched(), b, cfg);
      AbleAtIs(Tables(), !hasVotestat, Watched(), heartbeats, b, cfg, x);
      var watched, log := Watched(), drainLog;
      isChangeSch, fines := WatchBlock(b, cfg);
      assert Tables() == old(Tables());
      ok := IssuePart(b, x);
      if !ok {
        PutBack(watched, log);
        fines := [];
      }
    }

    method PutBack(watched: Watch, log: map<LogKey, nat>)
      modifies this`schedules, this`monitors, this`blockReward, this`drainLog
      ensures Tables() == old(Tables()) && drainLog == log
      ensures Watched() == watched.(punishbps := old(punishbps))
    {
      schedules, monitors, blockReward, drainLog := watched.schedules, watched.monitors, watched.blockReward, log;
    }

    /** The block with its 23 producers. */
    method RunBlock(b: Block, cfg: Config, order: seq<Name>, x: Settings)
      returns (ok: bool, fines: seq<Fine>, proposed: Option<seq<Name>>)
      requires Valid() && Election.TableOrder(order, Tables())
      requires |b.producers| >= NUM_OF_TOP_BPS && Distinct(b.producers[..NUM_OF_TOP_BPS])
      requires ClosesRound(Watched(), b) && blockReward.Some? ==> ClosedVersion(Watched(), b) in schedules
      modifies this, LastRepr()
      ensures Valid()
      ensures var s := Seen(old(Tables()), !old(hasVotestat), old(bps));
        var able := AbleAt(s, old(Watched()), old(heartbeats), b, cfg, x);
        ok == CanIssue(s, able) && Tables() == if ok then AfterIssue(s, able) else old(Tables())
      ensures Watched() == if ok then BlockStep(old(Watched()), b, cfg) else old(Watched())
      ensures Blocks() == if ok then old(Blocks()) + [b.bp] else old(Blocks())
      ensures hasVotestat == (old(hasVotestat) || ok)
      ensures heartbeats == if ok then old(heartbeats)[b.bp := x.now] else old(heartbeats)
      ensures drainLog == old(drainLog) + LogOf(old(Watched()), b, cfg, ok)
      ensures fines == FinesOf(old(Watched()), b, cfg, ok)
      ensures proposed.Some? <==> ok && b.height % UPDATE_CYCLE == 0 && x.UpdatesOpen(b.height)
      ensures proposed.Some? ==> Election.Elected(proposed.value, Tables(), monitors)
    {
      hide AfterRewardPart, BlockStep, ClosesRound, CanIssue, AfterIssue, FinesOf, LogOf, Bump, NewSchedule, AbleAt,
        Seen;
      hide LastProducers.Ring.Valid, Election.Elected, Election.TableOrder, Distinct, Names;
      BlockIs(Watched(), b, cfg);
      proposed := None;
      var isChangeSch;
      ok, isChangeSch, fines := WatchAndIssue(b, cfg, x);
      if ok {
        ghost var s := Seen(old(Tables()), !old(hasVotestat), old(bps));
        SeenKeepsOrder(old(Tables()), !old(hasVotestat), old(bps), order);
        IssueKeepsOrder(s, AbleAt(s, old(Watched()), old(heartbeats), b, cfg, x), order);
        proposed := ElectIfDue(b.height, order, x);
        CountBlock(b, isChangeSch);
      }
    }

    /** onblock; fines are the deductions it sends to the pledge contract. With fewer than 23 producers it does
        nothing. The log has no row of this height yet, as heights rise. */
    method OnBlock(b: Block, cfg: Config, order: seq<Name>, x: Settings)
      returns (ok: bool, fines: seq<Fine>, proposed: Option<seq<Name>>)
      requires Valid() && Election.TableOrder(order, Tables())
      requires |b.producers| >= NUM_OF_TOP_BPS ==> Distinct(b.producers[..NUM_OF_TOP_BPS])
      requires ClosesRound(Watched(), b) && blockReward.Some? ==> ClosedVersion(Watched(), b) in schedules
      requires forall k | k in drainLog :: k.height < b.height
      modifies this, LastRepr()
      ensures Valid() && forall k | k in drainLog :: k.height <= b.height
      ensures |b.producers| < NUM_OF_TOP_BPS ==>
                ok && Unchanged(old(Tables()), old(Watched()), old(drainLog), old(heartbeats))
      ensures |b.producers| >= NUM_OF_TOP_BPS ==>
        var s := Seen(old(Tables()), !old(hasVotestat), old(bps));
        var able := AbleAt(s, old(Watched()), old(heartbeats), b, cfg, x);
        ok == CanIssue(s, able) && Tables() == (if ok then AfterIssue(s, able) else old(Tables())) &&
        heartbeats == if ok then old(heartbeats)[b.bp := x.now] else old(heartbeats)
      ensures Watched() == if ok then BlockStep(old(Watched()), b, cfg) else old(Watched())
      ensures Blocks() == if ok && |b.producers| >= NUM_OF_TOP_BPS then old(Blocks()) + [b.bp] else old(Blocks())
      ensures hasVotestat == (old(hasVotestat) || (ok && |b.producers| >= NUM_OF_TOP_BPS))
      ensures drainLog == old(drainLog) + LogOf(old(Watched()), b, cfg, ok)
      ensures fines == FinesOf(old(Watched()), b, cfg, ok)
      ensures proposed.Some? <==>
              ok && |b.producers| >= NUM_OF_TOP_BPS && b.height % UPDATE_CYCLE == 0 && x.UpdatesOpen(b.height)
      ensures proposed.Some? ==> Election.Elected(proposed.value, Tables(), monitors)
    {
      hide AfterRewardPart, BlockStep, ClosesRound, CanIssue, AfterIssue, FinesOf, LogOf, AbleAt, Valid;
      hide Election.Elected, Election.TableOrder, Distinct, Names;
      BlockIs(Watched(), b, cfg);
      LogHeights(Watched(), b, cfg);
      if |b.producers| < NUM_OF_TOP_BPS { return true, [], None; }
      ok, fines, proposed := RunBlock(b, cfg, order, x);
    }

    ghost predicate Unchanged(tables: Ledger, watched: Watch, log: map<LogKey, nat>, beats: map<Name, nat>)
      reads this
    {
      Tables() == tables && Watched() == watched && drainLog == log && heartbeats == beats
    }

    // ---- bppunish.cpp ----

    /** The last row of the schedules table. */
    method LastVersion() returns (version: nat)
      ensures version == Punishment.LatestVersion(Watched())
    {
      version := 0;
      var rest := schedules.Keys;
      while rest != {}
        invariant rest <= schedules.Keys
        invariant if rest == schedules.Keys then version == 0 else version in schedules
        invariant forall v | v in schedules && v !in rest :: v <= version
        decreases |rest|
      {
        var v :| v in rest;
        if rest == schedules.Keys || v > version {
          version := v;
        }
        rest := rest - {v};
      }
      if schedules.Keys == {} {
        assert schedules == map[];
        Punishment.NoLatest(Watched());
      } else {
        Punishment.LatestIsUnique(Watched(), version);
      }
    }

    /** Whether the account is a producer of the latest schedule. */
    method IsSuperBp(bp: Name) returns (found: bool)
      ensures found <==> bp in Punishment.SuperBps(Watched(), Punishment.LatestVersion(Watched()))
    {
      found := false;
      var version := LastVersion();
      if version !in schedules { return false; }
      var sch := schedules[version];
      for i := 0 to |sch|
        invariant forall j | 0 <= j < i :: sch[j].name != bp
      {
        if sch[i].name == bp {
          assert Names(sch)[i] == bp;
          return true;
        }
      }
    }

    /** The approvals that come from producers of the latest schedule, in order. */
    method CountSupers(approvals: seq<Name>) returns (counted: seq<Name>)
      ensures counted ==
              Punishment.Supers(approvals, Punishment.SuperBps(Watched(), Punishment.LatestVersion(Watched())))
    {
      ghost var supers := Punishment.SuperBps(Watched(), Punishment.LatestVersion(Watched()));
      counted := [];
      for i := 0 to |approvals|
        invariant counted == Punishment.Supers(approvals[..i], supers)
      {
        assert approvals[..i + 1][..i] == approvals[..i];
        var isSuper := IsSuperBp(approvals[i]);
        if isSuper {
          counted := counted + [approvals[i]];
        }
      }
      assert approvals[..|approvals|] == approvals;
    }

    method ProposePunish(h: nat, cfg: Config, signer: Name, pledges: Punishment.PledgeRows, bp: Name, proposaler: Name)
      returns (ok: bool)
      modifies this`punishbps
      ensures var w, act := old(Watched()), Punishment.PunishBp(bp, proposaler);
        var version := Punishment.LatestVersion(w);
        ok == Punishment.Can(w, version, cfg, h, signer, pledges, act) &&
        Watched() == if ok then Punishment.Effect(w, version, cfg, h, signer, pledges, act) else w
    {
      if signer != proposaler || bp !in monitors || monitors[bp].status != LackPledge { return false; }
      if bp in punishbps && punishbps[bp].effectiveBlockNum >= h { return false; }
      if proposaler !in pledges || pledges[proposaler].pledge <= Punishment.PROPOSER_PLEDGE { return false; }
      punishbps := punishbps - {bp};
      punishbps := punishbps[bp := Proposal(proposaler, [], h + PUNISH_BP_LIMIT)];
      return true;
    }

    /** The approval, and the punishment if it is the one that was missing; rewarders are sent to dealreward if there is
        a penalty to hand out. */
    method ApprovePunish(h: nat, cfg: Config, signer: Name, pledges: Punishment.PledgeRows, bp: Name, approver: Name)
      returns (ok: bool, rewarders: Option<seq<Name>>)
      modifies this`punishbps, this`monitors
      ensures var w, act := old(Watched()), Punishment.ApproveBp(bp, approver);
        var version := Punishment.LatestVersion(w);
        ok == Punishment.Can(w, version, cfg, h, signer, pledges, act) &&
        Watched() == (if ok then Punishment.Effect(w, version, cfg, h, signer, pledges, act) else w) &&
        rewarders == if ok && Punishment.Executes(w, version, cfg, bp, approver) && Punishment.SendsReward(pledges, bp)
                     then Some(Punishment.Rewarders(w, version, bp, approver)) else None
    {
      hide Punishment.Supers, Punishment.SuperBps;
      rewarders := None;
      ok := IsSuperBp(approver);
      if !ok || signer != approver || bp !in punishbps || punishbps[bp].effectiveBlockNum <= h { return false, None; }
      if approver in punishbps[bp].approveBp { return false, None; }
      var proposal := punishbps[bp];
      var approvals := proposal.approveBp + [approver];
      var counted := CountSupers(approvals);
      if |approvals| < cfg.approveToPunishNum || |counted| < cfg.approveToPunishNum {
        punishbps := punishbps[bp := proposal.(approveBp := approvals)];
      } else {
        if bp !in monitors || monitors[bp].status != LackPledge { return false, None; }
        monitors := monitors[bp := monitors[bp].(status := Punished, endPunishBlock := h + PUNISH_BP_LIMIT)];
        if bp in pledges && pledges[bp].deduction > 0 && pledges[bp].pledge + pledges[bp].deduction > 0 {
          rewarders := Some([proposal.proposaler] + counted);
        }
        punishbps := punishbps - {bp};
      }
    }

    method Bail(h: nat, cfg: Config, signer: Name, pledges: Punishment.PledgeRows, bp: Name) returns (ok: bool)
      modifies this`monitors
      ensures var w, act := old(Watched()), Punishment.BailPunish(bp); var version := Punishment.LatestVersion(w);
        ok == Punishment.Can(w, version, cfg, h, signer, pledges, act) &&
        Watched() == if ok then Punishment.Effect(w, version, cfg, h, signer, pledges, act) else w
    {
      if signer != bp || bp !in monitors || monitors[bp].status != Punished ||
        monitors[bp].endPunishBlock >= h { return false; }
      monitors := monitors[bp := monitors[bp].(status := Normal, endPunishBlock := 0)];
      return true;
    }

    /** The recency test of the protocol is answered by the ring. */
    method Remove(h: nat, cfg: Config, signer: Name, pledges: Punishment.PledgeRows, bp: Name) returns (ok: bool)
      requires Valid() && bp != 0
      modifies this`monitors
      ensures var w, act := old(Watched()), Punishment.RemovePunish(bp, bp in LastProducers.Window(Blocks()));
        var version := Punishment.LatestVersion(w);
        ok == Punishment.Can(w, version, cfg, h, signer, pledges, act) &&
        Watched() == if ok then Punishment.Effect(w, version, cfg, h, signer, pledges, act) else w
    {
      if signer != bp || bp !in monitors || monitors[bp].status != LackPledge || last == null { return false; }
      ok := last.Holds(bp);
      if ok {
        monitors := monitors[bp := monitors[bp].(status := Normal)];
      }
    }
  }

  /** The deductions onblock sends. */
  function FinesOf(w: Watch, b: Block, cfg: Config, ok: bool): seq<Fine> {
    if ok && |b.producers| >= NUM_OF_TOP_BPS && ClosesRound(w, b) && w.blockReward.Some? &&
      ClosedVersion(w, b) in w.schedules then
      var sch := w.schedules[ClosedVersion(w, b)];
      FinesUpTo(RoundOf(w, b, cfg), sch, w.monitors, |sch|)
    else []
  }

  /** The rows onblock adds to the drain log. */
  function LogOf(w: Watch, b: Block, cfg: Config, ok: bool): map<LogKey, nat> {
    if ok && |b.producers| >= NUM_OF_TOP_BPS && ClosesRound(w, b) && w.blockReward.Some? &&
      ClosedVersion(w, b) in w.schedules then
      var sch := w.schedules[ClosedVersion(w, b)];
      LogUpTo(RoundOf(w, b, cfg), b.height, sch, w.monitors, |sch|)
    else map[]
  }

  lemma LogHeights(w: Watch, b: Block, cfg: Config)
    ensures forall ok, k | k in LogOf(w, b, cfg, ok) :: k.height == b.height
  {
    if ClosesRound(w, b) && w.blockReward.Some? && ClosedVersion(w, b) in w.schedules {
      var sch := w.schedules[ClosedVersion(w, b)];
      LogUpToHeights(RoundOf(w, b, cfg), b.height, sch, w.monitors, |sch|);
    }
  }

  lemma {:induction false} LogUpToHeights(r: Round, height: nat, sch: Schedule, monitors: map<Name, Monitor>, n: nat)
    requires n <= |sch|
    ensures forall k | k in LogUpTo(r, height, sch, monitors, n) :: k.height == height
  {
    if n > 0 {
      LogUpToHeights(r, height, sch, monitors, n - 1);
    }
  }

  lemma MergeThenWrite<K, V>(a: map<K, V>, b: map<K, V>, k: K, v: V)
    ensures (a + b)[k := v] == a + b[k := v]
  {
  }

  lemma AbleAtIs(s: Ledger, created: bool, w: Watch, heartbeats: map<Name, nat>, b: Block, cfg: Config, x: Settings)
    requires ClosesRound(w, b) && w.blockReward.Some? ==> ClosedVersion(w, b) in w.schedules
    requires |b.producers| >= NUM_OF_TOP_BPS
    ensures AbleAt(Seen(s, created, s.bps), w, heartbeats, b, cfg, x) ==
            AbleOf(s.bps.Keys, heartbeats[b.bp := x.now], b.pledges, AfterRewardPart(w, b, cfg).monitors, x)
  {
    hide AbleOf, AfterRewardPart;
    BlockIs(w, b, cfg);
  }

  lemma SeenKeepsOrder(s: Ledger, created: bool, bps: map<Name, Bp>, order: seq<Name>)
    requires Election.TableOrder(order, s)
    ensures Election.TableOrder(order, Seen(s, created, bps))
  {
  }

  lemma FirstMatch(sch: Schedule, n: Name, i: nat)
    requires i <= |sch| && (forall j | 0 <= j < i :: sch[j].name != n) && (i < |sch| ==> sch[i].name == n)
    ensures Find(sch, n) == i
  {
  }

  lemma BlockIs(w: Watch, b: Block, cfg: Config)
    requires ClosesRound(w, b) && w.blockReward.Some? ==> ClosedVersion(w, b) in w.schedules
    ensures BlockStep(w, b, cfg) ==
            if |b.producers| < NUM_OF_TOP_BPS then w
            else AfterRewardPart(w, b, cfg).(schedules := w.schedules[b.version :=
              if ChangesSchedule(w, b) then NewSchedule(b.producers[..NUM_OF_TOP_BPS], b.bp)
              else Bump(w.schedules[b.version], b.bp)])
    ensures |b.producers| < NUM_OF_TOP_BPS ==> FinesOf(w, b, cfg, true) == [] && LogOf(w, b, cfg, true) == map[]
    ensures FinesOf(w, b, cfg, false) == [] && LogOf(w, b, cfg, false) == map[]
    ensures |b.producers| >= NUM_OF_TOP_BPS ==> BlockStep(w, b, cfg).monitors == AfterRewardPart(w, b, cfg).monitors
  {
  }

  lemma IssueKeepsOrder(s: Ledger, able: set<Name>, order: seq<Name>)
    requires Election.TableOrder(order, s) && CanIssue(s, able)
    ensures Election.TableOrder(order, AfterIssue(s, able))
  {
  }

  lemma FindDistinct(sch: Schedule, i: nat)
    requires i < |sch| && Distinct(Names(sch))
    ensures forall n :: sch[i].name == n <==> Find(sch, n) == i
  {
    BlockCredits.FindIs(sch, i);
  }

  lemma NotCreated(s: Ledger, bps: map<Name, Bp>)
    ensures Seen(s, false, bps) == s
  {
  }

  lemma NextVoteSeen(s: Ledger, created: bool, bps: map<Name, Bp>, c: Context, kind: Kind, voter: Name, bp: Name,
                     stake: int)
    ensures Next(Seen(s, created, bps), c, VoteFor(kind, voter, bp, stake)) ==
            if CanVote(s, c, kind, voter, bp, stake)
            then AfterVote(s, kind, voter, bp, stake, c.height)
                   .(gvotestat := StakeFound(created, s.gvotestat, bps) + Whole(VoteChange(s, kind, voter, bp, stake)))
            else Seen(s, created, bps)
    ensures Seen(s, false, bps) == s && Whole(0) == 0
  {
  }

  lemma NextVoteFix(s: Ledger, c: Context, voter: Name, bp: Name, typ: string, stake: int, source: Source, id: nat)
    ensures Can(s, c, VoteFix(voter, bp, typ, stake, source, id)) == CanVoteFix(s, c, voter, bp, typ, stake, source, id)
    ensures Next(s, c, VoteFix(voter, bp, typ, stake, source, id)) ==
            if CanVoteFix(s, c, voter, bp, typ, stake, source, id)
            then AfterVoteFix(s, voter, bp, FindType(FIX_TYPES, typ).value, stake, source, id, c.height) else s
  {
  }

  lemma NextVoteFixSeen(s: Ledger, created: bool, bps: map<Name, Bp>, c: Context, voter: Name, bp: Name, typ: string,
                        stake: int, source: Source, id: nat)
    requires CanVoteFix(s, c, voter, bp, typ, stake, source, id)
    ensures var t := FindType(FIX_TYPES, typ).value;
      Next(Seen(s, created, bps), c, VoteFix(voter, bp, typ, stake, source, id)) ==
        AfterVoteFix(s, voter, bp, t, stake, source, id, c.height)
          .(gvotestat := StakeFound(created, s.gvotestat, bps) + Whole(FixRow(bp, t, stake, c.height).power.staked))
  {
    hide FindType;
  }

  lemma NextOutSeen(s: Ledger, created: bool, bps: map<Name, Bp>, c: Context, voter: Name, id: nat)
    ensures Next(Seen(s, created, bps), c, OutFixVote(voter, id)) ==
            if CanOutFixVote(s, c, voter, id)
            then AfterOutFixVote(s, FixKey(voter, id), c.height)
                   .(gvotestat := StakeFound(created, s.gvotestat, bps) +
                                 Whole(-s.fixvotes[FixKey(voter, id)].power.staked))
            else Seen(s, created, bps)
    ensures Seen(s, false, bps) == s
  {
  }

  // ---- the rows of a table that a loop has still to visit ----

  ghost function Rest<K, V>(m: map<K, V>, keys: set<K>): map<K, V> {
    map k | k in m && k in keys :: m[k]
  }

  lemma RestNext<K, V>(m: map<K, V>, w: (K, V) -> int, keys: set<K>, k: K)
    requires k in keys && k in m
    ensures Total(Rest(m, keys), w) == w(k, m[k]) + Total(Rest(m, keys - {k}), w)
  {
    TotalRemove(Rest(m, keys), w, k);
    assert Rest(m, keys) - {k} == Rest(m, keys - {k});
  }

  lemma RestOfAll<K(!new), V>(m: map<K, V>, w: (K, V) -> int, keys: set<K>)
    requires forall k | k in m && k !in keys :: w(k, m[k]) == 0
    ensures Total(Rest(m, keys), w) == Total(m, w)
  {
    TotalKept(m, Rest(m, keys), w);
  }

  lemma RestOfNone<K, V>(m: map<K, V>, w: (K, V) -> int)
    ensures Total(Rest(m, {}), w) == 0
  {
    assert Rest(m, {}) == map[];
  }

  /** The table when the rows in rest are still to be claimed. */
  ghost function FixClaimedBut(fix: map<FixKey, FixVote>, voter: Name, bp: Name, h: nat,
                               rest: set<FixKey>): map<FixKey, FixVote> {
    map k | k in fix && (k in rest || !(ClaimedRow(voter, bp, k, fix[k]) && fix[k].isWithdraw)) ::
      if k !in rest && ClaimedRow(voter, bp, k, fix[k]) then fix[k].CleanAge(h) else fix[k]
  }

  lemma ClaimedAtEnds(fix: map<FixKey, FixVote>, voter: Name, bp: Name, h: nat)
    ensures FixClaimedBut(fix, voter, bp, h, set k | k in fix && ClaimedRow(voter, bp, k, fix[k])) == fix
    ensures FixClaimedBut(fix, voter, bp, h, {}) == FixAfterClaim(fix, voter, bp, h)
  {
  }

  lemma ClaimedNext(fix: map<FixKey, FixVote>, voter: Name, bp: Name, h: nat, rest: set<FixKey>, k: FixKey)
    requires k in rest && k in fix && ClaimedRow(voter, bp, k, fix[k])
    ensures var now := FixClaimedBut(fix, voter, bp, h, rest);
      k in now && now[k] == fix[k] &&
      FixClaimedBut(fix, voter, bp, h, rest - {k}) ==
        if fix[k].isWithdraw then now - {k} else now[k := fix[k].CleanAge(h)]
  {
  }

  // ---- the tables while reward_bps has still to visit some producers ----

  ghost function BpsIssuedBut(s: Ledger, able: set<Name>, rest: set<Name>): map<Name, Bp>
    requires s.gvotestat > 0
  {
    map n | n in s.bps ::
      if n !in rest && Earns(s, able, n)
      then s.bps[n].(rewardsPool := s.bps[n].rewardsPool + PoolShare(s.bps[n], s.gvotestat))
      else s.bps[n]
  }

  ghost function RewardIssuedBut(s: Ledger, able: set<Name>, rest: set<Name>): map<Name, int>
    requires s.gvotestat > 0
  {
    map n | n in s.bps.Keys + s.bpsreward.Keys && (n in s.bpsreward || (n !in rest && Earns(s, able, n))) ::
      OwedTo(s, n) + if n !in rest && Earns(s, able, n) then AccountShare(s.bps[n], s.gvotestat) else 0
  }

  lemma IssuedAtEnds(s: Ledger, able: set<Name>)
    requires s.gvotestat > 0
    ensures BpsIssuedBut(s, able, s.bps.Keys) == s.bps && BpsIssuedBut(s, able, {}) == BpsAfterIssue(s, able)
    ensures RewardIssuedBut(s, able, s.bps.Keys) == s.bpsreward &&
      RewardIssuedBut(s, able, {}) == BpsrewardAfterIssue(s, able)
  {
  }

  lemma IssuedNext(s: Ledger, able: set<Name>, rest: set<Name>, n: Name)
    requires s.gvotestat > 0 && n in rest && n in s.bps
    ensures var bps, owed := BpsIssuedBut(s, able, rest), RewardIssuedBut(s, able, rest);
      n in bps && bps[n] == s.bps[n] && (n in owed <==> n in s.bpsreward) && (n in owed ==> owed[n] == s.bpsreward[n])
    ensures EarnedBy(s, able)(n, s.bps[n]) ==
            if Earns(s, able, n) then AccountShare(s.bps[n], s.gvotestat) + PoolShare(s.bps[n], s.gvotestat) else 0
    ensures var bps, owed := BpsIssuedBut(s, able, rest), RewardIssuedBut(s, able, rest);
      var b := s.bps[n];
      BpsIssuedBut(s, able, rest - {n}) ==
        (if Earns(s, able, n) then bps[n := b.(rewardsPool := b.rewardsPool + PoolShare(b, s.gvotestat))] else bps) &&
      RewardIssuedBut(s, able, rest - {n}) ==
        (if Earns(s, able, n) then owed[n := OwedTo(s, n) + AccountShare(b, s.gvotestat)] else owed)
  {
    hide AccountShare, PoolShare;
  }
}
