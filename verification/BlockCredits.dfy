/** Every block is credited exactly once, and the block-reward pool is accounted for, over every run of blocks. */
module BlockCredits {
  import opened Base
  import opened Totals
  import opened BlockRounds

  // ---- reading changed schedules ----

  lemma FindIs(sch: Schedule, i: nat)
    requires i < |sch| && Distinct(Names(sch))
    ensures Find(sch, sch[i].name) == i
  {
    var j := Find(sch, sch[i].name);
    if j < |sch| {
      assert Names(sch)[j] == sch[j].name && Names(sch)[i] == sch[i].name;
    }
  }

  lemma BumpedSchedule(sch: Schedule, bp: Name)
    ensures Names(Bump(sch, bp)) == Names(sch)
    ensures Distinct(Names(sch)) ==>
            forall i | 0 <= i < |sch| :: Bump(sch, bp)[i].amount == sch[i].amount + if sch[i].name == bp then 1 else 0
  {
    if Distinct(Names(sch)) {
      forall i | 0 <= i < |sch|
        ensures Bump(sch, bp)[i].amount == sch[i].amount + if sch[i].name == bp then 1 else 0
      {
        FindIs(sch, i);
      }
    }
  }

  // ---- the credits of a round ----

  /** Blocks the producer made that the last closed round does not know. */
  function Credit(p: Producer, monitors: map<Name, Monitor>): int {
    p.amount - LastOf(monitors, p.name)
  }

  function Credits(sch: Schedule, monitors: map<Name, Monitor>, n: nat): int
    requires n <= |sch|
  {
    if n == 0 then 0 else Credits(sch, monitors, n - 1) + Credit(sch[n - 1], monitors)
  }

  lemma {:induction false} CreditsBump(sch: Schedule, sch': Schedule, monitors: map<Name, Monitor>, bp: Name, n: nat)
    requires n <= |sch| == |sch'| && Distinct(Names(sch)) && Find(sch, bp) < |sch|
    requires forall i | 0 <= i < |sch| ::
               sch'[i].name == sch[i].name && sch'[i].amount == sch[i].amount + if sch[i].name == bp then 1 else 0
    ensures Credits(sch', monitors, n) == Credits(sch, monitors, n) + if Find(sch, bp) < n then 1 else 0
  {
    if n > 0 {
      FindIs(sch, n - 1);
      CreditsBump(sch, sch', monitors, bp, n - 1);
    }
  }

  lemma {:induction false} CreditsBounded(sch: Schedule, monitors: map<Name, Monitor>, n: nat)
    requires n <= |sch| && forall i | 0 <= i < |sch| :: 0 <= Credit(sch[i], monitors) <= 1
    ensures 0 <= Credits(sch, monitors, n) <= n
  {
    if n > 0 {
      CreditsBounded(sch, monitors, n - 1);
    }
  }

  lemma {:induction false} CreditsOfNewSchedule(producers: seq<Name>, bp: Name, monitors: map<Name, Monitor>, n: nat)
    requires n <= |producers| && Distinct(producers)
    requires forall p | p in producers :: LastOf(monitors, p) == 0
    ensures Credits(NewSchedule(producers, bp), monitors, n) == if bp in producers[..n] then 1 else 0
  {
    if n > 0 {
      CreditsOfNewSchedule(producers, bp, monitors, n - 1);
      assert producers[..n] == producers[..n - 1] + [producers[n - 1]];
    }
  }

  lemma {:induction false} NoCredits(sch: Schedule, monitors: map<Name, Monitor>, n: nat)
    requires n <= |sch| && forall i | 0 <= i < |sch| :: Credit(sch[i], monitors) == 0
    ensures Credits(sch, monitors, n) == 0
  {
    if n > 0 {
      NoCredits(sch, monitors, n - 1);
    }
  }

  // ---- settling a whole schedule ----

  /** Settling treats every producer of the schedule once, from the row it had before, and touches nobody else. */
  lemma {:induction false} SettleRows(r: Round, sch: Schedule, monitors: map<Name, Monitor>, n: nat)
    requires n <= |sch| && Distinct(Names(sch))
    ensures forall i | 0 <= i < n ::
              MonitorOf(SettleUpTo(r, sch, monitors, n), sch[i].name) ==
                Settled(r, i, sch[i], MonitorOf(monitors, sch[i].name))
    ensures forall m: Name :: (forall i | 0 <= i < n :: sch[i].name != m) ==>
              MonitorOf(SettleUpTo(r, sch, monitors, n), m) == MonitorOf(monitors, m) &&
              (m in SettleUpTo(r, sch, monitors, n) <==> m in monitors)
  {
    hide Settled;
    if n > 0 {
      SettleRows(r, sch, monitors, n - 1);
      assert forall i | 0 <= i < n - 1 :: Names(sch)[i] == sch[i].name && Names(sch)[n - 1] == sch[n - 1].name;
    }
  }

  function BlockAges(): (Name, Monitor) -> int {
    (n: Name, m: Monitor) => m.blockAge
  }

  /** The total handed to the block-reward row is what the monitors gained together. */
  lemma {:induction false} SettleAges(r: Round, sch: Schedule, monitors: map<Name, Monitor>, n: nat)
    requires n <= |sch|
    ensures Total(SettleUpTo(r, sch, monitors, n), BlockAges()) ==
      Total(monitors, BlockAges()) + AgeUpTo(r, sch, monitors, n)
  {
    hide Total;
    if n > 0 {
      SettleAges(r, sch, monitors, n - 1);
      var before, p := SettleUpTo(r, sch, monitors, n - 1), sch[n - 1];
      TotalUpdate(before, BlockAges(), p.name, Settled(r, n - 1, p, MonitorOf(before, p.name)));
    }
  }

  // ---- the invariant ----

  /** What happened to the block-reward pool: since when it exists, and what bpclaim paid from it. */
  datatype Payouts = Payouts(created: nat, paid: int)

  predicate AgesOk(monitors: map<Name, Monitor>) {
    forall n | n in monitors :: 0 <= monitors[n].blockAge
  }

  /** version is the schedule in force and height the last block. */
  ghost predicate Counting(w: Watch, version: nat, height: nat) {
    (forall v | v in w.schedules :: v <= version) && version in w.schedules &&
    var sch := w.schedules[version];
    |sch| == NUM_OF_TOP_BPS && Distinct(Names(sch)) &&
    (if w.blockReward.Some? then
       (forall i | 0 <= i < |sch| :: 0 <= Credit(sch[i], w.monitors) <= 1) &&
       (forall n: Name :: Find(sch, n) == |sch| ==> LastOf(w.monitors, n) == 0) &&
       Credits(sch, w.monitors, |sch|) == height + 1 - w.blockReward.value.lastRewardBlockNum &&
       Find(sch, w.blockReward.value.lastStandardBp) < |sch|
     else w.monitors == map[])
  }

  ghost predicate PoolOk(w: Watch, p: Payouts) {
    AgesOk(w.monitors) &&
    (w.blockReward.Some? ==>
       var row := w.blockReward.value;
       0 <= row.rewardBlockOut && 0 <= p.paid && p.created <= row.lastRewardBlockNum &&
       row.totalBlockAge == Total(w.monitors, BlockAges()) &&
       row.rewardBlockOut + p.paid == BLOCK_OUT_REWARD * (row.lastRewardBlockNum - p.created))
  }

  /** What the chain guarantees about the next block. */
  predicate NextBlock(w: Watch, version: nat, height: nat, b: Block) {
    b.height == height + 1 && |b.producers| == NUM_OF_TOP_BPS && Distinct(b.producers) && b.bp in b.producers &&
    (b.version == version + 1 ||
     (b.version == version && version in w.schedules && Names(w.schedules[version]) == b.producers))
  }

  lemma ClosedIsThere(w: Watch, version: nat, height: nat, b: Block)
    requires Counting(w, version, height) && NextBlock(w, version, height, b)
    ensures ClosedVersion(w, b) == version
    ensures ChangesSchedule(w, b) <==> b.version == version + 1
  {
  }

  lemma InSchedule(sch: Schedule, n: Name)
    ensures Find(sch, n) < |sch| <==> n in Names(sch)
  {
    if Find(sch, n) < |sch| {
      assert Names(sch)[Find(sch, n)] == n;
    }
  }

  /** Round accounting: whenever a block closes a round, each of its 23 producers is credited with 0 or 1 block, and
      together they are credited with every block since the last closed round, 23 at most. */
  lemma EveryBlockIsCredited(w: Watch, version: nat, height: nat, b: Block)
    requires Counting(w, version, height) && NextBlock(w, version, height, b)
    requires ClosesRound(w, b) && w.blockReward.Some?
    ensures ClosedVersion(w, b) in w.schedules
    ensures var sch := w.schedules[ClosedVersion(w, b)];
      |sch| == NUM_OF_TOP_BPS &&
      (forall i | 0 <= i < |sch| :: Credit(sch[i], w.monitors) in {0, 1}) &&
      0 <= Credits(sch, w.monitors, |sch|) == b.height - w.blockReward.value.lastRewardBlockNum <= NUM_OF_TOP_BPS
  {
    ClosedIsThere(w, version, height, b);
    CreditsBounded(w.schedules[version], w.monitors, NUM_OF_TOP_BPS);
  }

  /** Closing a round: the closed schedule has no credits left, and on a change its counters are reset. */
  lemma SettleClearsCredits(r: Round, sch: Schedule, monitors: map<Name, Monitor>, n: Name)
    requires Distinct(Names(sch))
    ensures LastOf(SettleUpTo(r, sch, monitors, |sch|), n) ==
            if Find(sch, n) == |sch| then LastOf(monitors, n) else if r.isChangeSch then 0 else sch[Find(sch, n)].amount
  {
    var i := Find(sch, n);
    SettledLast(r, sch, monitors, i);
    hide Settled;
    SettleRows(r, sch, monitors, |sch|);
  }

  lemma SettledLast(r: Round, sch: Schedule, monitors: map<Name, Monitor>, i: nat)
    ensures i < |sch| ==> Settled(r, i, sch[i], MonitorOf(monitors, sch[i].name)).lastBlockNum ==
                          if r.isChangeSch then 0 else sch[i].amount
  {
  }

  lemma RewardClearsCredits(w: Watch, version: nat, height: nat, b: Block, cfg: Config)
    requires Counting(w, version, height) && NextBlock(w, version, height, b) && w.blockReward.Some?
    ensures ClosedVersion(w, b) == version
    ensures var sch, ms := w.schedules[version], AfterReward(w, b, cfg).monitors;
      if ChangesSchedule(w, b) then (forall n: Name :: LastOf(ms, n) == 0)
      else (forall i | 0 <= i < |sch| :: Credit(sch[i], ms) == 0) &&
           (forall n: Name :: Find(sch, n) == |sch| ==> LastOf(ms, n) == 0)
  {
    hide Settled, SettleUpTo, AgeUpTo;
    ClosedIsThere(w, version, height, b);
    var sch, r := w.schedules[version], RoundOf(w, b, cfg);
    var ms := AfterReward(w, b, cfg).monitors;
    forall n: Name
      ensures LastOf(ms, n) ==
              if Find(sch, n) == |sch| then 0 else if r.isChangeSch then 0 else sch[Find(sch, n)].amount
    {
      SettleClearsCredits(r, sch, w.monitors, n);
    }
    forall i | 0 <= i < |sch| ensures !r.isChangeSch ==> Credit(sch[i], ms) == 0 {
      FindIs(sch, i);
    }
  }

  lemma NewScheduleNames(producers: seq<Name>, bp: Name)
    ensures Names(NewSchedule(producers, bp)) == producers
  {
  }

  /** A block that changes the schedule starts the new one with its own credit. */
  lemma ChangeKeepsCounting(w: Watch, version: nat, height: nat, b: Block, cfg: Config)
    requires Counting(w, version, height) && NextBlock(w, version, height, b) && b.version == version + 1
    ensures ClosesRound(w, b) && w.blockReward.Some? ==> ClosedVersion(w, b) in w.schedules
    ensures Counting(AfterBlock(w, b, cfg), b.version, b.height)
  {
    ClosedIsThere(w, version, height, b);
    assert b.producers[..NUM_OF_TOP_BPS] == b.producers;
    var sch' := NewSchedule(b.producers, b.bp);
    NewScheduleNames(b.producers, b.bp);
    InSchedule(sch', b.bp);
    var w' := AfterBlock(w, b, cfg);
    if w.blockReward.Some? {
      RewardClearsCredits(w, version, height, b, cfg);
    }
    CreditsOfNewSchedule(b.producers, b.bp, w'.monitors, NUM_OF_TOP_BPS);
  }

  /** A block inside the schedule adds one credit, to a producer that had none: otherwise the round closes first. */
  lemma SameKeepsCounting(w: Watch, version: nat, height: nat, b: Block, cfg: Config)
    requires Counting(w, version, height) && NextBlock(w, version, height, b) && b.version == version
    ensures ClosesRound(w, b) && w.blockReward.Some? ==> ClosedVersion(w, b) in w.schedules
    ensures Counting(AfterBlock(w, b, cfg), b.version, b.height)
  {
    ClosedIsThere(w, version, height, b);
    var sch, sch' := w.schedules[version], Bump(w.schedules[version], b.bp);
    var w' := AfterBlock(w, b, cfg);
    InSchedule(sch, b.bp);
    BumpedSchedule(sch, b.bp);
    forall n: Name ensures Find(sch', n) == |sch'| <==> Find(sch, n) == |sch| {
      InSchedule(sch, n);
      InSchedule(sch', n);
    }
    if w.blockReward.Some? {
      CreditsBump(sch, sch', w'.monitors, b.bp, |sch|);
      if ClosesRound(w, b) {
        RewardClearsCredits(w, version, height, b, cfg);
        NoCredits(sch, w'.monitors, |sch|);
      }
    }
  }

  lemma BlockKeepsCounting(w: Watch, version: nat, height: nat, b: Block, cfg: Config)
    requires Counting(w, version, height) && NextBlock(w, version, height, b)
    ensures ClosesRound(w, b) && w.blockReward.Some? ==> ClosedVersion(w, b) in w.schedules
    ensures Counting(AfterBlock(w, b, cfg), b.version, b.height)
  {
    if b.version == version {
      SameKeepsCounting(w, version, height, b, cfg);
    } else {
      ChangeKeepsCounting(w, version, height, b, cfg);
    }
  }

  // ---- the pool ----

  lemma AgesStayOk(r: Round, sch: Schedule, monitors: map<Name, Monitor>, n: nat)
    requires n <= |sch| && Distinct(Names(sch)) && AgesOk(monitors)
    requires forall i | 0 <= i < |sch| :: 0 <= Credit(sch[i], monitors)
    ensures AgesOk(SettleUpTo(r, sch, monitors, n))
  {
    var ms := SettleUpTo(r, sch, monitors, n);
    SettleRows(r, sch, monitors, n);
    forall m | m in ms ensures 0 <= ms[m].blockAge {
      if i :| 0 <= i < n && sch[i].name == m {
        SettledAge(r, i, sch[i], MonitorOf(monitors, m));
        assert ms[m] == Settled(r, i, sch[i], MonitorOf(monitors, m));
      } else {
        assert MonitorOf(ms, m) == MonitorOf(monitors, m);
      }
    }
  }

  lemma SettledAge(r: Round, i: nat, p: Producer, m: Monitor)
    requires m.lastBlockNum <= p.amount
    ensures Settled(r, i, p, m).blockAge >= m.blockAge
  {
    hide DrainOf;
    NonNegativeProduct(p.amount - m.lastBlockNum, m.stability);
  }

  ghost function PayoutsAfterBlock(p: Payouts, w: Watch, b: Block): Payouts {
    if w.blockReward.None? && ChangesSchedule(w, b) then Payouts(b.height, 0) else p
  }

  lemma BlockKeepsPool(w: Watch, p: Payouts, version: nat, height: nat, b: Block, cfg: Config)
    requires Counting(w, version, height) && NextBlock(w, version, height, b) && PoolOk(w, p)
    ensures ClosesRound(w, b) && w.blockReward.Some? ==> ClosedVersion(w, b) in w.schedules
    ensures PoolOk(AfterBlock(w, b, cfg), PayoutsAfterBlock(p, w, b))
  {
    hide Total, Settled, SettleUpTo, AgeUpTo;
    ClosedIsThere(w, version, height, b);
    if ClosesRound(w, b) {
      if w.blockReward.Some? {
        EveryBlockIsCredited(w, version, height, b);
        var sch, r := w.schedules[version], RoundOf(w, b, cfg);
        AgesStayOk(r, sch, w.monitors, |sch|);
        SettleAges(r, sch, w.monitors, |sch|);
        var row := w.blockReward.value;
        Distribute(row.lastRewardBlockNum - p.created, b.height - row.lastRewardBlockNum, BLOCK_OUT_REWARD);
        assert 0 <= (b.height - row.lastRewardBlockNum) * BLOCK_OUT_REWARD;
      } else {
        TotalZero(w.monitors, BlockAges());
      }
    }
  }

  /** bpclaim takes the producer's age and its share out together; the share is never negative nor the whole pool. */
  lemma ClaimShareKeepsPool(w: Watch, p: Payouts, bp: Name)
    requires PoolOk(w, p) && CanClaimShare(w, bp)
    ensures 0 <= BlockShare(w, bp)
    ensures PoolOk(AfterClaimShare(w, bp), p.(paid := p.paid + BlockShare(w, bp)))
    ensures HasBlockShare(w, bp) ==> AfterClaimShare(w, bp).blockReward.value.totalBlockAge >= 0
  {
    if HasBlockShare(w, bp) {
      var row := w.blockReward.value;
      assert 0 <= w.monitors[bp].blockAge * row.rewardBlockOut;
      hide Total;
      TotalNonNegative(w.monitors, BlockAges());
      TotalUpdate(w.monitors, BlockAges(), bp, w.monitors[bp].(blockAge := 0));
      TotalNonNegative(AfterClaimShare(w, bp).monitors, BlockAges());
    }
  }

  lemma ClaimShareKeepsCounting(w: Watch, version: nat, height: nat, bp: Name)
    requires Counting(w, version, height) && CanClaimShare(w, bp)
    ensures Counting(AfterClaimShare(w, bp), version, height)
  {
    var w' := AfterClaimShare(w, bp);
    if HasBlockShare(w, bp) {
      forall n: Name ensures LastOf(w'.monitors, n) == LastOf(w.monitors, n) {
      }
      SameCredits(w.schedules[version], w.monitors, w'.monitors, NUM_OF_TOP_BPS);
    }
  }

  lemma {:induction false} SameCredits(sch: Schedule, ms: map<Name, Monitor>, ms': map<Name, Monitor>, n: nat)
    requires n <= |sch| && forall m: Name :: LastOf(ms', m) == LastOf(ms, m)
    ensures Credits(sch, ms', n) == Credits(sch, ms, n)
  {
    if n > 0 {
      SameCredits(sch, ms, ms', n - 1);
    }
  }

  // ---- one step of the chain ----

  // The tables, the schedule in force, the last height and the history of the pool.
  datatype Chain = Chain(w: Watch, version: nat, height: nat, p: Payouts)

  ghost predicate ChainOk(c: Chain) {
    Counting(c.w, c.version, c.height) && PoolOk(c.w, c.p)
  }

  ghost function AfterProduce(c: Chain, b: Block, cfg: Config): Chain {
    Chain(BlockStep(c.w, b, cfg), b.version, b.height, PayoutsAfterBlock(c.p, c.w, b))
  }

  ghost function AfterShare(c: Chain, bp: Name): Chain
    requires CanClaimShare(c.w, bp)
  {
    c.(w := AfterClaimShare(c.w, bp), p := c.p.(paid := c.p.paid + BlockShare(c.w, bp)))
  }

  lemma ProduceKeeps(c: Chain, b: Block, cfg: Config)
    requires ChainOk(c) && NextBlock(c.w, c.version, c.height, b)
    ensures ChainOk(AfterProduce(c, b, cfg))
  {
    hide Counting, PoolOk, NextBlock, AfterBlock;
    BlockKeepsCounting(c.w, c.version, c.height, b, cfg);
    BlockKeepsPool(c.w, c.p, c.version, c.height, b, cfg);
  }

  lemma ShareKeeps(c: Chain, bp: Name)
    requires ChainOk(c) && CanClaimShare(c.w, bp)
    ensures ChainOk(AfterShare(c, bp))
  {
    hide Counting, PoolOk, AfterClaimShare;
    ClaimShareKeepsCounting(c.w, c.version, c.height, bp);
    ClaimShareKeepsPool(c.w, c.p, bp);
  }

  /** The monitors are empty and no reward row exists yet; a schedule is in force. */
  predicate Start(c: Chain) {
    c.w.monitors == map[] && c.w.blockReward.None? && c.w.punishbps == map[] &&
    (forall v | v in c.w.schedules :: v <= c.version) && c.version in c.w.schedules &&
    |c.w.schedules[c.version]| == NUM_OF_TOP_BPS && Distinct(Names(c.w.schedules[c.version]))
  }

  lemma StartIsOk(c: Chain)
    requires Start(c)
    ensures ChainOk(c)
  {
  }
}
