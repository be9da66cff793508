/** What block age a producer earns, over every run of the monitoring tables. */
module Earnings {
  import opened Base
  import opened BlockRounds
  import opened BlockCredits
  import opened SlotTimeline
  import opened Punishment
  import opened WatchRuns

  // ---- what a producer earns ----

  /** The blocks bp is credited with, if the event closes a round of a schedule it is in. */
  ghost function Made(c: Chain, e: Event, bp: Name): Option<int> {
    if e.Produce? && ClosesRound(c.w, e.b) && c.w.blockReward.Some? && ClosedVersion(c.w, e.b) in c.w.schedules then
      var sch := c.w.schedules[ClosedVersion(c.w, e.b)];
      if Find(sch, bp) < |sch| then Some(sch[Find(sch, bp)].amount - LastOf(c.w.monitors, bp)) else None
    else None
  }

  predicate PledgedEnough(b: Block, bp: Name) {
    bp in b.pledges && b.pledges[bp] > BASE_BLOCK_OUT_PLEDGE
  }

  /** The block age of a producer by its history: the stability it had, for each round closed since its last bpclaim in
      which it made its block and was pledged enough. */
  ghost function Earned(cs: seq<Chain>, es: seq<Event>, cfg: Config, k: nat, bp: Name): int
    requires k <= |es| < |cs|
  {
    if k == 0 then 0
    else
      var c, e, before := cs[k - 1], es[k - 1], Earned(cs, es, cfg, k - 1, bp);
      if e == ClaimShare(bp) && c.w.blockReward.Some? then 0
      else if Made(c, e, bp) == Some(1) && PledgedEnough(e.b, bp) then before + MonitorOf(c.w.monitors, bp).stability
      else before
  }

  /** The blocks it made in its last rounds in a row without a drain. */
  ghost function Unbroken(cs: seq<Chain>, es: seq<Event>, cfg: Config, k: nat, bp: Name): int
    requires k <= |es| < |cs|
  {
    if k == 0 then 0
    else
      var c, e, before := cs[k - 1], es[k - 1], Unbroken(cs, es, cfg, k - 1, bp);
      match Charged(c, e, cfg, bp)
      case None => before
      case Some(drain) => if drain > 0 then 0 else before + Made(c, e, bp).value
  }

  lemma MadeWhenCharged(c: Chain, e: Event, cfg: Config, bp: Name)
    ensures Made(c, e, bp).Some? <==> Charged(c, e, cfg, bp).Some?
  {
    hide DrainAt;
  }

  /** What a block does to one monitor, as far as earning goes. */
  lemma BlockOnEarnings(c: Chain, b: Block, t: nat, cfg: Config, bp: Name)
    requires ChainOk(c) && NextBlock(c.w, c.version, c.height, b)
    ensures var e := Produce(b, t);
      var m, m' := MonitorOf(c.w.monitors, bp), MonitorOf(BlockStep(c.w, b, cfg).monitors, bp);
      (Made(c, e, bp).Some? <==> Charged(c, e, cfg, bp).Some?) &&
      (Made(c, e, bp).None? ==> m' == m) &&
      (Made(c, e, bp).Some? ==>
         Made(c, e, bp).value in {0, 1} &&
         m'.blockAge == m.blockAge + (if Made(c, e, bp) == Some(1) && PledgedEnough(b, bp) then m.stability else 0) &&
         m'.consecutiveProduce ==
           (if Charged(c, e, cfg, bp).value > 0 then 0 else m.consecutiveProduce + Made(c, e, bp).value) &&
         m'.stability == StabilityAfter(m.stability, m'.consecutiveDrain, m'.consecutiveProduce, cfg))
  {
    hide PoolOk, SettleUpTo, AgeUpTo, DrainOf, Settled, StabilityAfter, Credits, LogUpTo;
    ClosedIsThere(c.w, c.version, c.height, b);
    if ClosesRound(c.w, b) && c.w.blockReward.Some? {
      var sch, r := c.w.schedules[c.version], RoundOf(c.w, b, cfg);
      SettleRows(r, sch, c.w.monitors, |sch|);
      EveryBlockIsCredited(c.w, c.version, c.height, b);
      var i := Find(sch, bp);
      if i < |sch| {
        assert Credit(sch[i], c.w.monitors) in {0, 1};
        SettledEarns(r, i, sch[i], MonitorOf(c.w.monitors, bp), b);
      }
    }
  }

  lemma SettledEarns(r: Round, i: nat, p: Producer, m: Monitor, b: Block)
    requires r.pledges == b.pledges && p.amount - m.lastBlockNum in {0, 1}
    ensures var m', made := Settled(r, i, p, m), p.amount - m.lastBlockNum;
      m'.blockAge == m.blockAge + (if made == 1 && PledgedEnough(b, p.name) then m.stability else 0) &&
      m'.consecutiveProduce == (if DrainOf(r, i, p, m) > 0 then 0 else m.consecutiveProduce + made) &&
      m'.stability == StabilityAfter(m.stability, m'.consecutiveDrain, m'.consecutiveProduce, r.cfg)
  {
    hide DrainOf;
  }

  /** Back to the base after too many drained rounds in a row, one more at every ninth block without a drain, and never
      over the limit. */
  function StabilityAfter(before: nat, drained: nat, produced: int, cfg: Config): nat {
    if drained > cfg.resetWeightNum then Min(1000, cfg.weightLimit)
    else if produced % 9 == 8 && before < cfg.weightLimit then before + 1
    else Min(before, cfg.weightLimit)
  }

  lemma HappenOnEarnings(c: Chain, e: Event, cfg: Config, bp: Name)
    requires ChainOk(c) && CanHappen(c, e, cfg)
    ensures var m, m' := MonitorOf(c.w.monitors, bp), MonitorOf(Happen(c, e, cfg).w.monitors, bp);
      m'.blockAge ==
        (if e == ClaimShare(bp) && c.w.blockReward.Some? then 0
         else if Made(c, e, bp) == Some(1) && PledgedEnough(e.b, bp) then m.blockAge + m.stability
         else m.blockAge) &&
      m'.consecutiveProduce ==
        (match Charged(c, e, cfg, bp)
         case None => m.consecutiveProduce
         case Some(drain) => if drain > 0 then 0 else m.consecutiveProduce + Made(c, e, bp).value) &&
      m'.stability ==
        (if Made(c, e, bp).Some? then StabilityAfter(m.stability, m'.consecutiveDrain, m'.consecutiveProduce, cfg)
         else m.stability)
  {
    hide ChainOk, NextBlock, BlockStep, Supers, ClosesRound, DrainAt, StabilityAfter;
    MadeWhenCharged(c, e, cfg, bp);
    if e.Produce? {
      BlockOnEarnings(c, e.b, e.t, cfg, bp);
    }
  }

  lemma {:induction false} EarningsAreKept(cs: seq<Chain>, es: seq<Event>, cfg: Config, k: nat, bp: Name)
    requires Trace(cs, es, cfg) && k <= |es|
    ensures MonitorOf(cs[k].w.monitors, bp).blockAge == Earned(cs, es, cfg, k, bp)
    ensures MonitorOf(cs[k].w.monitors, bp).consecutiveProduce == Unbroken(cs, es, cfg, k, bp)
  {
    hide CanHappen, Happen, Charged, Made, ChainOk, StabilityAfter;
    if k > 0 {
      TraceKeeps(cs, es, cfg, k - 1);
      EarningsAreKept(cs, es, cfg, k - 1, bp);
      MadeWhenCharged(cs[k - 1], es[k - 1], cfg, bp);
      HappenOnEarnings(cs[k - 1], es[k - 1], cfg, bp);
    } else {
      NoMonitorsAtStart(cs[0], bp);
    }
  }

  /** In every run: a producer's stability changes at the closed rounds of its schedule only, by its drained rounds
      and its blocks without a drain, both in a row and with this round. */
  lemma StabilityInRuns(cs: seq<Chain>, es: seq<Event>, cfg: Config, k: nat, bp: Name)
    requires Trace(cs, es, cfg) && k < |es|
    ensures var before := MonitorOf(cs[k].w.monitors, bp).stability;
      var after := MonitorOf(cs[k + 1].w.monitors, bp).stability;
      after == if Made(cs[k], es[k], bp).Some?
               then StabilityAfter(before, Streak(cs, es, cfg, k + 1, bp), Unbroken(cs, es, cfg, k + 1, bp), cfg)
               else before
  {
    TraceKeeps(cs, es, cfg, k);
    StreakIsKept(cs, es, cfg, k + 1, bp);
    EarningsAreKept(cs, es, cfg, k + 1, bp);
    hide CanHappen, Happen, Charged, Made, ChainOk, StabilityAfter, Streak, Unbroken;
    HappenOnEarnings(cs[k], es[k], cfg, bp);
  }

  lemma {:induction false} NothingEarned(cs: seq<Chain>, es: seq<Event>, cfg: Config, k: nat, bp: Name)
    requires k <= |es| < |cs| && forall i | 0 <= i < k && es[i].Produce? :: !PledgedEnough(es[i].b, bp)
    ensures Earned(cs, es, cfg, k, bp) == 0
  {
    hide PledgedEnough;
    if k > 0 {
      NothingEarned(cs, es, cfg, k - 1, bp);
    }
  }

  /** In every run a producer that was never pledged enough at a block has no block age, and no share in the block
      reward. */
  lemma UnpledgedEarnNothing(cs: seq<Chain>, es: seq<Event>, cfg: Config, k: nat, bp: Name)
    requires Trace(cs, es, cfg) && k <= |es|
    requires forall i | 0 <= i < k && es[i].Produce? :: !PledgedEnough(es[i].b, bp)
    ensures MonitorOf(cs[k].w.monitors, bp).blockAge == 0
    ensures HasBlockShare(cs[k].w, bp) && 0 < cs[k].w.blockReward.value.totalBlockAge ==> BlockShare(cs[k].w, bp) == 0
  {
    EarningsAreKept(cs, es, cfg, k, bp);
    NothingEarned(cs, es, cfg, k, bp);
    hide Trace, Earned, Unbroken, PledgedEnough, BlockShare;
    NoAgeNoShare(cs[k].w, bp);
  }

  lemma NoAgeNoShare(w: Watch, bp: Name)
    requires MonitorOf(w.monitors, bp).blockAge == 0
    ensures HasBlockShare(w, bp) && 0 < w.blockReward.value.totalBlockAge ==> BlockShare(w, bp) == 0
  {
  }
}
