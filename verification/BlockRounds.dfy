/** Block rounds: how onblock counts blocks, closes a round, decides who drained and credits block age
    (onblock.cpp, and the block share of bpclaim). */
module BlockRounds {
  import opened Base

  const BP_CYCLE_BLOCK_OUT: int := 1
  const BASE_BLOCK_OUT_WEIGHT: nat := 1000
  const BP_PUNISH_DRAIN_NUM: nat := 9
  const BLOCK_OUT_REWARD: int := 5000
  const DRAIN_BLOCK_PUNISH: int := (5000 + 25000 + 5000 + 15000) * 2
  const PUNISH_BP_LIMIT: nat := 28800
  const BASE_BLOCK_OUT_PLEDGE: int := DRAIN_BLOCK_PUNISH * PUNISH_BP_LIMIT / NUM_OF_TOP_BPS

  datatype Producer = Producer(name: Name, amount: nat)

  type Schedule = seq<Producer>

  datatype Status = Normal | LackPledge | Punished

  datatype Monitor = Monitor(
    lastBlockNum: nat,
    consecutiveDrain: nat,
    consecutiveProduce: int,
    totalDrain: nat,
    stability: nat,
    blockAge: int,
    status: Status,
    endPunishBlock: nat)

  const NEW_MONITOR := Monitor(0, 0, 0, 0, BASE_BLOCK_OUT_WEIGHT, 0, Normal, 0)

  datatype BlockReward = BlockReward(
    lastStandardBp: Name, rewardBlockOut: int, totalBlockAge: int, lastRewardBlockNum: nat)

  datatype Proposal = Proposal(proposaler: Name, approveBp: seq<Name>, effectiveBlockNum: nat)

  // The tables that monitor the producers.
  datatype Watch = Watch(
    schedules: map<nat, Schedule>,
    monitors: map<Name, Monitor>,
    blockReward: Option<BlockReward>,
    punishbps: map<Name, Proposal>)

  // Rows of the systemconfig table, or the constants they replace.
  datatype Config = Config(weightLimit: nat, resetWeightNum: nat, approveToPunishNum: nat)

  // What the host hands to onblock; pledges holds the pledge of every account with a block.out row.
  datatype Block = Block(height: nat, bp: Name, version: nat, producers: seq<Name>, pledges: map<Name, int>)

  // ---- reading a schedule ----

  function Names(sch: Schedule): seq<Name> {
    seq(|sch|, i requires 0 <= i < |sch| => sch[i].name)
  }

  predicate Distinct(names: seq<Name>) {
    forall i, j | 0 <= i < j < |names| :: names[i] != names[j]
  }

  /** The first producer of that name; |sch| if there is none. */
  function Find(sch: Schedule, n: Name): (i: nat)
    ensures i <= |sch|
    ensures i < |sch| ==> sch[i].name == n
    ensures forall j | 0 <= j < i :: sch[j].name != n
  {
    if sch == [] then 0 else if sch[0].name == n then 0 else 1 + Find(sch[1..], n)
  }

  function AmountOf(sch: Schedule, n: Name): nat {
    if Find(sch, n) < |sch| then sch[Find(sch, n)].amount else 0
  }

  /** The index reward_block ends up with; it stays 0 when the name is not there. */
  function IndexOrFirst(sch: Schedule, n: Name): nat {
    if Find(sch, n) < |sch| then Find(sch, n) else 0
  }

  function NewSchedule(producers: seq<Name>, bp: Name): Schedule {
    seq(|producers|, i requires 0 <= i < |producers| => Producer(producers[i], if producers[i] == bp then 1 else 0))
  }

  /** One more block for the producer. */
  function Bump(sch: Schedule, bp: Name): Schedule {
    var i := Find(sch, bp);
    if i < |sch| then sch[i := sch[i].(amount := sch[i].amount + 1)] else sch
  }

  function MonitorOf(monitors: map<Name, Monitor>, n: Name): Monitor {
    if n in monitors then monitors[n] else NEW_MONITOR
  }

  function LastOf(monitors: map<Name, Monitor>, n: Name): nat {
    MonitorOf(monitors, n).lastBlockNum
  }

  // ---- deciding ----

  predicate IsRewardBlock(isChangeSch: bool, blockAmount: int, lastAmount: int) {
    isChangeSch || (blockAmount > lastAmount && blockAmount - lastAmount >= BP_CYCLE_BLOCK_OUT)
  }

  /** The slots from the first index up to, not including, the last one, going round the schedule. */
  predicate InArc(index: int, ifirst: int, ilast: int) {
    (ifirst <= index < ilast) || (ifirst > ilast && (ifirst <= index || index < ilast))
  }

  function RawDrain(isChangeSch: bool, index: int, ifirst: int, ilast: int, pre: int, current: int): int {
    pre + BP_CYCLE_BLOCK_OUT - current
    + (if InArc(index, ifirst, ilast) then 1 else 0)
    - (if isChangeSch && ifirst != ilast then 1 else 0)
  }

  /** The source compares the signed raw value with an unsigned 1, so a negative value is cut to 1, not to 0. */
  function DrainNum(isChangeSch: bool, index: int, ifirst: int, ilast: int, pre: int, current: int): nat {
    var raw := RawDrain(isChangeSch, index, ifirst, ilast, pre, current);
    if raw < 0 || raw > BP_CYCLE_BLOCK_OUT then 1 else raw
  }

  /** A 32-bit signed value as the unsigned one it is compared as. */
  function AsUnsigned(x: int): int {
    x % 0x1_0000_0000
  }

  /** Why the cut is where it is: a negative value compares as a large one. */
  lemma ComparesUnsigned(raw: int)
    requires -0x8000_0000 <= raw < 0x8000_0000
    ensures AsUnsigned(raw) > BP_CYCLE_BLOCK_OUT <==> raw < 0 || raw > BP_CYCLE_BLOCK_OUT
  {
    assert raw < 0 ==> AsUnsigned(raw) == raw + 0x1_0000_0000;
  }

  // ---- settling one producer ----

  /** Everything reward_block knows before its loop. */
  datatype Round = Round(isChangeSch: bool, ifirst: nat, ilast: nat, cfg: Config, pledges: map<Name, int>)

  function DrainOf(r: Round, i: nat, p: Producer, m: Monitor): nat {
    DrainNum(r.isChangeSch, i, r.ifirst, r.ilast, m.lastBlockNum, p.amount)
  }

  function AgeEarned(r: Round, p: Producer, m: Monitor): int {
    if p.name in r.pledges && r.pledges[p.name] > BASE_BLOCK_OUT_PLEDGE
    then (p.amount - m.lastBlockNum) * m.stability else 0
  }

  function Settled(r: Round, i: nat, p: Producer, m: Monitor): Monitor {
    var drain := DrainOf(r, i, p, m);
    var drained := if drain > 0 then m.consecutiveDrain + drain else 0;
    var produced := if drain > 0 then 0 else m.consecutiveProduce + (p.amount - m.lastBlockNum);
    var grown := if (produced + 1) % BP_PUNISH_DRAIN_NUM == 0 && m.stability < r.cfg.weightLimit
                 then m.stability + 1 else m.stability;
    var reset := if drained > r.cfg.resetWeightNum then BASE_BLOCK_OUT_WEIGHT else grown;
    Monitor(
      if r.isChangeSch then 0 else p.amount,
      drained,
      produced,
      m.totalDrain + drain,
      Min(reset, r.cfg.weightLimit),
      m.blockAge + AgeEarned(r, p, m),
      if drained > BP_PUNISH_DRAIN_NUM && m.status == Normal then LackPledge else m.status,
      m.endPunishBlock)
  }

  /** The first n producers of the schedule settled, in order. */
  function SettleUpTo(r: Round, sch: Schedule, monitors: map<Name, Monitor>, n: nat): map<Name, Monitor>
    requires n <= |sch|
  {
    if n == 0 then monitors
    else
      var before := SettleUpTo(r, sch, monitors, n - 1);
      before[sch[n - 1].name := Settled(r, n - 1, sch[n - 1], MonitorOf(before, sch[n - 1].name))]
  }

  function AgeUpTo(r: Round, sch: Schedule, monitors: map<Name, Monitor>, n: nat): int
    requires n <= |sch|
  {
    if n == 0 then 0
    else AgeUpTo(r, sch, monitors, n - 1)
         + AgeEarned(r, sch[n - 1], MonitorOf(SettleUpTo(r, sch, monitors, n - 1), sch[n - 1].name))
  }

  // The inline deduction sent to the pledge contract.
  datatype Fine = Fine(bp: Name, quantity: int)

  function FinesUpTo(r: Round, sch: Schedule, monitors: map<Name, Monitor>, n: nat): seq<Fine>
    requires n <= |sch|
  {
    if n == 0 then []
    else
      var p := sch[n - 1];
      var drain := DrainOf(r, n - 1, p, MonitorOf(SettleUpTo(r, sch, monitors, n - 1), p.name));
      FinesUpTo(r, sch, monitors, n - 1)
      + if drain > 0 && p.name in r.pledges then [Fine(p.name, drain * DRAIN_BLOCK_PUNISH)] else []
  }

  // A row of the drainblocks table of a producer.
  datatype LogKey = LogKey(bp: Name, height: nat)

  /** A row of drained rounds that was long enough ends: it is logged. */
  predicate EndsStreak(r: Round, i: nat, p: Producer, m: Monitor) {
    DrainOf(r, i, p, m) <= 0 && m.consecutiveDrain > r.cfg.resetWeightNum
  }

  function LogUpTo(r: Round, height: nat, sch: Schedule, monitors: map<Name, Monitor>, n: nat): map<LogKey, nat>
    requires n <= |sch|
  {
    if n == 0 then map[]
    else
      var p, before := sch[n - 1], LogUpTo(r, height, sch, monitors, n - 1);
      var m := MonitorOf(SettleUpTo(r, sch, monitors, n - 1), p.name);
      if EndsStreak(r, n - 1, p, m) then before[LogKey(p.name, height) := m.consecutiveDrain] else before
  }

  // ---- onblock ----

  predicate ChangesSchedule(w: Watch, b: Block) {
    b.version !in w.schedules
  }

  /** The schedule whose round a reward block closes: the one before, when the schedule has just changed. */
  function ClosedVersion(w: Watch, b: Block): int {
    if ChangesSchedule(w, b) then b.version - 1 else b.version
  }

  predicate ClosesRound(w: Watch, b: Block) {
    IsRewardBlock(ChangesSchedule(w, b),
                  if b.version in w.schedules then AmountOf(w.schedules[b.version], b.bp) else 0,
                  LastOf(w.monitors, b.bp))
  }

  function RoundOf(w: Watch, b: Block, cfg: Config): Round
    requires w.blockReward.Some? && ClosedVersion(w, b) in w.schedules
  {
    var sch := w.schedules[ClosedVersion(w, b)];
    Round(ChangesSchedule(w, b), IndexOrFirst(sch, w.blockReward.value.lastStandardBp), IndexOrFirst(sch, b.bp),
          cfg, b.pledges)
  }

  function AfterReward(w: Watch, b: Block, cfg: Config): Watch
    requires w.blockReward.Some? && ClosedVersion(w, b) in w.schedules
  {
    var sch, r, row := w.schedules[ClosedVersion(w, b)], RoundOf(w, b, cfg), w.blockReward.value;
    w.(monitors := SettleUpTo(r, sch, w.monitors, |sch|),
       blockReward := Some(BlockReward(b.bp,
                                       row.rewardBlockOut + (b.height - row.lastRewardBlockNum) * BLOCK_OUT_REWARD,
                                       row.totalBlockAge + AgeUpTo(r, sch, w.monitors, |sch|),
                                       b.height)))
  }

  /** The tables after the reward part of the block; without a blockreward row only a schedule change does
      anything: it creates the row. */
  function AfterRewardPart(w: Watch, b: Block, cfg: Config): Watch
    requires ClosesRound(w, b) && w.blockReward.Some? ==> ClosedVersion(w, b) in w.schedules
  {
    if !ClosesRound(w, b) then w
    else if w.blockReward.Some? then AfterReward(w, b, cfg)
    else if ChangesSchedule(w, b) then w.(blockReward := Some(BlockReward(b.bp, 0, 0, b.height)))
    else w
  }

  /** The whole effect of onblock on these tables. */
  function AfterBlock(w: Watch, b: Block, cfg: Config): Watch
    requires ClosesRound(w, b) && w.blockReward.Some? ==> ClosedVersion(w, b) in w.schedules
  {
    if |b.producers| < NUM_OF_TOP_BPS then w
    else
      var sch := if ChangesSchedule(w, b) then NewSchedule(b.producers[..NUM_OF_TOP_BPS], b.bp)
                 else Bump(w.schedules[b.version], b.bp);
      var w1 := AfterRewardPart(w, b, cfg);
      w1.(schedules := w1.schedules[b.version := sch])
  }

  /** onblock as a step. A closed schedule that is not there would be an iterator past the end; BlockCredits shows
      that no run gets there. */
  function BlockStep(w: Watch, b: Block, cfg: Config): Watch {
    if ClosesRound(w, b) && w.blockReward.Some? && ClosedVersion(w, b) !in w.schedules then w
    else AfterBlock(w, b, cfg)
  }

  // ---- the block share of bpclaim ----

  /** The block reward is there to share and the producer is monitored. */
  predicate HasBlockShare(w: Watch, bp: Name) {
    w.blockReward.Some? && bp in w.monitors
  }

  /** Dividing by a zero total age traps, and a producer may not take the whole pool. */
  predicate CanClaimShare(w: Watch, bp: Name) {
    HasBlockShare(w, bp) ==>
      w.blockReward.value.totalBlockAge > 0 && BlockShare(w, bp) < w.blockReward.value.rewardBlockOut
  }

  function BlockShare(w: Watch, bp: Name): int
    requires HasBlockShare(w, bp) ==> w.blockReward.value.totalBlockAge > 0
  {
    if HasBlockShare(w, bp) then
      TruncDiv(w.monitors[bp].blockAge * w.blockReward.value.rewardBlockOut, w.blockReward.value.totalBlockAge)
    else 0
  }

  function AfterClaimShare(w: Watch, bp: Name): Watch
    requires CanClaimShare(w, bp)
  {
    if HasBlockShare(w, bp) then
      var row := w.blockReward.value;
      w.(monitors := w.monitors[bp := w.monitors[bp].(blockAge := 0)],
         blockReward := Some(row.(totalBlockAge := row.totalBlockAge - w.monitors[bp].blockAge,
                                  rewardBlockOut := row.rewardBlockOut - BlockShare(w, bp))))
    else w
  }
}
