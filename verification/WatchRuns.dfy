/** Runs of the monitoring tables: blocks, bpclaim and the punishment protocol interleaved in any order. */
module WatchRuns {
  import opened Base
  import opened Totals
  import opened BlockRounds
  import opened BlockCredits
  import opened SlotTimeline
  import opened Punishment
  import P = Pledge

  // A block, with the slot it was made in; the block share of a bpclaim; an action of the protocol.
  datatype Event =
    | Produce(b: Block, t: nat)
    | ClaimShare(bp: Name)
    | Protocol(signer: Name, pledges: PledgeRows, a: Act)

  predicate CanHappen(c: Chain, e: Event, cfg: Config) {
    match e
    case Produce(b, t) => NextBlock(c.w, c.version, c.height, b)
    case ClaimShare(bp) => CanClaimShare(c.w, bp)
    case Protocol(signer, pledges, a) => Can(c.w, c.version, cfg, c.height, signer, pledges, a)
  }

  ghost function Happen(c: Chain, e: Event, cfg: Config): Chain
    requires CanHappen(c, e, cfg)
  {
    match e
    case Produce(b, t) => AfterProduce(c, b, cfg)
    case ClaimShare(bp) => AfterShare(c, bp)
    case Protocol(signer, pledges, a) => c.(w := Effect(c.w, c.version, cfg, c.height, signer, pledges, a))
  }

  /** The states of a run and the events between them; aborted actions leave no trace. */
  ghost predicate Trace(cs: seq<Chain>, es: seq<Event>, cfg: Config) {
    |cs| == |es| + 1 && Start(cs[0]) &&
    forall i | 0 <= i < |es| :: CanHappen(cs[i], es[i], cfg) && cs[i + 1] == Happen(cs[i], es[i], cfg)
  }

  lemma HappenKeeps(c: Chain, e: Event, cfg: Config)
    requires ChainOk(c) && CanHappen(c, e, cfg)
    ensures ChainOk(Happen(c, e, cfg))
  {
    hide ChainOk, NextBlock, Can, Effect, AfterProduce, AfterShare;
    match e
    case Produce(b, t) => ProduceKeeps(c, b, cfg);
    case ClaimShare(bp) => ShareKeeps(c, bp);
    case Protocol(signer, pledges, a) =>
      EffectKeepsCounters(c.w, c.version, cfg, c.height, signer, pledges, a);
      SameCountersKeep(c, Effect(c.w, c.version, cfg, c.height, signer, pledges, a));
  }

  lemma {:induction false} TraceKeeps(cs: seq<Chain>, es: seq<Event>, cfg: Config, k: nat)
    requires Trace(cs, es, cfg) && k < |cs|
    ensures ChainOk(cs[k])
  {
    hide ChainOk, CanHappen, Happen;
    if k == 0 {
      StartIsOk(cs[0]);
    } else {
      TraceKeeps(cs, es, cfg, k - 1);
      HappenKeeps(cs[k - 1], es[k - 1], cfg);
    }
  }

  // ---- credits and pool ----

  /** In every run, at every block that closes a round: 0 or 1 block per producer, all blocks since the last closed
      round together, 23 at most. */
  lemma CreditedExactlyOnce(cs: seq<Chain>, es: seq<Event>, cfg: Config, k: nat)
    requires Trace(cs, es, cfg) && k < |es| && es[k].Produce?
    requires ClosesRound(cs[k].w, es[k].b) && cs[k].w.blockReward.Some?
    ensures ClosedVersion(cs[k].w, es[k].b) in cs[k].w.schedules
    ensures var c, b := cs[k], es[k].b; var sch := c.w.schedules[ClosedVersion(c.w, b)];
      |sch| == NUM_OF_TOP_BPS &&
      (forall i | 0 <= i < |sch| :: Credit(sch[i], c.w.monitors) in {0, 1}) &&
      Credits(sch, c.w.monitors, |sch|) == b.height - c.w.blockReward.value.lastRewardBlockNum <= NUM_OF_TOP_BPS
  {
    TraceKeeps(cs, es, cfg, k);
    EveryBlockIsCredited(cs[k].w, cs[k].version, cs[k].height, es[k].b);
  }

  /** In every run: the total block age is the sum of the monitors' ages, and the pool plus everything bpclaim ever
      paid from it is 5000 units for each block from the creation of the row to the last closed round. */
  lemma BlockRewardBookkeeping(cs: seq<Chain>, es: seq<Event>, cfg: Config, k: nat)
    requires Trace(cs, es, cfg) && k < |cs| && cs[k].w.blockReward.Some?
    ensures var c := cs[k]; var row := c.w.blockReward.value;
      row.totalBlockAge == Total(c.w.monitors, BlockAges()) >= 0 &&
      row.rewardBlockOut + c.p.paid == BLOCK_OUT_REWARD * (row.lastRewardBlockNum - c.p.created) &&
      0 <= row.rewardBlockOut && 0 <= c.p.paid
  {
    TraceKeeps(cs, es, cfg, k);
    TotalNonNegative(cs[k].w.monitors, BlockAges());
  }

  // ---- the slot timeline ----

  /** The slots of the open round after the first k events. */
  ghost function SlotsAt(cs: seq<Chain>, es: seq<Event>, k: nat): seq<nat>
    requires k <= |es| < |cs|
  {
    if k == 0 then []
    else if es[k - 1].Produce? then SlotsAfter(cs[k - 1], SlotsAt(cs, es, k - 1), es[k - 1].b, es[k - 1].t)
    else SlotsAt(cs, es, k - 1)
  }

  /** Every block up to the k-th event was made in its slot. */
  ghost predicate OnTimeline(cs: seq<Chain>, es: seq<Event>, k: nat)
    requires k <= |es| < |cs|
  {
    forall i | 0 <= i < k && es[i].Produce? :: InSlot(SlotsAt(cs, es, i), es[i].b, es[i].t)
  }

  lemma {:induction false} TraceTracks(cs: seq<Chain>, es: seq<Event>, cfg: Config, k: nat)
    requires Trace(cs, es, cfg) && k <= |es| && OnTimeline(cs, es, k)
    ensures Tracks(cs[k], SlotsAt(cs, es, k))
  {
    hide ChainOk, Can, Effect, NextBlock, InSlot, SlotsAfter, AfterProduce, AfterShare;
    if k > 0 {
      var c, slots := cs[k - 1], SlotsAt(cs, es, k - 1);
      TraceKeeps(cs, es, cfg, k - 1);
      TraceTracks(cs, es, cfg, k - 1);
      match es[k - 1]
      case Produce(b, t) => BlockKeepsTrack(c, slots, b, t, cfg);
      case ClaimShare(bp) => ShareKeepsTrack(c, slots, bp);
      case Protocol(signer, pledges, a) =>
        EffectKeepsCounters(c.w, c.version, cfg, c.height, signer, pledges, a);
        SameCountersKeep(c, Effect(c.w, c.version, cfg, c.height, signer, pledges, a));
    }
  }

  /** Missed-block detection over every run: in a round that closes inside its schedule nobody is charged for a block it
      did not miss, and every producer that missed a slot is charged exactly when the round spans fewer than two full
      rotations. */
  lemma MissedBlockDetection(cs: seq<Chain>, es: seq<Event>, cfg: Config, k: nat)
    requires Trace(cs, es, cfg) && k < |es| && OnTimeline(cs, es, k + 1) && es[k].Produce?
    requires es[k].b.version == cs[k].version && ClosesRound(cs[k].w, es[k].b) && cs[k].w.blockReward.Some?
    ensures var c, slots, b, t := cs[k], SlotsAt(cs, es, k), es[k].b, es[k].t;
      ClosedVersion(c.w, b) == c.version && c.version in c.w.schedules &&
        |c.w.schedules[c.version]| == NUM_OF_TOP_BPS &&
      slots != [] && slots[0] + NUM_OF_TOP_BPS <= t &&
      (forall i: nat | i < NUM_OF_TOP_BPS :: DrainAt(c, b, cfg, i) == 1 ==> Missed(slots, t, i) >= 1) &&
      ((forall i: nat | i < NUM_OF_TOP_BPS :: DrainAt(c, b, cfg, i) == 1 <==> Missed(slots, t, i) >= 1) <==>
        t - slots[0] < 2 * NUM_OF_TOP_BPS)
  {
    TraceKeeps(cs, es, cfg, k);
    TraceTracks(cs, es, cfg, k);
    DrainRefinesTimeline(cs[k], SlotsAt(cs, es, k), es[k].b, es[k].t, cfg);
  }

  /** Schedule changes over every run, producer by producer: who is charged without having missed a slot, and who missed
      one without being charged. */
  lemma ChangesOverRuns(cs: seq<Chain>, es: seq<Event>, cfg: Config, k: nat, i: nat)
    requires Trace(cs, es, cfg) && k < |es| && OnTimeline(cs, es, k + 1) && es[k].Produce? && i < NUM_OF_TOP_BPS
    requires es[k].b.version != cs[k].version && cs[k].w.blockReward.Some?
    ensures var c, slots, b, t := cs[k], SlotsAt(cs, es, k), es[k].b, es[k].t;
      ClosedVersion(c.w, b) == c.version && c.version in c.w.schedules &&
        |c.w.schedules[c.version]| == NUM_OF_TOP_BPS &&
      slots != [] && slots[0] < t && DrainAt(c, b, cfg, i) in {0, 1} && 0 <= Missed(slots, t, i) &&
      (DrainAt(c, b, cfg, i) == 1 && Missed(slots, t, i) == 0 <==> ChargedUnduly(c, slots, b, t, cfg, i)) &&
      (DrainAt(c, b, cfg, i) == 0 && Missed(slots, t, i) >= 1 <==> LetOff(c, slots, b, t, cfg, i))
  {
    TraceKeeps(cs, es, cfg, k);
    TraceTracks(cs, es, cfg, k);
    ChangeRound(cs[k], SlotsAt(cs, es, k), es[k].b, es[k].t, cfg, i);
  }

  /** Every deduction sent in any run, whichever way the round closes: one fine, for a slot missed unless a schedule
      change charges the producer unduly. */
  lemma FinesOverRuns(cs: seq<Chain>, es: seq<Event>, cfg: Config, k: nat, f: Fine)
    requires Trace(cs, es, cfg) && k < |es| && OnTimeline(cs, es, k + 1) && es[k].Produce?
    requires ClosesRound(cs[k].w, es[k].b) && cs[k].w.blockReward.Some?
    requires ClosedVersion(cs[k].w, es[k].b) == cs[k].version && cs[k].version in cs[k].w.schedules
    requires var sch := cs[k].w.schedules[cs[k].version];
      f in FinesUpTo(RoundOf(cs[k].w, es[k].b, cfg), sch, cs[k].w.monitors, |sch|)
    ensures var c, slots, b, t := cs[k], SlotsAt(cs, es, k), es[k].b, es[k].t;
      f.quantity == DRAIN_BLOCK_PUNISH && f.bp in b.pledges && slots != [] && slots[0] <= t &&
      |c.w.schedules[c.version]| == NUM_OF_TOP_BPS &&
      exists i: nat :: i < NUM_OF_TOP_BPS && c.w.schedules[c.version][i].name == f.bp && DrainAt(c, b, cfg, i) == 1 &&
                       (Missed(slots, t, i) >= 1 <==> !ChargedUnduly(c, slots, b, t, cfg, i))
  {
    TraceKeeps(cs, es, cfg, k);
    TraceTracks(cs, es, cfg, k);
    FinesAreDeserved(cs[k], SlotsAt(cs, es, k), es[k].b, es[k].t, cfg, f);
  }

  /** In every run, whichever way the round closes, the pledge contract accepts every deduction that onblock sends, so
      none of them takes the block down with it. */
  lemma FinesAreAccepted(cs: seq<Chain>, es: seq<Event>, cfg: Config, k: nat, ps: P.State, f: Fine)
    requires Trace(cs, es, cfg) && k < |es| && es[k].Produce?
    requires ClosesRound(cs[k].w, es[k].b) && cs[k].w.blockReward.Some? &&
      ClosedVersion(cs[k].w, es[k].b) in cs[k].w.schedules
    requires var sch := cs[k].w.schedules[ClosedVersion(cs[k].w, es[k].b)];
      f in FinesUpTo(RoundOf(cs[k].w, es[k].b, cfg), sch, cs[k].w.monitors, |sch|)
    requires P.TypeMatches(ps, BLOCK_OUT, CORE) && ps.types[BLOCK_OUT].deductor == SYSTEM_ACCOUNT
    ensures P.Can(ps, SYSTEM_ACCOUNT, P.Deduction(BLOCK_OUT, f.bp, f.quantity, CORE)) && f.bp in es[k].b.pledges
  {
    TraceKeeps(cs, es, cfg, k);
    ClosedIsThere(cs[k].w, cs[k].version, cs[k].height, es[k].b);
    var sch := cs[k].w.schedules[cs[k].version];
    FineComesFromDrain(RoundOf(cs[k].w, es[k].b, cfg), sch, cs[k].w.monitors, |sch|, f);
  }

  // ---- the punishment protocol ----

  predicate IsOpening(e: Event, bp: Name) {
    e.Protocol? && e.a.PunishBp? && e.a.bp == bp
  }

  predicate IsApproval(e: Event, bp: Name, approver: Name) {
    e.Protocol? && e.a == ApproveBp(bp, approver)
  }

  /** The last event before the k-th that opened a proposal against bp; -1 if there is none. */
  function OpenedAt(es: seq<Event>, k: nat, bp: Name): int
    requires k <= |es|
  {
    if k == 0 then -1 else if IsOpening(es[k - 1], bp) then k - 1 else OpenedAt(es, k - 1, bp)
  }

  /** The approver approved after the i-th event and before the k-th, while the proposal opened there was open. */
  ghost predicate ApprovedBetween(cs: seq<Chain>, es: seq<Event>, i: int, k: nat, bp: Name, approver: Name)
    requires 0 <= i < k <= |es| < |cs|
  {
    exists m :: i < m < k && IsApproval(es[m], bp, approver) && cs[m].height < cs[i].height + PUNISH_BP_LIMIT
  }

  /** A proposal in the table was opened against a producer lacking pledge, and every approval on it is real. */
  ghost predicate Backed(cs: seq<Chain>, es: seq<Event>, k: nat, bp: Name)
    requires k <= |es| < |cs|
  {
    bp in cs[k].w.punishbps ==>
      var i, proposal := OpenedAt(es, k, bp), cs[k].w.punishbps[bp];
      0 <= i < k && StatusOf(cs[i].w, bp) == Some(LackPledge) &&
      proposal.effectiveBlockNum == cs[i].height + PUNISH_BP_LIMIT &&
      Distinct(proposal.approveBp) &&
      forall a | a in proposal.approveBp :: ApprovedBetween(cs, es, i, k, bp, a)
  }

  lemma BlocksLeaveProposals(w: Watch, b: Block, cfg: Config)
    ensures BlockStep(w, b, cfg).punishbps == w.punishbps
  {
    hide SettleUpTo, AgeUpTo;
  }

  lemma LaterApprovals(cs: seq<Chain>, es: seq<Event>, i: int, k: nat, bp: Name, approver: Name)
    requires 0 <= i < k < |es| < |cs| && ApprovedBetween(cs, es, i, k, bp, approver)
    ensures ApprovedBetween(cs, es, i, k + 1, bp, approver)
  {
  }

  lemma {:induction false} ProposalsAreBacked(cs: seq<Chain>, es: seq<Event>, cfg: Config, k: nat, bp: Name)
    requires Trace(cs, es, cfg) && k <= |es|
    ensures Backed(cs, es, k, bp)
  {
    if k > 0 {
      ProposalsAreBacked(cs, es, cfg, k - 1, bp);
      assert CanHappen(cs[k - 1], es[k - 1], cfg) && cs[k] == Happen(cs[k - 1], es[k - 1], cfg);
      BackedStep(cs, es, cfg, k - 1, bp);
    }
  }

  lemma BackedStep(cs: seq<Chain>, es: seq<Event>, cfg: Config, k: nat, bp: Name)
    requires k < |es| < |cs| && Backed(cs, es, k, bp)
    requires CanHappen(cs[k], es[k], cfg) && cs[k + 1] == Happen(cs[k], es[k], cfg)
    ensures Backed(cs, es, k + 1, bp)
  {
    hide ApprovedBetween, NextBlock, CanClaimShare, Supers, BlockStep;
    var w, w' := cs[k].w, cs[k + 1].w;
    if es[k].Produce? {
      BlocksLeaveProposals(w, es[k].b, cfg);
    }
    if bp in w'.punishbps && !IsOpening(es[k], bp) {
      var i := OpenedAt(es, k, bp);
      assert bp in w.punishbps;
      forall a | a in w.punishbps[bp].approveBp ensures ApprovedBetween(cs, es, i, k + 1, bp, a) {
        LaterApprovals(cs, es, i, k, bp, a);
      }
      if es[k].Protocol? && es[k].a.ApproveBp? && es[k].a.bp == bp {
        NewApproval(cs, es, i, k, bp, es[k].a.approver);
      }
    }
  }

  lemma NewApproval(cs: seq<Chain>, es: seq<Event>, i: int, k: nat, bp: Name, approver: Name)
    requires 0 <= i < k < |es| < |cs| && IsApproval(es[k], bp, approver) &&
      cs[k].height < cs[i].height + PUNISH_BP_LIMIT
    ensures ApprovedBetween(cs, es, i, k + 1, bp, approver)
  {
  }

  /** Blocks make nobody punished and free nobody. */
  lemma {:induction false} SettleLeavesPunished(r: Round, sch: Schedule, monitors: map<Name, Monitor>, n: nat, bp: Name)
    requires n <= |sch|
    ensures var after, before := MonitorOf(SettleUpTo(r, sch, monitors, n), bp), MonitorOf(monitors, bp);
      (after.status == Punished <==> before.status == Punished) && after.endPunishBlock == before.endPunishBlock
    ensures bp in monitors ==> bp in SettleUpTo(r, sch, monitors, n)
  {
    if n > 0 {
      SettleLeavesPunished(r, sch, monitors, n - 1, bp);
    }
  }

  predicate IsPunished(w: Watch, bp: Name) {
    StatusOf(w, bp) == Some(Punished)
  }

  lemma BlocksLeavePunished(w: Watch, b: Block, cfg: Config, bp: Name)
    ensures IsPunished(BlockStep(w, b, cfg), bp) <==> IsPunished(w, bp)
    ensures MonitorOf(BlockStep(w, b, cfg).monitors, bp).endPunishBlock == MonitorOf(w.monitors, bp).endPunishBlock
  {
    hide Settled, SettleUpTo, AgeUpTo;
    if ClosesRound(w, b) && w.blockReward.Some? && ClosedVersion(w, b) in w.schedules {
      var sch := w.schedules[ClosedVersion(w, b)];
      SettleLeavesPunished(RoundOf(w, b, cfg), sch, w.monitors, |sch|, bp);
    }
  }

  /** Punishment safety: in every run a producer becomes punished only through an approval, while it lacks pledge, on a
      proposal opened less than PUNISH_BP_LIMIT blocks earlier, also while it lacked pledge; and at least the configured
      number of distinct producers of the latest schedule approved that very proposal before it expired. */
  lemma PunishedOnlyWhenDue(cs: seq<Chain>, es: seq<Event>, cfg: Config, k: nat, bp: Name)
    requires Trace(cs, es, cfg) && k < |es|
    requires !IsPunished(cs[k].w, bp) && IsPunished(cs[k + 1].w, bp)
    ensures es[k].Protocol? && es[k].a.ApproveBp? && es[k].a.bp == bp
    ensures StatusOf(cs[k].w, bp) == Some(LackPledge)
    ensures var i := OpenedAt(es, k, bp);
      0 <= i < k && StatusOf(cs[i].w, bp) == Some(LackPledge) &&
      exists approvers: seq<Name> ::
        |approvers| >= cfg.approveToPunishNum && Distinct(approvers) &&
        forall a | a in approvers :: a in SuperBps(cs[k].w, cs[k].version) && ApprovedBetween(cs, es, i, k + 1, bp, a)
  {
    assert CanHappen(cs[k], es[k], cfg) && cs[k + 1] == Happen(cs[k], es[k], cfg);
    OnlyApprovalPunishes(cs[k], es[k], cfg, bp);
    ProposalsAreBacked(cs, es, cfg, k, bp);
    var i, approver := OpenedAt(es, k, bp), es[k].a.approver;
    var approvals := ApprovalsAfter(cs[k].w, bp, approver);
    var approvers := Supers(approvals, SuperBps(cs[k].w, cs[k].version));
    SupersAreSupers(approvals, SuperBps(cs[k].w, cs[k].version));
    NewApproval(cs, es, i, k, bp, approver);
    forall a | a in approvers ensures ApprovedBetween(cs, es, i, k + 1, bp, a) {
      if a != approver {
        LaterApprovals(cs, es, i, k, bp, a);
      }
    }
  }

  lemma OnlyApprovalPunishes(c: Chain, e: Event, cfg: Config, bp: Name)
    requires CanHappen(c, e, cfg) && !IsPunished(c.w, bp) && IsPunished(Happen(c, e, cfg).w, bp)
    ensures e.Protocol? && e.a.ApproveBp? && e.a.bp == bp && bp in c.w.punishbps
    ensures Executes(c.w, c.version, cfg, bp, e.a.approver) && StatusOf(c.w, bp) == Some(LackPledge)
  {
    hide NextBlock, BlockStep, Supers;
    if e.Produce? {
      BlocksLeavePunished(c.w, e.b, cfg, bp);
    }
  }

  /** From the event that punished it, a producer is punished until more than PUNISH_BP_LIMIT blocks have passed. */
  lemma {:induction false} PunishedUntil(cs: seq<Chain>, es: seq<Event>, cfg: Config, i: nat, k: nat, bp: Name)
    requires Trace(cs, es, cfg) && i < k <= |es|
    requires !IsPunished(cs[i].w, bp) && IsPunished(cs[i + 1].w, bp)
    ensures cs[i].height <= cs[k].height
    ensures cs[k].height > cs[i].height + PUNISH_BP_LIMIT ||
            (IsPunished(cs[k].w, bp) && cs[k].w.monitors[bp].endPunishBlock == cs[i].height + PUNISH_BP_LIMIT)
  {
    hide CanHappen, Happen, IsPunished, Executes;
    assert CanHappen(cs[k - 1], es[k - 1], cfg) && cs[k] == Happen(cs[k - 1], es[k - 1], cfg);
    if k == i + 1 {
      OnlyApprovalPunishes(cs[i], es[i], cfg, bp);
      PunishedFrom(cs[i], es[i], cfg, bp);
    } else {
      PunishedUntil(cs, es, cfg, i, k - 1, bp);
      PunishedStep(cs[k - 1], es[k - 1], cfg, bp, cs[i].height + PUNISH_BP_LIMIT);
    }
  }

  lemma PunishedFrom(c: Chain, e: Event, cfg: Config, bp: Name)
    requires CanHappen(c, e, cfg) && e.Protocol? && e.a.ApproveBp? && e.a.bp == bp && bp in c.w.punishbps
    requires Executes(c.w, c.version, cfg, bp, e.a.approver)
    ensures var c' := Happen(c, e, cfg);
      c'.height == c.height && IsPunished(c'.w, bp) && c'.w.monitors[bp].endPunishBlock == c.height + PUNISH_BP_LIMIT
  {
    hide Supers;
  }

  lemma PunishedStep(c: Chain, e: Event, cfg: Config, bp: Name, end: nat)
    requires CanHappen(c, e, cfg)
    requires c.height > end || (IsPunished(c.w, bp) && c.w.monitors[bp].endPunishBlock == end)
    ensures var c' := Happen(c, e, cfg);
      c'.height >= c.height &&
      (c'.height > end || (IsPunished(c'.w, bp) && c'.w.monitors[bp].endPunishBlock == end))
  {
    hide BlockStep, Supers;
    if e.Produce? {
      BlocksLeavePunished(c.w, e.b, cfg, bp);
    }
  }

  /** A punished producer is not free again within PUNISH_BP_LIMIT blocks. */
  lemma StaysPunished(cs: seq<Chain>, es: seq<Event>, cfg: Config, i: nat, k: nat, bp: Name)
    requires Trace(cs, es, cfg) && i < k <= |es|
    requires !IsPunished(cs[i].w, bp) && IsPunished(cs[i + 1].w, bp) && !IsPunished(cs[k].w, bp)
    ensures cs[k].height > cs[i].height + PUNISH_BP_LIMIT
  {
    PunishedUntil(cs, es, cfg, i, k, bp);
  }

  // ---- how a producer comes to lack pledge ----

  /** The drain charged to bp, if the event closes a round of a schedule it is in. */
  ghost function Charged(c: Chain, e: Event, cfg: Config, bp: Name): Option<nat> {
    if e.Produce? && ClosesRound(c.w, e.b) && c.w.blockReward.Some? && ClosedVersion(c.w, e.b) in c.w.schedules then
      var sch := c.w.schedules[ClosedVersion(c.w, e.b)];
      if Find(sch, bp) < |sch| then Some(DrainAt(c, e.b, cfg, Find(sch, bp))) else None
    else None
  }

  /** How many of its last closed rounds in a row the producer was drained in, up to the k-th event. */
  ghost function Streak(cs: seq<Chain>, es: seq<Event>, cfg: Config, k: nat, bp: Name): nat
    requires k <= |es| < |cs|
  {
    if k == 0 then 0
    else
      match Charged(cs[k - 1], es[k - 1], cfg, bp)
      case None => Streak(cs, es, cfg, k - 1, bp)
      case Some(drain) => if drain > 0 then Streak(cs, es, cfg, k - 1, bp) + 1 else 0
  }

  /** What a block does to one monitor: settled by its charge, or untouched. */
  lemma BlockOnMonitor(c: Chain, b: Block, t: nat, cfg: Config, bp: Name)
    requires ChainOk(c) && NextBlock(c.w, c.version, c.height, b)
    ensures var charge := Charged(c, Produce(b, t), cfg, bp);
      var m, m' := MonitorOf(c.w.monitors, bp), MonitorOf(BlockStep(c.w, b, cfg).monitors, bp);
      match charge
      case None => m' == m
      case Some(drain) =>
        drain in {0, 1} && m'.consecutiveDrain == (if drain > 0 then m.consecutiveDrain + 1 else 0) &&
        m'.totalDrain == m.totalDrain + drain &&
        m'.status == if m'.consecutiveDrain > BP_PUNISH_DRAIN_NUM && m.status == Normal then LackPledge else m.status
  {
    hide PoolOk, SettleUpTo, AgeUpTo, AgeEarned, InArc;
    ClosedIsThere(c.w, c.version, c.height, b);
    if ClosesRound(c.w, b) && c.w.blockReward.Some? {
      var sch := c.w.schedules[c.version];
      SettleRows(RoundOf(c.w, b, cfg), sch, c.w.monitors, |sch|);
      hide Credit, Credits;
    }
  }

  lemma HappenOnStreak(c: Chain, e: Event, cfg: Config, bp: Name)
    requires ChainOk(c) && CanHappen(c, e, cfg)
    ensures var m, m' := MonitorOf(c.w.monitors, bp), MonitorOf(Happen(c, e, cfg).w.monitors, bp);
      m'.consecutiveDrain ==
        (match Charged(c, e, cfg, bp)
         case None => m.consecutiveDrain
         case Some(drain) => if drain > 0 then m.consecutiveDrain + 1 else 0) &&
      (m'.status == LackPledge && m.status != LackPledge ==>
         e.Produce? && m.status == Normal && m'.consecutiveDrain > BP_PUNISH_DRAIN_NUM &&
           Charged(c, e, cfg, bp) == Some(1))
  {
    hide ChainOk, NextBlock, BlockStep, Supers, ClosesRound, DrainAt;
    if e.Produce? {
      BlockOnMonitor(c, e.b, e.t, cfg, bp);
    }
  }

  lemma {:induction false} StreakIsKept(cs: seq<Chain>, es: seq<Event>, cfg: Config, k: nat, bp: Name)
    requires Trace(cs, es, cfg) && k <= |es|
    ensures MonitorOf(cs[k].w.monitors, bp).consecutiveDrain == Streak(cs, es, cfg, k, bp)
  {
    hide CanHappen, Happen, Charged, ChainOk;
    if k > 0 {
      TraceKeeps(cs, es, cfg, k - 1);
      StreakIsKept(cs, es, cfg, k - 1, bp);
      HappenOnStreak(cs[k - 1], es[k - 1], cfg, bp);
    } else {
      NoMonitorsAtStart(cs[0], bp);
    }
  }

  lemma NoMonitorsAtStart(c: Chain, bp: Name)
    requires Start(c)
    ensures MonitorOf(c.w.monitors, bp) == NEW_MONITOR
  {
  }

  /** In every run a producer comes to lack pledge only from the normal state, at a block that closes a round in which
      it is drained, and only after at least ten drained rounds in a row, not counting rounds of schedules it is not
      in. */
  lemma LackPledgeIsEarned(cs: seq<Chain>, es: seq<Event>, cfg: Config, k: nat, bp: Name)
    requires Trace(cs, es, cfg) && k < |es|
    requires StatusOf(cs[k].w, bp) != Some(LackPledge) && StatusOf(cs[k + 1].w, bp) == Some(LackPledge)
    ensures es[k].Produce? && MonitorOf(cs[k].w.monitors, bp).status == Normal
    ensures Charged(cs[k], es[k], cfg, bp) == Some(1) && Streak(cs, es, cfg, k + 1, bp) >= 10
  {
    hide CanHappen, Happen, Charged, ChainOk;
    TraceKeeps(cs, es, cfg, k);
    HappenOnStreak(cs[k], es[k], cfg, bp);
    StreakIsKept(cs, es, cfg, k + 1, bp);
  }

  // ---- the drain log ----

  /** What settling logs: for each producer of the schedule, the row of drained rounds that ends. */
  lemma {:induction false} LogRows(r: Round, height: nat, sch: Schedule, monitors: map<Name, Monitor>, n: nat, bp: Name)
    requires n <= |sch| && Distinct(Names(sch))
    ensures var log, key, i, m := LogUpTo(r, height, sch, monitors, n), LogKey(bp, height), Find(sch, bp),
      MonitorOf(monitors, bp);
      (key in log <==> i < n && EndsStreak(r, i, sch[i], m)) && (key in log ==> log[key] == m.consecutiveDrain)
  {
    hide EndsStreak, SettleUpTo, Names, Distinct;
    if n > 0 {
      LogRows(r, height, sch, monitors, n - 1, bp);
      NotYetSettled(r, sch, monitors, n - 1, bp);
    }
  }

  lemma NotYetSettled(r: Round, sch: Schedule, monitors: map<Name, Monitor>, n: nat, bp: Name)
    requires n < |sch| && Distinct(Names(sch))
    ensures MonitorOf(SettleUpTo(r, sch, monitors, n), sch[n].name) == MonitorOf(monitors, sch[n].name)
    ensures Find(sch, bp) == n <==> sch[n].name == bp
  {
    hide Settled;
    FindIs(sch, n);
    SettleRows(r, sch, monitors, n);
    assert forall i | 0 <= i < n :: Names(sch)[i] == sch[i].name && Names(sch)[n] == sch[n].name;
  }

  /** In every run a block logs exactly the producers whose row of drained rounds it ends, if that row is longer than
      the configured number, and it logs its length. */
  lemma LogIsStreak(cs: seq<Chain>, es: seq<Event>, cfg: Config, k: nat, bp: Name)
    requires Trace(cs, es, cfg) && k < |es| && es[k].Produce?
    requires ClosesRound(cs[k].w, es[k].b) && cs[k].w.blockReward.Some? &&
      ClosedVersion(cs[k].w, es[k].b) in cs[k].w.schedules
    ensures var c, b := cs[k], es[k].b; var sch := c.w.schedules[ClosedVersion(c.w, b)];
      var log, streak := LogUpTo(RoundOf(c.w, b, cfg), b.height, sch, c.w.monitors, |sch|), Streak(cs, es, cfg, k, bp);
      (LogKey(bp, b.height) in log <==> Charged(c, es[k], cfg, bp) == Some(0) && streak > cfg.resetWeightNum) &&
      (LogKey(bp, b.height) in log ==> log[LogKey(bp, b.height)] == streak)
  {
    TraceKeeps(cs, es, cfg, k);
    ClosedIsThere(cs[k].w, cs[k].version, cs[k].height, es[k].b);
    StreakIsKept(cs, es, cfg, k, bp);
    hide Streak, Trace, ChainOk;
    var sch := cs[k].w.schedules[ClosedVersion(cs[k].w, es[k].b)];
    assert sch == cs[k].w.schedules[cs[k].version];
    LogRows(RoundOf(cs[k].w, es[k].b, cfg), es[k].b.height, sch, cs[k].w.monitors, |sch|, bp);
  }
}
