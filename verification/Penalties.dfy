/** Who opens, approves and decides a punishment, who gets its penalty, and what changes a producer's status, over every
    run of the monitoring tables. */
module Penalties {
  import opened Base
  import opened BlockRounds
  import opened BlockCredits
  import opened SlotTimeline
  import opened Punishment
  import opened WatchRuns
  import P = Pledge

  // ---- proposals, approvals and penalties over a run ----

  /** Who approved a punishment of bp between the i-th event and the k-th, in order. */
  function ApproversSince(es: seq<Event>, i: int, k: nat, bp: Name): seq<Name>
    requires k <= |es|
  {
    if k == 0 || k <= i + 1 then []
    else
      var e := es[k - 1];
      ApproversSince(es, i, k - 1, bp)
      + if e.Protocol? && e.a.ApproveBp? && e.a.bp == bp then [e.a.approver] else []
  }

  /** A proposal in the table is the last one opened: its proposer, its approvers and its term are those of the
      events. */
  ghost predicate FromHistory(cs: seq<Chain>, es: seq<Event>, k: nat, bp: Name)
    requires k <= |es| < |cs|
  {
    bp in cs[k].w.punishbps ==>
      var i, proposal := OpenedAt(es, k, bp), cs[k].w.punishbps[bp];
      0 <= i < k && IsOpening(es[i], bp) && proposal.proposaler == es[i].a.proposaler &&
      proposal.effectiveBlockNum == cs[i].height + PUNISH_BP_LIMIT && proposal.approveBp == ApproversSince(es, i, k, bp)
  }

  lemma HistoryStep(cs: seq<Chain>, es: seq<Event>, cfg: Config, k: nat, bp: Name)
    requires k < |es| < |cs| && FromHistory(cs, es, k, bp)
    requires CanHappen(cs[k], es[k], cfg) && cs[k + 1] == Happen(cs[k], es[k], cfg)
    ensures FromHistory(cs, es, k + 1, bp)
  {
    hide NextBlock, CanClaimShare, Supers, BlockStep;
    if es[k].Produce? {
      BlocksLeaveProposals(cs[k].w, es[k].b, cfg);
    }
  }

  lemma {:induction false} ProposalHistory(cs: seq<Chain>, es: seq<Event>, cfg: Config, k: nat, bp: Name)
    requires Trace(cs, es, cfg) && k <= |es|
    ensures FromHistory(cs, es, k, bp)
  {
    hide FromHistory, CanHappen, Happen;
    if k > 0 {
      ProposalHistory(cs, es, cfg, k - 1, bp);
      HistoryStep(cs, es, cfg, k - 1, bp);
    } else {
      NoProposalsAtStart(cs, es, bp);
    }
  }

  lemma NoProposalsAtStart(cs: seq<Chain>, es: seq<Event>, bp: Name)
    requires |es| < |cs| && Start(cs[0])
    ensures FromHistory(cs, es, 0, bp)
  {
  }

  /** In every run an accepted approval punishes the producer if and only if, with it, the configured number of
      producers of the latest schedule have approved since the proposal was opened. */
  lemma ApprovalDecides(cs: seq<Chain>, es: seq<Event>, cfg: Config, k: nat, bp: Name, approver: Name)
    requires Trace(cs, es, cfg) && k < |es| && IsApproval(es[k], bp, approver)
    ensures var counted := set a | a in ApproversSince(es, OpenedAt(es, k, bp), k, bp) + [approver] &&
                                   a in SuperBps(cs[k].w, cs[k].version);
      if |counted| >= cfg.approveToPunishNum then
        IsPunished(cs[k + 1].w, bp) && bp !in cs[k + 1].w.punishbps
      else
        bp in cs[k + 1].w.punishbps && StatusOf(cs[k + 1].w, bp) == StatusOf(cs[k].w, bp)
  {
    assert CanHappen(cs[k], es[k], cfg) && cs[k + 1] == Happen(cs[k], es[k], cfg);
    ProposalHistory(cs, es, cfg, k, bp);
    ProposalsAreBacked(cs, es, cfg, k, bp);
    var w, version := cs[k].w, cs[k].version;
    CountDecides(w, version, cfg, bp, approver);
    hide Supers, SuperBps, Trace, CountedApprovers;
    assert CountedApprovers(w, version, bp, approver) ==
           set a | a in ApproversSince(es, OpenedAt(es, k, bp), k, bp) + [approver] && a in SuperBps(w, version) by {
      CountedAre(w, version, bp, approver);
    }
  }

  lemma CountedAre(w: Watch, version: nat, bp: Name, approver: Name)
    requires bp in w.punishbps
    ensures CountedApprovers(w, version, bp, approver) ==
            set a | a in w.punishbps[bp].approveBp + [approver] && a in SuperBps(w, version)
  {
  }

  lemma CountDecides(w: Watch, version: nat, cfg: Config, bp: Name, approver: Name)
    requires bp in w.punishbps && approver !in w.punishbps[bp].approveBp && Distinct(w.punishbps[bp].approveBp)
    ensures Executes(w, version, cfg, bp, approver) <==>
            |CountedApprovers(w, version, bp, approver)| >= cfg.approveToPunishNum
  {
    var approvals, supers := ApprovalsAfter(w, bp, approver), SuperBps(w, version);
    SupersAreAll(approvals, supers);
    SupersAreSupers(approvals, supers);
    SizeOfDistinct(Supers(approvals, supers), CountedApprovers(w, version, bp, approver));
  }

  /** And in every run the penalty of such a punishment is handed out like that: half to whoever opened the proposal,
      equal parts of the other half to the producers that approved it, nothing to anybody else. */
  lemma PenaltyInRuns(cs: seq<Chain>, es: seq<Event>, cfg: Config, k: nat, bp: Name, approver: Name, ps: P.State,
                      n: Name)
    requires Trace(cs, es, cfg) && k < |es| && IsApproval(es[k], bp, approver)
    requires !IsPunished(cs[k].w, bp) && IsPunished(cs[k + 1].w, bp) && SendsReward(es[k].pledges, bp)
    requires P.RowKey(bp, BLOCK_OUT) in ps.pledges && ps.pledges[P.RowKey(bp, BLOCK_OUT)] == es[k].pledges[bp]
    requires BLOCK_OUT in ps.types && ps.types[BLOCK_OUT].deductor == SYSTEM_ACCOUNT
    ensures bp in cs[k].w.punishbps && 0 <= OpenedAt(es, k, bp) < k && IsOpening(es[OpenedAt(es, k, bp)], bp)
    ensures var w, version, i, row := cs[k].w, cs[k].version, OpenedAt(es, k, bp), es[k].pledges[bp];
      var half := (row.deduction + Min(row.pledge, 0)) / 2;
      var counted := set a | a in ApproversSince(es, i, k, bp) + [approver] && a in SuperBps(w, version);
      approver in counted &&
      P.RewardAt(AfterPenalty(w, version, es[k].pledges, ps, bp, approver).rewards, P.RewardKey(n, row.sym)) ==
        P.RewardAt(ps.rewards, P.RewardKey(n, row.sym))
        + (if n == es[i].a.proposaler then half else 0) + (if n in counted then half / |counted| else 0)
  {
    assert CanHappen(cs[k], es[k], cfg) && cs[k + 1] == Happen(cs[k], es[k], cfg);
    OnlyApprovalPunishes(cs[k], es[k], cfg, bp);
    ProposalHistory(cs, es, cfg, k, bp);
    ProposalsAreBacked(cs, es, cfg, k, bp);
    ApproverSigns(cs[k], es[k], cfg, bp, approver);
    hide CanHappen, Happen, Trace, Supers, SuperBps, Rewarders, CountedApprovers, Executes, ApprovedBetween;
    CountedAre(cs[k].w, cs[k].version, bp, approver);
    PenaltyIsHandedOut(cs[k].w, cs[k].version, cfg, cs[k].height, es[k].pledges, ps, bp, approver, n);
  }

  lemma ApproverSigns(c: Chain, e: Event, cfg: Config, bp: Name, approver: Name)
    requires IsApproval(e, bp, approver) && CanHappen(c, e, cfg)
    ensures Can(c.w, c.version, cfg, c.height, approver, e.pledges, ApproveBp(bp, approver))
  {
  }

  lemma HappenOnStatus(c: Chain, e: Event, cfg: Config, bp: Name)
    requires ChainOk(c) && CanHappen(c, e, cfg)
    ensures var m, m' := MonitorOf(c.w.monitors, bp), MonitorOf(Happen(c, e, cfg).w.monitors, bp);
      (e.Protocol? && e.a.bp == bp && (e.a.BailPunish? || e.a.RemovePunish?) ==> m'.status == Normal) &&
      (e.Protocol? && e.a.bp == bp && e.a.ApproveBp? ==> m'.status == m.status || m'.status == Punished) &&
      (e.Protocol? && (e.a.bp != bp || e.a.PunishBp?) ==> m'.status == m.status) &&
      (e.ClaimShare? ==> m'.status == m.status) &&
      (e.Produce? ==>
         m'.status == if Charged(c, e, cfg, bp) == Some(1) && m'.consecutiveDrain >= 10 && m.status == Normal
                      then LackPledge else m.status)
  {
    hide ChainOk, NextBlock, BlockStep, Supers, ClosesRound, DrainAt;
    if e.Produce? {
      BlockOnMonitor(c, e.b, e.t, cfg, bp);
      NoDrainNoStreak(c, e, cfg, bp);
    }
  }

  lemma NoDrainNoStreak(c: Chain, e: Event, cfg: Config, bp: Name)
    requires ChainOk(c) && e.Produce? && NextBlock(c.w, c.version, c.height, e.b)
    ensures MonitorOf(c.w.monitors, bp).status == Normal && Charged(c, e, cfg, bp).None? ==>
              MonitorOf(BlockStep(c.w, e.b, cfg).monitors, bp).status == Normal
  {
    hide ChainOk, BlockStep, NextBlock, Charged;
    BlockOnMonitor(c, e.b, e.t, cfg, bp);
  }

  /** The rounds a producer was drained for, all together. */
  ghost function Drains(cs: seq<Chain>, es: seq<Event>, cfg: Config, k: nat, bp: Name): nat
    requires k <= |es| < |cs|
  {
    if k == 0 then 0
    else
      Drains(cs, es, cfg, k - 1, bp)
      + match Charged(cs[k - 1], es[k - 1], cfg, bp) case Some(drain) => drain case None => 0
  }

  lemma HappenOnDrains(c: Chain, e: Event, cfg: Config, bp: Name)
    requires ChainOk(c) && CanHappen(c, e, cfg)
    ensures MonitorOf(Happen(c, e, cfg).w.monitors, bp).totalDrain ==
            MonitorOf(c.w.monitors, bp).totalDrain
            + match Charged(c, e, cfg, bp) case Some(drain) => drain case None => 0
  {
    hide ChainOk, NextBlock, BlockStep, Supers, ClosesRound, DrainAt;
    if e.Produce? {
      BlockOnMonitor(c, e.b, e.t, cfg, bp);
    }
  }

  /** In every run a monitor's total is the number of rounds its producer was drained for; nothing else counts up, and
      nothing takes it back. */
  lemma {:induction false} DrainsAddUp(cs: seq<Chain>, es: seq<Event>, cfg: Config, k: nat, bp: Name)
    requires Trace(cs, es, cfg) && k <= |es|
    ensures MonitorOf(cs[k].w.monitors, bp).totalDrain == Drains(cs, es, cfg, k, bp)
  {
    hide CanHappen, Happen, Charged, ChainOk;
    if k > 0 {
      TraceKeeps(cs, es, cfg, k - 1);
      DrainsAddUp(cs, es, cfg, k - 1, bp);
      HappenOnDrains(cs[k - 1], es[k - 1], cfg, bp);
    } else {
      NoMonitorsAtStart(cs[0], bp);
    }
  }

  /** What changes a producer's status, in every run: the tenth and every later drained round in a row makes a normal
      producer lack pledge, an approval that decides punishes it, bail and remove make it normal, and nothing else does
      anything. */
  lemma StatusInRuns(cs: seq<Chain>, es: seq<Event>, cfg: Config, k: nat, bp: Name)
    requires Trace(cs, es, cfg) && k < |es|
    ensures var before, after := MonitorOf(cs[k].w.monitors, bp).status, MonitorOf(cs[k + 1].w.monitors, bp).status;
      match es[k]
      case Produce(b, t) =>
        var due := Charged(cs[k], es[k], cfg, bp) == Some(1) && Streak(cs, es, cfg, k + 1, bp) >= 10;
        after == if due && before == Normal then LackPledge else before
      case ClaimShare(_) => after == before
      case Protocol(_, _, a) =>
        if a.bp != bp || a.PunishBp? then after == before
        else if a.ApproveBp? then after == before || after == Punished
        else after == Normal
  {
    TraceKeeps(cs, es, cfg, k);
    StreakIsKept(cs, es, cfg, k + 1, bp);
    hide CanHappen, Happen, Charged, ChainOk, Streak;
    HappenOnStatus(cs[k], es[k], cfg, bp);
  }
}
