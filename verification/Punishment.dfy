/** The punishment protocol: proposals, approvals, execution and recovery (bppunish.cpp). */
module Punishment {
  import opened Base
  import opened Totals
  import opened BlockRounds
  import opened BlockCredits
  import P = Pledge

  const PROPOSER_PLEDGE: int := 100 * 10000
  const BLOCK_OUT: Name := 5

  // A block.out row of the pledge contract, if the account has one.
  type PledgeRows = map<Name, P.Row>

  datatype Act =
    | PunishBp(bp: Name, proposaler: Name)
    | ApproveBp(bp: Name, approver: Name)
    | BailPunish(bp: Name)
    // recent: the producer is among the last producers, see LastProducers
    | RemovePunish(bp: Name, recent: bool)

  /** The producers of the latest schedule. */
  function SuperBps(w: Watch, version: nat): seq<Name> {
    if version in w.schedules then Names(w.schedules[version]) else []
  }

  predicate IsLatest(w: Watch, version: nat) {
    version in w.schedules && forall v | v in w.schedules :: v <= version
  }

  /** The last row of the schedules table; 0 if there is none. */
  ghost function LatestVersion(w: Watch): nat {
    if exists v: nat :: IsLatest(w, v) then
      var v: nat :| IsLatest(w, v);
      v
    else 0
  }

  lemma LatestIsUnique(w: Watch, version: nat)
    requires IsLatest(w, version)
    ensures LatestVersion(w) == version
  {
    var v := LatestVersion(w);
    assert IsLatest(w, v);
    assert v in w.schedules && version in w.schedules;
  }

  lemma NoLatest(w: Watch)
    requires w.schedules == map[]
    ensures LatestVersion(w) == 0
  {
  }

  /** In every run the latest row is the schedule in force. */
  lemma LatestIsInForce(c: Chain)
    requires ChainOk(c)
    ensures LatestVersion(c.w) == c.version
  {
    LatestIsUnique(c.w, c.version);
  }

  function StatusOf(w: Watch, bp: Name): Option<Status> {
    if bp in w.monitors then Some(w.monitors[bp].status) else None
  }

  function Supers(approvals: seq<Name>, supers: seq<Name>): seq<Name> {
    if approvals == [] then []
    else Supers(approvals[..|approvals| - 1], supers)
         + if approvals[|approvals| - 1] in supers then [approvals[|approvals| - 1]] else []
  }

  /** The approvals after this one. */
  function ApprovalsAfter(w: Watch, bp: Name, approver: Name): seq<Name>
    requires bp in w.punishbps
  {
    w.punishbps[bp].approveBp + [approver]
  }

  /** Enough approvals, and enough of them from producers of the latest schedule: the proposal is executed. */
  predicate Executes(w: Watch, version: nat, cfg: Config, bp: Name, approver: Name)
    requires bp in w.punishbps
  {
    var approvals := ApprovalsAfter(w, bp, approver);
    |approvals| >= cfg.approveToPunishNum && |Supers(approvals, SuperBps(w, version))| >= cfg.approveToPunishNum
  }

  predicate Can(w: Watch, version: nat, cfg: Config, h: nat, signer: Name, pledges: PledgeRows, a: Act) {
    match a
    case PunishBp(bp, proposaler) =>
      signer == proposaler && StatusOf(w, bp) == Some(LackPledge) &&
      (bp !in w.punishbps || w.punishbps[bp].effectiveBlockNum < h) &&
      proposaler in pledges && pledges[proposaler].pledge > PROPOSER_PLEDGE
    case ApproveBp(bp, approver) =>
      signer == approver && approver in SuperBps(w, version) &&
      bp in w.punishbps && w.punishbps[bp].effectiveBlockNum > h && approver !in w.punishbps[bp].approveBp &&
      (Executes(w, version, cfg, bp, approver) ==> StatusOf(w, bp) == Some(LackPledge))
    case BailPunish(bp) =>
      signer == bp && StatusOf(w, bp) == Some(Punished) && w.monitors[bp].endPunishBlock < h
    case RemovePunish(bp, recent) =>
      signer == bp && StatusOf(w, bp) == Some(LackPledge) && recent
  }

  function WithStatus(w: Watch, bp: Name, status: Status, end: nat): map<Name, Monitor>
    requires bp in w.monitors
  {
    w.monitors[bp := w.monitors[bp].(status := status, endPunishBlock := end)]
  }

  function Effect(w: Watch, version: nat, cfg: Config, h: nat, signer: Name, pledges: PledgeRows, a: Act): Watch
    requires Can(w, version, cfg, h, signer, pledges, a)
  {
    match a
    case PunishBp(bp, proposaler) =>
      w.(punishbps := w.punishbps[bp := Proposal(proposaler, [], h + PUNISH_BP_LIMIT)])
    case ApproveBp(bp, approver) =>
      if Executes(w, version, cfg, bp, approver) then
        w.(monitors := WithStatus(w, bp, Punished, h + PUNISH_BP_LIMIT), punishbps := w.punishbps - {bp})
      else
        w.(punishbps := w.punishbps[bp := w.punishbps[bp].(approveBp := ApprovalsAfter(w, bp, approver))])
    case BailPunish(bp) => w.(monitors := WithStatus(w, bp, Normal, 0))
    case RemovePunish(bp, recent) => w.(monitors := WithStatus(w, bp, Normal, w.monitors[bp].endPunishBlock))
  }

  // ---- the penalty ----

  /** exec_punish_bp sends dealreward only if something was deducted and the pledge covers part of it. */
  predicate SendsReward(pledges: PledgeRows, bp: Name) {
    bp in pledges && pledges[bp].deduction > 0 && pledges[bp].pledge + pledges[bp].deduction > 0
  }

  /** The proposer first, then every approver that still is a producer of the latest schedule. */
  function Rewarders(w: Watch, version: nat, bp: Name, approver: Name): seq<Name>
    requires bp in w.punishbps
  {
    [w.punishbps[bp].proposaler] + Supers(ApprovalsAfter(w, bp, approver), SuperBps(w, version))
  }

  lemma {:induction false} SupersAreSupers(approvals: seq<Name>, supers: seq<Name>)
    ensures |Supers(approvals, supers)| <= |approvals|
    ensures forall a | a in Supers(approvals, supers) :: a in approvals && a in supers
    ensures Distinct(approvals) ==> Distinct(Supers(approvals, supers))
  {
    if approvals != [] {
      var front := approvals[..|approvals| - 1];
      SupersAreSupers(front, supers);
      assert approvals == front + [approvals[|approvals| - 1]];
      assert Distinct(approvals) ==> approvals[|approvals| - 1] !in front;
    }
  }

  /** The approver whose approval executes the proposal is itself a producer of the latest schedule, so there are
      always at least two rewarders. */
  lemma ThereAreRewarders(w: Watch, version: nat, bp: Name, approver: Name)
    requires bp in w.punishbps && approver in SuperBps(w, version)
    ensures |Rewarders(w, version, bp, approver)| >= 2
  {
    var approvals := ApprovalsAfter(w, bp, approver);
    assert approvals[|approvals| - 1] == approver;
  }

  /** Whenever an execution sends dealreward, the pledge contract accepts it: the positivity check holds and the
      divisor is not zero, so the inline action never takes the approval down with it. */
  lemma DealRewardIsAccepted(w: Watch, version: nat, cfg: Config, h: nat, pledges: PledgeRows, ps: P.State, bp: Name,
                             approver: Name)
    requires Can(w, version, cfg, h, approver, pledges, ApproveBp(bp, approver)) &&
      Executes(w, version, cfg, bp, approver)
    requires SendsReward(pledges, bp)
    requires P.RowKey(bp, BLOCK_OUT) in ps.pledges && ps.pledges[P.RowKey(bp, BLOCK_OUT)] == pledges[bp]
    requires BLOCK_OUT in ps.types && ps.types[BLOCK_OUT].deductor == SYSTEM_ACCOUNT
    ensures P.Can(ps, SYSTEM_ACCOUNT, P.DealReward(BLOCK_OUT, bp, Rewarders(w, version, bp, approver)))
  {
    ThereAreRewarders(w, version, bp, approver);
  }

  /** And conversely: when it does not send it, there was nothing positive to hand out. */
  lemma NothingToHandOut(pledges: PledgeRows, bp: Name)
    requires bp in pledges && 0 <= pledges[bp].deduction
    ensures SendsReward(pledges, bp) <==> 0 < P.PreAllot(pledges[bp])
  {
  }

  // ---- who may change what ----

  /** A proposal is opened by a proposer that pledged more than 100 tokens, on a producer that lacks pledge and has no
      proposal within its term; it gets its approvals from its signers, producers of the latest schedule, each once and
      within its term. */
  lemma ProposalsAreEntitled(w: Watch, version: nat, cfg: Config, h: nat, signer: Name, pledges: PledgeRows, a: Act,
                             bp: Name)
    requires Can(w, version, cfg, h, signer, pledges, a)
    requires bp in Effect(w, version, cfg, h, signer, pledges, a).punishbps
    ensures var proposal := Effect(w, version, cfg, h, signer, pledges, a).punishbps[bp];
      (bp in w.punishbps && proposal == w.punishbps[bp]) ||
      (proposal == Proposal(signer, [], h + PUNISH_BP_LIMIT) && StatusOf(w, bp) == Some(LackPledge) &&
       (bp in w.punishbps ==> w.punishbps[bp].effectiveBlockNum < h) &&
       signer in pledges && pledges[signer].pledge > 1000000) ||
      (bp in w.punishbps && h < w.punishbps[bp].effectiveBlockNum && signer !in w.punishbps[bp].approveBp &&
       proposal == w.punishbps[bp].(approveBp := w.punishbps[bp].approveBp + [signer]) &&
       signer in SuperBps(w, version))
  {
    hide Supers, SuperBps;
  }

  /** A status changes from lacking pledge to punished by the signature of a producer of the latest schedule, within the
      term of a proposal; and to normal by the producer's own, after its punishment or with a recent block. */
  lemma StatusesAreEntitled(w: Watch, version: nat, cfg: Config, h: nat, signer: Name, pledges: PledgeRows, a: Act,
                            bp: Name)
    requires Can(w, version, cfg, h, signer, pledges, a)
    ensures var w' := Effect(w, version, cfg, h, signer, pledges, a);
      var before, after := StatusOf(w, bp), StatusOf(w', bp);
      after != before ==>
        (before == Some(LackPledge) && after == Some(Punished) && signer in SuperBps(w, version) &&
         bp in w.punishbps && h < w.punishbps[bp].effectiveBlockNum &&
         w'.monitors[bp].endPunishBlock == h + PUNISH_BP_LIMIT) ||
        (before == Some(Punished) && after == Some(Normal) && signer == bp && w.monitors[bp].endPunishBlock < h) ||
        (before == Some(LackPledge) && after == Some(Normal) && signer == bp && a == RemovePunish(bp, true))
  {
    hide Supers, SuperBps;
  }

  // ---- who gets the penalty ----

  /** The pledge contract after an execution and the dealreward it may send. */
  function AfterPenalty(w: Watch, version: nat, pledges: PledgeRows, ps: P.State, bp: Name, approver: Name): P.State
    requires bp in w.punishbps
  {
    if SendsReward(pledges, bp) then
      P.Next(ps, SYSTEM_ACCOUNT, P.DealReward(BLOCK_OUT, bp, Rewarders(w, version, bp, approver)))
    else ps
  }

  /** The approvers, with this one, that produce in the latest schedule. */
  function CountedApprovers(w: Watch, version: nat, bp: Name, approver: Name): set<Name>
    requires bp in w.punishbps
  {
    set a | a in w.punishbps[bp].approveBp + [approver] && a in SuperBps(w, version)
  }

  lemma {:induction false} SupersAreAll(approvals: seq<Name>, supers: seq<Name>)
    ensures forall a :: a in Supers(approvals, supers) <==> a in approvals && a in supers
  {
    if approvals != [] {
      var front := approvals[..|approvals| - 1];
      SupersAreAll(front, supers);
      assert approvals == front + [approvals[|approvals| - 1]];
    }
  }

  lemma {:induction false} SizeOfDistinct(names: seq<Name>, all: set<Name>)
    requires Distinct(names) && forall n :: n in all <==> n in names
    ensures |all| == |names|
  {
    if names != [] {
      var last := names[|names| - 1];
      var front := names[..|names| - 1];
      assert names == front + [last];
      SizeOfDistinct(front, all - {last});
    } else {
      assert all == {};
    }
  }

  lemma {:induction false} CountedOnce(names: seq<Name>, n: Name)
    requires Distinct(names)
    ensures P.CountOf(names, n) == if n in names then 1 else 0
  {
    if names != [] {
      var last := names[|names| - 1];
      var front := names[..|names| - 1];
      assert names == front + [last];
      CountedOnce(front, n);
    }
  }

  lemma {:induction false} CountWithFirst(first: Name, names: seq<Name>, n: Name)
    ensures P.CountOf([first] + names, n) == (if n == first then 1 else 0) + P.CountOf(names, n)
  {
    var all := [first] + names;
    if names == [] {
      assert all[..0] == [];
    } else {
      var front := names[..|names| - 1];
      assert all[..|all| - 1] == [first] + front;
      CountWithFirst(first, front, n);
    }
  }

  /** Who gets what of a penalty, across both contracts: the proposer half of it, the approvers that produce in the
      latest schedule equal parts of the other half, both rounded down, and nobody else anything. */
  lemma PenaltyIsHandedOut(w: Watch, version: nat, cfg: Config, h: nat, pledges: PledgeRows, ps: P.State, bp: Name,
                           approver: Name, n: Name)
    requires Can(w, version, cfg, h, approver, pledges, ApproveBp(bp, approver)) &&
      Executes(w, version, cfg, bp, approver)
    requires Distinct(w.punishbps[bp].approveBp) && SendsReward(pledges, bp)
    requires P.RowKey(bp, BLOCK_OUT) in ps.pledges && ps.pledges[P.RowKey(bp, BLOCK_OUT)] == pledges[bp]
    requires BLOCK_OUT in ps.types && ps.types[BLOCK_OUT].deductor == SYSTEM_ACCOUNT
    ensures var ps' := AfterPenalty(w, version, pledges, ps, bp, approver);
      var half := (pledges[bp].deduction + Min(pledges[bp].pledge, 0)) / 2;
      var counted, key := CountedApprovers(w, version, bp, approver), P.RewardKey(n, pledges[bp].sym);
      approver in counted && |counted| >= cfg.approveToPunishNum &&
      P.RewardAt(ps'.rewards, key) == P.RewardAt(ps.rewards, key)
        + (if n == w.punishbps[bp].proposaler then half else 0) + (if n in counted then half / |counted| else 0)
  {
    hide Executes, Supers, Rewarders, CountedApprovers, P.CountOf, P.AfterDealReward, SuperBps;
    var rewarders, key := Rewarders(w, version, bp, approver), P.RowKey(bp, BLOCK_OUT);
    NewApprover(w, version, cfg, h, pledges, bp, approver);
    CountRewarders(w, version, bp, approver, n);
    DealRewardIsAccepted(w, version, cfg, h, pledges, ps, bp, approver);
    P.SplitHands(ps, key, rewarders, n);
  }

  lemma NewApprover(w: Watch, version: nat, cfg: Config, h: nat, pledges: PledgeRows, bp: Name, approver: Name)
    requires Can(w, version, cfg, h, approver, pledges, ApproveBp(bp, approver)) &&
      Executes(w, version, cfg, bp, approver)
    requires Distinct(w.punishbps[bp].approveBp)
    ensures Distinct(ApprovalsAfter(w, bp, approver))
    ensures approver in CountedApprovers(w, version, bp, approver)
    ensures |CountedApprovers(w, version, bp, approver)| >= cfg.approveToPunishNum
  {
    var approvals, supers := ApprovalsAfter(w, bp, approver), SuperBps(w, version);
    SupersAreAll(approvals, supers);
    SupersAreSupers(approvals, supers);
    SizeOfDistinct(Supers(approvals, supers), CountedApprovers(w, version, bp, approver));
    assert approvals[|approvals| - 1] == approver;
  }

  /** The list sent to dealreward: the proposer first, then every counted approver once. */
  lemma CountRewarders(w: Watch, version: nat, bp: Name, approver: Name, n: Name)
    requires bp in w.punishbps && Distinct(ApprovalsAfter(w, bp, approver))
    ensures var rewarders, counted := Rewarders(w, version, bp, approver), CountedApprovers(w, version, bp, approver);
      |rewarders| == |counted| + 1 && rewarders[0] == w.punishbps[bp].proposaler &&
      P.CountOf(rewarders, n) == (if n == w.punishbps[bp].proposaler then 1 else 0) + (if n in counted then 1 else 0)
  {
    var approvals, supers := ApprovalsAfter(w, bp, approver), SuperBps(w, version);
    SupersAreAll(approvals, supers);
    SupersAreSupers(approvals, supers);
    SizeOfDistinct(Supers(approvals, supers), CountedApprovers(w, version, bp, approver));
    CountedOnce(Supers(approvals, supers), n);
    CountWithFirst(w.punishbps[bp].proposaler, Supers(approvals, supers), n);
  }

  // ---- the protocol leaves counting and pool alone ----

  /** Only statuses, punishment ends and proposals differ. */
  predicate SameCounters(w: Watch, w': Watch) {
    w'.schedules == w.schedules && w'.blockReward == w.blockReward && w'.monitors.Keys == w.monitors.Keys &&
    forall n | n in w.monitors ::
      w'.monitors[n] == w.monitors[n].(status := w'.monitors[n].status, endPunishBlock := w'.monitors[n].endPunishBlock)
  }

  lemma EffectKeepsCounters(w: Watch, version: nat, cfg: Config, h: nat, signer: Name, pledges: PledgeRows, a: Act)
    requires Can(w, version, cfg, h, signer, pledges, a)
    ensures SameCounters(w, Effect(w, version, cfg, h, signer, pledges, a))
  {
    hide Supers;
  }

  lemma SameCountersKeep(c: Chain, w': Watch)
    requires ChainOk(c) && SameCounters(c.w, w')
    ensures ChainOk(c.(w := w'))
    ensures forall n: Name :: LastOf(w'.monitors, n) == LastOf(c.w.monitors, n)
  {
    hide Total;
    forall n: Name ensures LastOf(w'.monitors, n) == LastOf(c.w.monitors, n) {
    }
    SameCredits(c.w.schedules[c.version], c.w.monitors, w'.monitors, NUM_OF_TOP_BPS);
    TotalKept(c.w.monitors, w'.monitors, BlockAges());
  }
}
