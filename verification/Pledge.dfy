/** The pledge contract: who pledged how much of which type, what was deducted, and what deductions were handed out as
    rewards (eosio.pledge.cpp). */
module Pledge {
  import opened Base
  import opened Totals

  type Symbol = nat

  // The account the contract runs under; it signs nothing but the transfers the contract sends.
  const SELF: Name := 3

  datatype PledgeType = PledgeType(deductor: Name, sym: Symbol)
  datatype RowKey = RowKey(pledger: Name, typ: Name)
  datatype Row = Row(pledge: int, deduction: int, sym: Symbol)
  datatype RewardKey = RewardKey(rewarder: Name, sym: Symbol)

  // balance is what the core token ledger holds for the contract's account.
  datatype State = State(
    types: map<Name, PledgeType>, pledges: map<RowKey, Row>, rewards: map<RewardKey, int>, balance: int)

  datatype Action =
    | AddType(typ: Name, deductor: Name, sym: Symbol)
    | AddPledge(from: Name, quantity: int, memo: Option<Name>)
    | Deduction(typ: Name, debitee: Name, quantity: int, sym: Symbol)
    | Withdraw(typ: Name, pledger: Name, quantity: int, sym: Symbol)
    | GetReward(rewarder: Name, sym: Symbol)
    | AllotReward(typ: Name, pledger: Name, rewarder: Name, quantity: int, sym: Symbol)
    | Open(typ: Name, payer: Name)
    | Close(typ: Name, payer: Name)
    | DealReward(typ: Name, pledger: Name, rewarders: seq<Name>)

  /** The part of the deductions that is covered by tokens: a negative pledge was deducted but never paid in. */
  function PreAllot(r: Row): int {
    r.deduction + if r.pledge < 0 then r.pledge else 0
  }

  predicate TypeMatches(s: State, typ: Name, sym: Symbol) {
    typ in s.types && s.types[typ].sym == sym
  }

  function RewardAt(rewards: map<RewardKey, int>, key: RewardKey): int {
    if key in rewards then rewards[key] else 0
  }

  function Assign(rewards: map<RewardKey, int>, rewarder: Name, sym: Symbol, quantity: int): map<RewardKey, int> {
    rewards[RewardKey(rewarder, sym) := RewardAt(rewards, RewardKey(rewarder, sym)) + quantity]
  }

  function AssignEach(rewards: map<RewardKey, int>, rewarders: seq<Name>, sym: Symbol, quantity: int)
    : map<RewardKey, int>
  {
    if rewarders == [] then rewards
    else
      var last := |rewarders| - 1;
      Assign(AssignEach(rewards, rewarders[..last], sym, quantity), rewarders[last], sym, quantity)
  }

  function ReportReward(preAllot: int): int {
    TruncDiv(preAllot, 2)
  }

  function ApproveReward(preAllot: int, n: nat): int
    requires n >= 2
  {
    TruncDiv(preAllot, 2 * (n - 1))
  }

  // ---- the checks ----

  predicate Can(s: State, signer: Name, a: Action) {
    match a
    case AddType(typ, deductor, sym) => signer == SYSTEM_ACCOUNT && typ !in s.types
    // A transfer of the core token to the contract; the token ledger has already checked and moved it.
    case AddPledge(from, quantity, memo) =>
      signer == from && from != SELF && 0 <= quantity && (memo.Some? ==> TypeMatches(s, memo.value, CORE))
    case Deduction(typ, debitee, quantity, sym) =>
      TypeMatches(s, typ, sym) && signer == s.types[typ].deductor && 0 < quantity
    case Withdraw(typ, pledger, quantity, sym) =>
      WithdrawIsDue(s, signer, typ, pledger, quantity, sym) && sym == CORE && quantity <= s.balance
    case GetReward(rewarder, sym) =>
      RewardIsDue(s, signer, rewarder, sym) && sym == CORE && s.rewards[RewardKey(rewarder, sym)] <= s.balance
    case AllotReward(typ, pledger, rewarder, quantity, sym) =>
      TypeMatches(s, typ, sym) && signer == s.types[typ].deductor && RowKey(pledger, typ) in s.pledges &&
      0 < quantity <= PreAllot(s.pledges[RowKey(pledger, typ)])
    case Open(typ, payer) => signer == payer && typ in s.types
    case Close(typ, payer) =>
      signer == payer && typ in s.types && RowKey(payer, typ) in s.pledges &&
      s.pledges[RowKey(payer, typ)].pledge == 0 && s.pledges[RowKey(payer, typ)].deduction == 0
    // With a single rewarder the reward per approver divides by zero, which traps.
    case DealReward(typ, pledger, rewarders) =>
      typ in s.types && |rewarders| > 1 && signer == s.types[typ].deductor && RowKey(pledger, typ) in s.pledges &&
      0 < PreAllot(s.pledges[RowKey(pledger, typ)])
  }

  /** Everything withdraw itself checks; the transfer it sends adds the rest. */
  predicate WithdrawIsDue(s: State, signer: Name, typ: Name, pledger: Name, quantity: int, sym: Symbol) {
    signer == pledger && TypeMatches(s, typ, sym) && RowKey(pledger, typ) in s.pledges &&
    0 < quantity < s.pledges[RowKey(pledger, typ)].pledge
  }

  predicate RewardIsDue(s: State, signer: Name, rewarder: Name, sym: Symbol) {
    signer == rewarder && RewardKey(rewarder, sym) in s.rewards && s.rewards[RewardKey(rewarder, sym)] > 0
  }

  // ---- the effects ----

  function AfterAddPledge(s: State, from: Name, quantity: int, memo: Option<Name>): State {
    var paid := s.(balance := s.balance + quantity);
    if memo.None? then paid else
    var key := RowKey(from, memo.value);
    var row := if key in s.pledges then s.pledges[key].(pledge := s.pledges[key].pledge + quantity)
               else Row(quantity, 0, CORE);
    paid.(pledges := s.pledges[key := row])
  }

  function AfterDeduction(s: State, typ: Name, debitee: Name, quantity: int, sym: Symbol): State {
    var key := RowKey(debitee, typ);
    var row := if key in s.pledges
               then s.pledges[key].(pledge := s.pledges[key].pledge - quantity,
                                    deduction := s.pledges[key].deduction + quantity)
               else Row(-quantity, quantity, sym);
    s.(pledges := s.pledges[key := row])
  }

  function AfterDealReward(s: State, key: RowKey, rewarders: seq<Name>): State
    requires key in s.pledges && |rewarders| > 1
  {
    var row := s.pledges[key];
    var pre := PreAllot(row);
    var report, approve := ReportReward(pre), ApproveReward(pre, |rewarders|);
    s.(pledges := s.pledges[key := row.(deduction := row.deduction - pre)],
       rewards := AssignEach(Assign(s.rewards, rewarders[0], row.sym, report - approve), rewarders, row.sym, approve))
  }

  function Effect(s: State, signer: Name, a: Action): State
    requires Can(s, signer, a)
  {
    match a
    case AddType(typ, deductor, sym) => s.(types := s.types[typ := PledgeType(deductor, sym)])
    case AddPledge(from, quantity, memo) => AfterAddPledge(s, from, quantity, memo)
    case Deduction(typ, debitee, quantity, sym) => AfterDeduction(s, typ, debitee, quantity, sym)
    case Withdraw(typ, pledger, quantity, sym) =>
      var key := RowKey(pledger, typ);
      s.(pledges := s.pledges[key := s.pledges[key].(pledge := s.pledges[key].pledge - quantity)],
         balance := s.balance - quantity)
    case GetReward(rewarder, sym) =>
      var key := RewardKey(rewarder, sym);
      s.(rewards := s.rewards[key := 0], balance := s.balance - s.rewards[key])
    case AllotReward(typ, pledger, rewarder, quantity, sym) =>
      var key := RowKey(pledger, typ);
      s.(pledges := s.pledges[key := s.pledges[key].(deduction := s.pledges[key].deduction - quantity)],
         rewards := Assign(s.rewards, rewarder, sym, quantity))
    case Open(typ, payer) =>
      var key := RowKey(payer, typ);
      if key in s.pledges then s else s.(pledges := s.pledges[key := Row(0, 0, s.types[typ].sym)])
    case Close(typ, payer) => s.(pledges := s.pledges - {RowKey(payer, typ)})
    case DealReward(typ, pledger, rewarders) => AfterDealReward(s, RowKey(pledger, typ), rewarders)
  }

  function Next(s: State, signer: Name, a: Action): State {
    if Can(s, signer, a) then Effect(s, signer, a) else s
  }

  // ---- solvency ----

  function Owned(): (RowKey, Row) -> int {
    (k: RowKey, r: Row) => if r.sym == CORE then r.pledge + r.deduction else 0
  }

  function Positive(): (RowKey, Row) -> int {
    (k: RowKey, r: Row) => if r.sym == CORE then Max(r.pledge, 0) else 0
  }

  function Unallotted(): (RowKey, Row) -> int {
    (k: RowKey, r: Row) => if r.sym == CORE then PreAllot(r) else 0
  }

  function RewardOwed(): (RewardKey, int) -> int {
    (k: RewardKey, amount: int) => if k.sym == CORE then amount else 0
  }

  /** Tokens the contract holds beyond what it owes. */
  ghost function Surplus(s: State): int {
    s.balance - Total(s.pledges, Owned()) - Total(s.rewards, RewardOwed())
  }

  predicate RowsOk(s: State) {
    (forall k | k in s.pledges ::
       0 <= PreAllot(s.pledges[k]) && k.typ in s.types && s.types[k.typ].sym == s.pledges[k].sym) &&
    RewardsOk(s.rewards)
  }

  predicate RewardsOk(rewards: map<RewardKey, int>) {
    forall k | k in rewards :: 0 <= rewards[k]
  }

  ghost predicate Inv(s: State) {
    RowsOk(s) && 0 <= Surplus(s)
  }

  /** What an action adds to the surplus: tokens sent without naming a pledge type, and the units a split loses. */
  function Gain(s: State, a: Action): int {
    match a
    case AddPledge(from, quantity, memo) => if memo.None? then quantity else 0
    case DealReward(typ, pledger, rewarders) =>
      if RowKey(pledger, typ) in s.pledges && |rewarders| > 1 && s.pledges[RowKey(pledger, typ)].sym == CORE then
        SplitLoss(PreAllot(s.pledges[RowKey(pledger, typ)]), |rewarders|)
      else 0
    case _ => 0
  }

  function SplitLoss(preAllot: int, n: nat): int
    requires n >= 2
  {
    preAllot % 2 + (preAllot / 2) % (n - 1)
  }

  // ---- the split ----

  lemma ApproveIsPart(pre: int, n: nat)
    requires 0 < pre && n >= 2
    ensures ApproveReward(pre, n) == ReportReward(pre) / (n - 1)
    ensures 0 <= ApproveReward(pre, n) <= ReportReward(pre)
    ensures ApproveReward(pre, n) * (n - 1) == ReportReward(pre) - ReportReward(pre) % (n - 1)
  {
    var k := n - 1;
    var half := pre / 2;
    HalfThenDivide(pre, k);
    FloorBound(half, k);
    QuotientIsPart(half, k);
  }

  lemma QuotientIsPart(a: int, d: int)
    requires 0 <= a && 0 < d
    ensures 0 <= a / d <= a
  {
    FloorBound(a, d);
    ScaleLe(1, d, a / d);
  }

  lemma HalfThenDivide(pre: int, k: int)
    requires 0 < pre && 0 < k
    ensures pre / (2 * k) == (pre / 2) / k
  {
    var q, r := (pre / 2) / k, (pre / 2) % k;
    var rest := 2 * r + pre % 2;
    assert pre / 2 == q * k + r;
    assert pre == q * (2 * k) + rest;
    assert 0 <= rest < 2 * k;
    QuotientIs(pre, 2 * k, q, rest);
  }

  lemma QuotientIs(a: int, d: int, q: int, r: int)
    requires 0 <= r < d && a == q * d + r
    ensures a / d == q
  {
    var q' := a / d;
    FloorBound(a, d);
    assert (q + 1) * d == q * d + d && (q' + 1) * d == q' * d + d;
    CancelLt(q, q' + 1, d);
    CancelLt(q', q + 1, d);
  }

  lemma {:induction false} AssignEachTotals(rewards: map<RewardKey, int>, rewarders: seq<Name>, sym: Symbol,
                                            quantity: int)
    ensures Total(AssignEach(rewards, rewarders, sym, quantity), RewardOwed()) ==
            Total(rewards, RewardOwed()) + if sym == CORE then quantity * |rewarders| else 0
  {
    hide Total;
    if rewarders != [] {
      var last := |rewarders| - 1;
      AssignEachTotals(rewards, rewarders[..last], sym, quantity);
      var before := AssignEach(rewards, rewarders[..last], sym, quantity);
      AssignTotals(before, rewarders[last], sym, quantity);
      assert quantity * |rewarders| == quantity * last + quantity;
    }
  }

  lemma AssignTotals(rewards: map<RewardKey, int>, rewarder: Name, sym: Symbol, quantity: int)
    ensures Total(Assign(rewards, rewarder, sym, quantity), RewardOwed()) ==
            Total(rewards, RewardOwed()) + if sym == CORE then quantity else 0
  {
    hide Total;
    var key := RewardKey(rewarder, sym);
    TotalUpdate(rewards, RewardOwed(), key, RewardAt(rewards, key) + quantity);
  }

  lemma {:induction false} AssignEachKeeps(rewards: map<RewardKey, int>, rewarders: seq<Name>, sym: Symbol,
                                           quantity: int)
    requires 0 <= quantity && RewardsOk(rewards)
    ensures RewardsOk(AssignEach(rewards, rewarders, sym, quantity))
  {
    if rewarders != [] {
      AssignEachKeeps(rewards, rewarders[..|rewarders| - 1], sym, quantity);
    }
  }

  function CountOf(rewarders: seq<Name>, n: Name): nat {
    if rewarders == [] then 0
    else CountOf(rewarders[..|rewarders| - 1], n) + if rewarders[|rewarders| - 1] == n then 1 else 0
  }

  lemma {:induction false} AssignEachGives(rewards: map<RewardKey, int>, rewarders: seq<Name>, sym: Symbol,
                                           quantity: int, n: Name)
    ensures RewardAt(AssignEach(rewards, rewarders, sym, quantity), RewardKey(n, sym)) ==
            RewardAt(rewards, RewardKey(n, sym)) + quantity * CountOf(rewarders, n)
  {
    if rewarders != [] {
      var front := rewarders[..|rewarders| - 1];
      AssignEachGives(rewards, front, sym, quantity, n);
      assert quantity * (CountOf(front, n) + 1) == quantity * CountOf(front, n) + quantity;
    }
  }

  lemma {:induction false} CountOfDistinct(rewarders: seq<Name>, i: nat)
    requires i < |rewarders| && forall a, b | 0 <= a < b < |rewarders| :: rewarders[a] != rewarders[b]
    ensures CountOf(rewarders, rewarders[i]) == 1
  {
    var last := |rewarders| - 1;
    if i < last {
      CountOfDistinct(rewarders[..last], i);
    } else {
      CountOfAbsent(rewarders[..last], rewarders[i]);
    }
  }

  lemma {:induction false} CountOfAbsent(rewarders: seq<Name>, n: Name)
    requires n !in rewarders
    ensures CountOf(rewarders, n) == 0
  {
    if rewarders != [] {
      CountOfAbsent(rewarders[..|rewarders| - 1], n);
    }
  }

  /** What one name gets from a split, however often it appears among the rewarders. */
  lemma SplitGives(s: State, key: RowKey, rewarders: seq<Name>, n: Name)
    requires key in s.pledges && |rewarders| > 1 && 0 < PreAllot(s.pledges[key])
    ensures var pre, sym := PreAllot(s.pledges[key]), s.pledges[key].sym;
      var approve := ApproveReward(pre, |rewarders|);
      RewardAt(AfterDealReward(s, key, rewarders).rewards, RewardKey(n, sym)) ==
        RewardAt(s.rewards, RewardKey(n, sym)) + approve * CountOf(rewarders, n)
        + if n == rewarders[0] then ReportReward(pre) - approve else 0
  {
    var pre, sym := PreAllot(s.pledges[key]), s.pledges[key].sym;
    var approve := ApproveReward(pre, |rewarders|);
    AssignEachGives(Assign(s.rewards, rewarders[0], sym, ReportReward(pre) - approve), rewarders, sym, approve, n);
  }

  /** The same with the floors written out. */
  lemma SplitHands(s: State, key: RowKey, rewarders: seq<Name>, n: Name)
    requires key in s.pledges && |rewarders| > 1 && 0 < PreAllot(s.pledges[key])
    ensures var half, k := PreAllot(s.pledges[key]) / 2, RewardKey(n, s.pledges[key].sym);
      var part := half / (|rewarders| - 1);
      RewardAt(AfterDealReward(s, key, rewarders).rewards, k) ==
        RewardAt(s.rewards, k) + part * CountOf(rewarders, n) + if n == rewarders[0] then half - part else 0
  {
    SplitGives(s, key, rewarders, n);
    ApproveIsPart(PreAllot(s.pledges[key]), |rewarders|);
    hide AfterDealReward, CountOf, ApproveReward;
  }

  /** Among distinct rewarders the first gets half of the penalty, rounded down, and each other an equal part of the
      other half. */
  lemma SplitAmongDistinct(s: State, key: RowKey, rewarders: seq<Name>, i: nat)
    requires key in s.pledges && |rewarders| > 1 && 0 < PreAllot(s.pledges[key]) && i < |rewarders|
    requires forall a, b | 0 <= a < b < |rewarders| :: rewarders[a] != rewarders[b]
    ensures var pre, k := PreAllot(s.pledges[key]), RewardKey(rewarders[i], s.pledges[key].sym);
      RewardAt(AfterDealReward(s, key, rewarders).rewards, k) - RewardAt(s.rewards, k) ==
        if i == 0 then pre / 2 else (pre / 2) / (|rewarders| - 1)
  {
    SplitGives(s, key, rewarders, rewarders[i]);
    CountOfDistinct(rewarders, i);
    ApproveIsPart(PreAllot(s.pledges[key]), |rewarders|);
  }

  /** A split hands out everything that can be allotted except an odd unit and the remainder of the approvers' half:
      fewer than n units stay behind. */
  lemma SplitIsExact(s: State, key: RowKey, rewarders: seq<Name>)
    requires key in s.pledges && |rewarders| > 1 && 0 < PreAllot(s.pledges[key]) && s.pledges[key].sym == CORE
    ensures var pre, n := PreAllot(s.pledges[key]), |rewarders|;
      Total(AfterDealReward(s, key, rewarders).rewards, RewardOwed()) - Total(s.rewards, RewardOwed()) ==
        pre - SplitLoss(pre, n) <= pre &&
      0 <= SplitLoss(pre, n) <= n - 1
  {
    hide Total;
    var pre, n := PreAllot(s.pledges[key]), |rewarders|;
    var report, approve := ReportReward(pre), ApproveReward(pre, n);
    ApproveIsPart(pre, n);
    var first := Assign(s.rewards, rewarders[0], CORE, report - approve);
    AssignTotals(s.rewards, rewarders[0], CORE, report - approve);
    AssignEachTotals(first, rewarders, CORE, approve);
    assert approve * n == approve * (n - 1) + approve;
    RemainderBound(report, n - 1);
  }

  lemma RemainderBound(a: int, d: int)
    requires 0 < d
    ensures 0 <= a % d <= d - 1
  {
  }

  // ---- every action keeps the contract solvent ----

  lemma PledgeRowMoves(s: State, key: RowKey, row: Row)
    ensures Total(s.pledges[key := row], Owned()) ==
            Total(s.pledges, Owned()) - WeightAt(s.pledges, Owned(), key) + Owned()(key, row)
  {
    TotalUpdate(s.pledges, Owned(), key, row);
  }

  lemma EffectSurplus(s: State, signer: Name, a: Action)
    requires RowsOk(s) && Can(s, signer, a)
    ensures Surplus(Effect(s, signer, a)) == Surplus(s) + Gain(s, a)
  {
    hide Total, AssignEach;
    var s' := Effect(s, signer, a);
    match a
    case AddType(_, _, _) =>
    case AddPledge(from, quantity, memo) =>
      if memo.Some? {
        PledgeRowMoves(s, RowKey(from, memo.value), s'.pledges[RowKey(from, memo.value)]);
      }
    case Deduction(typ, debitee, quantity, sym) =>
      PledgeRowMoves(s, RowKey(debitee, typ), s'.pledges[RowKey(debitee, typ)]);
    case Withdraw(typ, pledger, quantity, sym) =>
      PledgeRowMoves(s, RowKey(pledger, typ), s'.pledges[RowKey(pledger, typ)]);
    case GetReward(rewarder, sym) =>
      TotalUpdate(s.rewards, RewardOwed(), RewardKey(rewarder, sym), 0);
    case AllotReward(typ, pledger, rewarder, quantity, sym) =>
      PledgeRowMoves(s, RowKey(pledger, typ), s'.pledges[RowKey(pledger, typ)]);
      AssignTotals(s.rewards, rewarder, sym, quantity);
    case Open(typ, payer) =>
      PledgeRowMoves(s, RowKey(payer, typ), Row(0, 0, s.types[typ].sym));
    case Close(typ, payer) =>
      TotalWithout(s.pledges, Owned(), RowKey(payer, typ));
    case DealReward(typ, pledger, rewarders) =>
      DealSurplus(s, RowKey(pledger, typ), rewarders);
  }

  lemma DealSurplus(s: State, key: RowKey, rewarders: seq<Name>)
    requires key in s.pledges && |rewarders| > 1 && 0 < PreAllot(s.pledges[key])
    ensures Surplus(AfterDealReward(s, key, rewarders)) ==
            Surplus(s) + if s.pledges[key].sym == CORE then SplitLoss(PreAllot(s.pledges[key]), |rewarders|) else 0
  {
    hide Total, AssignEach;
    var row := s.pledges[key];
    var pre := PreAllot(row);
    PledgeRowMoves(s, key, row.(deduction := row.deduction - pre));
    if row.sym == CORE {
      SplitIsExact(s, key, rewarders);
    } else {
      var report, approve := ReportReward(pre), ApproveReward(pre, |rewarders|);
      AssignTotals(s.rewards, rewarders[0], row.sym, report - approve);
      AssignEachTotals(Assign(s.rewards, rewarders[0], row.sym, report - approve), rewarders, row.sym, approve);
    }
  }

  lemma DealKeepsRows(s: State, key: RowKey, rewarders: seq<Name>)
    requires RowsOk(s) && key in s.pledges && |rewarders| > 1 && 0 < PreAllot(s.pledges[key])
    ensures RowsOk(AfterDealReward(s, key, rewarders))
  {
    hide AssignEach, TruncDiv;
    var row := s.pledges[key];
    var pre, n := PreAllot(row), |rewarders|;
    ApproveIsPart(pre, n);
    hide ReportReward, ApproveReward;
    AssignEachKeeps(Assign(s.rewards, rewarders[0], row.sym, ReportReward(pre) - ApproveReward(pre, n)),
                    rewarders, row.sym, ApproveReward(pre, n));
  }

  lemma LossIsNone(pre: int, n: nat)
    requires 0 < pre && n >= 2
    ensures 0 <= SplitLoss(pre, n)
  {
    RemainderBound(pre / 2, n - 1);
  }

  lemma EffectKeepsRows(s: State, signer: Name, a: Action)
    requires RowsOk(s) && Can(s, signer, a)
    ensures RowsOk(Effect(s, signer, a)) && 0 <= Gain(s, a)
  {
    hide AfterDealReward, SplitLoss;
    if a.DealReward? {
      DealKeepsRows(s, RowKey(a.pledger, a.typ), a.rewarders);
      LossIsNone(PreAllot(s.pledges[RowKey(a.pledger, a.typ)]), |a.rewarders|);
    }
  }

  datatype Step = Step(signer: Name, a: Action)

  function Exec(s: State, run: seq<Step>): State
    decreases |run|
  {
    if run == [] then s else Exec(Next(s, run[0].signer, run[0].a), run[1..])
  }

  lemma {:induction false} RunIsSolvent(s: State, run: seq<Step>)
    requires Inv(s)
    ensures Inv(Exec(s, run)) && Surplus(s) <= Surplus(Exec(s, run))
    decreases |run|
  {
    hide RowsOk, Surplus, Effect, Gain;
    if run != [] {
      if Can(s, run[0].signer, run[0].a) {
        EffectSurplus(s, run[0].signer, run[0].a);
        EffectKeepsRows(s, run[0].signer, run[0].a);
      }
      RunIsSolvent(Next(s, run[0].signer, run[0].a), run[1..]);
    }
  }

  predicate Genesis(s: State) {
    s == State(map[], map[], map[], s.balance) && 0 <= s.balance
  }

  lemma GenesisInv(s: State)
    requires Genesis(s)
    ensures Inv(s)
  {
  }

  lemma OwnedSplits(s: State)
    requires RowsOk(s)
    ensures Total(s.pledges, Owned()) == Total(s.pledges, Positive()) + Total(s.pledges, Unallotted())
    ensures forall k | k in s.pledges && s.pledges[k].sym == CORE ::
      Max(s.pledges[k].pledge, 0) <= Total(s.pledges, Positive())
    ensures 0 <= Total(s.pledges, Positive()) && 0 <= Total(s.pledges, Unallotted())
  {
    hide Total;
    TotalSplit(s.pledges, Owned(), s.pledges, Positive(), s.pledges, Unallotted());
    TotalNonNegative(s.pledges, Positive());
    TotalNonNegative(s.pledges, Unallotted());
    forall k | k in s.pledges && s.pledges[k].sym == CORE
      ensures Max(s.pledges[k].pledge, 0) <= Total(s.pledges, Positive())
    {
      assert Positive()(k, s.pledges[k]) <= Total(s.pledges, Positive());
    }
  }

  /** Pledge solvency: over every run, no row has handed out more than was paid in, and the tokens held cover all
      positive pledges, all unallotted deductions and all outstanding rewards. */
  lemma PledgeSolvency(g: State, run: seq<Step>)
    requires Genesis(g)
    ensures var s := Exec(g, run);
      (forall k | k in s.pledges :: s.pledges[k].deduction + Min(s.pledges[k].pledge, 0) >= 0) &&
      s.balance >= Total(s.pledges, Positive()) + Total(s.pledges, Unallotted()) + Total(s.rewards, RewardOwed())
  {
    GenesisInv(g);
    RunIsSolvent(g, run);
    var s := Exec(g, run);
    OwnedSplits(s);
  }

  /** So a withdrawal or a reward that passes the contract's own checks never fails for lack of funds. */
  lemma PaymentsAreFunded(g: State, run: seq<Step>, signer: Name, typ: Name, who: Name, quantity: int)
    requires Genesis(g)
    ensures var s := Exec(g, run);
      (Can(s, signer, Withdraw(typ, who, quantity, CORE)) <==> WithdrawIsDue(s, signer, typ, who, quantity, CORE)) &&
      (Can(s, signer, GetReward(who, CORE)) <==> RewardIsDue(s, signer, who, CORE))
  {
    hide Total;
    PledgeSolvency(g, run);
    GenesisInv(g);
    RunIsSolvent(g, run);
    var s := Exec(g, run);
    OwnedSplits(s);
    TotalNonNegative(s.rewards, RewardOwed());
    if RewardIsDue(s, signer, who, CORE) {
      assert RewardOwed()(RewardKey(who, CORE), s.rewards[RewardKey(who, CORE)]) <= Total(s.rewards, RewardOwed());
    }
  }

  // ---- the contract ----

  /** The contract's tables, and its tokens in the core ledger. Every action leaves Next of them behind. */
  class Contract {
    var types: map<Name, PledgeType>
    var pledges: map<RowKey, Row>
    var rewards: map<RewardKey, int>
    var balance: int

    function View(): State
      reads this
    {
      State(types, pledges, rewards, balance)
    }

    constructor (held: nat)
      ensures Genesis(View()) && balance == held
    {
      types, pledges, rewards, balance := map[], map[], map[], held;
    }

    method RegisterType(signer: Name, typ: Name, deductor: Name, sym: Symbol) returns (ok: bool)
      modifies this`types
      ensures ok == Can(old(View()), signer, AddType(typ, deductor, sym))
      ensures View() == Next(old(View()), signer, AddType(typ, deductor, sym))
    {
      if signer != SYSTEM_ACCOUNT || typ in types { return false; }
      types := types[typ := PledgeType(deductor, sym)];
      return true;
    }

    /** Called back by the core ledger's transfer to the contract. */
    method Deposit(signer: Name, from: Name, quantity: int, memo: Option<Name>) returns (ok: bool)
      modifies this`pledges, this`balance
      ensures ok == Can(old(View()), signer, AddPledge(from, quantity, memo))
      ensures View() == Next(old(View()), signer, AddPledge(from, quantity, memo))
    {
      if signer != from || from == SELF || quantity < 0 { return false; }
      if memo.Some? {
        if !TypeMatches(View(), memo.value, CORE) { return false; }
        var key := RowKey(from, memo.value);
        if key !in pledges {
          pledges := pledges[key := Row(quantity, 0, CORE)];
        } else {
          pledges := pledges[key := pledges[key].(pledge := pledges[key].pledge + quantity)];
        }
      }
      balance := balance + quantity;
      return true;
    }

    method Deduct(signer: Name, typ: Name, debitee: Name, quantity: int, sym: Symbol) returns (ok: bool)
      modifies this`pledges
      ensures ok == Can(old(View()), signer, Deduction(typ, debitee, quantity, sym))
      ensures View() == Next(old(View()), signer, Deduction(typ, debitee, quantity, sym))
    {
      if !TypeMatches(View(), typ, sym) || signer != types[typ].deductor || quantity <= 0 { return false; }
      var key := RowKey(debitee, typ);
      if key !in pledges {
        pledges := pledges[key := Row(-quantity, quantity, sym)];
      } else {
        var row := pledges[key];
        pledges := pledges[key := row.(pledge := row.pledge - quantity, deduction := row.deduction + quantity)];
      }
      return true;
    }

    method TakeBack(signer: Name, typ: Name, pledger: Name, quantity: int, sym: Symbol) returns (ok: bool)
      modifies this`pledges, this`balance
      ensures ok == Can(old(View()), signer, Withdraw(typ, pledger, quantity, sym))
      ensures View() == Next(old(View()), signer, Withdraw(typ, pledger, quantity, sym))
    {
      if signer != pledger || !TypeMatches(View(), typ, sym) { return false; }
      var key := RowKey(pledger, typ);
      if key !in pledges || quantity >= pledges[key].pledge || quantity <= 0 { return false; }
      // the transfer it sends
      if sym != CORE || quantity > balance { return false; }
      pledges := pledges[key := pledges[key].(pledge := pledges[key].pledge - quantity)];
      balance := balance - quantity;
      return true;
    }

    method TakeReward(signer: Name, rewarder: Name, sym: Symbol) returns (ok: bool)
      modifies this`rewards, this`balance
      ensures ok == Can(old(View()), signer, GetReward(rewarder, sym))
      ensures View() == Next(old(View()), signer, GetReward(rewarder, sym))
    {
      var key := RewardKey(rewarder, sym);
      if signer != rewarder || key !in rewards || rewards[key] <= 0 { return false; }
      if sym != CORE || rewards[key] > balance { return false; }
      balance := balance - rewards[key];
      rewards := rewards[key := 0];
      return true;
    }

    method RewardAssign(rewarder: Name, sym: Symbol, quantity: int)
      modifies this`rewards
      ensures rewards == Assign(old(rewards), rewarder, sym, quantity)
    {
      var key := RewardKey(rewarder, sym);
      if key !in rewards {
        rewards := rewards[key := quantity];
      } else {
        rewards := rewards[key := rewards[key] + quantity];
      }
    }

    method Allot(signer: Name, typ: Name, pledger: Name, rewarder: Name, quantity: int, sym: Symbol) returns (ok: bool)
      modifies this`pledges, this`rewards
      ensures ok == Can(old(View()), signer, AllotReward(typ, pledger, rewarder, quantity, sym))
      ensures View() == Next(old(View()), signer, AllotReward(typ, pledger, rewarder, quantity, sym))
    {
      if !TypeMatches(View(), typ, sym) || signer != types[typ].deductor ||
        RowKey(pledger, typ) !in pledges { return false; }
      var row := pledges[RowKey(pledger, typ)];
      var preAllot := row.deduction;
      if row.pledge < 0 {
        preAllot := preAllot + row.pledge;
      }
      if quantity <= 0 || quantity > preAllot { return false; }
      pledges := pledges[RowKey(pledger, typ) := row.(deduction := row.deduction - quantity)];
      RewardAssign(rewarder, sym, quantity);
      return true;
    }

    method OpenRow(signer: Name, typ: Name, payer: Name) returns (ok: bool)
      modifies this`pledges
      ensures ok == Can(old(View()), signer, Open(typ, payer))
      ensures View() == Next(old(View()), signer, Open(typ, payer))
    {
      if signer != payer || typ !in types { return false; }
      if RowKey(payer, typ) in pledges { return true; }
      pledges := pledges[RowKey(payer, typ) := Row(0, 0, types[typ].sym)];
      return true;
    }

    method CloseRow(signer: Name, typ: Name, payer: Name) returns (ok: bool)
      modifies this`pledges
      ensures ok == Can(old(View()), signer, Close(typ, payer))
      ensures View() == Next(old(View()), signer, Close(typ, payer))
    {
      if signer != payer || typ !in types || RowKey(payer, typ) !in pledges { return false; }
      var row := pledges[RowKey(payer, typ)];
      if row.pledge != 0 || row.deduction != 0 { return false; }
      pledges := pledges - {RowKey(payer, typ)};
      return true;
    }

    /** Half of what can be allotted goes to the first rewarder; the other half is shared among the others. The loop
        runs over all of them, so the first gets one approver's part less beforehand. */
    method HandOut(signer: Name, typ: Name, pledger: Name, rewarders: seq<Name>) returns (ok: bool)
      modifies this`pledges, this`rewards
      ensures ok == Can(old(View()), signer, DealReward(typ, pledger, rewarders))
      ensures View() == Next(old(View()), signer, DealReward(typ, pledger, rewarders))
    {
      if typ !in types || |rewarders| <= 1 || signer != types[typ].deductor ||
        RowKey(pledger, typ) !in pledges { return false; }
      var row := pledges[RowKey(pledger, typ)];
      var preAllot := row.deduction;
      if row.pledge < 0 {
        preAllot := preAllot + row.pledge;
      }
      if preAllot <= 0 { return false; }
      pledges := pledges[RowKey(pledger, typ) := row.(deduction := row.deduction - preAllot)];
      var report, approve := TruncDiv(preAllot, 2), TruncDiv(preAllot, 2 * (|rewarders| - 1));
      RewardAssign(rewarders[0], row.sym, report - approve);
      ghost var first := rewards;
      for i := 0 to |rewarders|
        invariant rewards == AssignEach(first, rewarders[..i], row.sym, approve)
        invariant pledges == old(pledges)[RowKey(pledger, typ) := row.(deduction := row.deduction - preAllot)]
      {
        assert rewarders[..i + 1][..i] == rewarders[..i];
        RewardAssign(rewarders[i], row.sym, approve);
      }
      assert rewarders[..|rewarders|] == rewarders;
      return true;
    }
  }
}
