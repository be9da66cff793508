/** The rows of the pledge contract by their history: whose row each action moves, and by how much. */
module PledgeHistory {
  import opened Base
  import opened Pledge

  function PledgeAt(s: State, key: RowKey): int {
    if key in s.pledges then s.pledges[key].pledge else 0
  }

  function DeductionAt(s: State, key: RowKey): int {
    if key in s.pledges then s.pledges[key].deduction else 0
  }

  // ---- what an accepted action moves ----

  /** Paid in, deducted or taken back by or from that pledger for that type. */
  function PledgeMoved(a: Action, key: RowKey): int {
    match a
    case AddPledge(from, quantity, memo) => if memo == Some(key.typ) && from == key.pledger then quantity else 0
    case Deduction(typ, debitee, quantity, _) => if key == RowKey(debitee, typ) then -quantity else 0
    case Withdraw(typ, pledger, quantity, _) => if key == RowKey(pledger, typ) then -quantity else 0
    case _ => 0
  }

  /** Deducted from, or handed out of the deductions of, that pledger for that type. */
  function DeductionMoved(s: State, a: Action, key: RowKey): int {
    match a
    case Deduction(typ, debitee, quantity, _) => if key == RowKey(debitee, typ) then quantity else 0
    case AllotReward(typ, pledger, _, quantity, _) => if key == RowKey(pledger, typ) then -quantity else 0
    case DealReward(typ, pledger, _) =>
      if key == RowKey(pledger, typ) then -(DeductionAt(s, key) + Min(PledgeAt(s, key), 0)) else 0
    case _ => 0
  }

  /** How often the name stands in the list. */
  function Occurrences(names: seq<Name>, n: Name): nat {
    |Places(names, n)|
  }

  function Places(names: seq<Name>, n: Name): set<nat> {
    set i | 0 <= i < |names| && names[i] == n
  }

  /** Handed to, or taken by, that rewarder in that symbol. A split gives half of what it takes to the first rewarder,
      less one part, and to each place in the list one part of the other half. */
  function RewardMoved(s: State, a: Action, key: RewardKey): int {
    match a
    case AllotReward(_, _, rewarder, quantity, sym) => if key == RewardKey(rewarder, sym) then quantity else 0
    case GetReward(rewarder, sym) => if key == RewardKey(rewarder, sym) then -RewardAt(s.rewards, key) else 0
    case DealReward(typ, pledger, rewarders) =>
      var row := RowKey(pledger, typ);
      if row in s.pledges && s.pledges[row].sym == key.sym && |rewarders| > 1 then
        var half := (DeductionAt(s, row) + Min(PledgeAt(s, row), 0)) / 2;
        var part := half / (|rewarders| - 1);
        part * Occurrences(rewarders, key.rewarder) + if key.rewarder == rewarders[0] then half - part else 0
      else 0
    case _ => 0
  }

  /** Paid in and out of the contract's account. */
  function BalanceMoved(s: State, a: Action): int {
    match a
    case AddPledge(_, quantity, _) => quantity
    case Withdraw(_, _, quantity, _) => -quantity
    case GetReward(rewarder, sym) => -RewardAt(s.rewards, RewardKey(rewarder, sym))
    case _ => 0
  }

  lemma {:induction false} OccurrencesAreCounted(names: seq<Name>, n: Name)
    ensures Occurrences(names, n) == CountOf(names, n)
  {
    if names == [] {
      assert Places(names, n) == {};
    } else {
      LastPlace(names, n);
      OccurrencesAreCounted(names[..|names| - 1], n);
      hide Places;
    }
  }

  lemma LastPlace(names: seq<Name>, n: Name)
    requires names != []
    ensures var last := |names| - 1;
      var before := Places(names[..last], n);
      last !in before && Places(names, n) == if names[last] == n then before + {last} else before
  {
  }

  lemma {:induction false} OtherSymbolsStay(rewards: map<RewardKey, int>, rewarders: seq<Name>, sym: Symbol,
                                            quantity: int,
                                            key: RewardKey)
    requires key.sym != sym
    ensures RewardAt(AssignEach(rewards, rewarders, sym, quantity), key) == RewardAt(rewards, key)
  {
    if rewarders != [] {
      OtherSymbolsStay(rewards, rewarders[..|rewarders| - 1], sym, quantity, key);
    }
  }

  /** Every accepted action moves the rows by exactly that. */
  lemma StepMoves(s: State, signer: Name, a: Action, key: RowKey)
    requires Can(s, signer, a)
    ensures var s' := Effect(s, signer, a);
      PledgeAt(s', key) == PledgeAt(s, key) + PledgeMoved(a, key) &&
      DeductionAt(s', key) == DeductionAt(s, key) + DeductionMoved(s, a, key) &&
      s'.balance == s.balance + BalanceMoved(s, a)
  {
    hide AssignEach, TruncDiv;
  }

  lemma StepRewards(s: State, signer: Name, a: Action, key: RewardKey)
    requires Can(s, signer, a)
    ensures RewardAt(Effect(s, signer, a).rewards, key) == RewardAt(s.rewards, key) + RewardMoved(s, a, key)
  {
    hide AssignEach, Occurrences, TruncDiv, CountOf;
    if a.DealReward? {
      var row := s.pledges[RowKey(a.pledger, a.typ)];
      if row.sym == key.sym {
        SplitHands(s, RowKey(a.pledger, a.typ), a.rewarders, key.rewarder);
        OccurrencesAreCounted(a.rewarders, key.rewarder);
      } else {
        var report, part := ReportReward(PreAllot(row)), ApproveReward(PreAllot(row), |a.rewarders|);
        OtherSymbolsStay(Assign(s.rewards, a.rewarders[0], row.sym, report - part), a.rewarders, row.sym, part, key);
      }
    }
  }

  // ---- who may move it ----

  /** A type is added once, by the system contract. A row is opened by its owner or its type's deductor, and closed by
      its owner, empty. */
  lemma RowsAreEntitled(s: State, signer: Name, a: Action, key: RowKey)
    ensures var s' := Next(s, signer, a);
      (forall typ | typ in s.types :: typ in s'.types && s'.types[typ] == s.types[typ]) &&
      (s'.types != s.types ==> signer == SYSTEM_ACCOUNT) &&
      (key in s'.pledges && key !in s.pledges ==>
         signer == key.pledger || (key.typ in s.types && signer == s.types[key.typ].deductor)) &&
      (key in s.pledges && key !in s'.pledges ==>
         signer == key.pledger && s.pledges[key].pledge == 0 && s.pledges[key].deduction == 0)
  {
    hide AssignEach, TruncDiv;
  }

  /** A pledge rises by what its owner pays in. It falls by what its type's deductor deducts, into the deduction, or by
      what its owner takes back, which leaves part of it. A deduction falls by the deductor's hand, by no more than what
      the pledge covers. */
  lemma AmountsAreEntitled(s: State, signer: Name, a: Action, key: RowKey)
    ensures var s' := Next(s, signer, a);
      var pledged, deducted := PledgeAt(s', key) - PledgeAt(s, key), DeductionAt(s', key) - DeductionAt(s, key);
      (0 < pledged ==> signer == key.pledger && s'.balance == s.balance + pledged) &&
      (pledged < 0 && deducted == 0 ==>
         signer == key.pledger && 0 < PledgeAt(s', key) && s'.balance == s.balance + pledged >= 0) &&
      (0 < deducted ==> pledged == -deducted) &&
      (deducted != 0 ==> key.typ in s.types && signer == s.types[key.typ].deductor && s'.balance == s.balance) &&
      (deducted < 0 ==> pledged == 0 && 0 <= DeductionAt(s', key) + Min(PledgeAt(s', key), 0))
  {
    hide AssignEach;
  }

  /** A reward falls by being taken whole, by its rewarder. */
  lemma RewardsAreEntitled(s: State, signer: Name, a: Action, k: RewardKey)
    requires RewardAt(Next(s, signer, a).rewards, k) < RewardAt(s.rewards, k)
    ensures var s' := Next(s, signer, a);
      signer == k.rewarder && RewardAt(s'.rewards, k) == 0 && s'.balance == s.balance - RewardAt(s.rewards, k)
  {
    StepRewards(s, signer, a, k);
    hide Occurrences, AssignEach;
    if a.DealReward? && |a.rewarders| > 1 {
      var row := RowKey(a.pledger, a.typ);
      PartsAreNotNegative((DeductionAt(s, row) + Min(PledgeAt(s, row), 0)) / 2, |a.rewarders| - 1,
                          Occurrences(a.rewarders, k.rewarder));
    }
  }

  lemma PartsAreNotNegative(half: int, n: int, times: nat)
    requires 0 <= half && 0 < n
    ensures 0 <= half / n <= half && 0 <= half / n * times
  {
    FloorBound(half, n);
    ScaleLe(1, n, half / n);
    NonNegativeProduct(half / n, times);
  }

  // ---- runs ----

  /** What all accepted actions of a run moved together. */
  function PledgeOver(s: State, run: seq<Step>, key: RowKey): int
    decreases |run|
  {
    if run == [] then 0
    else
      (if Can(s, run[0].signer, run[0].a) then PledgeMoved(run[0].a, key) else 0)
      + PledgeOver(Next(s, run[0].signer, run[0].a), run[1..], key)
  }

  function DeductionOver(s: State, run: seq<Step>, key: RowKey): int
    decreases |run|
  {
    if run == [] then 0
    else
      (if Can(s, run[0].signer, run[0].a) then DeductionMoved(s, run[0].a, key) else 0)
      + DeductionOver(Next(s, run[0].signer, run[0].a), run[1..], key)
  }

  function RewardOver(s: State, run: seq<Step>, key: RewardKey): int
    decreases |run|
  {
    if run == [] then 0
    else
      (if Can(s, run[0].signer, run[0].a) then RewardMoved(s, run[0].a, key) else 0)
      + RewardOver(Next(s, run[0].signer, run[0].a), run[1..], key)
  }

  lemma {:induction false} RowsOverRun(s: State, run: seq<Step>, key: RowKey, k: RewardKey)
    ensures PledgeAt(Exec(s, run), key) == PledgeAt(s, key) + PledgeOver(s, run, key)
    ensures DeductionAt(Exec(s, run), key) == DeductionAt(s, key) + DeductionOver(s, run, key)
    ensures RewardAt(Exec(s, run).rewards, k) == RewardAt(s.rewards, k) + RewardOver(s, run, k)
    decreases |run|
  {
    hide Can, Effect, PledgeAt, DeductionAt, RewardAt, PledgeMoved, DeductionMoved, RewardMoved;
    if run != [] {
      if Can(s, run[0].signer, run[0].a) {
        StepMoves(s, run[0].signer, run[0].a, key);
        StepRewards(s, run[0].signer, run[0].a, k);
      }
      RowsOverRun(Next(s, run[0].signer, run[0].a), run[1..], key, k);
    }
  }

  /** From the beginning: a pledge is what its owner paid in for that type less what was deducted from it and taken
      back; a deduction is what was deducted less what was handed out; a reward is what that rewarder was handed less
      what it took. */
  lemma RowsAreHistory(g: State, run: seq<Step>, key: RowKey, k: RewardKey)
    requires Genesis(g)
    ensures PledgeAt(Exec(g, run), key) == PledgeOver(g, run, key)
    ensures DeductionAt(Exec(g, run), key) == DeductionOver(g, run, key)
    ensures RewardAt(Exec(g, run).rewards, k) == RewardOver(g, run, k)
  {
    RowsOverRun(g, run, key, k);
  }
}
