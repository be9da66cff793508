/** The freeze contract: committers draw up lists of accounts, one list is activated, and only accounts that had
    confirmed before can leave it (eosio.freeze.cpp, freeze.cpp). */
module Freeze {
  import opened Base
  import L = VoteLedger
  import C = CoolDown

  // The empty name; no account has it and nobody signs as it.
  const NOBODY: Name := 0
  const MAX_ADDED: nat := 256

  datatype Stage = Committing | Locked | Activated | Banned

  datatype Stat = Stat(lastCommit: nat, lockedAt: nat, activatedAt: nat, stage: Stage, size: int)

  // A committer's list: the accounts on it, and the block each is held until.
  type List = map<Name, nat>

  datatype State = State(active: Option<Name>, stats: map<Name, Stat>, lists: map<Name, List>, confirmed: set<Name>) {
    function ListOf(committer: Name): List {
      if committer in lists then lists[committer] else map[]
    }

    /** The committer of the activated list; the row may be missing or still hold the empty name. */
    function Activator(): Name {
      if active.Some? then active.value else NOBODY
    }
  }

  datatype Action =
    | Add(committer: Name, accounts: seq<Name>)
    | Del(committer: Name, account: Name)
    | Lock(committer: Name, isLocked: bool)
    | Activate(committer: Name)
    | Confirm(account: Name)
    | Leave(account: Name)

  /** is_account_freezed: what the system contract asks before it lets an account spend. */
  predicate IsFrozen(s: State, account: Name, h: nat) {
    s.Activator() != NOBODY && account in s.ListOf(s.Activator()) &&
    (s.ListOf(s.Activator())[account] <= 1024 || h <= s.ListOf(s.Activator())[account])
  }

  function StatAt(s: State, committer: Name): Stat {
    if committer in s.stats then s.stats[committer] else Stat(0, 0, 0, Committing, 0)
  }

  /** The accounts added, each held for ever; those already there stay as they are. */
  function WithAll(list: List, accounts: seq<Name>): List {
    if accounts == [] then list
    else
      var before, last := WithAll(list, accounts[..|accounts| - 1]), accounts[|accounts| - 1];
      if last in before then before else before[last := 0]
  }

  predicate Can(s: State, signer: Name, a: Action) {
    signer != NOBODY &&
    match a
    case Add(committer, accounts) =>
      signer == committer && |accounts| <= MAX_ADDED && s.Activator() == NOBODY &&
        StatAt(s, committer).stage == Committing
    case Del(committer, account) =>
      signer == committer && s.Activator() == NOBODY && StatAt(s, committer).stage == Committing &&
      account in s.ListOf(committer)
    case Lock(committer, isLocked) =>
      signer == (if isLocked then committer else SYSTEM_ACCOUNT) && s.Activator() == NOBODY && committer in s.stats &&
      s.stats[committer].stage == if isLocked then Committing else Locked
    case Activate(committer) =>
      signer == SYSTEM_ACCOUNT && s.Activator() == NOBODY && committer in s.stats && s.stats[committer].stage == Locked
    case Confirm(account) => signer == account && s.Activator() == NOBODY && account !in s.confirmed
    case Leave(account) =>
      signer == account && s.Activator() != NOBODY && account in s.confirmed && s.Activator() in s.stats &&
      account in s.ListOf(s.Activator())
  }

  function WithList(s: State, h: nat, committer: Name, list: List, grown: int): State {
    var stat := StatAt(s, committer);
    s.(lists := s.lists[committer := list],
       stats := s.stats[committer := stat.(lastCommit := h, size := stat.size + grown)])
  }

  function Effect(s: State, h: nat, signer: Name, a: Action): State
    requires Can(s, signer, a)
  {
    match a
    case Add(committer, accounts) =>
      var list := WithAll(s.ListOf(committer), accounts);
      WithList(s, h, committer, list, |list| - |s.ListOf(committer)|)
    case Del(committer, account) => WithList(s, h, committer, s.ListOf(committer) - {account}, -1)
    case Lock(committer, isLocked) =>
      var stage := if isLocked then Locked else Committing;
      s.(stats := s.stats[committer := s.stats[committer].(stage := stage, lockedAt := h)])
    case Activate(committer) =>
      s.(stats := s.stats[committer := s.stats[committer].(stage := Activated, activatedAt := h)],
         active := Some(committer))
    case Confirm(account) => s.(confirmed := s.confirmed + {account})
    case Leave(account) =>
      var committer := s.Activator();
      s.(confirmed := s.confirmed - {account},
         lists := s.lists[committer := s.ListOf(committer) - {account}],
         stats := s.stats[committer := s.stats[committer].(size := s.stats[committer].size - 1)])
  }

  function Next(s: State, h: nat, signer: Name, a: Action): State {
    if Can(s, signer, a) then Effect(s, h, signer, a) else s
  }

  // ---- what every action keeps ----

  predicate ForEver(list: List) {
    forall n | n in list :: list[n] == 0
  }

  predicate Inv(s: State) {
    NOBODY !in s.stats &&
    (forall c | c in s.lists :: c in s.stats && ForEver(s.lists[c])) &&
    (forall c | c in s.stats :: s.stats[c].size == |s.ListOf(c)|) &&
    (forall c | c in s.stats :: s.stats[c].stage == Activated <==> c == s.Activator()) &&
    (s.Activator() != NOBODY ==> s.Activator() in s.stats)
  }

  lemma {:induction false} WithAllAdds(list: List, accounts: seq<Name>)
    ensures ForEver(list) ==> ForEver(WithAll(list, accounts))
    ensures forall n :: n in WithAll(list, accounts) <==> n in list || n in accounts
  {
    if accounts != [] {
      var front := accounts[..|accounts| - 1];
      WithAllAdds(list, front);
      assert accounts == front + [accounts[|accounts| - 1]];
    }
  }

  lemma SmallerByOne(list: List, account: Name)
    requires account in list
    ensures |list - {account}| == |list| - 1
  {
    assert list.Keys == (list - {account}).Keys + {account};
    assert |(list - {account}).Keys| == |list - {account}| && |list.Keys| == |list|;
  }

  lemma WithListKeeps(s: State, h: nat, committer: Name, list: List, grown: int)
    requires Inv(s) && committer != NOBODY && s.Activator() == NOBODY
    requires ForEver(list) && |s.ListOf(committer)| + grown == |list|
    ensures Inv(WithList(s, h, committer, list, grown))
  {
    hide ForEver;
  }

  lemma LeaveKeeps(s: State, h: nat, signer: Name, account: Name)
    requires Inv(s) && Can(s, signer, Leave(account))
    ensures Inv(Effect(s, h, signer, Leave(account)))
  {
    SmallerByOne(s.ListOf(s.Activator()), account);
    assert ForEver(s.ListOf(s.Activator()) - {account});
    hide ForEver;
  }

  lemma StageKeeps(s: State, h: nat, signer: Name, a: Action)
    requires Inv(s) && (a.Lock? || a.Activate? || a.Confirm?) && Can(s, signer, a)
    ensures Inv(Effect(s, h, signer, a))
  {
    hide ForEver;
  }

  lemma AddKeeps(s: State, h: nat, committer: Name, accounts: seq<Name>)
    requires Inv(s) && committer != NOBODY && s.Activator() == NOBODY
    ensures var list := WithAll(s.ListOf(committer), accounts);
      Inv(WithList(s, h, committer, list, |list| - |s.ListOf(committer)|))
  {
    hide WithAll, Inv, WithList;
    var list := WithAll(s.ListOf(committer), accounts);
    WithAllAdds(s.ListOf(committer), accounts);
    ListsAreForEver(s, committer);
    WithListKeeps(s, h, committer, list, |list| - |s.ListOf(committer)|);
  }

  lemma DelKeeps(s: State, h: nat, committer: Name, account: Name)
    requires Inv(s) && committer != NOBODY && s.Activator() == NOBODY && account in s.ListOf(committer)
    ensures Inv(WithList(s, h, committer, s.ListOf(committer) - {account}, -1))
  {
    hide Inv, WithList;
    SmallerByOne(s.ListOf(committer), account);
    ListsAreForEver(s, committer);
    WithListKeeps(s, h, committer, s.ListOf(committer) - {account}, -1);
  }

  lemma StepKeeps(s: State, h: nat, signer: Name, a: Action)
    requires Inv(s)
    ensures Inv(Next(s, h, signer, a))
  {
    hide WithAll, Inv, WithList;
    if Can(s, signer, a) {
      match a
      case Add(committer, accounts) =>
        AddKeeps(s, h, committer, accounts);
      case Del(committer, account) =>
        DelKeeps(s, h, committer, account);
      case Leave(account) => LeaveKeeps(s, h, signer, account);
      case _ => StageKeeps(s, h, signer, a);
    }
  }

  lemma ListsAreForEver(s: State, committer: Name)
    requires Inv(s)
    ensures ForEver(s.ListOf(committer))
  {
  }

  // ---- what the lists hold ----

  /** Adding puts exactly the named accounts on the committer's list, deleting and leaving take exactly one off; nothing
      else changes a list, and nobody's list but the committer's, or the activated one, is touched. */
  lemma ListsMove(s: State, h: nat, signer: Name, a: Action, committer: Name)
    requires Can(s, signer, a)
    ensures var before, after := s.ListOf(committer), Effect(s, h, signer, a).ListOf(committer);
      match a
      case Add(who, accounts) =>
        if who == committer then forall n :: n in after <==> n in before || n in accounts else after == before
      case Del(who, account) => after == if who == committer then before - {account} else before
      case Leave(account) => after == if s.Activator() == committer then before - {account} else before
      case _ => after == before
    ensures !a.Leave? ==> s.Activator() == NOBODY
    ensures (a.Add? || a.Del?) ==> signer == a.committer
  {
    hide Effect, State.ListOf;
    if a.Add? {
      AddMoves(s, h, signer, a, committer);
    } else {
      OtherMoves(s, h, signer, a, committer);
    }
  }

  lemma AddMoves(s: State, h: nat, signer: Name, a: Action, committer: Name)
    requires Can(s, signer, a) && a.Add?
    ensures var before, after := s.ListOf(committer), Effect(s, h, signer, a).ListOf(committer);
      if a.committer == committer then forall n :: n in after <==> n in before || n in a.accounts else after == before
  {
    WithAllAdds(s.ListOf(a.committer), a.accounts);
    hide WithAll;
  }

  lemma OtherMoves(s: State, h: nat, signer: Name, a: Action, committer: Name)
    requires Can(s, signer, a) && !a.Add?
    ensures var before, after := s.ListOf(committer), Effect(s, h, signer, a).ListOf(committer);
      match a
      case Del(who, account) => after == if who == committer then before - {account} else before
      case Leave(account) => after == if s.Activator() == committer then before - {account} else before
      case _ => after == before
  {
    hide WithAll;
  }

  lemma {:induction false} WithAllGrows(list: List, accounts: seq<Name>)
    ensures |list| <= |WithAll(list, accounts)| <= |list| + |accounts|
  {
    if accounts != [] {
      WithAllGrows(list, accounts[..|accounts| - 1]);
    }
  }

  /** Who may change which list: its committer while it is committing, by at most 256 accounts more at a time, and once
      it is activated each confirmed account that leaves. */
  lemma ListsAreEntitled(s: State, h: nat, signer: Name, a: Action, c: Name)
    requires Next(s, h, signer, a).ListOf(c) != s.ListOf(c)
    ensures var before, after := s.ListOf(c), Next(s, h, signer, a).ListOf(c);
      (signer == c && StatAt(s, c).stage == Committing && s.Activator() == NOBODY && |after| <= |before| + 256) ||
      (c == s.Activator() && signer in before && signer in s.confirmed && after == before - {signer})
  {
    ListsMove(s, h, signer, a, c);
    if a.Add? {
      WithAllGrows(s.ListOf(a.committer), a.accounts);
    } else if a.Del? {
      SmallerByOne(s.ListOf(a.committer), a.account);
    }
    hide WithAll;
  }

  /** The committer locks its list; the system contract unlocks it, and activates it when it is locked and no list is
      active; an active list stays active. */
  lemma StagesAreEntitled(s: State, h: nat, signer: Name, a: Action, c: Name)
    ensures var s' := Next(s, h, signer, a); var stage, stage' := StatAt(s, c).stage, StatAt(s', c).stage;
      (stage' != stage ==>
         (stage == Committing && stage' == Locked && signer == c) ||
         (stage == Locked && stage' == Committing && signer == SYSTEM_ACCOUNT) ||
         (stage == Locked && stage' == Activated && signer == SYSTEM_ACCOUNT && s'.Activator() == c)) &&
      (s'.Activator() != s.Activator() ==> s.Activator() == NOBODY && signer == SYSTEM_ACCOUNT)
  {
    hide WithAll, State.ListOf;
  }

  /** Only the account itself confirms, and leaves. */
  lemma ConfirmedMove(s: State, h: nat, signer: Name, a: Action, n: Name)
    requires Can(s, signer, a)
    ensures var before, after := n in s.confirmed, n in Effect(s, h, signer, a).confirmed;
      (!before && after <==> a == Confirm(n)) && (before && !after <==> a == Leave(n)) &&
      (before != after ==> signer == n)
  {
    hide WithAll;
  }

  // ---- runs ----

  datatype Step = Step(h: nat, signer: Name, a: Action)

  const FRESH := State(None, map[], map[], {})

  function Exec(s: State, run: seq<Step>): State
    decreases |run|
  {
    if run == [] then s else Exec(Next(s, run[0].h, run[0].signer, run[0].a), run[1..])
  }

  lemma {:induction false} RunKeeps(s: State, run: seq<Step>)
    requires Inv(s)
    ensures Inv(Exec(s, run))
    decreases |run|
  {
    hide Inv, Next;
    if run != [] {
      StepKeeps(s, run[0].h, run[0].signer, run[0].a);
      RunKeeps(Next(s, run[0].h, run[0].signer, run[0].a), run[1..]);
    }
  }

  /** In every run the recorded size of each list is its length, and at most one list is ever activated: the one the
      global row names. */
  lemma SizesAndActivation(run: seq<Step>)
    ensures var s := Exec(FRESH, run);
      (forall c | c in s.stats :: s.stats[c].size == |s.ListOf(c)|) &&
      (forall c, d | c in s.stats && d in s.stats && s.stats[c].stage == Activated &&
        s.stats[d].stage == Activated :: c == d)
  {
    RunKeeps(FRESH, run);
  }

  /** Who called confirmact or actconfirmed, with success, along the run. */
  function Confirmers(s: State, run: seq<Step>): set<Name>
    decreases |run|
  {
    if run == [] then {}
    else
      var rest := Confirmers(Next(s, run[0].h, run[0].signer, run[0].a), run[1..]);
      if Can(s, run[0].signer, run[0].a) && run[0].a.Confirm? then {run[0].a.account} + rest else rest
  }

  function Leavers(s: State, run: seq<Step>): set<Name>
    decreases |run|
  {
    if run == [] then {}
    else
      var rest := Leavers(Next(s, run[0].h, run[0].signer, run[0].a), run[1..]);
      if Can(s, run[0].signer, run[0].a) && run[0].a.Leave? then {run[0].a.account} + rest else rest
  }

  /** The list is locked in every state of the run before its last step. */
  predicate StaysLocked(s: State, run: seq<Step>, committer: Name)
    decreases |run|
  {
    run != [] ==>
      committer in s.stats && s.stats[committer].stage == Locked &&
      StaysLocked(Next(s, run[0].h, run[0].signer, run[0].a), run[1..], committer)
  }

  lemma LockedStep(s: State, h: nat, signer: Name, a: Action, committer: Name)
    requires Inv(s) && committer in s.stats && s.stats[committer].stage == Locked
    ensures Next(s, h, signer, a).ListOf(committer) == s.ListOf(committer)
  {
    hide WithAll;
  }

  lemma {:induction false} LockedListIsKept(s: State, run: seq<Step>, committer: Name)
    requires Inv(s) && StaysLocked(s, run, committer)
    ensures Exec(s, run).ListOf(committer) == s.ListOf(committer)
    decreases |run|
  {
    hide Inv, Next;
    if run != [] {
      StepKeeps(s, run[0].h, run[0].signer, run[0].a);
      LockedStep(s, run[0].h, run[0].signer, run[0].a, committer);
      LockedListIsKept(Next(s, run[0].h, run[0].signer, run[0].a), run[1..], committer);
    }
  }

  lemma ConfirmedStep(s: State, h: nat, signer: Name, a: Action)
    ensures Next(s, h, signer, a).confirmed <=
            s.confirmed + if Can(s, signer, a) && a.Confirm? then {a.account} else {}
  {
    hide WithAll;
  }

  lemma {:induction false} OnlyConfirmersConfirmed(s: State, run: seq<Step>)
    ensures Exec(s, run).confirmed <= s.confirmed + Confirmers(s, run)
    decreases |run|
  {
    hide Next, Can;
    if run != [] {
      ConfirmedStep(s, run[0].h, run[0].signer, run[0].a);
      OnlyConfirmersConfirmed(Next(s, run[0].h, run[0].signer, run[0].a), run[1..]);
    }
  }

  lemma ActiveStep(s: State, h: nat, signer: Name, a: Action)
    requires Inv(s) && s.Activator() != NOBODY
    ensures var s' := Next(s, h, signer, a); var gone := if Can(s, signer, a) && a.Leave? then {a.account} else {};
      s'.Activator() == s.Activator() && s'.confirmed == s.confirmed - gone && gone <= s.confirmed &&
      s'.ListOf(s.Activator()) == s.ListOf(s.Activator()) - gone
  {
    hide WithAll;
  }

  /** Once a list is activated, that stays so, and what is left of the list is what was on it less the accounts that
      left; only accounts confirmed at the activation ever leave. */
  lemma {:induction false} ActivatedFor(s: State, run: seq<Step>)
    requires Inv(s) && s.Activator() != NOBODY
    ensures Exec(s, run).Activator() == s.Activator()
    ensures Exec(s, run).ListOf(s.Activator()) == s.ListOf(s.Activator()) - Leavers(s, run)
    ensures Leavers(s, run) <= s.confirmed
    decreases |run|
  {
    hide Inv, Next, Can;
    if run != [] {
      var s' := Next(s, run[0].h, run[0].signer, run[0].a);
      StepKeeps(s, run[0].h, run[0].signer, run[0].a);
      ActiveStep(s, run[0].h, run[0].signer, run[0].a);
      ActivatedFor(s', run[1..]);
    }
  }

  /** The whole life of a list, from any state a run reaches. It is locked, stays locked until it is activated, and
      from then on, at every height, exactly the accounts on it when it was locked are frozen, less those that left; and
      everyone who left had confirmed before the activation. */
  lemma FreezeLifecycle(before: seq<Step>, locked: seq<Step>, act: Step, after: seq<Step>, h: nat)
    requires var s := Exec(FRESH, before);
      act.a.Activate? && StaysLocked(s, locked + [act], act.a.committer) && Can(Exec(s, locked), act.signer, act.a)
    ensures var s := Exec(FRESH, before); var s1 := Exec(s, locked);
      var s2 := Next(s1, act.h, act.signer, act.a); var s3 := Exec(s2, after);
      var left := Leavers(s2, after);
      left <= Confirmers(FRESH, before) + Confirmers(s, locked) &&
      forall n :: IsFrozen(s3, n, h) <==> n in s.ListOf(act.a.committer) && n !in left
  {
    var s := Exec(FRESH, before);
    var s1 := Exec(s, locked);
    var s2 := Next(s1, act.h, act.signer, act.a);
    hide Inv, StaysLocked, Confirmers, Leavers, Next, Can, IsFrozen;
    FreshIsOk();
    RunKeeps(FRESH, before);
    RunKeeps(s, locked);
    LockedPrefix(s, locked, act, act.a.committer);
    LockedListIsKept(s, locked, act.a.committer);
    OnlyConfirmersConfirmed(FRESH, before);
    OnlyConfirmersConfirmed(s, locked);
    StepKeeps(s1, act.h, act.signer, act.a);
    ActivationStep(s1, act);
    ActivatedFor(s2, after);
    RunKeeps(s2, after);
    FrozenIsListed(Exec(s2, after), h);
  }

  lemma FreshIsOk()
    ensures Inv(FRESH)
  {
  }

  lemma ActivationStep(s: State, act: Step)
    requires Inv(s) && act.a.Activate? && Can(s, act.signer, act.a)
    ensures var s' := Next(s, act.h, act.signer, act.a);
      s'.Activator() == act.a.committer != NOBODY && s'.lists == s.lists && s'.confirmed == s.confirmed
  {
  }

  lemma FrozenIsListed(s: State, h: nat)
    requires Inv(s) && s.Activator() != NOBODY
    ensures forall n :: IsFrozen(s, n, h) <==> n in s.ListOf(s.Activator())
  {
  }

  lemma {:induction false} LockedPrefix(s: State, locked: seq<Step>, act: Step, committer: Name)
    requires StaysLocked(s, locked + [act], committer)
    ensures StaysLocked(s, locked, committer)
    decreases |locked|
  {
    hide Next;
    if locked != [] {
      assert (locked + [act])[1..] == locked[1..] + [act];
      LockedPrefix(Next(s, locked[0].h, locked[0].signer, locked[0].a), locked[1..], act, committer);
    }
  }

  // ---- frozen accounts keep their tokens ----

  // One step of either contract, in any interleaving.
  datatype JointStep = LedgerStep(c: L.Context, a: L.Action) | FreezeStep(step: Step)

  datatype Joint = Joint(ledger: L.Ledger, freeze: State)

  /** The ledger's actions are told exactly who is frozen when they run. */
  ghost predicate Tells(s: State, c: L.Context) {
    forall n :: n in c.frozen <==> IsFrozen(s, n, c.height)
  }

  ghost function NextJoint(j: Joint, step: JointStep): Joint {
    match step
    case LedgerStep(c, a) => j.(ledger := L.Next(j.ledger, c, a))
    case FreezeStep(f) => j.(freeze := Next(j.freeze, f.h, f.signer, f.a))
  }

  ghost predicate Told(j: Joint, run: seq<JointStep>)
    decreases |run|
  {
    run != [] ==>
      (run[0].LedgerStep? ==> Tells(j.freeze, run[0].c)) && Told(NextJoint(j, run[0]), run[1..])
  }

  ghost function ExecJoint(j: Joint, run: seq<JointStep>): Joint
    decreases |run|
  {
    if run == [] then j else ExecJoint(NextJoint(j, run[0]), run[1..])
  }

  /** Held for good: on the activated list and not confirmed when it was activated. */
  predicate HeldForGood(s: State, n: Name) {
    s.Activator() != NOBODY && n in s.ListOf(s.Activator()) && n !in s.confirmed
  }

  lemma HeldStep(j: Joint, step: JointStep, n: Name)
    requires Inv(j.freeze) && HeldForGood(j.freeze, n) && n in j.ledger.available
    requires step.LedgerStep? ==> Tells(j.freeze, step.c)
    ensures var j' := NextJoint(j, step);
      Inv(j'.freeze) && HeldForGood(j'.freeze, n) && n in j'.ledger.available &&
      j'.ledger.available[n] >= j.ledger.available[n]
  {
    hide Next;
    match step
    case LedgerStep(c, a) =>
      assert IsFrozen(j.freeze, n, c.height);
      C.FrozenKeepsBalance(j.ledger, c, a, n);
    case FreezeStep(f) =>
      StepKeeps(j.freeze, f.h, f.signer, f.a);
      ActiveStep(j.freeze, f.h, f.signer, f.a);
  }

  /** An account on the activated list that had not confirmed before stays frozen for ever, and however the actions of
      both contracts interleave, its available balance never falls again. */
  lemma {:induction false} FrozenForGood(j: Joint, run: seq<JointStep>, n: Name, h: nat)
    requires Inv(j.freeze) && HeldForGood(j.freeze, n) && n in j.ledger.available && Told(j, run)
    ensures IsFrozen(ExecJoint(j, run).freeze, n, h)
    ensures n in ExecJoint(j, run).ledger.available
    ensures ExecJoint(j, run).ledger.available[n] >= j.ledger.available[n]
    decreases |run|
  {
    hide NextJoint, Tells;
    if run != [] {
      HeldStep(j, run[0], n);
      FrozenForGood(NextJoint(j, run[0]), run[1..], n, h);
    }
  }

  // ---- the contract ----

  /** The contract's tables; see Budget.Contract for failing checks. */
  class Contract {
    var active: Option<Name>
    var stats: map<Name, Stat>
    var lists: map<Name, List>
    var confirmed: set<Name>

    function View(): State
      reads this
    {
      State(active, stats, lists, confirmed)
    }

    constructor ()
      ensures View() == FRESH
    {
      active, stats, lists, confirmed := None, map[], map[], {};
    }

    method AddFreezed(h: nat, signer: Name, committer: Name, accounts: seq<Name>) returns (ok: bool)
      modifies this
      ensures ok == Can(old(View()), signer, Add(committer, accounts))
      ensures View() == Next(old(View()), h, signer, Add(committer, accounts))
    {
      if signer == NOBODY || signer != committer || |accounts| > MAX_ADDED ||
        View().Activator() != NOBODY { return false; }
      if committer in stats && stats[committer].stage != Committing { return false; }
      if committer !in stats {
        stats := stats[committer := Stat(0, 0, 0, Committing, 0)];
      }
      var list, added := AddRows(View().ListOf(committer), accounts);
      lists := lists[committer := list];
      var stat := stats[committer];
      stats := stats[committer := stat.(lastCommit := h, size := stat.size + added)];
      return true;
    }

    static method AddRows(list: List, accounts: seq<Name>) returns (grown: List, added: int)
      ensures grown == WithAll(list, accounts) && added == |grown| - |list|
    {
      grown, added := list, 0;
      for i := 0 to |accounts|
        invariant grown == WithAll(list, accounts[..i]) && added == |grown| - |list|
      {
        assert accounts[..i + 1][..i] == accounts[..i];
        if accounts[i] !in grown {
          NewKey(grown, accounts[i]);
          grown := grown[accounts[i] := 0];
          added := added + 1;
        }
      }
      assert accounts[..|accounts|] == accounts;
    }

    method DelFreezed(h: nat, signer: Name, committer: Name, account: Name) returns (ok: bool)
      modifies this
      ensures ok == Can(old(View()), signer, Del(committer, account))
      ensures View() == Next(old(View()), h, signer, Del(committer, account))
    {
      if signer == NOBODY || signer != committer || View().Activator() != NOBODY { return false; }
      if committer in stats && stats[committer].stage != Committing { return false; }
      var written := stats;
      if committer !in stats {
        stats := stats[committer := Stat(0, 0, 0, Committing, 0)];
      }
      var list := View().ListOf(committer);
      if account !in list {
        stats := written;
        return false;
      }
      lists := lists[committer := list - {account}];
      stats := stats[committer := stats[committer].(lastCommit := h, size := stats[committer].size - 1)];
      return true;
    }

    method LockFreezed(h: nat, signer: Name, committer: Name, isLocked: bool) returns (ok: bool)
      modifies this
      ensures ok == Can(old(View()), signer, Lock(committer, isLocked))
      ensures View() == Next(old(View()), h, signer, Lock(committer, isLocked))
    {
      if signer == NOBODY || signer != (if isLocked then committer else SYSTEM_ACCOUNT) { return false; }
      if View().Activator() != NOBODY || committer !in stats { return false; }
      var stat := stats[committer];
      if stat.stage == Activated || stat.stage == Banned { return false; }
      var hasLocked := stat.stage != Committing;
      if hasLocked == isLocked { return false; }
      stats := stats[committer := stat.(stage := if isLocked then Locked else Committing, lockedAt := h)];
      return true;
    }

    method ActFreezed(h: nat, signer: Name, committer: Name) returns (ok: bool)
      modifies this
      ensures ok == Can(old(View()), signer, Activate(committer))
      ensures View() == Next(old(View()), h, signer, Activate(committer))
    {
      if signer != SYSTEM_ACCOUNT || View().Activator() != NOBODY || committer !in stats { return false; }
      if stats[committer].stage != Locked { return false; }
      stats := stats[committer := stats[committer].(stage := Activated, activatedAt := h)];
      active := Some(committer);
      return true;
    }

    method ConfirmAct(h: nat, signer: Name, account: Name) returns (ok: bool)
      modifies this
      ensures ok == Can(old(View()), signer, Confirm(account))
      ensures View() == Next(old(View()), h, signer, Confirm(account))
    {
      if signer == NOBODY || signer != account || View().Activator() != NOBODY || account in confirmed { return false; }
      confirmed := confirmed + {account};
      return true;
    }

    method ActConfirmed(h: nat, signer: Name, account: Name) returns (ok: bool)
      modifies this
      ensures ok == Can(old(View()), signer, Leave(account))
      ensures View() == Next(old(View()), h, signer, Leave(account))
    {
      if signer == NOBODY || signer != account || View().Activator() == NOBODY ||
        account !in confirmed { return false; }
      var committer, written := View().Activator(), confirmed;
      confirmed := confirmed - {account};
      if committer !in stats || account !in View().ListOf(committer) {
        confirmed := written;
        return false;
      }
      lists := lists[committer := lists[committer] - {account}];
      stats := stats[committer := stats[committer].(size := stats[committer].size - 1)];
      return true;
    }
  }

  lemma NewKey(list: List, account: Name)
    requires account !in list
    ensures |list[account := 0]| == |list| + 1
  {
    SmallerByOne(list[account := 0], account);
    assert list[account := 0] - {account} == list;
  }
}
