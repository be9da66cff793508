/** The row of the global stake before it is there: who creates it, and what it counts then. The other models start from
    a state in which it is. */
module StakeRow {
  import opened Base
  import opened Totals
  import opened StakeAge
  import opened VoteLedger
  import opened VoteAges
  import opened VoteRuns
  import I = Issuance
  import V = Conservation
  import C = VoteClaims

  /** The global stake that a change finds: where it creates the row, the row first holds the sum over the producers. */
  ghost function StakeFound(created: bool, gvotestat: int, bps: map<Name, Bp>): int {
    if created then Total(bps, BpStake()) else gvotestat
  }

  ghost function Seen(s: Ledger, created: bool, bps: map<Name, Bp>): Ledger {
    s.(gvotestat := StakeFound(created, s.gvotestat, bps))
  }

  /** The producers' stakes are changed before the row is created, so the row agrees with their sum afterwards exactly
      if it was there before, or the change is nothing. */
  lemma RowAgreesIfThere(s: Ledger, created: bool, bp: Name, h: nat, amount: int)
    requires bp in s.bps && (created || s.gvotestat == Total(s.bps, BpStake()))
    ensures var bps := AddStake(s.bps, bp, h, amount);
      StakeFound(created, s.gvotestat, bps) + Whole(amount) == Total(bps, BpStake()) <==>
        !created || Whole(amount) == 0
  {
    hide Total;
    AddStakeMovesTotal(s.bps, bp, h, amount);
  }

  // ---- runs that start without the row ----

  datatype State = State(s: Ledger, row: bool)

  /** The actions that ask for the row after they changed a producer's stake. */
  predicate ChangesStake(s: Ledger, a: Action) {
    match a
    case VoteFor(kind, voter, bp, stake) => VoteChange(s, kind, voter, bp, stake) != 0
    case VoteFix(_, _, _, _, _, _) => true
    case OutFixVote(_, _) => true
    case _ => false
  }

  /** A block creates the row before it issues anything, a stake change after the producer's row is written. */
  ghost function NextWithRow(r: State, c: Context, a: Action): State {
    if r.row then State(Next(r.s, c, a), true)
    else if a.Issue? then
      var s := Seen(r.s, true, r.s.bps);
      if Can(s, c, a) then State(Effect(s, c, a), true) else r
    else if Can(r.s, c, a) && ChangesStake(r.s, a) then
      State(Next(Seen(r.s, true, Next(r.s, c, a).bps), c, a), true)
    else State(Next(r.s, c, a), false)
  }

  ghost function ExecWithRow(r: State, run: seq<Step>): State
    decreases |run|
  {
    if run == [] then r else ExecWithRow(NextWithRow(r, run[0].c, run[0].a), run[1..])
  }

  /** By how many base units a stake change moves the stakes. */
  function ChangeOf(s: Ledger, a: Action): int {
    match a
    case VoteFor(kind, voter, bp, stake) => VoteChange(s, kind, voter, bp, stake)
    case VoteFix(_, _, typ, stake, _, _) =>
      if FindType(FIX_TYPES, typ).Some? then stake * FindType(FIX_TYPES, typ).value.power else 0
    case OutFixVote(voter, id) =>
      if FixKey(voter, id) in s.fixvotes then -s.fixvotes[FixKey(voter, id)].power.staked else 0
    case _ => 0
  }

  /** What the action that creates the row counts twice: nothing for a block, its own change otherwise. */
  ghost function CountedTwice(r: State, run: seq<Step>): int
    decreases |run|
  {
    if run == [] || r.row then 0
    else
      var c, a := run[0].c, run[0].a;
      if !NextWithRow(r, c, a).row then CountedTwice(NextWithRow(r, c, a), run[1..])
      else if a.Issue? then 0
      else Whole(ChangeOf(r.s, a))
  }

  /** No stake change creates the row: the first successful action that asks for it is a block. */
  ghost predicate ByBlock(r: State, run: seq<Step>)
    decreases |run|
  {
    run == [] || r.row ||
    var c, a := run[0].c, run[0].a;
    if NextWithRow(r, c, a).row then a.Issue? else ByBlock(NextWithRow(r, c, a), run[1..])
  }

  // ---- the invariant ----

  predicate Unstaked(table: map<VoteKey, Vote>) {
    forall k | k in table :: table[k].voteage.staked == 0
  }

  /** Nobody has staked anything. */
  predicate NoStake(s: Ledger) {
    Unstaked(s.votes) && Unstaked(s.votes4ram) && s.fixvotes == map[] && s.gvotestat == 0
  }

  ghost predicate RowInv(r: State, o: Overdue, now: nat) {
    Inv(r.s, o, now) && (!r.row ==> NoStake(r.s))
  }

  /** Without stake a stake change can only add, and by whole tokens. */
  lemma FirstChangeAdds(s: Ledger, c: Context, a: Action)
    requires NoStake(s) && Can(s, c, a) && ChangesStake(s, a)
    ensures 0 < Whole(ChangeOf(s, a)) && (a.VoteFor? || a.VoteFix?)
  {
    hide FindType, Total, AfterVote;
    if a.VoteFor? {
      assert StakedIn(s.Table(a.kind), VoteKey(a.voter, a.bp)) == 0;
      WholeParts(a.stake);
    } else {
      NewFixRow(a.bp, FindType(FIX_TYPES, a.typ).value, a.stake, c.height);
      FixPowerIsWhole(a.typ, a.stake);
    }
  }

  lemma FixPowerIsWhole(typ: string, stake: int)
    requires FindType(FIX_TYPES, typ).Some? && 0 < stake && IsWhole(stake)
    ensures 0 < Whole(stake * FindType(FIX_TYPES, typ).value.power)
  {
    var t := FindType(FIX_TYPES, typ).value;
    assert t in FIX_TYPES && 1 <= t.power;
    ScaleLe(1, t.power, stake);
    hide FindType;
    assert 10000 <= stake <= stake * t.power;
  }

  lemma NoStakeSum(s: Ledger, o: Overdue, now: nat)
    requires Inv(s, o, now) && NoStake(s)
    ensures Total(s.bps, BpStake()) == 0
  {
    hide Total;
    forall n | n in s.bps ensures BpStake()(n, s.bps[n]) == 0 {
      assert Balanced(s, o, n);
      TotalZero(s.votes, StakeOn(n));
      TotalZero(s.votes4ram, StakeOn(n));
      TotalZero(s.fixvotes, FixStakeOn(n));
    }
    TotalZero(s.bps, BpStake());
  }

  /** Whatever does not change stakes leaves nobody with a stake. */
  lemma NoStakeStays(s: Ledger, c: Context, a: Action)
    requires NoStake(s) && Can(s, c, a) && !ChangesStake(s, a) && !a.Issue?
    ensures NoStake(Effect(s, c, a))
  {
    hide Total, Whole, ClaimedAge, Share, BudgetReward, AddStake;
    if a.VoteFor? {
      WholeOfOpposite(0);
    }
  }

  /** Apart from the row itself, what a stake change does does not depend on the row. */
  lemma SeenMoves(s: Ledger, found: int, c: Context, a: Action)
    requires Can(s, c, a) && ChangesStake(s, a)
    ensures var seen := s.(gvotestat := found);
      Can(seen, c, a) && Effect(seen, c, a).bps == Effect(s, c, a).bps &&
      Effect(seen, c, a).gvotestat == found + Whole(ChangeOf(s, a)) &&
      Effect(s, c, a).gvotestat == s.gvotestat + Whole(ChangeOf(s, a))
  {
    hide Total, Whole, AddStake, FindType;
  }

  lemma SeenKeepsInv(s: Ledger, o: Overdue, now: nat, found: int)
    requires Inv(s, o, now) && Total(s.bps, BpStake()) <= found
    ensures Inv(s.(gvotestat := found), o, now)
  {
    hide Total, RowsOk;
    assert RowsOk(s.(gvotestat := found), now) by { RowsDoNotSeeTheRow(s, found, now); }
    forall b: Name ensures Balanced(s.(gvotestat := found), o, b) {
      assert Balanced(s, o, b);
    }
  }

  lemma RowsDoNotSeeTheRow(s: Ledger, found: int, now: nat)
    requires RowsOk(s, now)
    ensures RowsOk(s.(gvotestat := found), now)
  {
  }

  // ---- steps ----

  /** A stake change that creates the row: the invariant is kept, and the row is too large by the change. */
  lemma ChangeCreates(r: State, o: Overdue, now: nat, c: Context, a: Action)
    requires RowInv(r, o, now) && now <= c.height && !r.row && Can(r.s, c, a) && ChangesStake(r.s, a)
    ensures var r' := NextWithRow(r, c, a);
      r'.row && Inv(r'.s, OverdueAfter(o, r.s, c, a), c.height) && Excess(r'.s) == Whole(ChangeOf(r.s, a)) > 0
  {
    hide Total, Effect, Can, ChangeOf, ChangesStake, RowsOk, Balanced, OverdueAfter;
    var bps := Next(r.s, c, a).bps;
    var found := Total(bps, BpStake());
    FirstChangeAdds(r.s, c, a);
    NoStakeSum(r.s, o, now);
    SeenMoves(r.s, found, c, a);
    SeenMoves(r.s, 0, c, a);
    EffectKeepsExcess(r.s, c, a);
    RowsStayOk(r.s, now, c.height);
    SeenKeepsInv(r.s, o, c.height, found);
    EffectKeeps(r.s.(gvotestat := found), o, c, a);
    OverdueDoesNotSeeTheRow(o, r.s, found, c, a);
  }

  lemma OverdueDoesNotSeeTheRow(o: Overdue, s: Ledger, found: int, c: Context, a: Action)
    ensures OverdueAfter(o, s.(gvotestat := found), c, a) == OverdueAfter(o, s, c, a)
  {
  }

  lemma BlockCreates(r: State, o: Overdue, now: nat, c: Context, a: Action)
    requires RowInv(r, o, now) && now <= c.height && !r.row && a.Issue? && NextWithRow(r, c, a).row
    ensures var r' := NextWithRow(r, c, a);
      Inv(r'.s, OverdueAfter(o, r.s, c, a), c.height) && Excess(r'.s) == 0
  {
    hide Total, Effect, Can, RowsOk, Balanced;
    var found := Total(r.s.bps, BpStake());
    RowsStayOk(r.s, now, c.height);
    SeenKeepsInv(r.s, o, c.height, found);
    EffectKeeps(r.s.(gvotestat := found), o, c, a);
    EffectKeepsExcess(r.s.(gvotestat := found), c, a);
  }

  lemma StepKeepsRow(r: State, o: Overdue, now: nat, c: Context, a: Action)
    requires RowInv(r, o, now) && now <= c.height
    ensures RowInv(NextWithRow(r, c, a), OverdueAfter(o, r.s, c, a), c.height)
  {
    hide Total, Effect, Can, ChangesStake, NoStake, RowsOk, Balanced, OverdueAfter, Excess;
    if r.row {
      StepKeeps(r.s, o, now, c, a);
    } else if a.Issue? {
      if NextWithRow(r, c, a).row {
        BlockCreates(r, o, now, c, a);
      } else {
        IssueIsNotDue(o, r.s, c, a);
        RowsStayOk(r.s, now, c.height);
      }
    } else if Can(r.s, c, a) && ChangesStake(r.s, a) {
      ChangeCreates(r, o, now, c, a);
    } else {
      StepKeeps(r.s, o, now, c, a);
      if Can(r.s, c, a) {
        NoStakeStays(r.s, c, a);
      }
    }
  }

  lemma IssueIsNotDue(o: Overdue, s: Ledger, c: Context, a: Action)
    requires a.Issue?
    ensures OverdueAfter(o, s, c, a) == o
  {
  }

  ghost function OverdueWithRow(o: Overdue, r: State, run: seq<Step>): Overdue
    decreases |run|
  {
    if run == [] then o
    else OverdueWithRow(OverdueAfter(o, r.s, run[0].c, run[0].a), NextWithRow(r, run[0].c, run[0].a), run[1..])
  }

  lemma {:induction false} RunKeepsRow(r: State, o: Overdue, now: nat, run: seq<Step>)
    requires RowInv(r, o, now) && Ordered(now, run)
    ensures RowInv(ExecWithRow(r, run), OverdueWithRow(o, r, run), HeightAfter(now, run))
    decreases |run|
  {
    hide RowInv, NextWithRow, OverdueAfter;
    if run != [] {
      var c, a := run[0].c, run[0].a;
      StepKeepsRow(r, o, now, c, a);
      RunKeepsRow(NextWithRow(r, c, a), OverdueAfter(o, r.s, c, a), c.height, run[1..]);
    }
  }

  // ---- who creates the row ----

  lemma {:induction false} RowIsThere(r: State, run: seq<Step>)
    requires r.row
    ensures ExecWithRow(r, run) == State(Exec(r.s, run), true)
    decreases |run|
  {
    hide Next;
    if run != [] {
      RowIsThere(NextWithRow(r, run[0].c, run[0].a), run[1..]);
    }
  }

  lemma {:induction false} ExcessOverRun(r: State, o: Overdue, now: nat, run: seq<Step>)
    requires RowInv(r, o, now) && Ordered(now, run) && (r.row ==> Excess(r.s) == 0)
    ensures ExecWithRow(r, run).row ==> Excess(ExecWithRow(r, run).s) == CountedTwice(r, run)
    ensures 0 <= CountedTwice(r, run) && (CountedTwice(r, run) == 0 <==> ByBlock(r, run))
    decreases |run|
  {
    if run == [] || r.row {
      hide Excess, Next;
      if r.row {
        RowIsThere(r, run);
        RunKeepsExcess(r.s, run);
      }
    } else {
      var c, a := run[0].c, run[0].a;
      StepKeepsRow(r, o, now, c, a);
      CreationExcess(r, o, now, c, a);
      hide NextWithRow, RowInv, Excess, ChangeOf, OverdueAfter;
      if NextWithRow(r, c, a).row {
        RowIsThere(NextWithRow(r, c, a), run[1..]);
        RunKeepsExcess(NextWithRow(r, c, a).s, run[1..]);
      } else {
        ExcessOverRun(NextWithRow(r, c, a), OverdueAfter(o, r.s, c, a), c.height, run[1..]);
      }
    }
  }

  lemma CreationExcess(r: State, o: Overdue, now: nat, c: Context, a: Action)
    requires RowInv(r, o, now) && now <= c.height && !r.row
    ensures NextWithRow(r, c, a).row ==>
              Excess(NextWithRow(r, c, a).s) == (if a.Issue? then 0 else Whole(ChangeOf(r.s, a))) &&
              (!a.Issue? ==> 0 < Whole(ChangeOf(r.s, a)))
  {
    hide Total, Effect, Can, ChangesStake, RowInv, Excess;
    if !NextWithRow(r, c, a).row {
    } else if a.Issue? {
      BlockCreates(r, o, now, c, a);
    } else {
      ChangeCreates(r, o, now, c, a);
    }
  }

  lemma BeginningIsOk(g: Ledger)
    requires Genesis(g)
    ensures RowInv(State(g, false), map[], 0)
  {
    GenesisInv(g);
  }

  /** Over every run from the beginning, once the row is there: it agrees with the producers' stakes if and only if a
      block created it; otherwise it is too large, for ever, by the stake change that did, which is positive. */
  lemma RowOverRuns(g: Ledger, run: seq<Step>)
    requires Genesis(g) && Ordered(0, run) && ExecWithRow(State(g, false), run).row
    ensures var s, twice := ExecWithRow(State(g, false), run).s, CountedTwice(State(g, false), run);
      s.gvotestat == Total(s.bps, BpStake()) + twice && 0 <= twice
    ensures var s := ExecWithRow(State(g, false), run).s;
      (s.gvotestat == Total(s.bps, BpStake()) <==> ByBlock(State(g, false), run)) &&
      (s.gvotestat > Total(s.bps, BpStake()) <==> !ByBlock(State(g, false), run))
  {
    BeginningIsOk(g);
    ExcessOverRun(State(g, false), map[], 0, run);
  }

  // ---- what holds whoever comes first ----

  /** The vote-age accounting, in every run from the beginning. */
  lemma AgesFromTheBeginning(g: Ledger, run: seq<Step>, h: nat, b: Name)
    requires Genesis(g) && Ordered(0, run) && HeightAfter(0, run) <= h
    requires b in ExecWithRow(State(g, false), run).s.bps
    ensures var s, o := ExecWithRow(State(g, false), run).s, OverdueWithRow(map[], State(g, false), run);
      s.bps[b].GetAge(h) ==
        Total(s.votes, AgeOn(b, h)) + Total(s.votes4ram, AgeOn(b, h)) + Total(s.fixvotes, FixAgeOn(b, h))
        + OverdueAge(s, o, b, h) &&
      0 <= OverdueAge(s, o, b, h)
  {
    BeginningIsOk(g);
    RunKeepsRow(State(g, false), map[], 0, run);
    hide Total, Inv;
    AgeAtHeight(ExecWithRow(State(g, false), run).s, OverdueWithRow(map[], State(g, false), run),
                HeightAfter(0, run), h, b);
  }

  /** The ledger a block issues from: it creates the row if nobody has. */
  ghost function IssuesFrom(r: State): Ledger {
    if r.row then r.s else Seen(r.s, true, r.s.bps)
  }

  /** A block after any run from the beginning hands out at most 30000 units and mints exactly 45000, if there is any
      stake, even where the row is too large. */
  lemma MintingFromTheBeginning(g: Ledger, run: seq<Step>, c: Context, able: set<Name>)
    requires Genesis(g) && Ordered(0, run) && HeightAfter(0, run) <= c.height
    requires CanIssue(IssuesFrom(ExecWithRow(State(g, false), run)), able)
    ensures var r := ExecWithRow(State(g, false), run); var s := IssuesFrom(r);
      V.Tokens(NextWithRow(r, c, Issue(able)).s) ==
        V.Tokens(r.s) + (if s.gvotestat > 0 then I.MINTED_PER_BLOCK else 0) &&
      (s.gvotestat > 0 ==> 0 <= Total(s.bps, EarnedBy(s, able)) <= I.DISTRIBUTED_PER_BLOCK)
  {
    BeginningIsOk(g);
    RunKeepsRow(State(g, false), map[], 0, run);
    hide RowInv, IssuesFrom, NextWithRow, ExecWithRow, CanIssue, EarnedBy, Total, V.Tokens;
    BlockMints(ExecWithRow(State(g, false), run), OverdueWithRow(map[], State(g, false), run),
               HeightAfter(0, run), c, able);
  }

  lemma BlockMints(r: State, o: Overdue, now: nat, c: Context, able: set<Name>)
    requires RowInv(r, o, now) && CanIssue(IssuesFrom(r), able)
    ensures var s := IssuesFrom(r);
      V.Tokens(NextWithRow(r, c, Issue(able)).s) ==
        V.Tokens(r.s) + (if s.gvotestat > 0 then I.MINTED_PER_BLOCK else 0) &&
      (s.gvotestat > 0 ==> 0 <= Total(s.bps, EarnedBy(s, able)) <= I.DISTRIBUTED_PER_BLOCK)
  {
    hide Inv, Total, AfterIssue, CanIssue, EarnedBy, V.Tokens;
    var s := IssuesFrom(r);
    if !r.row {
      SeenKeepsInv(r.s, o, now, Total(r.s.bps, BpStake()));
    }
    TokensDoNotSeeTheRow(r);
    V.FixedIssuance(s, o, now, able);
    if s.gvotestat > 0 {
      I.DistributedIsBounded(s, o, now, able);
    }
  }

  lemma TokensDoNotSeeTheRow(r: State)
    ensures V.Tokens(IssuesFrom(r)) == V.Tokens(r.s)
  {
    hide Total;
  }

  /** And a claim after any run from the beginning goes through exactly when it is signed, the accounts are known and
      the producer has any age; neither pool nor age goes below zero. */
  lemma ClaimsFromTheBeginning(g: Ledger, run: seq<Step>, c: Context, voter: Name, bp: Name)
    requires Genesis(g) && Ordered(0, run) && HeightAfter(0, run) <= c.height
    ensures var s := ExecWithRow(State(g, false), run).s;
      (CanClaim(s, c, voter, bp) <==>
         c.signer == voter && voter in s.available && bp in s.bps && 0 < s.bps[bp].GetAge(c.height)) &&
      (CanClaim(s, c, voter, bp) ==>
         var s' := AfterClaim(s, voter, bp, c.height);
         0 <= s'.bps[bp].rewardsPool <= s.bps[bp].rewardsPool && 0 <= s'.bps[bp].totalVoteage)
  {
    BeginningIsOk(g);
    RunKeepsRow(State(g, false), map[], 0, run);
    hide Total, RowsOk, Balanced, ExecWithRow, CanClaim, AfterClaim;
    var s, o := ExecWithRow(State(g, false), run).s, OverdueWithRow(map[], State(g, false), run);
    V.InvLater(s, o, HeightAfter(0, run), c.height);
    C.ClaimNeverOverpays(s, o, c, voter, bp);
  }

  // ---- an example ----

  function Beginning(): Ledger {
    Ledger(map[10 := 10000], map[], map[], map[], map[], map[], 0, {}, map[])
  }

  function Registered(): Ledger {
    Beginning().(bps := map[20 := Bp(0, 0, 0, 0, 1)])
  }

  /** Account 20 registers, and account 10 votes one token for it before any block has created the row. */
  function VoteFirst(): seq<Step> {
    [Step(Context(5, 20, {}), UpdateBp(20, 1)), Step(Context(5, 10, {}), VoteFor(Plain, 10, 20, 10000))]
  }

  lemma RegisterFirst()
    ensures NextWithRow(State(Beginning(), false), Context(5, 20, {}), UpdateBp(20, 1)) == State(Registered(), false)
  {
  }

  lemma ThenVote()
    ensures var c, a := Context(5, 10, {}), VoteFor(Plain, 10, 20, 10000);
      Can(Registered(), c, a) && NextWithRow(State(Registered(), false), c, a).row &&
      Whole(ChangeOf(Registered(), a)) == 1
  {
    hide Total;
  }

  /** It counts twice. */
  lemma FirstVoteCountsTwice()
    ensures Genesis(Beginning()) && !ByBlock(State(Beginning(), false), VoteFirst())
    ensures var r := ExecWithRow(State(Beginning(), false), VoteFirst());
      r.row && CountedTwice(State(Beginning(), false), VoteFirst()) == 1 &&
      r.s.gvotestat == Total(r.s.bps, BpStake()) + 1
  {
    RegisterFirst();
    ThenVote();
    hide NextWithRow, Next, Total, Registered;
    var run := VoteFirst();
    assert run[1..] == [run[1]] && run[1..][1..] == [];
    assert CountedTwice(State(Registered(), false), run[1..]) == 1;
    BeginningIsOk(Beginning());
    ExcessOverRun(State(Beginning(), false), map[], 0, run);
  }
}
