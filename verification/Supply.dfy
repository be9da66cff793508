/** The ledger and the block rounds together: the actions of both, with blocks and bpclaim touching both at once, and
    what that means for the supply of the core token. */
module Supply {
  import opened Base
  import opened Totals
  import L = VoteLedger
  import A = VoteAges
  import R = VoteRuns
  import V = Conservation
  import I = Issuance
  import opened BlockRounds
  import opened BlockCredits
  import C = BlockClaims

  datatype System = System(s: L.Ledger, c: Chain)

  // An action of the ledger, a block, or a bpclaim.
  datatype Event =
    | Act(x: L.Context, a: L.Action)
    | Produce(b: Block, able: set<Name>)
    | BpClaim(x: L.Context, bp: Name)

  /** Actions run in the block whose onblock ran last. */
  ghost predicate CanHappen(j: System, e: Event) {
    match e
    case Act(x, a) => x.height == j.c.height && !a.PayBp? && !a.Issue? && L.Can(j.s, x, a)
    case Produce(b, able) => NextBlock(j.c.w, j.c.version, j.c.height, b) && L.CanIssue(j.s, able)
    case BpClaim(x, bp) =>
      x.height == j.c.height && CanClaimShare(j.c.w, bp) && L.CanPayBp(j.s, x, bp, BlockShare(j.c.w, bp))
  }

  ghost function Happen(j: System, e: Event, cfg: Config): System
    requires CanHappen(j, e)
  {
    match e
    case Act(x, a) => System(L.Effect(j.s, x, a), j.c)
    case Produce(b, able) => System(L.AfterIssue(j.s, able), AfterProduce(j.c, b, cfg))
    case BpClaim(x, bp) => System(L.AfterPayBp(j.s, bp, BlockShare(j.c.w, bp)), AfterShare(j.c, bp))
  }

  /** An aborted action leaves no trace. */
  ghost function Next(j: System, e: Event, cfg: Config): System {
    if CanHappen(j, e) then Happen(j, e, cfg) else j
  }

  ghost function Exec(j: System, run: seq<Event>, cfg: Config): System
    decreases |run|
  {
    if run == [] then j else Exec(Next(j, run[0], cfg), run[1..], cfg)
  }

  ghost function OverdueNext(o: A.Overdue, j: System, e: Event): A.Overdue {
    if e.Act? && CanHappen(j, e) then A.OverdueAfter(o, j.s, e.x, e.a) else o
  }

  ghost function OverdueOver(o: A.Overdue, j: System, run: seq<Event>, cfg: Config): A.Overdue
    decreases |run|
  {
    if run == [] then o else OverdueOver(OverdueNext(o, j, run[0]), Next(j, run[0], cfg), run[1..], cfg)
  }

  ghost predicate Inv(j: System, o: A.Overdue) {
    A.Inv(j.s, o, j.c.height) && ChainOk(j.c) && (j.c.w.blockReward.None? ==> j.c.p.paid == 0)
  }

  /** What the event mints: 45000 units in a block with any stake. */
  ghost function Minted(j: System, e: Event): int {
    if CanHappen(j, e) && e.Produce? && j.s.gvotestat > 0 then I.MINTED_PER_BLOCK else 0
  }

  ghost function MintedOver(j: System, run: seq<Event>, cfg: Config): int
    decreases |run|
  {
    if run == [] then 0 else Minted(j, run[0]) + MintedOver(Next(j, run[0], cfg), run[1..], cfg)
  }

  lemma ActKeeps(j: System, o: A.Overdue, x: L.Context, a: L.Action, cfg: Config)
    requires Inv(j, o) && CanHappen(j, Act(x, a))
    ensures var j' := Happen(j, Act(x, a), cfg);
      Inv(j', OverdueNext(o, j, Act(x, a))) && V.Tokens(j'.s) == V.Tokens(j.s) && j'.c == j.c
  {
    hide A.Inv, ChainOk, L.Can, L.Effect, A.OverdueAfter, V.Tokens;
    R.EffectKeeps(j.s, o, x, a);
    V.EffectConserves(j.s, o, x, a);
  }

  lemma ProduceKeepsBoth(j: System, o: A.Overdue, b: Block, able: set<Name>, cfg: Config)
    requires Inv(j, o) && CanHappen(j, Produce(b, able))
    ensures var j' := Happen(j, Produce(b, able), cfg);
      Inv(j', o) && V.Tokens(j'.s) == V.Tokens(j.s) + Minted(j, Produce(b, able)) && j'.c.p.paid == j.c.p.paid
  {
    hide A.Inv, ChainOk, NextBlock, L.CanIssue, L.AfterIssue, V.Tokens;
    ProduceKeeps(j.c, b, cfg);
    I.IssueKeeps(j.s, o, j.c.height, able);
    V.FixedIssuance(j.s, o, j.c.height, able);
    NextHeight(j, b);
    V.InvLater(L.AfterIssue(j.s, able), o, j.c.height, b.height);
    RowStays(j.c, b, cfg);
  }

  lemma NextHeight(j: System, b: Block)
    requires NextBlock(j.c.w, j.c.version, j.c.height, b)
    ensures b.height == j.c.height + 1
  {
  }

  /** A block never removes the blockreward row, and only its creation starts the history anew. */
  lemma RowStays(c: Chain, b: Block, cfg: Config)
    requires ChainOk(c) && NextBlock(c.w, c.version, c.height, b)
    ensures AfterProduce(c, b, cfg).w.blockReward.None? ==> c.w.blockReward.None?
    ensures AfterProduce(c, b, cfg).p.paid == if c.w.blockReward.None? && ChangesSchedule(c.w, b) then 0 else c.p.paid
  {
    hide SettleUpTo, AgeUpTo;
  }

  lemma BpClaimKeeps(j: System, o: A.Overdue, x: L.Context, bp: Name, cfg: Config)
    requires Inv(j, o) && CanHappen(j, BpClaim(x, bp))
    ensures var j' := Happen(j, BpClaim(x, bp), cfg); var share := BlockShare(j.c.w, bp);
      Inv(j', o) && V.Tokens(j'.s) == V.Tokens(j.s) + share && j'.c.p.paid == j.c.p.paid + share
  {
    hide A.Inv, ChainOk, L.CanPayBp, L.AfterPayBp, V.Tokens;
    ShareKeeps(j.c, bp);
    PayIsIn(j.s, x, bp, BlockShare(j.c.w, bp));
    R.PayBpKeeps(j.s, o, x, bp, BlockShare(j.c.w, bp));
  }

  lemma PayIsIn(s: L.Ledger, x: L.Context, bp: Name, share: int)
    requires L.CanPayBp(s, x, bp, share)
    ensures V.Tokens(L.AfterPayBp(s, bp, share)) == V.Tokens(s) + share
  {
    V.PayBpConserves(s, bp, share);
  }

  lemma StepKeeps(j: System, o: A.Overdue, e: Event, cfg: Config)
    requires Inv(j, o)
    ensures var j' := Next(j, e, cfg);
      Inv(j', OverdueNext(o, j, e)) &&
      V.Tokens(j'.s) - j'.c.p.paid == V.Tokens(j.s) - j.c.p.paid + Minted(j, e)
  {
    hide Inv, V.Tokens, Minted;
    if CanHappen(j, e) {
      match e
      case Act(x, a) => ActKeeps(j, o, x, a, cfg); NothingMinted(j, e);
      case Produce(b, able) => ProduceKeepsBoth(j, o, b, able, cfg);
      case BpClaim(x, bp) => BpClaimKeeps(j, o, x, bp, cfg); NothingMinted(j, e);
    } else {
      NothingMinted(j, e);
    }
  }

  lemma NothingMinted(j: System, e: Event)
    ensures !e.Produce? || !CanHappen(j, e) ==> Minted(j, e) == 0
  {
  }

  lemma {:induction false} RunKeeps(j: System, o: A.Overdue, run: seq<Event>, cfg: Config)
    requires Inv(j, o)
    ensures Inv(Exec(j, run, cfg), OverdueOver(o, j, run, cfg))
    ensures var j' := Exec(j, run, cfg);
      V.Tokens(j'.s) - j'.c.p.paid == V.Tokens(j.s) - j.c.p.paid + MintedOver(j, run, cfg)
    decreases |run|
  {
    hide Inv, V.Tokens, Minted, Next, OverdueNext;
    if run != [] {
      StepKeeps(j, o, run[0], cfg);
      RunKeeps(Next(j, run[0], cfg), OverdueNext(o, j, run[0]), run[1..], cfg);
    }
  }

  /** Balances only, no monitored producer, a schedule in force. */
  ghost predicate Genesis(j: System) {
    R.Genesis(j.s) && Start(j.c) && j.c.p.paid == 0
  }

  lemma GenesisInv(j: System)
    requires Genesis(j)
    ensures Inv(j, map[])
    ensures V.Tokens(j.s) == Total(j.s.available, V.Amount())
  {
    hide Total;
    R.GenesisInv(j.s);
    V.InvLater(j.s, map[], 0, j.c.height);
    StartIsOk(j.c);
    TotalZero(j.s.votes, V.VoteTokens());
    TotalZero(j.s.votes4ram, V.VoteTokens());
    TotalZero(j.s.fixvotes, V.FixTokens());
    TotalZero(j.s.bps, V.PoolTokens());
    TotalZero(j.s.bpsreward, V.Amount());
  }

  /** The supply: everything the ledger holds and the block-reward pool. */
  ghost function SupplyOf(j: System): int {
    V.Tokens(j.s) + if j.c.w.blockReward.Some? then j.c.w.blockReward.value.rewardBlockOut else 0
  }

  /** Over every run of actions, blocks and bpclaims: the supply is the initial balances, plus 45000 units for every
      block with any stake, plus 5000 for every block from the creation of the blockreward row to the last closed
      round. Nothing else makes or destroys tokens. */
  lemma SupplyIsFixed(g: System, run: seq<Event>, cfg: Config)
    requires Genesis(g)
    ensures var j := Exec(g, run, cfg); var row := j.c.w.blockReward;
      SupplyOf(j) == Total(g.s.available, V.Amount()) + MintedOver(g, run, cfg)
                     + if row.Some? then BLOCK_OUT_REWARD * (row.value.lastRewardBlockNum - j.c.p.created) else 0
  {
    GenesisInv(g);
    hide Total, V.Tokens;
    RunKeeps(g, map[], run, cfg);
  }

  /** Where blocks, bpclaims and the ledger's actions mix freely, too, a producer's age at any later height is exactly
      the ages of the votes on it plus the non-negative overdue part. */
  lemma VoteAgesInFullRuns(g: System, run: seq<Event>, cfg: Config, h: nat, b: Name)
    requires Genesis(g) && Exec(g, run, cfg).c.height <= h && b in Exec(g, run, cfg).s.bps
    ensures var s, o := Exec(g, run, cfg).s, OverdueOver(map[], g, run, cfg);
      s.bps[b].GetAge(h) ==
        Total(s.votes, R.AgeOn(b, h)) + Total(s.votes4ram, R.AgeOn(b, h)) + Total(s.fixvotes, R.FixAgeOn(b, h))
        + R.OverdueAge(s, o, b, h) &&
      0 <= R.OverdueAge(s, o, b, h)
  {
    GenesisInv(g);
    hide Total, A.Inv, ChainOk;
    RunKeeps(g, map[], run, cfg);
    var j := Exec(g, run, cfg);
    R.AgeAtHeight(j.s, OverdueOver(map[], g, run, cfg), j.c.height, h, b);
  }

  /** And a bpclaim that passes its checks pays the producer exactly what it takes from the pool and from the producer's
      own rewards, without changing the supply. */
  lemma BpClaimMovesTokens(g: System, run: seq<Event>, cfg: Config, x: L.Context, bp: Name)
    requires Genesis(g) && CanHappen(Exec(g, run, cfg), BpClaim(x, bp))
    ensures var j := Exec(g, run, cfg); var j' := Happen(j, BpClaim(x, bp), cfg);
      SupplyOf(j') == SupplyOf(j) && 0 <= BlockShare(j.c.w, bp) &&
      j'.s.available[bp] == j.s.available[bp] + L.OwedTo(j.s, bp) + BlockShare(j.c.w, bp)
  {
    GenesisInv(g);
    RunKeeps(g, map[], run, cfg);
    var j := Exec(g, run, cfg);
    hide A.Inv, V.Tokens, Total, Exec, MintedOver;
    ClaimShareKeepsPool(j.c.w, j.c.p, bp);
    PayIsIn(j.s, x, bp, BlockShare(j.c.w, bp));
  }

  /** In full runs, too, the producer gets what it is owed and the floored part of the block pool that its block age is
      of all block age; both leave where they were, and no other account, reward or monitor changes. */
  lemma BpClaimPays(g: System, run: seq<Event>, cfg: Config, x: L.Context, bp: Name)
    requires Genesis(g) && CanHappen(Exec(g, run, cfg), BpClaim(x, bp))
    requires HasBlockShare(Exec(g, run, cfg).c.w, bp)
    ensures var j := Exec(g, run, cfg);
      var j', w, row := Happen(j, BpClaim(x, bp), cfg), j.c.w, j.c.w.blockReward.value;
      x.signer == bp && 0 <= w.monitors[bp].blockAge < row.totalBlockAge &&
      var owed := if bp in j.s.bpsreward then j.s.bpsreward[bp] else 0;
      var share := (row.rewardBlockOut * w.monitors[bp].blockAge) / row.totalBlockAge;
      j'.s.available == j.s.available[bp := j.s.available[bp] + owed + share] &&
      j'.s == j.s.(available := j'.s.available, bpsreward := j'.s.bpsreward) &&
      (forall n | n in j.s.bpsreward :: n in j'.s.bpsreward &&
         j'.s.bpsreward[n] == if n == bp then 0 else j.s.bpsreward[n]) &&
      j'.c.w.monitors == w.monitors[bp := w.monitors[bp].(blockAge := 0)] &&
      j'.c.w.blockReward.Some? && j'.c.w.blockReward.value.rewardBlockOut == row.rewardBlockOut - share
  {
    GenesisInv(g);
    RunKeeps(g, map[], run, cfg);
    var j := Exec(g, run, cfg);
    hide A.Inv, V.Tokens, Total, Exec, MintedOver, BlockShare, AfterClaimShare;
    C.ShareMoves(j.c.w, j.c.p, bp);
    C.ShareCheck(j.c.w, j.c.p, bp);
  }
}
