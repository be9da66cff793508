/** Unstaked tokens stay locked for FROZEN_DELAY blocks: a record of when each amount was unstaked is carried beside
    the ledger, and every unfreeze is compared with it. */
module CoolDown {
  import opened Base
  import opened Totals
  import opened VoteLedger
  import opened VoteAges
  import opened VoteRuns

  datatype RowId = RowId(kind: Kind, key: VoteKey)

  // An amount that went into unstaking at height since; for a fix-time vote's principal, unlockedAt is the
  // height from which it could be withdrawn.
  datatype Lot = Lot(amount: int, since: nat, unlockedAt: nat)

  type Lots = map<RowId, seq<Lot>>

  function LotsOf(l: Lots, r: RowId): seq<Lot> {
    if r in l then l[r] else []
  }

  function Sum(lots: seq<Lot>): int {
    if lots == [] then 0 else lots[0].amount + Sum(lots[1..])
  }

  /** Unstaking tokens that go into a fix-time vote come out of the oldest lots. */
  function Consume(lots: seq<Lot>, amount: int): seq<Lot> {
    if lots == [] then []
    else if lots[0].amount <= amount then Consume(lots[1..], amount - lots[0].amount)
    else [lots[0].(amount := lots[0].amount - amount)] + lots[1..]
  }

  ghost function LotsAfter(l: Lots, s: Ledger, c: Context, a: Action): Lots {
    if !Can(s, c, a) then l else
    match a
    case VoteFor(kind, voter, bp, stake) =>
      var r, change := RowId(kind, VoteKey(voter, bp)), VoteChange(s, kind, voter, bp, stake);
      if change < 0 then l[r := LotsOf(l, r) + [Lot(-change, c.height, 0)]] else l
    case OutFixVote(voter, id) =>
      var f := s.fixvotes[FixKey(voter, id)];
      var r := RowId(Plain, VoteKey(voter, f.bp));
      l[r := LotsOf(l, r) + [Lot(f.principal, c.height, f.withdrawAt)]]
    case VoteFix(voter, bp, typ, stake, source, id) =>
      var r := RowId(Plain, VoteKey(voter, bp));
      if source == UnstakingToken then l[r := Consume(LotsOf(l, r), stake)] else l
    case Unfreeze(kind, voter, bp) => l[RowId(kind, VoteKey(voter, bp)) := []]
    case _ => l
  }

  predicate LotsOk(lots: seq<Lot>, upTo: nat) {
    forall i | 0 <= i < |lots| :: 0 <= lots[i].amount && lots[i].unlockedAt <= lots[i].since <= upTo
  }

  /** The row's unstaking amount is made of lots none of which is younger than its unstake height. */
  predicate Recorded(s: Ledger, l: Lots, r: RowId) {
    if r.key in s.Table(r.kind) then
      var row := s.Table(r.kind)[r.key];
      Sum(LotsOf(l, r)) == row.unstaking && LotsOk(LotsOf(l, r), row.unstakeHeight)
    else LotsOf(l, r) == []
  }

  ghost predicate AllRecorded(s: Ledger, l: Lots) {
    forall r: RowId :: Recorded(s, l, r)
  }

  lemma {:induction false} SumAppend(lots: seq<Lot>, lot: Lot)
    ensures Sum(lots + [lot]) == Sum(lots) + lot.amount
  {
    if lots == [] {
      assert lots + [lot] == [lot];
    } else {
      assert (lots + [lot])[1..] == lots[1..] + [lot];
      SumAppend(lots[1..], lot);
    }
  }

  lemma {:induction false} ConsumeTakes(lots: seq<Lot>, amount: int, upTo: nat)
    requires LotsOk(lots, upTo) && 0 <= amount <= Sum(lots)
    ensures Sum(Consume(lots, amount)) == Sum(lots) - amount
    ensures LotsOk(Consume(lots, amount), upTo)
  {
    if lots != [] {
      if lots[0].amount <= amount {
        ConsumeTakes(lots[1..], amount - lots[0].amount, upTo);
      } else {
        var rest := [lots[0].(amount := lots[0].amount - amount)] + lots[1..];
        assert rest[1..] == lots[1..];
      }
    }
  }

  lemma NewLot(lots: seq<Lot>, upTo: nat, lot: Lot)
    requires LotsOk(lots, upTo) && 0 <= lot.amount && lot.unlockedAt <= lot.since && upTo <= lot.since
    ensures LotsOk(lots + [lot], lot.since) && Sum(lots + [lot]) == Sum(lots) + lot.amount
  {
    SumAppend(lots, lot);
  }

  // ---- every action keeps the record true ----

  lemma RowAt(s: Ledger, h: nat, kind: Kind, key: VoteKey)
    requires RowsOk(s, h) && key in s.Table(kind)
    ensures s.Table(kind)[key].unstakeHeight <= h
  {
  }

  lemma FixRowIn(s: Ledger, h: nat, key: FixKey)
    requires RowsOk(s, h) && key in s.fixvotes
    ensures FixOk(s.fixvotes[key], h)
  {
  }

  lemma VoteRecords(s: Ledger, l: Lots, c: Context, kind: Kind, voter: Name, bp: Name, stake: int, r: RowId)
    requires RowsOk(s, c.height) && CanVote(s, c, kind, voter, bp, stake)
    requires Recorded(s, l, r)
    ensures Recorded(AfterVote(s, kind, voter, bp, stake, c.height),
                     LotsAfter(l, s, c, VoteFor(kind, voter, bp, stake)), r)
  {
    hide RowsOk;
    var change := VoteChange(s, kind, voter, bp, stake);
    if r == RowId(kind, VoteKey(voter, bp)) && change < 0 {
      RowAt(s, c.height, kind, r.key);
      NewLot(LotsOf(l, r), s.Table(kind)[r.key].unstakeHeight, Lot(-change, c.height, 0));
    }
  }

  lemma OutFixVoteRecords(s: Ledger, l: Lots, c: Context, voter: Name, id: nat, r: RowId)
    requires RowsOk(s, c.height) && CanOutFixVote(s, c, voter, id)
    requires Recorded(s, l, r)
    ensures Recorded(AfterOutFixVote(s, FixKey(voter, id), c.height), LotsAfter(l, s, c, OutFixVote(voter, id)), r)
  {
    hide RowsOk;
    var f := s.fixvotes[FixKey(voter, id)];
    FixRowIn(s, c.height, FixKey(voter, id));
    if r == RowId(Plain, VoteKey(voter, f.bp)) {
      if r.key in s.votes {
        RowAt(s, c.height, Plain, r.key);
      }
      NewLot(LotsOf(l, r), if r.key in s.votes then s.votes[r.key].unstakeHeight else 0,
             Lot(f.principal, c.height, f.withdrawAt));
    }
  }

  lemma VoteFixRecords(s: Ledger, l: Lots, c: Context,
                       voter: Name, bp: Name, typ: string, stake: int, source: Source, id: nat, r: RowId)
    requires CanVoteFix(s, c, voter, bp, typ, stake, source, id)
    requires Recorded(s, l, r)
    ensures Recorded(AfterVoteFix(s, voter, bp, FindType(FIX_TYPES, typ).value, stake, source, id, c.height),
                     LotsAfter(l, s, c, VoteFix(voter, bp, typ, stake, source, id)), r)
  {
    if source == UnstakingToken && r == RowId(Plain, VoteKey(voter, bp)) {
      ConsumeTakes(LotsOf(l, r), stake, s.votes[r.key].unstakeHeight);
    }
  }

  lemma RevoteRecords(s: Ledger, l: Lots, c: Context, voter: Name, frombp: Name, tobp: Name, restake: int, r: RowId)
    requires CanRevote(s, c, voter, frombp, tobp, restake) && Recorded(s, l, r)
    ensures Recorded(AfterRevote(s, voter, frombp, tobp, restake, c.height), l, r)
  {
    if r == RowId(Plain, VoteKey(voter, tobp)) && r.key !in s.votes {
      assert LotsOf(l, r) == [];
    }
  }

  lemma EffectRecords(s: Ledger, l: Lots, c: Context, a: Action, r: RowId)
    requires RowsOk(s, c.height) && Can(s, c, a) && Recorded(s, l, r)
    ensures Recorded(Effect(s, c, a), LotsAfter(l, s, c, a), r)
  {
    hide Total, RowsOk, ClaimedAge, Share, BudgetReward;
    match a
    case VoteFor(kind, voter, bp, stake) => VoteRecords(s, l, c, kind, voter, bp, stake, r);
    case Revote(voter, frombp, tobp, restake) => RevoteRecords(s, l, c, voter, frombp, tobp, restake, r);
    case VoteFix(voter, bp, typ, stake, source, id) => VoteFixRecords(s, l, c, voter, bp, typ, stake, source, id, r);
    case OutFixVote(voter, id) => OutFixVoteRecords(s, l, c, voter, id, r);
    case _ =>
  }

  ghost function LotsOver(l: Lots, s: Ledger, run: seq<Step>): Lots
    decreases |run|
  {
    if run == [] then l
    else LotsOver(LotsAfter(l, s, run[0].c, run[0].a), Next(s, run[0].c, run[0].a), run[1..])
  }

  lemma {:induction false} RunRecords(s: Ledger, o: Overdue, l: Lots, now: nat, run: seq<Step>)
    requires Inv(s, o, now) && Ordered(now, run) && AllRecorded(s, l)
    ensures AllRecorded(Exec(s, run), LotsOver(l, s, run))
    decreases |run|
  {
    hide Balanced, Total, Recorded, RowsOk, Effect, OverdueAfter;
    if run != [] {
      var c, a := run[0].c, run[0].a;
      StepKeeps(s, o, now, c, a);
      RowsStayOk(s, now, c.height);
      forall r: RowId ensures Recorded(Next(s, c, a), LotsAfter(l, s, c, a), r) {
        assert Recorded(s, l, r);
        if Can(s, c, a) {
          EffectRecords(s, l, c, a, r);
        }
      }
      RunRecords(Next(s, c, a), OverdueAfter(o, s, c, a), LotsAfter(l, s, c, a), c.height, run[1..]);
    }
  }

  /** In every run, whatever an unfreeze returns to the account is made of amounts each of which was unstaked more
      than FROZEN_DELAY blocks before, and a fix-time principal among them more than FROZEN_DELAY after it could
      first be withdrawn. */
  lemma CoolDownSafety(g: Ledger, run: seq<Step>, c: Context, kind: Kind, voter: Name, bp: Name)
    requires Genesis(g) && Ordered(0, run)
    requires CanUnfreeze(Exec(g, run), c, kind, voter, bp)
    ensures var s, lots := Exec(g, run), LotsOf(LotsOver(map[], g, run), RowId(kind, VoteKey(voter, bp)));
      AfterUnfreeze(s, kind, voter, bp).available[voter] == s.available[voter] + Sum(lots) &&
      (forall i | 0 <= i < |lots| ::
         lots[i].since + FROZEN_DELAY < c.height && lots[i].unlockedAt + FROZEN_DELAY < c.height)
  {
    GenesisInv(g);
    RunRecords(g, map[], map[], 0, run);
    assert Recorded(Exec(g, run), LotsOver(map[], g, run), RowId(kind, VoteKey(voter, bp)));
  }

  // ---- frozen accounts ----

  /** An account the freeze contract holds never loses available balance, whatever anyone does. */
  lemma FrozenKeepsBalance(s: Ledger, c: Context, a: Action, n: Name)
    requires n in c.frozen && n in s.available
    ensures n in Next(s, c, a).available && Next(s, c, a).available[n] >= s.available[n]
  {
    hide Total, ClaimedAge;
  }

  lemma {:induction false} FrozenForeverKeepsBalance(s: Ledger, run: seq<Step>, n: Name)
    requires n in s.available && forall i | 0 <= i < |run| :: n in run[i].c.frozen
    ensures n in Exec(s, run).available && Exec(s, run).available[n] >= s.available[n]
    decreases |run|
  {
    hide Next;
    if run != [] {
      FrozenKeepsBalance(s, run[0].c, run[0].a, n);
      FrozenForeverKeepsBalance(Next(s, run[0].c, run[0].a), run[1..], n);
    }
  }
}
