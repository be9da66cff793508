/** Runs of two and three blocks that show where drains and missed slots come apart. */
module RoundExamples {
  import opened Base
  import opened BlockRounds
  import opened BlockCredits
  import opened SlotTimeline
  import opened WatchRuns
  import opened BlockClaims

  // ---- the producers ----

  /** The producer at index i is called i + 1. */
  function Producers(): seq<Name> {
    seq(NUM_OF_TOP_BPS, (i: nat) => i + 1)
  }

  /** The next schedule: the producers at index j and at index 6 change places. */
  function Swapped(j: nat): seq<Name> {
    seq(NUM_OF_TOP_BPS, (i: nat) => if i == j then 7 else if i == 6 then j + 1 else i + 1)
  }

  function Idle(): Schedule {
    seq(NUM_OF_TOP_BPS, (i: nat) => Producer(i + 1, 0))
  }

  lemma DistinctProducers()
    ensures |Producers()| == NUM_OF_TOP_BPS && Distinct(Producers()) && Names(Idle()) == Producers()
    ensures forall i | 0 <= i < NUM_OF_TOP_BPS :: Producers()[i] == i + 1
  {
  }

  lemma DistinctSwapped(j: nat)
    requires j < NUM_OF_TOP_BPS && j != 6
    ensures |Swapped(j)| == NUM_OF_TOP_BPS && Distinct(Swapped(j)) && Swapped(j)[6] == j + 1
  {
  }

  lemma Members(producers: seq<Name>, i: nat)
    requires i < |producers|
    ensures producers[i] in producers
  {
  }

  // ---- the first block: a new schedule, in slot 0 ----

  function BlockBy(height: nat, i: nat, version: nat, producers: seq<Name>): Block
    requires i < NUM_OF_TOP_BPS
  {
    Block(height, i + 1, version, producers, map[1 := BASE_BLOCK_OUT_PLEDGE + 1, 6 := 0, 11 := 0])
  }

  function Start0(): Chain {
    Chain(Watch(map[0 := Idle()], map[], None, map[]), 0, 0, Payouts(0, 0))
  }

  /** The row exists, and the producers have the given amounts in the schedule in force. */
  function Running(sch: Schedule, height: nat): Chain {
    Chain(Watch(map[0 := Idle(), 1 := sch], map[], Some(BlockReward(1, 0, 0, 1)), map[]), 1, height, Payouts(1, 0))
  }

  function AfterFirst(): Schedule {
    seq(NUM_OF_TOP_BPS, (i: nat) => Producer(i + 1, if i == 0 then 1 else 0))
  }

  lemma FirstBlock(cfg: Config)
    ensures Start(Start0()) && NextBlock(Start0().w, 0, 0, BlockBy(1, 0, 1, Producers()))
    ensures AfterProduce(Start0(), BlockBy(1, 0, 1, Producers()), cfg) == Running(AfterFirst(), 1)
    ensures ClosesRound(Start0().w, BlockBy(1, 0, 1, Producers())) && InSlot([], BlockBy(1, 0, 1, Producers()), 0)
  {
    DistinctProducers();
    Members(Producers(), 0);
    assert Producers()[..NUM_OF_TOP_BPS] == Producers();
    assert NewSchedule(Producers(), 1) == AfterFirst();
  }

  lemma FindAt(sch: Schedule, i: nat)
    requires i < |sch| == NUM_OF_TOP_BPS && Names(sch) == Producers()
    ensures Find(sch, i + 1) == i && sch[i].name == i + 1
  {
    DistinctProducers();
    assert Names(sch)[i] == sch[i].name;
    FindIs(sch, i);
  }

  // ---- a round of 46 slots ----

  function TwoRotations(): seq<Event> {
    [Produce(BlockBy(1, 0, 1, Producers()), 0), Produce(BlockBy(2, 0, 1, Producers()), 46)]
  }

  /** The producer at index 0 makes the blocks of slots 0 and 46 and misses slot 23; the round spans two rotations,
      and it is not drained. */
  lemma MissedButNotDrained(cfg: Config)
    ensures var es := TwoRotations(); var c := Running(AfterFirst(), 1);
      var cs := [Start0(), c, AfterProduce(c, es[1].b, cfg)];
      Trace(cs, es, cfg) && OnTimeline(cs, es, 2) && SlotsAt(cs, es, 1) == [0] &&
      ClosesRound(c.w, es[1].b) && ClosedVersion(c.w, es[1].b) == c.version &&
      DrainAt(c, es[1].b, cfg, 0) == 0 && Missed([0], 46, 0) == 1
  {
    hide AfterProduce, NextBlock, ClosesRound, InSlot, Start, DrainAt, Missed;
    hide Running, Start0, AfterFirst, BlockBy, Producers;
    FirstBlock(cfg);
    LateBlock(cfg);
    Shapes();
    var es, c := TwoRotations(), Running(AfterFirst(), 1);
    var cs := [Start0(), c, AfterProduce(c, es[1].b, cfg)];
    FirstSlots(cs, es, cfg);
  }

  lemma LateBlock(cfg: Config)
    ensures var c, b := Running(AfterFirst(), 1), BlockBy(2, 0, 1, Producers());
      NextBlock(c.w, 1, 1, b) && ClosesRound(c.w, b) && ClosedVersion(c.w, b) == 1 && InSlot([0], b, 46) &&
      DrainAt(c, b, cfg, 0) == 0 && Missed([0], 46, 0) == 1
  {
    DistinctProducers();
    Members(Producers(), 0);
    assert Names(AfterFirst()) == Producers();
    FindAt(AfterFirst(), 0);
    SlotsInArc(0, 0, 46);
    ProducedByOne(0, 0);
  }

  lemma Shapes()
    ensures Start0().version == 0 && Start0().height == 0
    ensures forall sch, h :: Running(sch, h).version == 1 && Running(sch, h).height == h
  {
  }

  lemma FirstSlots(cs: seq<Chain>, es: seq<Event>, cfg: Config)
    requires 1 <= |es| < |cs| && cs[0] == Start0() && es[0] == Produce(BlockBy(1, 0, 1, Producers()), 0)
    ensures SlotsAt(cs, es, 0) == [] && SlotsAt(cs, es, 1) == [0]
  {
    FirstBlock(cfg);
  }

  // ---- a block share that cannot be claimed ----

  /** After those two blocks the producer at index 0, the only one with enough pledge, holds all the block age; bpclaim
      refuses it, whatever else it is owed. */
  lemma SoleHolderIsRefused(cfg: Config)
    ensures var es := TwoRotations(); var c := AfterProduce(Running(AfterFirst(), 1), es[1].b, cfg);
      Trace([Start0(), Running(AfterFirst(), 1), c], es, cfg) && HasBlockShare(c.w, 1) &&
      0 < c.w.monitors[1].blockAge && 0 < c.w.blockReward.value.rewardBlockOut && !CanClaimShare(c.w, 1)
  {
    MissedButNotDrained(cfg);
    SoleHolder(cfg);
    var es, c1 := TwoRotations(), Running(AfterFirst(), 1);
    var c := AfterProduce(c1, es[1].b, cfg);
    hide AfterProduce, Running, AfterFirst, BlockBy, CanClaimShare, ClosesRound;
    TraceKeeps([Start0(), c1, c], es, cfg, 2);
    ShareCheck(c.w, c.p, 1);
  }

  lemma SoleHolder(cfg: Config)
    ensures var c := AfterProduce(Running(AfterFirst(), 1), BlockBy(2, 0, 1, Producers()), cfg);
      HasBlockShare(c.w, 1) && 0 < c.w.monitors[1].blockAge && 0 < c.w.blockReward.value.rewardBlockOut &&
      !OthersHaveAge(c.w, 1)
  {
    hide DrainOf, SettleUpTo, AgeUpTo, AfterFirst, Producers, NextBlock, ClosesRound;
    LateBlock(cfg);
    var c, b := Running(AfterFirst(), 1), BlockBy(2, 0, 1, Producers());
    OnlyFirstEarns(RoundOf(c.w, b, cfg));
    assert c.w.schedules[1] == AfterFirst() && |AfterFirst()| == NUM_OF_TOP_BPS;
  }

  lemma EarnsAlone(r: Round)
    requires r.pledges == map[1 := BASE_BLOCK_OUT_PLEDGE + 1, 6 := 0, 11 := 0]
    ensures |AfterFirst()| == NUM_OF_TOP_BPS
    ensures forall i | 0 <= i < NUM_OF_TOP_BPS ::
              Settled(r, i, AfterFirst()[i], NEW_MONITOR).blockAge == if i == 0 then 1000 else 0
  {
    hide DrainOf;
  }

  lemma OnlyFirstEarns(r: Round)
    requires r.pledges == map[1 := BASE_BLOCK_OUT_PLEDGE + 1, 6 := 0, 11 := 0]
    ensures |AfterFirst()| == NUM_OF_TOP_BPS
    ensures var ms := SettleUpTo(r, AfterFirst(), map[], NUM_OF_TOP_BPS);
      1 in ms && ms[1].blockAge == 1000 && forall n | n in ms && n != 1 :: ms[n].blockAge == 0
  {
    hide SettleUpTo, Settled;
    var sch := AfterFirst();
    DistinctProducers();
    assert Names(sch) == Producers();
    EarnsAlone(r);
    var ms := SettleUpTo(r, sch, map[], NUM_OF_TOP_BPS);
    SettleRows(r, sch, map[], NUM_OF_TOP_BPS);
    assert sch[0].name == 1;
    forall n | n in ms && n != 1 ensures ms[n].blockAge == 0 {
      var i :| 0 <= i < NUM_OF_TOP_BPS && sch[i].name == n;
      assert ms[n] == Settled(r, i, sch[i], NEW_MONITOR);
    }
  }

  // ---- rounds closed by a schedule change ----

  function AfterSecond(): Schedule {
    seq(NUM_OF_TOP_BPS, (i: nat) => Producer(i + 1, if i == 0 || i == 5 then 1 else 0))
  }

  /** Blocks in slots 0 and 5; then the producer at index j opens a new schedule in slot 6, where it now stands. */
  function ChangeAfterTwo(j: nat): seq<Event>
    requires j < NUM_OF_TOP_BPS
  {
    [Produce(BlockBy(1, 0, 1, Producers()), 0), Produce(BlockBy(2, 5, 1, Producers()), 5),
     Produce(BlockBy(3, j, 2, Swapped(j)), 6)]
  }

  lemma SecondBlock(cfg: Config)
    ensures var c, b := Running(AfterFirst(), 1), BlockBy(2, 5, 1, Producers());
      NextBlock(c.w, 1, 1, b) && !ClosesRound(c.w, b) && InSlot([0], b, 5) &&
      AfterProduce(c, b, cfg) == Running(AfterSecond(), 2)
  {
    DistinctProducers();
    Members(Producers(), 5);
    assert Names(AfterFirst()) == Producers();
    FindAt(AfterFirst(), 5);
    assert Bump(AfterFirst(), 6) == AfterSecond();
  }

  lemma ThirdBlock(j: nat, cfg: Config)
    requires j < NUM_OF_TOP_BPS && j != 6
    ensures var c, b := Running(AfterSecond(), 2), BlockBy(3, j, 2, Swapped(j));
      NextBlock(c.w, 1, 2, b) && ClosesRound(c.w, b) && ClosedVersion(c.w, b) == 1 && InSlot([0, 5], b, 6) &&
      RoundOf(c.w, b, cfg).ifirst == 0 && RoundOf(c.w, b, cfg).ilast == j
  {
    DistinctSwapped(j);
    Members(Swapped(j), 6);
    assert Names(AfterSecond()) == Producers();
    FindAt(AfterSecond(), 0);
    FindAt(AfterSecond(), j);
  }

  /** A run in which the change closes the round of slots 0 and 5 at slot 6, and what it charges. */
  lemma ChangeRun(j: nat, cfg: Config)
    requires j < NUM_OF_TOP_BPS && j != 6
    ensures var es := ChangeAfterTwo(j); var c := Running(AfterSecond(), 2);
      var cs := [Start0(), Running(AfterFirst(), 1), c, AfterProduce(c, es[2].b, cfg)];
      Trace(cs, es, cfg) && OnTimeline(cs, es, 3) && SlotsAt(cs, es, 2) == [0, 5] &&
      ClosesRound(c.w, es[2].b) && ClosedVersion(c.w, es[2].b) == c.version &&
      RoundOf(c.w, es[2].b, cfg).ifirst == 0 && RoundOf(c.w, es[2].b, cfg).ilast == j
  {
    hide AfterProduce, NextBlock, ClosesRound, InSlot, RoundOf, Start;
    hide Running, Start0, AfterFirst, AfterSecond, BlockBy, Producers, Swapped;
    FirstBlock(cfg);
    SecondBlock(cfg);
    ThirdBlock(j, cfg);
    Shapes();
    var es, c := ChangeAfterTwo(j), Running(AfterSecond(), 2);
    var cs := [Start0(), Running(AfterFirst(), 1), c, AfterProduce(c, es[2].b, cfg)];
    FirstSlots(cs, es, cfg);
    assert SlotsAt(cs, es, 2) == [0, 5];
  }

  lemma CountsAtSix(i: nat)
    requires i < NUM_OF_TOP_BPS
    ensures ProducedBy([0, 5], i) == if i == 0 || i == 5 then 1 else 0
    ensures SlotsOf(i, 0, 6) == if i < 6 then 1 else 0
  {
    ProducedByOne(0, i);
    ProducedByNext([0], 5, i);
    assert [0] + [5] == [0, 5];
    SlotsBelow(i, 0, 6);
  }

  /** The first kind: the arc runs from 0 to 3; the producer at index 5, outside it, made the block of its only slot
      and is fined for it. */
  lemma FinedForItsBlock(cfg: Config)
    ensures var es := ChangeAfterTwo(3); var c := Running(AfterSecond(), 2); var b := es[2].b;
      var cs := [Start0(), Running(AfterFirst(), 1), c, AfterProduce(c, b, cfg)];
      Trace(cs, es, cfg) && OnTimeline(cs, es, 3) && SlotsAt(cs, es, 2) == [0, 5] &&
        ClosedVersion(c.w, b) == c.version &&
      DrainAt(c, b, cfg, 5) == 1 && Missed([0, 5], 6, 5) == 0 && ChargedUnduly(c, [0, 5], b, 6, cfg, 5) &&
      Fine(6, DRAIN_BLOCK_PUNISH) in FinesUpTo(RoundOf(c.w, b, cfg), AfterSecond(), c.w.monitors, NUM_OF_TOP_BPS)
  {
    ChangeRun(3, cfg);
    CountsAtSix(5);
    FineIsSent(3, 5, cfg);
  }

  /** The second kind: the arc runs from 0 to 15; the producer at index 10, inside it, was handed no slot in the six
      slots of the round and is fined all the same. */
  lemma FinedWithoutASlot(cfg: Config)
    ensures var es := ChangeAfterTwo(15); var c := Running(AfterSecond(), 2); var b := es[2].b;
      var cs := [Start0(), Running(AfterFirst(), 1), c, AfterProduce(c, b, cfg)];
      Trace(cs, es, cfg) && OnTimeline(cs, es, 3) && SlotsAt(cs, es, 2) == [0, 5] &&
        ClosedVersion(c.w, b) == c.version &&
      DrainAt(c, b, cfg, 10) == 1 && SlotsOf(10, 0, 6) == 0 && Missed([0, 5], 6, 10) == 0 &&
      ChargedUnduly(c, [0, 5], b, 6, cfg, 10) &&
      Fine(11, DRAIN_BLOCK_PUNISH) in FinesUpTo(RoundOf(c.w, b, cfg), AfterSecond(), c.w.monitors, NUM_OF_TOP_BPS)
  {
    ChangeRun(15, cfg);
    CountsAtSix(10);
    FineIsSent(15, 10, cfg);
  }

  /** And the other way round: with the arc from 0 to 3 the producer at index 4 missed its slot and is let off. */
  lemma LetOffOnChange(cfg: Config)
    ensures var es := ChangeAfterTwo(3); var c := Running(AfterSecond(), 2); var b := es[2].b;
      var cs := [Start0(), Running(AfterFirst(), 1), c, AfterProduce(c, b, cfg)];
      Trace(cs, es, cfg) && OnTimeline(cs, es, 3) && SlotsAt(cs, es, 2) == [0, 5] &&
      ClosedVersion(c.w, b) == c.version &&
      DrainAt(c, b, cfg, 4) == 0 && Missed([0, 5], 6, 4) == 1 && LetOff(c, [0, 5], b, 6, cfg, 4)
  {
    ChangeRun(3, cfg);
    CountsAtSix(4);
  }

  lemma FineIsSent(j: nat, i: nat, cfg: Config)
    requires j < NUM_OF_TOP_BPS && j != 6 && i in {5, 10}
    requires var c, b := Running(AfterSecond(), 2), ChangeAfterTwo(j)[2].b;
      ClosedVersion(c.w, b) == c.version && DrainAt(c, b, cfg, i) == 1
    ensures var c, b := Running(AfterSecond(), 2), ChangeAfterTwo(j)[2].b;
      Fine(i + 1, DRAIN_BLOCK_PUNISH) in FinesUpTo(RoundOf(c.w, b, cfg), AfterSecond(), c.w.monitors, NUM_OF_TOP_BPS)
  {
    var c, b := Running(AfterSecond(), 2), ChangeAfterTwo(j)[2].b;
    DistinctProducers();
    assert Names(AfterSecond()) == Producers();
    DrainGivesFine(RoundOf(c.w, b, cfg), AfterSecond(), c.w.monitors, NUM_OF_TOP_BPS, i);
  }
}
