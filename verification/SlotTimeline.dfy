/** Missed-block detection against a timeline of slots that are handed out cyclically, one per producer. */
module SlotTimeline {
  import opened Base
  import opened BlockRounds
  import opened BlockCredits

  // ---- counting slots ----

  /** How many slots from a up to, not including, b belong to index i. */
  function SlotsOf(i: nat, a: nat, b: nat): nat
    requires a <= b
    decreases b - a
  {
    if a == b then 0 else SlotsOf(i, a, b - 1) + if (b - 1) % NUM_OF_TOP_BPS == i then 1 else 0
  }

  lemma DivMod(x: int, q: int, r: int)
    requires x == NUM_OF_TOP_BPS * q + r && 0 <= r < NUM_OF_TOP_BPS
    ensures x / NUM_OF_TOP_BPS == q && x % NUM_OF_TOP_BPS == r
  {
  }

  /** Slots of index i before slot b. */
  function Below(i: nat, b: nat): nat {
    b / NUM_OF_TOP_BPS + if i < b % NUM_OF_TOP_BPS then 1 else 0
  }

  lemma BelowNext(i: nat, b: nat)
    requires i < NUM_OF_TOP_BPS
    ensures Below(i, b + 1) == Below(i, b) + if b % NUM_OF_TOP_BPS == i then 1 else 0
  {
    var q, r := b / NUM_OF_TOP_BPS, b % NUM_OF_TOP_BPS;
    if r == NUM_OF_TOP_BPS - 1 {
      DivMod(b + 1, q + 1, 0);
    } else {
      DivMod(b + 1, q, r + 1);
    }
  }

  lemma {:induction false} SlotsBelow(i: nat, a: nat, b: nat)
    requires a <= b && i < NUM_OF_TOP_BPS
    ensures SlotsOf(i, a, b) == Below(i, b) - Below(i, a)
    decreases b - a
  {
    if a < b {
      SlotsBelow(i, a, b - 1);
      BelowNext(i, b - 1);
    }
  }

  /** One slot per full rotation, and one more inside the cyclic arc: the arc rule of cal_drain_num counts exactly the
      slots of the incomplete rotation. */
  lemma SlotsInArc(i: nat, a: nat, b: nat)
    requires a <= b && i < NUM_OF_TOP_BPS
    ensures SlotsOf(i, a, b) ==
            (b - a) / NUM_OF_TOP_BPS + if InArc(i, a % NUM_OF_TOP_BPS, b % NUM_OF_TOP_BPS) then 1 else 0
  {
    SlotsBelow(i, a, b);
    var qa, ra, qb, rb := a / NUM_OF_TOP_BPS, a % NUM_OF_TOP_BPS, b / NUM_OF_TOP_BPS, b % NUM_OF_TOP_BPS;
    if ra <= rb {
      DivMod(b - a, qb - qa, rb - ra);
    } else {
      DivMod(b - a, qb - qa - 1, rb - ra + NUM_OF_TOP_BPS);
    }
  }

  /** How many of the first n indices lie in the arc. */
  function ArcCount(ifirst: nat, ilast: nat, n: nat): nat {
    if n == 0 then 0 else ArcCount(ifirst, ilast, n - 1) + if InArc(n - 1, ifirst, ilast) then 1 else 0
  }

  lemma {:induction false} ArcCountUpTo(ifirst: nat, ilast: nat, n: nat)
    ensures ArcCount(ifirst, ilast, n) ==
            if ifirst <= ilast then Max(0, Min(n, ilast) - ifirst) else Min(n, ilast) + Max(0, n - ifirst)
  {
    if n > 0 {
      ArcCountUpTo(ifirst, ilast, n - 1);
    }
  }

  /** The arc has one index for each slot of the incomplete rotation. */
  lemma ArcSize(ifirst: nat, ilast: nat)
    requires ifirst < NUM_OF_TOP_BPS && ilast < NUM_OF_TOP_BPS
    ensures ArcCount(ifirst, ilast, NUM_OF_TOP_BPS) == (ilast - ifirst) % NUM_OF_TOP_BPS
  {
    ArcCountUpTo(ifirst, ilast, NUM_OF_TOP_BPS);
    if ifirst > ilast {
      DivMod(ilast - ifirst, -1, ilast - ifirst + NUM_OF_TOP_BPS);
    }
  }

  lemma SameIndexApart(a: nat, b: nat)
    requires a < b && a % NUM_OF_TOP_BPS == b % NUM_OF_TOP_BPS
    ensures b - a >= NUM_OF_TOP_BPS
  {
    var d := b / NUM_OF_TOP_BPS - a / NUM_OF_TOP_BPS;
    assert b - a == NUM_OF_TOP_BPS * d;
  }

  // ---- the blocks of the open round ----

  /** The slots in which a block was made, in order. */
  predicate Rising(slots: seq<nat>) {
    forall i, j | 0 <= i < j < |slots| :: slots[i] < slots[j]
  }

  function ProducedBy(slots: seq<nat>, i: nat): nat {
    if slots == [] then 0
    else
      var last := |slots| - 1;
      ProducedBy(slots[..last], i) + if slots[last] % NUM_OF_TOP_BPS == i then 1 else 0
  }

  /** slots are those of the blocks since, and with, the one that closed the last round. */
  ghost predicate Tracks(c: Chain, slots: seq<nat>) {
    c.w.blockReward.Some? ==>
      c.version in c.w.schedules &&
      var sch := c.w.schedules[c.version];
      |sch| == NUM_OF_TOP_BPS && slots != [] && Rising(slots) &&
      sch[slots[0] % NUM_OF_TOP_BPS].name == c.w.blockReward.value.lastStandardBp &&
      forall i: nat | i < NUM_OF_TOP_BPS :: Credit(sch[i], c.w.monitors) == ProducedBy(slots, i)
  }

  /** The block is made in slot t, which is later than the slots before it and belongs to its producer. */
  predicate InSlot(slots: seq<nat>, b: Block, t: nat) {
    |b.producers| == NUM_OF_TOP_BPS && b.producers[t % NUM_OF_TOP_BPS] == b.bp &&
      forall i | 0 <= i < |slots| :: slots[i] < t
  }

  /** The slots of the open round after a block in slot t: a closed round, and the creation of the row, start anew. */
  function SlotsAfter(c: Chain, slots: seq<nat>, b: Block, t: nat): seq<nat> {
    if ClosesRound(c.w, b) then [t] else slots + [t]
  }

  lemma NameAt(sch: Schedule, producers: seq<Name>, i: nat, n: Name)
    requires Names(sch) == producers && Distinct(producers) && i < |producers|
    ensures Find(sch, n) == i <==> n == producers[i]
  {
    assert Names(sch)[i] == sch[i].name;
    FindIs(sch, i);
  }

  lemma ProducedByNext(slots: seq<nat>, t: nat, i: nat)
    ensures ProducedBy(slots + [t], i) == ProducedBy(slots, i) + if t % NUM_OF_TOP_BPS == i then 1 else 0
  {
    assert (slots + [t])[..|slots|] == slots;
  }

  lemma ProducedByOne(t: nat, i: nat)
    ensures ProducedBy([t], i) == if t % NUM_OF_TOP_BPS == i then 1 else 0
  {
    assert [t] == [] + [t];
    ProducedByNext([], t, i);
  }

  /** Credits after a block, position by position. */
  lemma CreditsAfterBlock(c: Chain, b: Block, t: nat, slots: seq<nat>, cfg: Config, i: nat)
    requires ChainOk(c) && NextBlock(c.w, c.version, c.height, b) && InSlot(slots, b, t) && i < NUM_OF_TOP_BPS
    ensures var c' := AfterProduce(c, b, cfg);
      b.version in c'.w.schedules && |c'.w.schedules[b.version]| == NUM_OF_TOP_BPS &&
      var p := c'.w.schedules[b.version][i];
      (c'.w.blockReward.Some? ==>
         p.name == b.producers[i] &&
         Credit(p, c'.w.monitors) == (if t % NUM_OF_TOP_BPS == i then 1 else 0) +
           (if ClosesRound(c.w, b) then 0 else Credit(c.w.schedules[c.version][i], c.w.monitors)))
  {
    hide PoolOk, AgeUpTo, SettleUpTo, Settled, PayoutsAfterBlock;
    var w := c.w;
    BlockKeepsCounting(w, c.version, c.height, b, cfg);
    ClosedIsThere(w, c.version, c.height, b);
    if b.version == c.version {
      var sch := w.schedules[c.version];
      assert Names(sch)[i] == sch[i].name;
      BumpedSchedule(sch, b.bp);
      assert Names(Bump(sch, b.bp))[i] == Bump(sch, b.bp)[i].name;
    } else {
      assert b.producers[..NUM_OF_TOP_BPS] == b.producers;
    }
    if w.blockReward.Some? && ClosesRound(w, b) {
      RewardClearsCredits(w, c.version, c.height, b, cfg);
    }
  }

  lemma StandardAfterBlock(c: Chain, b: Block, cfg: Config)
    requires ChainOk(c) && NextBlock(c.w, c.version, c.height, b)
    ensures var w' := AfterProduce(c, b, cfg).w;
      w'.blockReward.Some? ==>
        if ClosesRound(c.w, b) then w'.blockReward.value.lastStandardBp == b.bp
        else c.w.blockReward.Some? && b.version == c.version &&
             w'.blockReward.value.lastStandardBp == c.w.blockReward.value.lastStandardBp
  {
    hide PoolOk, AgeUpTo, SettleUpTo, PayoutsAfterBlock;
    BlockKeepsCounting(c.w, c.version, c.height, b, cfg);
  }

  /** The credits the contract keeps are the blocks of the timeline, in every run. */
  lemma BlockKeepsTrack(c: Chain, slots: seq<nat>, b: Block, t: nat, cfg: Config)
    requires ChainOk(c) && Tracks(c, slots)
    requires NextBlock(c.w, c.version, c.height, b) && InSlot(slots, b, t)
    ensures Tracks(AfterProduce(c, b, cfg), SlotsAfter(c, slots, b, t))
  {
    hide ChainOk;
    var c' := AfterProduce(c, b, cfg);
    var slots' := SlotsAfter(c, slots, b, t);
    StandardAfterBlock(c, b, cfg);
    forall i: nat | i < NUM_OF_TOP_BPS
      ensures b.version in c'.w.schedules && |c'.w.schedules[b.version]| == NUM_OF_TOP_BPS
      ensures c'.w.blockReward.Some? ==>
                c'.w.schedules[b.version][i].name == b.producers[i] &&
                Credit(c'.w.schedules[b.version][i], c'.w.monitors) == ProducedBy(slots', i)
    {
      CreditsAfterBlock(c, b, t, slots, cfg, i);
      ProducedByNext(slots, t, i);
      ProducedByOne(t, i);
    }
    if c'.w.blockReward.Some? && !ClosesRound(c.w, b) {
      assert Names(c.w.schedules[c.version])[slots[0] % NUM_OF_TOP_BPS] ==
        c.w.schedules[c.version][slots[0] % NUM_OF_TOP_BPS].name;
    }
  }

  lemma ShareKeepsTrack(c: Chain, slots: seq<nat>, bp: Name)
    requires Tracks(c, slots) && CanClaimShare(c.w, bp)
    ensures Tracks(AfterShare(c, bp), slots)
  {
    var w' := AfterClaimShare(c.w, bp);
    forall n: Name ensures LastOf(w'.monitors, n) == LastOf(c.w.monitors, n) {
    }
  }

  // ---- rounds inside one schedule ----

  /** Slots handed to index i since the round began, less the blocks it made in them. */
  function Missed(slots: seq<nat>, t: nat, i: nat): int
    requires slots != [] && slots[0] <= t
  {
    SlotsOf(i, slots[0], t) - ProducedBy(slots, i)
  }

  lemma SlotsGrow(i: nat, a: nat, b: nat, c: nat)
    requires a <= b <= c
    ensures SlotsOf(i, a, b) <= SlotsOf(i, a, c)
    decreases c - b
  {
    if b < c {
      SlotsGrow(i, a, b, c - 1);
    }
  }

  /** Nobody makes more blocks than it was handed slots. */
  lemma {:induction false} MadeInSlots(slots: seq<nat>, t: nat, i: nat)
    requires slots != [] && Rising(slots) && forall j | 0 <= j < |slots| :: slots[j] < t
    ensures 0 <= Missed(slots, t, i)
  {
    var last := |slots| - 1;
    SlotsGrow(i, slots[0], slots[last] + 1, t);
    if last > 0 {
      MadeInSlots(slots[..last], slots[last], i);
    } else {
      assert SlotsOf(i, slots[0], slots[0]) == 0 && ProducedBy(slots[..0], i) == 0;
    }
  }

  lemma {:induction false} SomeSlotOf(slots: seq<nat>, i: nat)
    requires ProducedBy(slots, i) > 0
    ensures exists j :: 0 <= j < |slots| && slots[j] % NUM_OF_TOP_BPS == i
  {
    var k := |slots| - 1;
    if slots[k] % NUM_OF_TOP_BPS != i {
      SomeSlotOf(slots[..k], i);
      var j :| 0 <= j < k && slots[..k][j] % NUM_OF_TOP_BPS == i;
      assert slots[j] % NUM_OF_TOP_BPS == i;
    }
  }

  /** The indices of a round that closes inside its schedule are those of its first and its closing slot, and the
      producer of the closing slot made a block in the round. */
  lemma ClosingIndices(c: Chain, slots: seq<nat>, b: Block, t: nat, cfg: Config)
    requires ChainOk(c) && Tracks(c, slots) && c.w.blockReward.Some?
    requires NextBlock(c.w, c.version, c.height, b) && b.version == c.version && InSlot(slots, b, t)
    requires ClosesRound(c.w, b)
    ensures ClosedVersion(c.w, b) == c.version
    ensures var r := RoundOf(c.w, b, cfg);
      !r.isChangeSch && r.ifirst == slots[0] % NUM_OF_TOP_BPS && r.ilast == t % NUM_OF_TOP_BPS
    ensures ProducedBy(slots, t % NUM_OF_TOP_BPS) == 1
  {
    hide PoolOk;
    ClosedIsThere(c.w, c.version, c.height, b);
    var sch := c.w.schedules[c.version];
    NameAt(sch, b.producers, t % NUM_OF_TOP_BPS, b.bp);
    assert Names(sch)[slots[0] % NUM_OF_TOP_BPS] == sch[slots[0] % NUM_OF_TOP_BPS].name;
    NameAt(sch, b.producers, slots[0] % NUM_OF_TOP_BPS, c.w.blockReward.value.lastStandardBp);
    assert Credit(sch[t % NUM_OF_TOP_BPS], c.w.monitors) == 1;
  }

  /** Such a round spans at least one full rotation. */
  lemma ClosingSpan(slots: seq<nat>, t: nat)
    requires slots != [] && Rising(slots) && ProducedBy(slots, t % NUM_OF_TOP_BPS) > 0
    requires forall i | 0 <= i < |slots| :: slots[i] < t
    ensures slots[0] + NUM_OF_TOP_BPS <= t
  {
    SomeSlotOf(slots, t % NUM_OF_TOP_BPS);
    var j :| 0 <= j < |slots| && slots[j] % NUM_OF_TOP_BPS == t % NUM_OF_TOP_BPS;
    SameIndexApart(slots[j], t);
    assert j > 0 ==> slots[0] < slots[j];
  }

  lemma ClosingSlots(c: Chain, slots: seq<nat>, b: Block, t: nat, cfg: Config)
    requires ChainOk(c) && Tracks(c, slots) && c.w.blockReward.Some?
    requires NextBlock(c.w, c.version, c.height, b) && b.version == c.version && InSlot(slots, b, t)
    requires ClosesRound(c.w, b)
    ensures ClosedVersion(c.w, b) == c.version
    ensures var r := RoundOf(c.w, b, cfg);
      !r.isChangeSch && r.ifirst == slots[0] % NUM_OF_TOP_BPS && r.ilast == t % NUM_OF_TOP_BPS
    ensures slots[0] + NUM_OF_TOP_BPS <= t && ProducedBy(slots, t % NUM_OF_TOP_BPS) == 1
  {
    hide ChainOk, RoundOf, NextBlock, ClosesRound;
    ClosingIndices(c, slots, b, t, cfg);
    ClosingSpan(slots, t);
  }

  /** Inside one schedule the raw value is never negative, and a producer is drained exactly when it made no block or
      had a slot in the incomplete rotation as well. */
  lemma DrainInsideSchedule(c: Chain, slots: seq<nat>, b: Block, t: nat, cfg: Config, i: nat)
    requires ChainOk(c) && Tracks(c, slots) && c.w.blockReward.Some? && i < NUM_OF_TOP_BPS
    requires NextBlock(c.w, c.version, c.height, b) && b.version == c.version && InSlot(slots, b, t)
    requires ClosesRound(c.w, b)
    ensures ClosedVersion(c.w, b) == c.version && |c.w.schedules[c.version]| == NUM_OF_TOP_BPS && slots != [] &&
      slots[0] + NUM_OF_TOP_BPS <= t
    ensures var sch := c.w.schedules[c.version];
      var p, m := sch[i], MonitorOf(c.w.monitors, sch[i].name);
      var drain, rotations := DrainOf(RoundOf(c.w, b, cfg), i, p, m), (t - slots[0]) / NUM_OF_TOP_BPS;
      0 <= RawDrain(false, i, slots[0] % NUM_OF_TOP_BPS, t % NUM_OF_TOP_BPS, m.lastBlockNum, p.amount) &&
      drain == (if ProducedBy(slots, i) == 0 || InArc(i, slots[0] % NUM_OF_TOP_BPS, t % NUM_OF_TOP_BPS)
                then 1 else 0) &&
      ProducedBy(slots, i) <= 1 &&
      Missed(slots, t, i) == rotations - ProducedBy(slots, i)
                             + if InArc(i, slots[0] % NUM_OF_TOP_BPS, t % NUM_OF_TOP_BPS) then 1 else 0
  {
    ClosingSlots(c, slots, b, t, cfg);
    SlotsInArc(i, slots[0], t);
    assert Credit(c.w.schedules[c.version][i], c.w.monitors) == ProducedBy(slots, i);
  }

  /** What reward_block drains from the producer at index i when the block closes the round. */
  function DrainAt(c: Chain, b: Block, cfg: Config, i: nat): nat
    requires c.w.blockReward.Some? && ClosedVersion(c.w, b) in c.w.schedules
    requires i < |c.w.schedules[ClosedVersion(c.w, b)]|
  {
    var p := c.w.schedules[ClosedVersion(c.w, b)][i];
    DrainOf(RoundOf(c.w, b, cfg), i, p, MonitorOf(c.w.monitors, p.name))
  }

  /** Nobody is charged for a block it did not miss; and every producer that missed a slot is charged exactly when
      the round spans fewer than two full rotations. */
  lemma DrainRefinesTimeline(c: Chain, slots: seq<nat>, b: Block, t: nat, cfg: Config)
    requires ChainOk(c) && Tracks(c, slots) && c.w.blockReward.Some?
    requires NextBlock(c.w, c.version, c.height, b) && b.version == c.version && InSlot(slots, b, t)
    requires ClosesRound(c.w, b)
    ensures ClosedVersion(c.w, b) == c.version && |c.w.schedules[c.version]| == NUM_OF_TOP_BPS && slots != [] &&
      slots[0] + NUM_OF_TOP_BPS <= t
    ensures forall i: nat | i < NUM_OF_TOP_BPS :: DrainAt(c, b, cfg, i) in {0, 1}
    ensures forall i: nat | i < NUM_OF_TOP_BPS :: DrainAt(c, b, cfg, i) == 1 ==> Missed(slots, t, i) >= 1
    ensures (forall i: nat | i < NUM_OF_TOP_BPS :: DrainAt(c, b, cfg, i) == 1 <==> Missed(slots, t, i) >= 1) <==>
      t - slots[0] < 2 * NUM_OF_TOP_BPS
  {
    ClosingSlots(c, slots, b, t, cfg);
    hide ChainOk, Tracks, NextBlock, InSlot, ClosesRound, RoundOf, DrainOf, Missed;
    forall i: nat | i < NUM_OF_TOP_BPS
      ensures |c.w.schedules[c.version]| == NUM_OF_TOP_BPS
      ensures DrainAt(c, b, cfg, i) ==
              if ProducedBy(slots, i) == 0 || InArc(i, slots[0] % NUM_OF_TOP_BPS, t % NUM_OF_TOP_BPS) then 1 else 0
      ensures ProducedBy(slots, i) <= 1
      ensures Missed(slots, t, i) ==
              (t - slots[0]) / NUM_OF_TOP_BPS - ProducedBy(slots, i)
              + if InArc(i, slots[0] % NUM_OF_TOP_BPS, t % NUM_OF_TOP_BPS) then 1 else 0
    {
      DrainInsideSchedule(c, slots, b, t, cfg, i);
    }
    var i := t % NUM_OF_TOP_BPS;
    assert DrainAt(c, b, cfg, i) == 0 && Missed(slots, t, i) == (t - slots[0]) / NUM_OF_TOP_BPS - 1;
  }

  // ---- rounds closed by a change of schedule ----

  /** The cut the comments describe: nothing below 0, nothing above 1. */
  function IntendedDrain(raw: int): nat {
    if raw < 0 then 0 else if raw > BP_CYCLE_BLOCK_OUT then 1 else raw
  }

  /** In a round closed by a schedule change that starts and ends at different indices, a producer inside the arc is
      drained when it made no block, but one outside the arc is drained exactly when it did make its block. */
  lemma DrainOnChange(c: Chain, b: Block, cfg: Config, i: nat)
    requires ChainOk(c) && c.w.blockReward.Some? && i < NUM_OF_TOP_BPS
    requires NextBlock(c.w, c.version, c.height, b) && b.version == c.version + 1
    ensures ClosedVersion(c.w, b) == c.version && |c.w.schedules[c.version]| == NUM_OF_TOP_BPS
    ensures var r, sch := RoundOf(c.w, b, cfg), c.w.schedules[c.version];
      var made := Credit(sch[i], c.w.monitors);
      made in {0, 1} && r.isChangeSch &&
      DrainAt(c, b, cfg, i) == if r.ifirst == r.ilast || InArc(i, r.ifirst, r.ilast) then 1 - made else made
  {
    hide PoolOk;
    ClosedIsThere(c.w, c.version, c.height, b);
  }

  /** The unsigned comparison departs from the intended cut exactly for a negative raw value, and with credits of 0 or
      1 that means: the schedule changed, the arc is not empty, and a producer outside it made its block. */
  lemma CutIsIntended(isChangeSch: bool, i: int, ifirst: int, ilast: int, pre: int, current: int)
    requires current - pre in {0, 1}
    ensures DrainNum(isChangeSch, i, ifirst, ilast, pre, current) ==
            IntendedDrain(RawDrain(isChangeSch, i, ifirst, ilast, pre, current))
            <==> !(isChangeSch && ifirst != ilast && !InArc(i, ifirst, ilast) && current - pre == 1)
  {
  }

  /** The side of the arc on which a producer without a block is drained: all of them when the arc is empty. */
  predicate OnChargedSide(r: Round, i: nat) {
    r.ifirst == r.ilast || InArc(i, r.ifirst, r.ilast)
  }

  /** Whom a schedule change charges although it missed nothing: inside the arc those handed no slot at all, outside it
      those that were handed one and made its block. */
  predicate ChargedUnduly(c: Chain, slots: seq<nat>, b: Block, t: nat, cfg: Config, i: nat)
    requires c.w.blockReward.Some? && ClosedVersion(c.w, b) in c.w.schedules
    requires i < |c.w.schedules[ClosedVersion(c.w, b)]| && slots != [] && slots[0] <= t
  {
    ChangesSchedule(c.w, b) &&
    if OnChargedSide(RoundOf(c.w, b, cfg), i) then SlotsOf(i, slots[0], t) == 0
    else Credit(c.w.schedules[ClosedVersion(c.w, b)][i], c.w.monitors) == 1 && SlotsOf(i, slots[0], t) == 1
  }

  /** Whom it lets off although it missed a slot: inside the arc those that also made a block, outside it those that
      made none. */
  predicate LetOff(c: Chain, slots: seq<nat>, b: Block, t: nat, cfg: Config, i: nat)
    requires c.w.blockReward.Some? && ClosedVersion(c.w, b) in c.w.schedules
    requires i < |c.w.schedules[ClosedVersion(c.w, b)]| && slots != [] && slots[0] <= t
  {
    var made := Credit(c.w.schedules[ClosedVersion(c.w, b)][i], c.w.monitors);
    if OnChargedSide(RoundOf(c.w, b, cfg), i) then made == 1 && SlotsOf(i, slots[0], t) >= 2
    else made == 0 && SlotsOf(i, slots[0], t) >= 1
  }

  /** Rounds closed by a schedule change, exactly: who is drained without having missed a slot, and who missed one
      without being drained. The slots of such a round are those up to the new schedule's first block. */
  lemma ChangeRound(c: Chain, slots: seq<nat>, b: Block, t: nat, cfg: Config, i: nat)
    requires ChainOk(c) && Tracks(c, slots) && c.w.blockReward.Some? && i < NUM_OF_TOP_BPS
    requires NextBlock(c.w, c.version, c.height, b) && b.version == c.version + 1 && InSlot(slots, b, t)
    ensures ClosedVersion(c.w, b) == c.version && |c.w.schedules[c.version]| == NUM_OF_TOP_BPS && slots != [] &&
      slots[0] < t
    ensures RoundOf(c.w, b, cfg).ifirst == slots[0] % NUM_OF_TOP_BPS
    ensures DrainAt(c, b, cfg, i) in {0, 1} && 0 <= Missed(slots, t, i)
    ensures DrainAt(c, b, cfg, i) == 1 && Missed(slots, t, i) == 0 <==> ChargedUnduly(c, slots, b, t, cfg, i)
    ensures DrainAt(c, b, cfg, i) == 0 && Missed(slots, t, i) >= 1 <==> LetOff(c, slots, b, t, cfg, i)
  {
    DrainOnChange(c, b, cfg, i);
    MadeInSlots(slots, t, i);
    ChangeIndices(c, slots, b, cfg);
    assert Credit(c.w.schedules[c.version][i], c.w.monitors) == ProducedBy(slots, i);
  }

  lemma ChangeIndices(c: Chain, slots: seq<nat>, b: Block, cfg: Config)
    requires ChainOk(c) && Tracks(c, slots) && c.w.blockReward.Some?
    requires NextBlock(c.w, c.version, c.height, b) && b.version == c.version + 1
    ensures ClosedVersion(c.w, b) == c.version && RoundOf(c.w, b, cfg).ifirst == slots[0] % NUM_OF_TOP_BPS
    ensures ChangesSchedule(c.w, b)
  {
    hide PoolOk;
    ClosedIsThere(c.w, c.version, c.height, b);
    FindIs(c.w.schedules[c.version], slots[0] % NUM_OF_TOP_BPS);
  }

  // ---- the fines ----

  /** Every deduction sent to the pledge contract is one block's fine, from a producer that missed a slot unless it is
      one of those a schedule change charges unduly. */
  lemma FinesAreDeserved(c: Chain, slots: seq<nat>, b: Block, t: nat, cfg: Config, f: Fine)
    requires ChainOk(c) && Tracks(c, slots) && c.w.blockReward.Some?
    requires NextBlock(c.w, c.version, c.height, b) && InSlot(slots, b, t) && ClosesRound(c.w, b)
    requires ClosedVersion(c.w, b) == c.version && c.version in c.w.schedules
    requires f in FinesUpTo(RoundOf(c.w, b, cfg), c.w.schedules[c.version], c.w.monitors, |c.w.schedules[c.version]|)
    ensures f.quantity == DRAIN_BLOCK_PUNISH && f.bp in b.pledges
    ensures slots != [] && slots[0] <= t && |c.w.schedules[c.version]| == NUM_OF_TOP_BPS &&
            exists i: nat :: i < NUM_OF_TOP_BPS && c.w.schedules[c.version][i].name == f.bp &&
                             DrainAt(c, b, cfg, i) == 1 &&
                             (Missed(slots, t, i) >= 1 <==> !ChargedUnduly(c, slots, b, t, cfg, i))
  {
    hide FinesUpTo, DrainNum, NextBlock, ChainOk, Tracks, InSlot, Missed, ChargedUnduly, RoundOf, ClosesRound;
    VersionsOfNext(c, slots, b);
    var sch, r := c.w.schedules[c.version], RoundOf(c.w, b, cfg);
    assert r.pledges == b.pledges by { RoundPledges(c.w, b, cfg); }
    FineComesFromDrain(r, sch, c.w.monitors, |sch|, f);
    var i: nat :| i < |sch| && sch[i].name == f.bp && f.bp in r.pledges &&
                  var drain := DrainOf(r, i, sch[i], MonitorOf(c.w.monitors, sch[i].name));
                  drain > 0 && f.quantity == drain * DRAIN_BLOCK_PUNISH;
    DrainIsDue(c, slots, b, t, cfg, i);
  }

  lemma RoundPledges(w: Watch, b: Block, cfg: Config)
    requires w.blockReward.Some? && ClosedVersion(w, b) in w.schedules
    ensures RoundOf(w, b, cfg).pledges == b.pledges
  {
  }

  /** A drained producer missed a slot, unless it is charged unduly. */
  lemma DrainIsDue(c: Chain, slots: seq<nat>, b: Block, t: nat, cfg: Config, i: nat)
    requires ChainOk(c) && Tracks(c, slots) && c.w.blockReward.Some? && i < NUM_OF_TOP_BPS
    requires NextBlock(c.w, c.version, c.height, b) && InSlot(slots, b, t) && ClosesRound(c.w, b)
    ensures ClosedVersion(c.w, b) == c.version && |c.w.schedules[c.version]| == NUM_OF_TOP_BPS && slots != [] &&
      slots[0] <= t
    ensures DrainAt(c, b, cfg, i) in {0, 1}
    ensures DrainAt(c, b, cfg, i) == 1 ==> (Missed(slots, t, i) >= 1 <==> !ChargedUnduly(c, slots, b, t, cfg, i))
  {
    hide NextBlock, ChainOk, Tracks, InSlot, Missed, ChargedUnduly, RoundOf, ClosesRound, DrainOf, LetOff;
    VersionsOfNext(c, slots, b);
    if b.version == c.version {
      DrainRefinesTimeline(c, slots, b, t, cfg);
      NothingUndueInside(c, slots, b, t, cfg, i);
    } else {
      ChangeRound(c, slots, b, t, cfg, i);
    }
  }

  lemma VersionsOfNext(c: Chain, slots: seq<nat>, b: Block)
    requires ChainOk(c) && NextBlock(c.w, c.version, c.height, b)
    ensures b.version == c.version || b.version == c.version + 1
    ensures c.version in c.w.schedules && |c.w.schedules[c.version]| == NUM_OF_TOP_BPS &&
      Distinct(Names(c.w.schedules[c.version]))
    ensures b.version == c.version ==> b.version in c.w.schedules && ClosedVersion(c.w, b) == c.version
    ensures c.w.blockReward.Some? && Tracks(c, slots) ==> slots != []
  {
  }

  lemma NothingUndueInside(c: Chain, slots: seq<nat>, b: Block, t: nat, cfg: Config, i: nat)
    requires c.w.blockReward.Some? && b.version in c.w.schedules && slots != [] && slots[0] <= t
    requires i < |c.w.schedules[b.version]|
    ensures !ChargedUnduly(c, slots, b, t, cfg, i)
  {
  }

  /** And every producer that is drained and has a pledge row is sent one. */
  lemma {:induction false} DrainGivesFine(r: Round, sch: Schedule, monitors: map<Name, Monitor>, n: nat, i: nat)
    requires i < n <= |sch| && Distinct(Names(sch)) && sch[i].name in r.pledges
    requires DrainOf(r, i, sch[i], MonitorOf(monitors, sch[i].name)) > 0
    ensures var drain := DrainOf(r, i, sch[i], MonitorOf(monitors, sch[i].name));
      Fine(sch[i].name, drain * DRAIN_BLOCK_PUNISH) in FinesUpTo(r, sch, monitors, n)
  {
    hide DrainOf, Settled;
    if i < n - 1 {
      DrainGivesFine(r, sch, monitors, n - 1, i);
    } else {
      SettleRows(r, sch, monitors, n - 1);
      forall j | 0 <= j < n - 1 ensures sch[j].name != sch[n - 1].name {
        assert Names(sch)[j] == sch[j].name && Names(sch)[n - 1] == sch[n - 1].name;
      }
    }
  }

  lemma {:induction false} FineComesFromDrain(r: Round, sch: Schedule, monitors: map<Name, Monitor>, n: nat, f: Fine)
    requires n <= |sch| && Distinct(Names(sch)) && f in FinesUpTo(r, sch, monitors, n)
    ensures exists i: nat :: i < n && sch[i].name == f.bp && f.bp in r.pledges &&
                             var drain := DrainOf(r, i, sch[i], MonitorOf(monitors, sch[i].name));
                             drain > 0 && f.quantity == drain * DRAIN_BLOCK_PUNISH
  {
    hide DrainOf, Settled;
    if n > 0 {
      if f in FinesUpTo(r, sch, monitors, n - 1) {
        FineComesFromDrain(r, sch, monitors, n - 1, f);
      } else {
        SettleRows(r, sch, monitors, n - 1);
        forall i | 0 <= i < n - 1 ensures sch[i].name != sch[n - 1].name {
          assert Names(sch)[i] == sch[i].name && Names(sch)[n - 1] == sch[n - 1].name;
        }
        assert sch[n - 1].name == f.bp;
      }
    }
  }
}
