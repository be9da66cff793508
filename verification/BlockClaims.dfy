/** The block share of bpclaim: when its check passes, and what several claims in one block leave to the others. */
module BlockClaims {
  import opened Base
  import opened Totals
  import opened BlockRounds
  import opened BlockCredits
  import opened WatchRuns
  import L = VoteLedger
  import V = VoteClaims

  /** Some other monitored producer still has block age. */
  predicate OthersHaveAge(w: Watch, bp: Name) {
    exists n :: n in w.monitors && n != bp && 0 < w.monitors[n].blockAge
  }

  lemma BlockShareIsShare(w: Watch, bp: Name)
    requires HasBlockShare(w, bp) && 0 < w.blockReward.value.totalBlockAge
    ensures var row := w.blockReward.value;
      BlockShare(w, bp) == L.Share(row.rewardBlockOut, w.monitors[bp].blockAge, row.totalBlockAge)
  {
    assert w.monitors[bp].blockAge * w.blockReward.value.rewardBlockOut ==
           w.blockReward.value.rewardBlockOut * w.monitors[bp].blockAge;
  }

  /** A part of the age is worth less than the whole pool exactly if it is less than all of the age, and there is a
      pool. */
  lemma PartIsLess(pool: int, age: int, total: int)
    requires 0 <= pool && 0 <= age <= total && 0 < total
    ensures 0 <= L.Share(pool, age, total) <= pool
    ensures L.Share(pool, age, total) < pool <==> age < total && 0 < pool
  {
    V.ShareIsPart(pool, age, total);
    if age == total {
      WholeShare(pool, total);
    } else if 0 < pool {
      StrictShare(pool, age, total);
    }
  }

  lemma WholeShare(pool: int, total: int)
    requires 0 <= pool && 0 < total
    ensures L.Share(pool, total, total) == pool
  {
    NonNegativeProduct(pool, total);
    FloorBound(pool * total, total);
    assert (pool + 1) * total == pool * total + total;
    CancelLe((pool * total) / total, pool, total);
    CancelLt(pool, (pool * total) / total + 1, total);
  }

  lemma StrictShare(pool: int, age: int, total: int)
    requires 0 < pool && 0 <= age < total
    ensures L.Share(pool, age, total) < pool
  {
    V.ShareIsPart(pool, age, total);
    var r := L.Share(pool, age, total);
    hide L.Share;
    assert pool * age < pool * total by { ScaleLe(age + 1, total, pool); }
    CancelLt(r, pool, total);
  }

  // ---- who holds the age ----

  lemma AgesAreParts(w: Watch, p: Payouts, bp: Name)
    requires PoolOk(w, p) && HasBlockShare(w, bp)
    ensures 0 <= w.monitors[bp].blockAge <= w.blockReward.value.totalBlockAge
    ensures w.monitors[bp].blockAge < w.blockReward.value.totalBlockAge <==> OthersHaveAge(w, bp)
  {
    hide Total;
    TotalNonNegative(w.monitors, BlockAges());
    assert BlockAges()(bp, w.monitors[bp]) <= Total(w.monitors, BlockAges());
    TotalRemove(w.monitors, BlockAges(), bp);
    var others := w.monitors - {bp};
    TotalNonNegative(others, BlockAges());
    if !OthersHaveAge(w, bp) {
      forall n | n in others ensures BlockAges()(n, others[n]) == 0 {
        assert n in w.monitors && w.monitors[n] == others[n];
      }
      TotalZero(others, BlockAges());
    } else {
      var n :| n in w.monitors && n != bp && 0 < w.monitors[n].blockAge;
      assert others[n] == w.monitors[n] && BlockAges()(n, others[n]) <= Total(others, BlockAges());
    }
  }

  /** The check of bpclaim on a monitored producer passes if and only if the pool is not empty and the producer does not
      hold all the block age, that is, if some other producer has any; and then the share is not negative. */
  lemma ShareCheck(w: Watch, p: Payouts, bp: Name)
    requires PoolOk(w, p) && HasBlockShare(w, bp)
    ensures var row := w.blockReward.value;
      CanClaimShare(w, bp) <==> w.monitors[bp].blockAge < row.totalBlockAge && 0 < row.rewardBlockOut
    ensures CanClaimShare(w, bp) <==> OthersHaveAge(w, bp) && 0 < w.blockReward.value.rewardBlockOut
    ensures CanClaimShare(w, bp) ==> 0 <= BlockShare(w, bp) < w.blockReward.value.rewardBlockOut
  {
    var row := w.blockReward.value;
    AgesAreParts(w, p, bp);
    if 0 < row.totalBlockAge {
      BlockShareIsShare(w, bp);
      PartIsLess(row.rewardBlockOut, w.monitors[bp].blockAge, row.totalBlockAge);
    }
  }

  /** A claim moves the floored part of the pool that the producer's age is of all the age: out of the pool, and its age
      out of all the age. Nothing else changes. */
  lemma ShareMoves(w: Watch, p: Payouts, bp: Name)
    requires PoolOk(w, p) && HasBlockShare(w, bp) && CanClaimShare(w, bp)
    ensures var w', row, age := AfterClaimShare(w, bp), w.blockReward.value, w.monitors[bp].blockAge;
      0 < row.totalBlockAge && 0 <= age &&
      var paid := (row.rewardBlockOut * age) / row.totalBlockAge;
      0 <= paid < row.rewardBlockOut && BlockShare(w, bp) == paid &&
      w'.blockReward == Some(row.(totalBlockAge := row.totalBlockAge - age,
                                  rewardBlockOut := row.rewardBlockOut - paid)) &&
      w'.monitors == w.monitors[bp := w.monitors[bp].(blockAge := 0)] &&
      w' == w.(monitors := w'.monitors, blockReward := w'.blockReward)
  {
    AgesAreParts(w, p, bp);
    ShareCheck(w, p, bp);
    BlockShareIsShare(w, bp);
    hide BlockShare, CanClaimShare;
    NonNegativeProduct(w.blockReward.value.rewardBlockOut, w.monitors[bp].blockAge);
  }

  /** In every run: a monitored producer can be paid by bpclaim, its own rewards included, only if the pool is not empty
      and some other producer has block age left; and if both hold only its signature, its account and the least amount
      are asked for. */
  lemma ClaimCheckInRuns(cs: seq<Chain>, es: seq<Event>, cfg: Config, k: nat, bp: Name, s: L.Ledger, x: L.Context)
    requires Trace(cs, es, cfg) && k < |cs| && HasBlockShare(cs[k].w, bp)
    ensures var w := cs[k].w;
      (CanClaimShare(w, bp) <==> OthersHaveAge(w, bp) && 0 < w.blockReward.value.rewardBlockOut) &&
      (CanClaimShare(w, bp) && L.CanPayBp(s, x, bp, BlockShare(w, bp)) <==>
         OthersHaveAge(w, bp) && 0 < w.blockReward.value.rewardBlockOut && x.signer == bp && bp in s.available &&
         L.MIN_CLAIM_BP < L.OwedTo(s, bp) + BlockShare(w, bp))
  {
    TraceKeeps(cs, es, cfg, k);
    ShareCheck(cs[k].w, cs[k].p, bp);
  }

  // ---- several claims in one block ----

  /** A claim whose check fails changes nothing. */
  function NextShare(w: Watch, bp: Name): Watch {
    if CanClaimShare(w, bp) then AfterClaimShare(w, bp) else w
  }

  function PaidBy(w: Watch, bp: Name): int {
    if CanClaimShare(w, bp) then BlockShare(w, bp) else 0
  }

  /** The tables after the producers claimed one after the other. */
  function AfterShares(w: Watch, bps: seq<Name>): Watch
    decreases |bps|
  {
    if bps == [] then w else AfterShares(NextShare(w, bps[0]), bps[1..])
  }

  function PaidShares(w: Watch, bps: seq<Name>): int
    decreases |bps|
  {
    if bps == [] then 0 else PaidBy(w, bps[0]) + PaidShares(NextShare(w, bps[0]), bps[1..])
  }

  /** How far such claims have come: the pool shrank but not to nothing, and its rate per age did not fall. */
  ghost predicate FairPool(w0: Watch, w: Watch) {
    w0.blockReward.Some? && w.blockReward.Some? &&
    var row0, row := w0.blockReward.value, w.blockReward.value;
    0 < row0.totalBlockAge && 0 <= row.rewardBlockOut <= row0.rewardBlockOut &&
    (0 < row0.rewardBlockOut ==> 0 < row.rewardBlockOut) &&
    row.rewardBlockOut * row0.totalBlockAge >= row0.rewardBlockOut * row.totalBlockAge
  }

  ghost function PaidOn(p: Payouts, w: Watch, bp: Name): Payouts {
    p.(paid := p.paid + PaidBy(w, bp))
  }

  lemma OneShare(w0: Watch, w: Watch, p: Payouts, bp: Name)
    requires PoolOk(w, p) && FairPool(w0, w)
    ensures var w' := NextShare(w, bp);
      PoolOk(w', PaidOn(p, w, bp)) && FairPool(w0, w') && w'.monitors.Keys == w.monitors.Keys &&
      w'.blockReward.value.rewardBlockOut == w.blockReward.value.rewardBlockOut - PaidBy(w, bp) &&
      (forall n | n in w.monitors && n != bp :: w'.monitors[n] == w.monitors[n])
  {
    if CanClaimShare(w, bp) && HasBlockShare(w, bp) {
      ClaimShareKeepsPool(w, p, bp);
      ShareCheck(w, p, bp);
      AgesAreParts(w, p, bp);
      BlockShareIsShare(w, bp);
      var row0, row := w0.blockReward.value, w.blockReward.value;
      hide PoolOk, L.Share;
      V.RateDoesNotFall(row.rewardBlockOut, w.monitors[bp].blockAge, row.totalBlockAge,
                        row0.rewardBlockOut, row0.totalBlockAge);
    }
  }

  lemma {:induction false} SharesStayFair(w0: Watch, w: Watch, p: Payouts, bps: seq<Name>)
    requires PoolOk(w, p) && FairPool(w0, w)
    ensures var w' := AfterShares(w, bps);
      PoolOk(w', p.(paid := p.paid + PaidShares(w, bps))) && FairPool(w0, w') && w'.monitors.Keys == w.monitors.Keys &&
      w'.blockReward.value.rewardBlockOut == w.blockReward.value.rewardBlockOut - PaidShares(w, bps) &&
      (forall n | n in w.monitors && n !in bps :: w'.monitors[n] == w.monitors[n])
    decreases |bps|
  {
    hide PoolOk, FairPool, NextShare, PaidBy;
    if bps != [] {
      FairHasRow(w0, w);
      OneShare(w0, w, p, bps[0]);
      SharesStayFair(w0, NextShare(w, bps[0]), PaidOn(p, w, bps[0]), bps[1..]);
    } else {
      FairHasRow(w0, w);
    }
  }

  lemma FairHasRow(w0: Watch, w: Watch)
    requires FairPool(w0, w)
    ensures w0.blockReward.Some? && w.blockReward.Some?
  {
  }

  /** Any number of claims in one block: together they stay within the pool, and a producer that has not claimed yet, if
      others have age left, gets at least the share it would have got by going first. If it is the last to hold age its
      claim is refused. */
  lemma SameBlockShares(w: Watch, p: Payouts, bps: seq<Name>, bp: Name)
    requires PoolOk(w, p) && HasBlockShare(w, bp) && 0 < w.blockReward.value.totalBlockAge && bp !in bps
    requires 0 < w.blockReward.value.rewardBlockOut
    ensures 0 <= PaidShares(w, bps) < w.blockReward.value.rewardBlockOut
    ensures var w' := AfterShares(w, bps);
      HasBlockShare(w', bp) && w'.monitors[bp].blockAge == w.monitors[bp].blockAge &&
      (CanClaimShare(w', bp) <==> OthersHaveAge(w', bp)) &&
      (CanClaimShare(w', bp) ==> BlockShare(w', bp) >= BlockShare(w, bp))
  {
    var w' := AfterShares(w, bps);
    SharesStayFair(w, w, p, bps);
    hide AfterShares, PaidShares;
    var p' := p.(paid := p.paid + PaidShares(w, bps));
    assert HasBlockShare(w', bp) && w'.monitors[bp] == w.monitors[bp];
    ShareCheck(w', p', bp);
    AgesAreParts(w, p, bp);
    if CanClaimShare(w', bp) {
      BlockShareIsShare(w, bp);
      BlockShareIsShare(w', bp);
      hide PoolOk, L.Share, CanClaimShare;
      var row0, row := w.blockReward.value, w'.blockReward.value;
      V.ShareAtBetterRate(row.rewardBlockOut, row.totalBlockAge, row0.rewardBlockOut, row0.totalBlockAge,
                          w.monitors[bp].blockAge);
    }
  }

  /** The same in every state a run reaches. */
  lemma FairSharesInRuns(cs: seq<Chain>, es: seq<Event>, cfg: Config, k: nat, bps: seq<Name>, bp: Name)
    requires Trace(cs, es, cfg) && k < |cs| && HasBlockShare(cs[k].w, bp) && bp !in bps
    requires 0 < cs[k].w.blockReward.value.totalBlockAge && 0 < cs[k].w.blockReward.value.rewardBlockOut
    ensures 0 <= PaidShares(cs[k].w, bps) < cs[k].w.blockReward.value.rewardBlockOut
    ensures var w' := AfterShares(cs[k].w, bps);
      HasBlockShare(w', bp) && (CanClaimShare(w', bp) <==> OthersHaveAge(w', bp)) &&
      (CanClaimShare(w', bp) ==> BlockShare(w', bp) >= BlockShare(cs[k].w, bp))
  {
    TraceKeeps(cs, es, cfg, k);
    SameBlockShares(cs[k].w, cs[k].p, bps, bp);
  }
}
