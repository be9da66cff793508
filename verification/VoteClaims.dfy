/** claim pays out of a producer's pool in proportion to age: it never overpays, and it is fair within a block. */
module VoteClaims {
  import opened Base
  import opened Totals
  import opened StakeAge
  import opened VoteLedger
  import opened VoteAges
  import opened VoteRuns

  /** What a voter can claim is part of the producer's age. */
  lemma ClaimedAgeIsPart(s: Ledger, o: Overdue, h: nat, voter: Name, bp: Name)
    requires Inv(s, o, h) && bp in s.bps
    ensures 0 <= ClaimedAge(s, voter, bp, h) <= s.bps[bp].GetAge(h)
  {
    hide Total, TableOk, NoneNegative, BpsOk;
    AgeAtHeight(s, o, h, h, bp);
    VoteAgesAt(s.bps.Keys, s.votes, h, h, bp);
    forall k | k in s.fixvotes
      ensures 0 <= FixAgeClaimed(voter, bp, h)(k, s.fixvotes[k]) <= FixAgeOn(bp, h)(k, s.fixvotes[k])
    {
      FixAgeAt(s.fixvotes[k], h, h);
    }
    TotalNonNegative(s.fixvotes, FixAgeClaimed(voter, bp, h));
    TotalMono(s.fixvotes, FixAgeClaimed(voter, bp, h), FixAgeOn(bp, h));
  }

  lemma ShareIsPart(pool: int, age: int, totalAge: int)
    requires 0 <= pool && 0 <= age <= totalAge && 0 < totalAge
    ensures 0 <= Share(pool, age, totalAge) <= pool
    ensures Share(pool, age, totalAge) * totalAge <= pool * age
  {
    NonNegativeProduct(pool, age);
    ScaleLe(age, totalAge, pool);
    FloorBound(pool * age, totalAge);
    CancelLe((pool * age) / totalAge, pool, totalAge);
  }

  /** The final range check of claim cannot fail: a claim goes through exactly when the voter signed it, both
      accounts are known and the producer has any age at all. Neither the pool nor the age goes below zero. */
  lemma ClaimNeverOverpays(s: Ledger, o: Overdue, c: Context, voter: Name, bp: Name)
    requires Inv(s, o, c.height)
    ensures CanClaim(s, c, voter, bp) <==>
            c.signer == voter && voter in s.available && bp in s.bps && 0 < s.bps[bp].GetAge(c.height)
    ensures CanClaim(s, c, voter, bp) ==>
            var s' := AfterClaim(s, voter, bp, c.height);
            0 <= s'.bps[bp].rewardsPool <= s.bps[bp].rewardsPool && 0 <= s'.bps[bp].totalVoteage &&
            s'.available[voter] - s.available[voter] == s.bps[bp].rewardsPool - s'.bps[bp].rewardsPool
  {
    hide Total, ClaimedAge, TableOk, FixesOk, NoneNegative, Balanced;
    if bp in s.bps && 0 < s.bps[bp].GetAge(c.height) {
      ClaimedAgeIsPart(s, o, c.height, voter, bp);
      assert BpOk(s.bps[bp], c.height);
      ShareIsPart(s.bps[bp].rewardsPool, ClaimedAge(s, voter, bp, c.height), s.bps[bp].GetAge(c.height));
      hide Share;
    }
  }

  // ---- several claims in one block ----

  /** The state after the given voters claimed from bp at height h, one after the other. */
  ghost function AfterClaims(s: Ledger, bp: Name, h: nat, voters: seq<Name>): Ledger
    decreases |voters|
  {
    if voters == [] then s
    else AfterClaims(Next(s, Context(h, voters[0], {}), Claim(voters[0], bp)), bp, h, voters[1..])
  }

  /** What the claims paid, together. */
  ghost function PaidOut(s: Ledger, bp: Name, h: nat, voters: seq<Name>): int
    decreases |voters|
  {
    if voters == [] then 0
    else
      var s' := Next(s, Context(h, voters[0], {}), Claim(voters[0], bp));
      (if voters[0] in s.available then s'.available[voters[0]] - s.available[voters[0]] else 0)
      + PaidOut(s', bp, h, voters[1..])
  }

  /** Another voter's claim leaves what this voter can claim as it was. */
  lemma OthersKeepTheirAge(s: Ledger, h: nat, claimant: Name, bp: Name, voter: Name)
    requires claimant in s.available && bp in s.bps && 0 < s.bps[bp].GetAge(h) && claimant != voter
    ensures ClaimedAge(AfterClaim(s, claimant, bp, h), voter, bp, h) == ClaimedAge(s, voter, bp, h)
  {
    hide Total, Share;
    var fix' := FixAfterClaim(s.fixvotes, claimant, bp, h);
    TotalKept(s.fixvotes, fix', FixAgeClaimed(voter, bp, h));
  }

  /** The pool loses no more than its part: what is left per unit of age does not fall. */
  lemma RateDoesNotFall(pool: int, age: int, total: int, pool0: int, total0: int)
    requires 0 <= pool && 0 <= age <= total && 0 < total && 0 < total0
    requires pool * total0 >= pool0 * total
    ensures (pool - Share(pool, age, total)) * total0 >= pool0 * (total - age)
  {
    ShareIsPart(pool, age, total);
    var left := pool - Share(pool, age, total);
    hide Share;
    assert left * total >= pool * (total - age) by {
      assert left * total == pool * total - Share(pool, age, total) * total;
      assert pool * (total - age) == pool * total - pool * age;
    }
    ScaleBoth(left, total, pool, total - age, total0, pool0);
  }

  lemma ScaleBoth(left: int, total: int, pool: int, rest: int, total0: int, pool0: int)
    requires 0 < total && 0 < total0 && 0 <= rest
    requires left * total >= pool * rest && pool * total0 >= pool0 * total
    ensures left * total0 >= pool0 * rest
  {
    assert (left * total) * total0 >= (pool * rest) * total0;
    assert (pool * total0) * rest >= (pool0 * total) * rest;
    assert (left * total0) * total == (left * total) * total0;
    assert (pool * rest) * total0 == (pool * total0) * rest;
    assert (pool0 * rest) * total == (pool0 * total) * rest;
    CancelLe(pool0 * rest, left * total0, total);
  }

  /** r0 / age is at most pool0 / total0, which is at most pool / total. */
  lemma CrossRates(r0: int, age: int, pool0: int, total0: int, pool: int, total: int)
    requires 0 < total && 0 < total0 && 0 <= age
    requires r0 * total0 <= pool0 * age && pool * total0 >= pool0 * total
    ensures r0 * total <= pool * age
  {
    assert (r0 * total0) * total <= (pool0 * age) * total;
    assert (pool0 * total) * age <= (pool * total0) * age;
    assert (r0 * total) * total0 == (r0 * total0) * total;
    assert (pool0 * age) * total == (pool0 * total) * age;
    assert (pool * age) * total0 == (pool * total0) * age;
    CancelLe(r0 * total, pool * age, total0);
  }

  /** At a rate that did not fall, the same age is worth at least as much. */
  lemma ShareAtBetterRate(pool: int, total: int, pool0: int, total0: int, age: int)
    requires 0 <= pool && 0 <= pool0 && 0 < total && 0 < total0 && 0 <= age
    requires pool * total0 >= pool0 * total
    ensures Share(pool, age, total) >= Share(pool0, age, total0)
  {
    var r0, r := Share(pool0, age, total0), Share(pool, age, total);
    assert 0 <= pool0 * age && 0 <= pool * age;
    assert r0 * total0 <= pool0 * age;
    assert pool * age < (r + 1) * total;
    hide Share;
    CrossRates(r0, age, pool0, total0, pool, total);
    CancelLt(r0, r + 1, total);
  }

  /** How far same-block claims have come: the pool only shrank, its rate did not fall. */
  ghost predicate Fair(s0: Ledger, s: Ledger, bp: Name, h: nat) {
    bp in s0.bps && bp in s.bps && 0 < s0.bps[bp].GetAge(h) &&
    0 <= s.bps[bp].rewardsPool <= s0.bps[bp].rewardsPool &&
    s.bps[bp].rewardsPool * s0.bps[bp].GetAge(h) >= s0.bps[bp].rewardsPool * s.bps[bp].GetAge(h)
  }

  lemma OneClaim(s0: Ledger, s: Ledger, o: Overdue, bp: Name, h: nat, claimant: Name)
    requires Inv(s, o, h) && Fair(s0, s, bp, h)
    ensures var s' := Next(s, Context(h, claimant, {}), Claim(claimant, bp));
      Inv(s', o, h) && Fair(s0, s', bp, h) && s'.available.Keys == s.available.Keys &&
      (forall v: Name | v != claimant :: ClaimedAge(s', v, bp, h) == ClaimedAge(s, v, bp, h)) &&
      (if claimant in s.available then s'.available[claimant] - s.available[claimant] else 0) ==
        s.bps[bp].rewardsPool - s'.bps[bp].rewardsPool
  {
    hide Total, ClaimedAge, Inv;
    var c := Context(h, claimant, {});
    StepKeeps(s, o, h, c, Claim(claimant, bp));
    if CanClaim(s, c, claimant, bp) {
      ClaimNeverOverpays(s, o, c, claimant, bp);
      ClaimedAgeIsPart(s, o, h, claimant, bp);
      RateDoesNotFall(s.bps[bp].rewardsPool, ClaimedAge(s, claimant, bp, h), s.bps[bp].GetAge(h),
                      s0.bps[bp].rewardsPool, s0.bps[bp].GetAge(h));
      forall v: Name | v != claimant
        ensures ClaimedAge(AfterClaim(s, claimant, bp, h), v, bp, h) == ClaimedAge(s, v, bp, h)
      {
        OthersKeepTheirAge(s, h, claimant, bp, v);
      }
    }
  }

  lemma {:induction false} ClaimsStayFair(s0: Ledger, s: Ledger, o: Overdue, bp: Name, h: nat, voters: seq<Name>)
    requires Inv(s, o, h) && Fair(s0, s, bp, h)
    ensures var s' := AfterClaims(s, bp, h, voters);
      Inv(s', o, h) && Fair(s0, s', bp, h) && s'.available.Keys == s.available.Keys &&
      (forall v: Name | v !in voters :: ClaimedAge(s', v, bp, h) == ClaimedAge(s, v, bp, h)) &&
      PaidOut(s, bp, h, voters) == s.bps[bp].rewardsPool - s'.bps[bp].rewardsPool
    decreases |voters|
  {
    hide Total, ClaimedAge, Inv, Next, Fair;
    if voters != [] {
      OneClaim(s0, s, o, bp, h, voters[0]);
      ClaimsStayFair(s0, Next(s, Context(h, voters[0], {}), Claim(voters[0], bp)), o, bp, h, voters[1..]);
    }
  }

  /** Any number of claims in one block: together they stay within the pool, and a voter who has not claimed yet still
      gets at least the share it would have got by going first; if it has any age there, its claim goes through. */
  lemma SameBlockClaims(s: Ledger, o: Overdue, bp: Name, h: nat, voters: seq<Name>, voter: Name)
    requires Inv(s, o, h) && bp in s.bps && 0 < s.bps[bp].GetAge(h)
    requires voter in s.available && voter !in voters
    ensures 0 <= PaidOut(s, bp, h, voters) <= s.bps[bp].rewardsPool
    ensures var s', c := AfterClaims(s, bp, h, voters), Context(h, voter, {});
      (0 < ClaimedAge(s, voter, bp, h) ==> CanClaim(s', c, voter, bp)) &&
      voter in s'.available && voter in Next(s', c, Claim(voter, bp)).available &&
      Next(s', c, Claim(voter, bp)).available[voter] - s'.available[voter] >=
        Share(s.bps[bp].rewardsPool, ClaimedAge(s, voter, bp, h), s.bps[bp].GetAge(h))
  {
    hide Total, ClaimedAge, Share, TableOk, FixesOk, NoneNegative, Balanced;
    assert BpOk(s.bps[bp], h);
    ClaimsStayFair(s, s, o, bp, h, voters);
    var s', c := AfterClaims(s, bp, h, voters), Context(h, voter, {});
    ClaimedAgeIsPart(s, o, h, voter, bp);
    ClaimedAgeIsPart(s', o, h, voter, bp);
    ClaimNeverOverpays(s', o, c, voter, bp);
    if 0 < ClaimedAge(s, voter, bp, h) {
      ShareAtBetterRate(s'.bps[bp].rewardsPool, s'.bps[bp].GetAge(h), s.bps[bp].rewardsPool, s.bps[bp].GetAge(h),
                        ClaimedAge(s, voter, bp, h));
    } else {
      NoAgeNoShare(s.bps[bp].rewardsPool, s.bps[bp].GetAge(h));
    }
  }

  lemma NoAgeNoShare(pool: int, total: int)
    requires 0 < total
    ensures Share(pool, 0, total) == 0
  {
  }

  // ---- over runs ----

  /** In every reachable state: a claim goes through exactly when it is signed, the accounts are known and the producer
      has any age; it pays what leaves the pool, and leaves neither pool nor age negative. */
  lemma ClaimsInRuns(g: Ledger, run: seq<Step>, c: Context, voter: Name, bp: Name)
    requires Genesis(g) && Ordered(0, run) && HeightAfter(0, run) <= c.height
    ensures var s := Exec(g, run);
      (CanClaim(s, c, voter, bp) <==>
         c.signer == voter && voter in s.available && bp in s.bps && 0 < s.bps[bp].GetAge(c.height)) &&
      (CanClaim(s, c, voter, bp) ==>
         var s' := AfterClaim(s, voter, bp, c.height);
         0 <= s'.bps[bp].rewardsPool <= s.bps[bp].rewardsPool && 0 <= s'.bps[bp].totalVoteage &&
         s'.available[voter] - s.available[voter] == s.bps[bp].rewardsPool - s'.bps[bp].rewardsPool)
  {
    ReachableInv(g, run, c.height);
    ClaimNeverOverpays(Exec(g, run), OverdueOf(g, map[], run), c, voter, bp);
  }

  lemma ReachableInv(g: Ledger, run: seq<Step>, h: nat)
    requires Genesis(g) && Ordered(0, run) && HeightAfter(0, run) <= h
    ensures Inv(Exec(g, run), OverdueOf(g, map[], run), h)
  {
    GenesisInv(g);
    RunKeeps(g, map[], 0, run);
    hide Balanced, RowsOk, Total;
    RowsStayOk(Exec(g, run), HeightAfter(0, run), h);
  }

  /** And the claims of one block share the pool fairly in every reachable state. */
  lemma FairClaimsInRuns(g: Ledger, run: seq<Step>, bp: Name, h: nat, voters: seq<Name>, voter: Name)
    requires Genesis(g) && Ordered(0, run) && HeightAfter(0, run) <= h
    requires bp in Exec(g, run).bps && 0 < Exec(g, run).bps[bp].GetAge(h)
    requires voter in Exec(g, run).available && voter !in voters
    ensures var s := Exec(g, run); var s', c := AfterClaims(s, bp, h, voters), Context(h, voter, {});
      0 <= PaidOut(s, bp, h, voters) <= s.bps[bp].rewardsPool &&
      (0 < ClaimedAge(s, voter, bp, h) ==> CanClaim(s', c, voter, bp)) &&
      voter in s'.available && voter in Next(s', c, Claim(voter, bp)).available &&
      Next(s', c, Claim(voter, bp)).available[voter] - s'.available[voter] >=
        Share(s.bps[bp].rewardsPool, ClaimedAge(s, voter, bp, h), s.bps[bp].GetAge(h))
  {
    ReachableInv(g, run, h);
    hide Inv;
    SameBlockClaims(Exec(g, run), OverdueOf(g, map[], run), bp, h, voters, voter);
  }

  // ---- what a claim pays for ----

  function AgeOfFix(voter: Name, bp: Name, h: nat): (FixKey, FixVote) -> int {
    (k: FixKey, f: FixVote) => if k.voter == voter && f.bp == bp then f.power.GetAge(Min(h, f.withdrawAt)) else 0
  }

  /** The age the voter holds on the producer: that of its vote, if there is one, and those of all its fix-time votes
      there, capped and whether withdrawn or not. */
  ghost function AgeHeld(s: Ledger, voter: Name, bp: Name, h: nat): int {
    (if VoteKey(voter, bp) in s.votes then s.votes[VoteKey(voter, bp)].voteage.GetAge(h) else 0)
    + Total(s.fixvotes, AgeOfFix(voter, bp, h))
  }

  lemma AgeHeldIsClaimed(s: Ledger, voter: Name, bp: Name, h: nat)
    ensures AgeHeld(s, voter, bp, h) == ClaimedAge(s, voter, bp, h)
  {
    hide Total;
    TotalsAgree(s.fixvotes, AgeOfFix(voter, bp, h), FixAgeClaimed(voter, bp, h));
  }

  lemma TotalsAgree<K, V>(m: map<K, V>, w1: (K, V) -> int, w2: (K, V) -> int)
    requires forall k | k in m :: w1(k, m[k]) == w2(k, m[k])
    ensures Total(m, w1) == Total(m, w2)
  {
    TotalMono(m, w1, w2);
    TotalMono(m, w2, w1);
  }

  /** A claim pays the floored part of the pool that the age held is of the producer's age: it comes out of that pool,
      and the age out of that producer's age. Every other account and producer is as before. */
  lemma ClaimPays(s: Ledger, o: Overdue, c: Context, voter: Name, bp: Name)
    requires Inv(s, o, c.height) && Can(s, c, Claim(voter, bp))
    ensures var s', h := Next(s, c, Claim(voter, bp)), c.height;
      var age, total, pool := AgeHeld(s, voter, bp, h), s.bps[bp].GetAge(h), s.bps[bp].rewardsPool;
      0 <= age <= total && 0 < total && 0 <= pool &&
      var reward := (pool * age) / total;
      s'.available == s.available[voter := s.available[voter] + reward] &&
      s'.bps.Keys == s.bps.Keys && (forall n | n in s.bps && n != bp :: s'.bps[n] == s.bps[n]) &&
      s'.bps[bp].rewardsPool == pool - reward && s'.bps[bp].GetAge(h) == total - age &&
      s'.bps[bp].totalStaked == s.bps[bp].totalStaked && s'.bps[bp].commission == s.bps[bp].commission &&
      s'.votes4ram == s.votes4ram && s'.bpsreward == s.bpsreward && s'.gvotestat == s.gvotestat
  {
    hide Inv, ClaimedAge, AgeHeld, FixAfterClaim, VotesAfterClaim, Bp.GetAge, BpAfterClaim, Share;
    AgeHeldIsClaimed(s, voter, bp, c.height);
    ClaimedAgeIsPart(s, o, c.height, voter, bp);
    PoolIsThere(s, o, c.height, bp);
    ClaimWrites(s.bps[bp], ClaimedAge(s, voter, bp, c.height), c.height);
  }

  lemma ClaimWrites(b: Bp, age: int, h: nat)
    requires 0 <= b.rewardsPool && 0 <= age && 0 < b.GetAge(h)
    ensures Share(b.rewardsPool, age, b.GetAge(h)) == (b.rewardsPool * age) / b.GetAge(h)
    ensures forall reward ::
              var b' := BpAfterClaim(b, age, reward, h);
              b'.rewardsPool == b.rewardsPool - reward && b'.GetAge(h) == b.GetAge(h) - age &&
              b'.totalStaked == b.totalStaked && b'.commission == b.commission
  {
    NonNegativeProduct(b.rewardsPool, age);
  }

  lemma PoolIsThere(s: Ledger, o: Overdue, h: nat, bp: Name)
    requires Inv(s, o, h) && bp in s.bps
    ensures 0 <= s.bps[bp].rewardsPool
  {
    assert BpOk(s.bps[bp], h);
  }

  /** The voter's rows on that producer have no age left and are otherwise as they were, except that withdrawn fix-time
      votes are gone; no other row is touched. */
  lemma ClaimCleans(s: Ledger, c: Context, voter: Name, bp: Name)
    requires Can(s, c, Claim(voter, bp))
    ensures var s', h, key := Next(s, c, Claim(voter, bp)), c.height, VoteKey(voter, bp);
      s'.votes.Keys == s.votes.Keys && (forall k | k in s.votes && k != key :: s'.votes[k] == s.votes[k]) &&
      (key in s.votes ==>
         s'.votes[key].voteage.GetAge(h) == 0 &&
         s'.votes[key] == s.votes[key].(voteage := s.votes[key].voteage.(age := 0, updateHeight := h)))
    ensures var s', h := Next(s, c, Claim(voter, bp)), c.height;
      s'.fixvotes.Keys <= s.fixvotes.Keys &&
      (forall k | k in s.fixvotes && !(k.voter == voter && s.fixvotes[k].bp == bp) ::
         k in s'.fixvotes && s'.fixvotes[k] == s.fixvotes[k]) &&
      (forall k | k in s.fixvotes && k.voter == voter && s.fixvotes[k].bp == bp ::
         (k in s'.fixvotes <==> !s.fixvotes[k].isWithdraw) &&
         (k in s'.fixvotes ==>
            s'.fixvotes[k].GetAge(h) == 0 &&
            s'.fixvotes[k] == s.fixvotes[k].(power := s'.fixvotes[k].power) &&
            s'.fixvotes[k].power.staked == s.fixvotes[k].power.staked))
    ensures AgeHeld(Next(s, c, Claim(voter, bp)), voter, bp, c.height) == 0
  {
    hide Total, ClaimedAge, Share, Bp.GetAge, Whole;
    var s', h := Next(s, c, Claim(voter, bp)), c.height;
    CleanAges(h);
    forall k | k in s'.fixvotes && k.voter == voter && s'.fixvotes[k].bp == bp
      ensures s'.fixvotes[k].power.GetAge(Min(h, s'.fixvotes[k].withdrawAt)) == 0
    {
      CleanFix(s.fixvotes[k], h);
    }
    TotalZero(s'.fixvotes, AgeOfFix(voter, bp, h));
  }

  lemma CleanAges(h: nat)
    ensures forall a: AssetAge :: a.CleanAge(h).GetAge(h) == 0
  {
  }

  lemma CleanFix(f: FixVote, h: nat)
    ensures f.CleanAge(h).GetAge(h) == 0
  {
  }

  /** Both in every reachable state. */
  lemma ClaimPaysInRuns(g: Ledger, run: seq<Step>, c: Context, voter: Name, bp: Name)
    requires Genesis(g) && Ordered(0, run) && HeightAfter(0, run) <= c.height
    requires Can(Exec(g, run), c, Claim(voter, bp))
    ensures var s, h := Exec(g, run), c.height; var s' := Next(s, c, Claim(voter, bp));
      var reward := (s.bps[bp].rewardsPool * AgeHeld(s, voter, bp, h)) / s.bps[bp].GetAge(h);
      0 <= AgeHeld(s, voter, bp, h) <= s.bps[bp].GetAge(h) &&
      s'.available == s.available[voter := s.available[voter] + reward] &&
      s'.bps[bp].rewardsPool == s.bps[bp].rewardsPool - reward &&
      s'.bps[bp].GetAge(h) == s.bps[bp].GetAge(h) - AgeHeld(s, voter, bp, h) && AgeHeld(s', voter, bp, h) == 0
  {
    ReachableInv(g, run, c.height);
    hide Inv, Exec, Next, AgeHeld;
    ClaimPays(Exec(g, run), OverdueOf(g, map[], run), c, voter, bp);
    ClaimCleans(Exec(g, run), c, voter, bp);
  }

  /** A live fix-time vote whose age keeps it from being moved can be moved right after a claim. */
  lemma ClaimThenMove(s: Ledger, c: Context, voter: Name, id: nat, tobp: Name)
    requires FixKey(voter, id) in s.fixvotes && Can(s, c, Claim(voter, s.fixvotes[FixKey(voter, id)].bp))
    requires var f := s.fixvotes[FixKey(voter, id)];
      f.bp != tobp && !f.isWithdraw && c.height < f.withdrawAt && voter !in c.frozen &&
      tobp in s.bps && tobp !in s.blacklist
    ensures Can(Next(s, c, Claim(voter, s.fixvotes[FixKey(voter, id)].bp)), c, RevoteFix(voter, id, tobp))
  {
    ClaimCleans(s, c, voter, s.fixvotes[FixKey(voter, id)].bp);
    hide Total, ClaimedAge, FixAfterClaim, VotesAfterClaim, Share;
  }
}
