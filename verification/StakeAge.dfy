/** The lazily accumulated stake-age that votes and producers carry (assetage.hpp, vote.hpp, bp_info).

    As a function of the block height such an age is a straight line: its slope is the stake in whole
    tokens and only its base, the value it would have at height 0, moves when the row is touched. The lemmas
    say how each of the source's updates moves that line. */
module StakeAge {
  import opened Base

  function Pow10(n: nat): nat {
    if n == 0 then 1 else 10 * Pow10(n - 1)
  }

  const PRECISION_BASES: seq<int> := [
    1, 10, 100, 1000, 10000,
    100000,
    1000000,
    10000000,
    100000000,
    1000000000,
    10000000000,
    100000000000,
    1000000000000,
    10000000000000,
    100000000000000,
    1000000000000000,
    10000000000000000,
    100000000000000000
  ]

  /** Every entry of the table is its power of ten; the core symbol's four decimals give the divisor of Whole. */
  lemma TableOfPowers()
    ensures |PRECISION_BASES| == 18 && forall i | 0 <= i < 18 :: PRECISION_BASES[i] == Pow10(i)
    ensures forall a: int | 0 <= a :: Whole(a) == a / PRECISION_BASES[4]
  {
    TableUpTo(17);
  }

  lemma {:induction false} TableUpTo(n: nat)
    requires n <= 17
    ensures forall i | 0 <= i <= n :: PRECISION_BASES[i] == Pow10(i)
  {
    if n > 0 {
      TableUpTo(n - 1);
      assert PRECISION_BASES[n] == 10 * PRECISION_BASES[n - 1];
    }
  }

  /** The table up to 17 decimals, a loop beyond. */
  method PrecisionBase(decimals: nat) returns (base: int)
    ensures base == Pow10(decimals)
  {
    TableOfPowers();
    if decimals < 18 {
      base := PRECISION_BASES[decimals];
    } else {
      base := PRECISION_BASES[17];
      var p := decimals - 18 + 1;
      while p > 0
        invariant 0 <= p <= decimals - 17 && base == Pow10(decimals - p)
      {
        base := base * 10;
        p := p - 1;
      }
    }
  }

  datatype AssetAge = AssetAge(staked: int, age: int, updateHeight: nat) {
    function GetAge(h: nat): int {
      Whole(staked) * (h - updateHeight) + age
    }

    function ChangeStakedTo(h: nat, newStaked: int): AssetAge {
      AssetAge(newStaked, GetAge(h), h)
    }

    function AddStakedBy(h: nat, s: int): AssetAge {
      AssetAge(staked + s, GetAge(h), h)
    }

    function MinusStakedBy(h: nat, s: int): AssetAge {
      AssetAge(staked - s, GetAge(h), h)
    }

    function CleanAge(h: nat): AssetAge {
      AssetAge(staked, 0, h)
    }

    function Slope(): int {
      Whole(staked)
    }

    function Base(): int {
      age - Slope() * updateHeight
    }

    /** The stake is a whole number of tokens and the age was last settled no later than now. */
    predicate Settled(now: nat) {
      0 <= staked && IsWhole(staked) && 0 <= age && updateHeight <= now
    }
  }

  const NO_AGE := AssetAge(0, 0, 0)

  /** The producer's side of the same integral, kept in whole tokens. */
  datatype Bp = Bp(totalStaked: int, totalVoteage: int, updateHeight: nat, rewardsPool: int, commission: nat) {
    function GetAge(h: nat): int {
      totalStaked * (h - updateHeight) + totalVoteage
    }

    /** The amount is in base units and may be negative. */
    function AddTotalStaked(h: nat, amount: int): Bp {
      this.(totalVoteage := totalVoteage + totalStaked * (h - updateHeight),
            updateHeight := h,
            totalStaked := totalStaked + Whole(amount))
    }

    function Base(): int {
      totalVoteage - totalStaked * updateHeight
    }
  }

  /** A stake locked until withdrawAt; its age stops growing there. */
  datatype FixVote = FixVote(bp: Name, power: AssetAge, principal: int, start: nat, withdrawAt: nat, isWithdraw: bool) {
    function GetAge(h: nat): int {
      power.GetAge(Min(h, withdrawAt))
    }

    function CleanAge(h: nat): FixVote {
      this.(power := power.CleanAge(Min(h, withdrawAt)))
    }
  }

  lemma AgeIsLine(a: AssetAge, h: nat)
    ensures a.GetAge(h) == a.Slope() * h + a.Base()
  {
    assert a.Slope() * (h - a.updateHeight) == a.Slope() * h - a.Slope() * a.updateHeight;
  }

  lemma BpAgeIsLine(b: Bp, h: nat)
    ensures b.GetAge(h) == b.totalStaked * h + b.Base()
  {
    assert b.totalStaked * (h - b.updateHeight) == b.totalStaked * h - b.totalStaked * b.updateHeight;
  }

  /** A settled age only grows, so it is never negative. */
  lemma AgeGrows(a: AssetAge, now: nat, h: nat)
    requires a.Settled(now) && now <= h
    ensures a.GetAge(h) >= a.age >= 0
  {
    assert Whole(a.staked) >= 0;
    assert Whole(a.staked) * (h - a.updateHeight) >= 0;
  }

  /** Changing the stake at height h turns the line about its point at h: the age there is kept. */
  lemma RestakeTurnsLine(a: AssetAge, now: nat, h: nat, newStaked: int)
    requires a.Settled(now) && now <= h && 0 <= newStaked && IsWhole(newStaked)
    ensures var a' := a.ChangeStakedTo(h, newStaked);
      a'.Settled(h) && a'.GetAge(h) == a.GetAge(h) &&
      a'.Base() == a.Base() - (a'.Slope() - a.Slope()) * h
  {
    AgeGrows(a, now, h);
    AgeIsLine(a, h);
    var a' := a.ChangeStakedTo(h, newStaked);
    assert a'.Base() == a.GetAge(h) - a'.Slope() * h;
    assert (a'.Slope() - a.Slope()) * h == a'.Slope() * h - a.Slope() * h;
  }

  lemma BpRestakeTurnsLine(b: Bp, h: nat, amount: int)
    ensures var b' := b.AddTotalStaked(h, amount);
      b'.totalStaked == b.totalStaked + Whole(amount) && b'.updateHeight == h &&
      b'.rewardsPool == b.rewardsPool && b'.commission == b.commission &&
      b'.GetAge(h) == b.GetAge(h) &&
      b'.Base() == b.Base() - Whole(amount) * h
  {
    BpAgeIsLine(b, h);
    var b' := b.AddTotalStaked(h, amount);
    assert b'.Base() == b.GetAge(h) - b'.totalStaked * h;
    assert (b.totalStaked + Whole(amount)) * h == b.totalStaked * h + Whole(amount) * h;
  }

  /** Cleaning an age at h lowers its line by exactly the age that was there. */
  lemma CleanLowersLine(a: AssetAge, h: nat)
    ensures a.CleanAge(h).Slope() == a.Slope()
    ensures a.CleanAge(h).Base() == a.Base() - a.GetAge(h)
  {
    AgeIsLine(a, h);
  }
}
