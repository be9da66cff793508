/** Shared vocabulary of the contract models: account names, the arithmetic of amounts, and the constants
    of the system contract that more than one model uses. */
module Base {

  // An account name is the 64-bit number the chain stores; 0 is the empty name.
  type Name = nat

  const BLOCK_NUM_PER_DAY: nat := 24 * 60 * 20
  const NUM_OF_TOP_BPS: nat := 23

  // The account of the system contract, and the core token's symbol.
  const SYSTEM_ACCOUNT: Name := 1
  const CORE: nat := 4

  datatype Option<+T> = None | Some(value: T)

  /** Integer division as C++ does it: towards zero. */
  function TruncDiv(a: int, b: int): int
    requires b > 0
  {
    if a >= 0 then a / b else -((-a) / b)
  }

  function Min(a: int, b: int): int {
    if a <= b then a else b
  }

  function Max(a: int, b: int): int {
    if a <= b then b else a
  }

  /** Base units to whole tokens, at the core symbol's four decimals. */
  function Whole(units: int): int {
    if units >= 0 then units / 10000 else -((-units) / 10000)
  }

  /** An amount the contracts accept as a stake: a whole number of tokens. */
  predicate IsWhole(units: int) {
    units % 10000 == 0
  }

  lemma WholeOf(q: int)
    ensures IsWhole(10000 * q) && Whole(10000 * q) == q
  {
  }

  lemma WholeParts(a: int)
    requires IsWhole(a)
    ensures a == 10000 * Whole(a)
  {
  }

  /** On whole amounts, of either sign, the division loses nothing. */
  lemma WholeIsExact(a: int, b: int)
    requires IsWhole(a) && IsWhole(b)
    ensures Whole(a) * 10000 == a
    ensures IsWhole(a + b) && IsWhole(a - b) && IsWhole(-a)
    ensures Whole(a + b) == Whole(a) + Whole(b)
    ensures Whole(a - b) == Whole(a) - Whole(b)
    ensures Whole(-a) == -Whole(a)
    ensures 0 <= a ==> 0 <= Whole(a)
    ensures Whole(0) == 0
  {
    WholeParts(a);
    WholeParts(b);
    hide Whole, IsWhole;
    WholeOf(Whole(a) + Whole(b));
    WholeOf(Whole(a) - Whole(b));
    WholeOf(-Whole(a));
    WholeOf(0);
  }

  lemma CancelLe(a: int, b: int, d: int)
    requires 0 < d && a * d <= b * d
    ensures a <= b
  {
    assert a > b ==> a * d > b * d;
  }

  lemma CancelLt(a: int, b: int, d: int)
    requires 0 < d && a * d < b * d
    ensures a < b
  {
    assert a >= b ==> a * d >= b * d;
  }

  /** What a floored quotient is, and that nothing is lost beside the remainder. */
  lemma FloorBound(a: int, d: int)
    requires 0 < d
    ensures (a / d) * d <= a < (a / d) * d + d
    ensures (a / d) * d + a % d == a && 0 <= a % d < d
    ensures 0 <= a ==> 0 <= a / d
  {
  }

  lemma NonNegativeProduct(a: int, b: int)
    requires 0 <= a && 0 <= b
    ensures 0 <= a * b
  {
  }

  lemma ScaleLe(a: int, b: int, c: int)
    requires a <= b && 0 <= c
    ensures a * c <= b * c && c * a <= c * b
  {
  }
}
