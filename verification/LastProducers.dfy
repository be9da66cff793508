/** The ring of the last producers that onblock keeps and removepunish searches. */
module LastProducers {
  import opened Base

  const MAX_LAST_PRODUCER_SIZE: nat := 120

  /** What the ring should tell: the producers of the last 120 blocks, or of all blocks if there are fewer. */
  function Window(blocks: seq<Name>): seq<Name> {
    if |blocks| <= MAX_LAST_PRODUCER_SIZE then blocks else blocks[|blocks| - MAX_LAST_PRODUCER_SIZE..]
  }

  /** The number of the latest of the first n blocks that went to index j; negative if there is none. */
  function LatestAt(n: nat, j: nat): int
    requires j < MAX_LAST_PRODUCER_SIZE
  {
    n - 1 - (n - 1 - j) % MAX_LAST_PRODUCER_SIZE
  }

  function EntryAt(blocks: seq<Name>, j: nat): Name
    requires j < MAX_LAST_PRODUCER_SIZE
  {
    var k := LatestAt(|blocks|, j);
    if 0 <= k then blocks[k] else 0
  }

  lemma LatestNext(n: nat, j: nat)
    requires j < MAX_LAST_PRODUCER_SIZE
    ensures LatestAt(n + 1, j) == if n % MAX_LAST_PRODUCER_SIZE == j then n else LatestAt(n, j)
  {
    var q, r := (n - 1 - j) / MAX_LAST_PRODUCER_SIZE, (n - 1 - j) % MAX_LAST_PRODUCER_SIZE;
    assert n - 1 - j == MAX_LAST_PRODUCER_SIZE * q + r;
    DivModRing(n - n % MAX_LAST_PRODUCER_SIZE, n / MAX_LAST_PRODUCER_SIZE, 0);
    if r == 119 {
      DivModRing(n - j, q + 1, 0);
      DivModRing(n, q + 1, j);
    } else {
      DivModRing(n - j, q, r + 1);
    }
  }

  lemma DivModRing(x: int, q: int, r: int)
    requires x == MAX_LAST_PRODUCER_SIZE * q + r && 0 <= r < MAX_LAST_PRODUCER_SIZE
    ensures x / MAX_LAST_PRODUCER_SIZE == q && x % MAX_LAST_PRODUCER_SIZE == r
  {
  }

  /** Refinement: a producer stands in some entry exactly when it made one of the last 120 blocks. */
  lemma RingIsWindow(blocks: seq<Name>, bp: Name)
    requires bp != 0
    ensures (exists j: nat :: j < MAX_LAST_PRODUCER_SIZE && EntryAt(blocks, j) == bp) <==> bp in Window(blocks)
  {
    var n := |blocks|;
    var first := if n <= MAX_LAST_PRODUCER_SIZE then 0 else n - MAX_LAST_PRODUCER_SIZE;
    if bp in Window(blocks) {
      var i :| 0 <= i < |Window(blocks)| && Window(blocks)[i] == bp;
      var k := first + i;
      LatestOfWindow(n, k);
      assert EntryAt(blocks, k % MAX_LAST_PRODUCER_SIZE) == bp;
    }
    if j: nat :| j < MAX_LAST_PRODUCER_SIZE && EntryAt(blocks, j) == bp {
      var k := LatestAt(n, j);
      assert first <= k < n;
      assert Window(blocks)[k - first] == blocks[k];
    }
  }

  lemma LatestOfWindow(n: nat, k: nat)
    requires k < n <= k + MAX_LAST_PRODUCER_SIZE
    ensures LatestAt(n, k % MAX_LAST_PRODUCER_SIZE) == k
  {
    var q, j := k / MAX_LAST_PRODUCER_SIZE, k % MAX_LAST_PRODUCER_SIZE;
    DivModRing(n - 1 - j, q, n - 1 - k);
  }

  class Ring {
    var nextIndex: nat
    const producers: array<Name>
    ghost var blocks: seq<Name>  // the producers of all blocks so far

    ghost predicate Valid()
      reads this, producers
    {
      producers.Length == MAX_LAST_PRODUCER_SIZE && nextIndex == |blocks| % MAX_LAST_PRODUCER_SIZE &&
      forall j: nat | j < MAX_LAST_PRODUCER_SIZE :: producers[j] == EntryAt(blocks, j)
    }

    /** The row is created by the first block. */
    constructor (bp: Name)
      ensures Valid() && fresh(producers)
      ensures blocks == [bp]
    {
      var ring := new Name[MAX_LAST_PRODUCER_SIZE](i => 0);
      ring[0] := bp;
      nextIndex, producers, blocks := 1, ring, [bp];
      new;
      forall j: nat | j < MAX_LAST_PRODUCER_SIZE ensures producers[j] == EntryAt(blocks, j) {
        LatestNext(0, j);
      }
    }

    method Record(bp: Name)
      requires Valid()
      modifies this, producers
      ensures Valid()
      ensures blocks == old(blocks) + [bp]
    {
      producers[nextIndex] := bp;
      nextIndex := (nextIndex + 1) % MAX_LAST_PRODUCER_SIZE;
      NextIndex(|blocks|);
      blocks := blocks + [bp];
      forall j: nat | j < MAX_LAST_PRODUCER_SIZE ensures producers[j] == EntryAt(blocks, j) {
        LatestNext(|blocks| - 1, j);
      }
    }

    lemma NextIndex(n: nat)
      ensures (n % MAX_LAST_PRODUCER_SIZE + 1) % MAX_LAST_PRODUCER_SIZE == (n + 1) % MAX_LAST_PRODUCER_SIZE
    {
      var q, r := n / MAX_LAST_PRODUCER_SIZE, n % MAX_LAST_PRODUCER_SIZE;
      if r == 119 {
        DivModRing(n + 1, q + 1, 0);
      } else {
        DivModRing(n + 1, q, r + 1);
      }
    }

    /** The recency test of removepunish. */
    method Holds(bp: Name) returns (found: bool)
      requires Valid() && bp != 0
      ensures found <==> bp in Window(blocks)
    {
      RingIsWindow(blocks, bp);
      found := false;
      var j := 0;
      while j < producers.Length && !found
        invariant 0 <= j <= MAX_LAST_PRODUCER_SIZE
        invariant found ==> exists i: nat :: i < MAX_LAST_PRODUCER_SIZE && EntryAt(blocks, i) == bp
        invariant !found ==> forall i: nat | i < j :: EntryAt(blocks, i) != bp
        decreases producers.Length - j, !found
      {
        if producers[j] == bp {
          assert EntryAt(blocks, j) == bp;
          found := true;
        } else {
          j := j + 1;
        }
      }
    }
  }
}
