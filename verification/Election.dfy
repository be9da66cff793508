/** The election of the block producers (update_elected_bps). */
module Election {
  import opened Base
  import L = VoteLedger
  import B = BlockRounds

  // A row of the bps table; eligible means neither banned nor punished.
  datatype Row = Row(name: Name, stake: int, eligible: bool) {
    /** More stake wins; between equal stakes the larger name does. */
    predicate Beats(other: Row) {
      stake > other.stake || (stake == other.stake && name > other.name)
    }
  }

  /** The bps table is read in the order of its key. */
  predicate ByName(rows: seq<Row>) {
    forall i, j | 0 <= i < j < |rows| :: rows[i].name < rows[j].name
  }

  predicate BestFirst(rows: seq<Row>) {
    forall i, j | 0 <= i < j < |rows| :: rows[i].Beats(rows[j])
  }

  predicate Rising(names: seq<Name>) {
    forall i, j | 0 <= i < j < |names| :: names[i] < names[j]
  }

  function EligibleNames(rows: seq<Row>): set<Name> {
    set r | r in rows && r.eligible :: r.name
  }

  // ---- the running top list ----

  /** top holds the best of rows: eligible rows only, as many as fit, each beating every eligible row left out. */
  predicate TopOf(top: seq<Row>, rows: seq<Row>) {
    BestFirst(top) && |top| == Min(NUM_OF_TOP_BPS, |EligibleNames(rows)|) &&
    (forall r | r in top :: r in rows && r.eligible) &&
    (|top| < NUM_OF_TOP_BPS ==> forall r | r in rows && r.eligible :: r in top) &&
    (forall r, t | r in rows && r.eligible && r !in top && t in top :: t.Beats(r))
  }

  function Inserted(top: seq<Row>, i: nat, r: Row): seq<Row>
    requires i <= |top|
  {
    var longer := top[..i] + [r] + top[i..];
    if |longer| > NUM_OF_TOP_BPS then longer[..NUM_OF_TOP_BPS] else longer
  }

  lemma EligibleNext(rows: seq<Row>, r: Row)
    requires ByName(rows + [r])
    ensures |EligibleNames(rows + [r])| == |EligibleNames(rows)| + if r.eligible then 1 else 0
  {
    var all := rows + [r];
    forall x | x in rows ensures x.name < r.name {
      var k :| 0 <= k < |rows| && rows[k] == x;
      assert all[k] == x && all[|rows|] == r;
    }
    assert r in all;
    assert EligibleNames(all) == if r.eligible then EligibleNames(rows) + {r.name} else EligibleNames(rows);
  }

  /** A row that is not eligible, or has less stake than everyone in a full list, changes nothing. */
  lemma SkipKeepsTop(top: seq<Row>, rows: seq<Row>, r: Row)
    requires TopOf(top, rows) && ByName(rows + [r])
    requires !r.eligible || (|top| == NUM_OF_TOP_BPS && r.stake < top[NUM_OF_TOP_BPS - 1].stake)
    ensures TopOf(top, rows + [r])
  {
    EligibleNext(rows, r);
    hide EligibleNames, ByName;
    if r.eligible {
      forall t | t in top ensures t.Beats(r) {
        var k :| 0 <= k < |top| && top[k] == t;
        assert k < NUM_OF_TOP_BPS - 1 ==> top[k].Beats(top[NUM_OF_TOP_BPS - 1]);
      }
    }
  }

  lemma InsertedAt(top: seq<Row>, i: nat, r: Row)
    requires i <= |top| && i < NUM_OF_TOP_BPS
    ensures |Inserted(top, i, r)| == Min(NUM_OF_TOP_BPS, |top| + 1)
    ensures forall j | 0 <= j < |Inserted(top, i, r)| ::
              Inserted(top, i, r)[j] == if j < i then top[j] else if j == i then r else top[j - 1]
  {
  }

  /** i is the first slot that accepts r; an empty slot accepts anyone. */
  predicate Fits(top: seq<Row>, i: nat, r: Row) {
    i <= |top| && i < NUM_OF_TOP_BPS && (forall j | 0 <= j < i :: top[j].stake > r.stake) &&
    (i < |top| ==> top[i].stake <= r.stake)
  }

  lemma InsertKeepsOrder(top: seq<Row>, r: Row, i: nat)
    requires BestFirst(top) && Fits(top, i, r) && forall j | 0 <= j < |top| :: top[j].name < r.name
    ensures BestFirst(Inserted(top, i, r))
  {
    InsertedAt(top, i, r);
    hide Inserted;
    assert i < |top| ==> r.Beats(top[i]);
  }

  /** Who is in the new list, and who fell off its end. */
  lemma InsertMembers(top: seq<Row>, r: Row, i: nat)
    requires Fits(top, i, r) && |top| <= NUM_OF_TOP_BPS
    ensures r in Inserted(top, i, r)
    ensures forall x | x in Inserted(top, i, r) :: x == r || x in top
    ensures forall x | x in top && x !in Inserted(top, i, r) :: |top| == NUM_OF_TOP_BPS && x == top[NUM_OF_TOP_BPS - 1]
    ensures |top| == NUM_OF_TOP_BPS ==>
              forall x | x in Inserted(top, i, r) && x != r :: exists k :: 0 <= k < NUM_OF_TOP_BPS - 1 && top[k] == x
  {
    var top' := Inserted(top, i, r);
    InsertedAt(top, i, r);
    hide Inserted;
    assert top'[i] == r;
    forall x | x in top' && x != r
      ensures exists k :: 0 <= k < |top| && k <= NUM_OF_TOP_BPS - 2 + (if |top| < NUM_OF_TOP_BPS then 2 else 0) &&
                          top[k] == x
    {
      var j :| 0 <= j < |top'| && top'[j] == x;
      assert top[if j < i then j else j - 1] == x;
    }
    forall k | 0 <= k < |top|
      ensures top[k] in top' || (|top| == NUM_OF_TOP_BPS && k == NUM_OF_TOP_BPS - 1)
    {
      assert k < i ==> top'[k] == top[k];
      assert i <= k && k + 1 < |top'| ==> top'[k + 1] == top[k];
    }
  }

  /** Inserting at the first slot that accepts the row keeps the list the best; the row that falls off its end is
      beaten by all of them. */
  lemma InsertKeepsTop(top: seq<Row>, rows: seq<Row>, r: Row, i: nat)
    requires TopOf(top, rows) && ByName(rows + [r]) && r.eligible && Fits(top, i, r)
    ensures TopOf(Inserted(top, i, r), rows + [r])
  {
    hide EligibleNames, ByName, BestFirst;
    EligibleNext(rows, r);
    NewestName(top, rows, r);
    InsertKeepsOrder(top, r, i);
    InsertMembers(top, r, i);
    InsertedAt(top, i, r);
    InsertBeatsLast(top, r, i);
    hide Inserted, Fits;
    InsertKeepsBest(top, Inserted(top, i, r), rows, r);
  }

  lemma InsertBeatsLast(top: seq<Row>, r: Row, i: nat)
    requires BestFirst(top) && Fits(top, i, r) && |top| == NUM_OF_TOP_BPS ==> top[NUM_OF_TOP_BPS - 1].name < r.name
    ensures BestFirst(top) && Fits(top, i, r) && |top| == NUM_OF_TOP_BPS ==>
              forall x | x in Inserted(top, i, r) :: x.Beats(top[NUM_OF_TOP_BPS - 1])
  {
    if BestFirst(top) && Fits(top, i, r) && |top| == NUM_OF_TOP_BPS {
      InsertMembers(top, r, i);
      hide Inserted;
      assert top[NUM_OF_TOP_BPS - 1].stake <= r.stake;
    }
  }

  lemma InsertKeepsBest(top: seq<Row>, top': seq<Row>, rows: seq<Row>, r: Row)
    requires forall x, t | x in rows && x.eligible && x !in top && t in top :: t.Beats(x)
    requires |top| <= NUM_OF_TOP_BPS && (|top| < NUM_OF_TOP_BPS ==> forall x | x in rows && x.eligible :: x in top)
    requires r in top' && forall x | x in top' :: x == r || x in top
    requires forall x | x in top && x !in top' :: |top| == NUM_OF_TOP_BPS && x == top[NUM_OF_TOP_BPS - 1]
    requires |top| == NUM_OF_TOP_BPS ==> forall x | x in top' :: x.Beats(top[NUM_OF_TOP_BPS - 1])
    ensures forall x, t | x in rows + [r] && x.eligible && x !in top' && t in top' :: t.Beats(x)
  {
    forall x, t | x in rows + [r] && x.eligible && x !in top' && t in top' ensures t.Beats(x) {
      assert x in rows;
      if x in top {
        assert x == top[NUM_OF_TOP_BPS - 1];
      } else {
        assert |top| >= NUM_OF_TOP_BPS;
        assert top[NUM_OF_TOP_BPS - 1] in top;
      }
    }
  }

  lemma NewestName(top: seq<Row>, rows: seq<Row>, r: Row)
    requires ByName(rows + [r]) && forall x | x in top :: x in rows
    ensures forall j | 0 <= j < |top| :: top[j].name < r.name
  {
    forall j | 0 <= j < |top| ensures top[j].name < r.name {
      assert top[j] in rows;
      var k :| 0 <= k < |rows| && rows[k] == top[j];
      assert (rows + [r])[k] == rows[k] && (rows + [r])[|rows|] == r;
    }
  }

  // ---- the sort by name ----

  function InsertName(sorted: seq<Name>, n: Name): seq<Name> {
    if sorted == [] then [n]
    else if n <= sorted[0] then [n] + sorted
    else [sorted[0]] + InsertName(sorted[1..], n)
  }

  /** The library sort, as an insertion sort. */
  function SortNames(names: seq<Name>): seq<Name> {
    if names == [] then [] else InsertName(SortNames(names[1..]), names[0])
  }

  lemma {:induction false} InsertNameAdds(sorted: seq<Name>, n: Name)
    ensures multiset(InsertName(sorted, n)) == multiset(sorted) + multiset{n}
  {
    if sorted != [] && n > sorted[0] {
      InsertNameAdds(sorted[1..], n);
      assert sorted == [sorted[0]] + sorted[1..];
    }
  }

  lemma FirstIsLeast(sorted: seq<Name>)
    requires Rising(sorted) && sorted != []
    ensures Rising(sorted[1..]) && forall m | m in sorted[1..] :: sorted[0] < m
  {
  }

  lemma PrependRises(n: Name, rest: seq<Name>)
    requires Rising(rest) && forall m | m in rest :: n < m
    ensures Rising([n] + rest)
  {
    var all := [n] + rest;
    forall i, j | 0 <= i < j < |all| ensures all[i] < all[j] {
      assert all[j] == rest[j - 1] && rest[j - 1] in rest;
      assert i > 0 ==> all[i] == rest[i - 1];
    }
  }

  lemma {:induction false} InsertNameSorts(sorted: seq<Name>, n: Name)
    requires Rising(sorted) && n !in sorted
    ensures Rising(InsertName(sorted, n))
    ensures forall m | m in InsertName(sorted, n) :: m == n || m in sorted
  {
    if sorted == [] {
      PrependRises(n, []);
    } else {
      FirstIsLeast(sorted);
      hide Rising;
      if n > sorted[0] {
        InsertNameSorts(sorted[1..], n);
        PrependRises(sorted[0], InsertName(sorted[1..], n));
      } else {
        assert forall m | m in sorted :: m == sorted[0] || m in sorted[1..];
        PrependRises(n, sorted);
      }
    }
  }

  lemma {:induction false} SortNamesSorts(names: seq<Name>)
    requires forall i, j | 0 <= i < j < |names| :: names[i] != names[j]
    ensures Rising(SortNames(names)) && multiset(SortNames(names)) == multiset(names)
  {
    if names != [] {
      SortNamesSorts(names[1..]);
      assert names == [names[0]] + names[1..];
      SameElements(SortNames(names[1..]), names[1..]);
      InsertNameSorts(SortNames(names[1..]), names[0]);
      InsertNameAdds(SortNames(names[1..]), names[0]);
    }
  }

  lemma SameElements(a: seq<Name>, b: seq<Name>)
    requires multiset(a) == multiset(b)
    ensures |a| == |b| && forall n :: n in a <==> n in b
  {
    assert |multiset(a)| == |a| && |multiset(b)| == |b|;
    forall n ensures n in a <==> n in b {
      assert n in multiset(a) <==> n in multiset(b);
    }
  }

  function NamesOf(rows: seq<Row>): seq<Name> {
    seq(|rows|, i requires 0 <= i < |rows| => rows[i].name)
  }

  // ---- the schedule ----

  function RowOf(n: Name, s: L.Ledger, ms: map<Name, B.Monitor>): Row
    requires n in s.bps
  {
    Row(n, s.bps[n].totalStaked, MayBeElected(s, ms, n))
  }

  /** Registered, not banned and not punished. */
  predicate MayBeElected(s: L.Ledger, ms: map<Name, B.Monitor>, n: Name) {
    n in s.bps && n !in s.blacklist && !(n in ms && ms[n].status == B.Punished)
  }

  function Candidates(s: L.Ledger, ms: map<Name, B.Monitor>): set<Name> {
    set n | n in s.bps && MayBeElected(s, ms, n)
  }

  predicate Outranks(s: L.Ledger, n: Name, m: Name)
    requires n in s.bps && m in s.bps
  {
    s.bps[n].totalStaked > s.bps[m].totalStaked || (s.bps[n].totalStaked == s.bps[m].totalStaked && n > m)
  }

  /** Election correctness: the schedule is sorted by name and holds min(23, candidates) distinct producers, all of
      them candidates, each outranking every candidate that was left out. */
  predicate Elected(schedule: seq<Name>, s: L.Ledger, ms: map<Name, B.Monitor>) {
    Rising(schedule) && |schedule| == Min(NUM_OF_TOP_BPS, |Candidates(s, ms)|) &&
    (forall n | n in schedule :: n in Candidates(s, ms)) &&
    (forall n, m | n in schedule && m in Candidates(s, ms) && m !in schedule :: Outranks(s, n, m))
  }

  /** No two schedules meet that: the election leaves nothing open. */
  lemma OneSchedule(a: seq<Name>, b: seq<Name>, s: L.Ledger, ms: map<Name, B.Monitor>)
    requires Elected(a, s, ms) && Elected(b, s, ms)
    ensures a == b
  {
    forall n | n in a ensures n in b {
      NoneMissing(a, b, s, ms, n);
    }
    SameSizeCovers(a, b);
    RisingIsUnique(a, b);
  }

  lemma NoneMissing(a: seq<Name>, b: seq<Name>, s: L.Ledger, ms: map<Name, B.Monitor>, n: Name)
    requires Elected(a, s, ms) && Elected(b, s, ms) && n in a
    ensures n in b
  {
    forall m | m in b && m !in a ensures n in b {
      assert n !in b ==> Outranks(s, n, m) && Outranks(s, m, n);
    }
    if n !in b {
      SameSizeDiffers(a, b, n);
    }
  }

  function SetOf(a: seq<Name>): set<Name> {
    set n | n in a
  }

  lemma {:induction false} RisingSize(a: seq<Name>)
    requires Rising(a)
    ensures |SetOf(a)| == |a|
  {
    if a != [] {
      var front, last := a[..|a| - 1], a[|a| - 1];
      RisingSize(front);
      LastIsLargest(a);
      hide Rising;
      assert SetOf(a) == SetOf(front) + {last};
    }
  }

  lemma SameSizeDiffers(a: seq<Name>, b: seq<Name>, n: Name)
    requires Rising(a) && Rising(b) && |a| == |b| && n in a && n !in b
    ensures exists m :: m in b && m !in a
  {
    RisingSize(a);
    RisingSize(b);
    hide Rising;
    if forall m | m in b :: m in a {
      assert n in SetOf(a) && n !in SetOf(b);
      Smaller(SetOf(b), SetOf(a) - {n});
      assert false;
    }
  }

  lemma Smaller(x: set<Name>, y: set<Name>)
    requires x <= y
    ensures |x| <= |y|
  {
    assert y == x + (y - x);
  }

  lemma SameSizeCovers(a: seq<Name>, b: seq<Name>)
    requires Rising(a) && Rising(b) && |a| == |b| && forall n | n in a :: n in b
    ensures forall n | n in b :: n in a
  {
    if exists n :: n in b && n !in a {
      var n :| n in b && n !in a;
      SameSizeDiffers(b, a, n);
    }
  }

  lemma {:induction false} RisingIsUnique(a: seq<Name>, b: seq<Name>)
    requires Rising(a) && Rising(b) && |a| == |b| && forall n :: n in a <==> n in b
    ensures a == b
  {
    if a != [] {
      var last := |a| - 1;
      LastIsLargest(a);
      LastIsLargest(b);
      assert a[last] in b && b[last] in a;
      forall n ensures n in a[..last] <==> n in b[..last] {
        assert n in a[..last] <==> n in a && n != a[last];
        assert n in b[..last] <==> n in b && n != b[last];
      }
      RisingIsUnique(a[..last], b[..last]);
    }
  }

  lemma LastIsLargest(a: seq<Name>)
    requires Rising(a) && a != []
    ensures forall n | n in a :: n <= a[|a| - 1]
    ensures a[|a| - 1] !in a[..|a| - 1]
    ensures forall n | n in a && n != a[|a| - 1] :: n in a[..|a| - 1]
  {
  }

  /** Sorting the names of the list keeps them all. */
  lemma ScheduleMembers(top: seq<Row>)
    requires forall i, j | 0 <= i < j < |top| :: top[i].name != top[j].name
    ensures var schedule := SortNames(NamesOf(top));
      Rising(schedule) && |schedule| == |top| &&
      (forall t | t in top :: t.name in schedule) && (forall n | n in schedule :: exists t :: t in top && t.name == n)
  {
    hide SortNames;
    var names, schedule := NamesOf(top), SortNames(NamesOf(top));
    SortNamesSorts(names);
    SameElements(schedule, names);
    hide Rising;
    forall n | n in schedule ensures exists t :: t in top && t.name == n {
      var i :| 0 <= i < |names| && names[i] == n;
      assert top[i] in top;
    }
    forall t | t in top ensures t.name in schedule {
      var i :| 0 <= i < |top| && top[i] == t;
      assert names[i] == t.name;
    }
  }

  lemma TopIsElected(top: seq<Row>, rows: seq<Row>, order: seq<Name>, s: L.Ledger, ms: map<Name, B.Monitor>)
    requires TopOf(top, rows) && TableRows(rows, order, s, ms)
    ensures Elected(SortNames(NamesOf(top)), s, ms)
  {
    hide SortNames, NamesOf, Rising, BestFirst, ByName, MayBeElected, EligibleNames, Candidates, TableRows;
    var schedule := SortNames(NamesOf(top));
    TableIsByName(rows, order, s, ms);
    TopNames(top, rows);
    ScheduleMembers(top);
    RowsAreCandidates(rows, order, s, ms);
    forall n | n in schedule ensures RowOfTop(n, top, s, ms) {
      var t :| t in top && t.name == n;
    }
    forall n, m | n in schedule && m in Candidates(s, ms) && m !in schedule ensures Outranks(s, n, m) {
      assert RowOfTop(n, top, s, ms);
      assert RowOf(m, s, ms) in rows;
      assert RowOf(n, s, ms).Beats(RowOf(m, s, ms));
    }
  }

  predicate RowOfTop(n: Name, top: seq<Row>, s: L.Ledger, ms: map<Name, B.Monitor>) {
    n in s.bps && RowOf(n, s, ms) in top
  }

  /** rows is the bps table. */
  predicate TableRows(rows: seq<Row>, order: seq<Name>, s: L.Ledger, ms: map<Name, B.Monitor>) {
    TableOrder(order, s) && |rows| == |order| && forall i | 0 <= i < |order| :: rows[i] == RowOf(order[i], s, ms)
  }

  predicate TableOrder(order: seq<Name>, s: L.Ledger) {
    Rising(order) && (forall i | 0 <= i < |order| :: order[i] in s.bps) && forall n | n in s.bps :: n in order
  }

  lemma RowsAreCandidates(rows: seq<Row>, order: seq<Name>, s: L.Ledger, ms: map<Name, B.Monitor>)
    requires TableRows(rows, order, s, ms)
    ensures EligibleNames(rows) == Candidates(s, ms)
    ensures forall n :: n in Candidates(s, ms) <==> n in s.bps && RowOf(n, s, ms).eligible
    ensures forall n | n in s.bps :: RowOf(n, s, ms) in rows
    ensures forall r | r in rows :: r.name in s.bps && r == RowOf(r.name, s, ms)
  {
    forall n | n in s.bps ensures RowOf(n, s, ms) in rows {
      var i :| 0 <= i < |order| && order[i] == n;
      assert rows[i] == RowOf(n, s, ms);
    }
  }

  lemma TopNames(top: seq<Row>, rows: seq<Row>)
    requires TopOf(top, rows) && ByName(rows)
    ensures forall i, j | 0 <= i < j < |top| :: top[i].name != top[j].name
  {
    forall i, j | 0 <= i < j < |top| ensures top[i].name != top[j].name {
      assert top[i] in rows && top[j] in rows && top[i].Beats(top[j]);
      if top[i].name == top[j].name {
        NamesIdentify(rows, top[i], top[j]);
      }
    }
  }

  lemma NamesIdentify(rows: seq<Row>, a: Row, b: Row)
    requires ByName(rows) && a in rows && b in rows && a.name == b.name
    ensures a == b
  {
    var i :| 0 <= i < |rows| && rows[i] == a;
    var j :| 0 <= j < |rows| && rows[j] == b;
  }

  /** The first slot that accepts the row; a full list has one for every row that got here. */
  method FindSlot(top: seq<Row>, r: Row) returns (i: nat)
    requires |top| <= NUM_OF_TOP_BPS && (|top| == NUM_OF_TOP_BPS ==> top[NUM_OF_TOP_BPS - 1].stake <= r.stake)
    ensures Fits(top, i, r)
  {
    i := 0;
    while i < NUM_OF_TOP_BPS && !(i == |top| || top[i].stake <= r.stake)
      invariant 0 <= i <= |top|
      invariant forall j | 0 <= j < i :: top[j].stake > r.stake
    {
      i := i + 1;
    }
  }

  /** One pass over the table, inserting into a list of at most 23, then a sort by name. */
  method UpdateElectedBps(order: seq<Name>, s: L.Ledger, ms: map<Name, B.Monitor>) returns (schedule: seq<Name>)
    requires TableOrder(order, s)
    ensures Elected(schedule, s, ms)
  {
    hide EligibleNames, BestFirst, ByName, MayBeElected;
    var top: seq<Row> := [];
    ghost var rows := seq(|order|, i requires 0 <= i < |order| => RowOf(order[i], s, ms));
    TableIsByName(rows, order, s, ms);
    EmptyTop(rows);
    var k := 0;
    while k < |order|
      invariant 0 <= k <= |order|
      invariant TopOf(top, rows[..k])
    {
      var r := RowOf(order[k], s, ms);
      PrefixByName(rows, k);
      if !r.eligible || (|top| >= NUM_OF_TOP_BPS && top[|top| - 1].stake > r.stake) {
        SkipKeepsTop(top, rows[..k], r);
      } else {
        var i := FindSlot(top, r);
        InsertKeepsTop(top, rows[..k], r, i);
        top := Inserted(top, i, r);
      }
      k := k + 1;
    }
    assert rows[..k] == rows;
    TopIsElected(top, rows, order, s, ms);
    schedule := SortNames(NamesOf(top));
  }

  lemma EmptyTop(rows: seq<Row>)
    ensures TopOf([], rows[..0])
  {
    assert EligibleNames(rows[..0]) == {};
  }

  lemma TableIsByName(rows: seq<Row>, order: seq<Name>, s: L.Ledger, ms: map<Name, B.Monitor>)
    requires TableRows(rows, order, s, ms)
    ensures ByName(rows)
  {
  }

  lemma PrefixByName(rows: seq<Row>, k: nat)
    requires k < |rows| && ByName(rows)
    ensures rows[..k + 1] == rows[..k] + [rows[k]] && ByName(rows[..k] + [rows[k]])
  {
  }
}
