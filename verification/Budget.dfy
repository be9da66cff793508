/** The budget contract: motions, the committee's votes on them, and the coins drawn from a passed motion
    (eosio.budget.cpp). */
module Budget {
  import opened Base
  import L = VoteLedger

  const APPROVE_BLOCK_NUM: nat := 14 * 28800
  const MIN_BUDGET_PLEDGE: int := 100 * 10000
  const SELF: Name := L.BUDGET_ACCOUNT

  datatype Section = Pending | Passed | Rejected | TurnedDown

  // A vote of the committee: who is still asked, who approved and who did not.
  datatype Ballot = Ballot(requested: seq<Name>, approved: seq<Name>, unapproved: seq<Name>) {
    function Voters(): multiset<Name> {
      multiset(requested) + multiset(approved) + multiset(unapproved)
    }

    function Size(): nat {
      |requested| + |approved| + |unapproved|
    }

    predicate Passes() {
      |approved| > Size() * 2 / 3
    }

    predicate Fails() {
      |unapproved| > Size() / 3
    }
  }

  /** The names without the first occurrence of n. */
  function Erase(names: seq<Name>, n: Name): seq<Name> {
    if names == [] then [] else if names[0] == n then names[1..] else [names[0]] + Erase(names[1..], n)
  }

  function Approved(b: Ballot, n: Name): Ballot {
    Ballot(Erase(b.requested, n), b.approved + [n], b.unapproved)
  }

  function Unapproved(b: Ballot, n: Name): Ballot {
    Ballot(Erase(b.requested, n), b.approved, b.unapproved + [n])
  }

  datatype Motion = Motion(quantity: int, sym: nat, proposer: Name, section: Section, approveEnd: nat)
  datatype Coin = Coin(motion: nat, quantity: int, sym: nat, receiver: Name, section: Section, end: nat, ballot: Ballot)
  datatype Key = Key(proposer: Name, id: nat)

  datatype State = State(
    committee: Option<seq<Name>>, motions: map<nat, Motion>, approvals: map<Key, Ballot>, coins: map<Key, Coin>)

  /** What the host and the other contracts tell an action; pledges are the block.out pledges, ledger and frozen what
      the system contract's transfer looks at. */
  datatype Host = Host(height: nat, signer: Name, pledges: map<Name, int>, ledger: L.Ledger, frozen: set<Name>)

  // The id of a new row is the host's choice; an occupied id aborts.
  datatype Action =
    | Handover(members: seq<Name>)
    | Propose(proposer: Name, quantity: int, sym: nat, id: nat)
    | Approve(approver: Name, id: nat)
    | Unapprove(approver: Name, id: nat)
    | TakeCoin(proposer: Name, motion: nat, quantity: int, sym: nat, id: nat)
    | AgreeCoin(approver: Name, proposer: Name, id: nat)
    | UnagreeCoin(approver: Name, proposer: Name, id: nat)
    | TurnDown(id: nat)
    | CloseMotion(id: nat)
    | CloseCoin(proposer: Name, id: nat)

  // ---- the checks ----

  predicate HasPledge(x: Host, n: Name) {
    n in x.pledges && x.pledges[n] > MIN_BUDGET_PLEDGE
  }

  /** The motion is still open to votes and this member is asked. */
  predicate MayVote(s: State, x: Host, approver: Name, id: nat) {
    x.signer == approver && id in s.motions && s.motions[id].approveEnd > x.height &&
    Key(s.motions[id].proposer, id) in s.approvals && approver in s.approvals[Key(s.motions[id].proposer, id)].requested
  }

  predicate MayVoteOnCoin(s: State, x: Host, approver: Name, key: Key) {
    x.signer == approver && key in s.coins && s.coins[key].end > x.height && s.coins[key].section == Pending &&
    approver in s.coins[key].ballot.requested
  }

  /** The motion covers the coin and the system contract's transfer from the budget account goes through. */
  predicate CanPay(s: State, x: Host, t: Coin) {
    t.motion in s.motions &&
    var m := s.motions[t.motion];
    m.sym == t.sym && t.quantity <= m.quantity && m.section == Passed && t.sym == CORE &&
    L.CanTransfer(x.ledger, L.Context(x.height, SELF, x.frozen), SELF, t.receiver, t.quantity)
  }

  predicate Can(s: State, x: Host, a: Action) {
    match a
    case Handover(members) => x.signer == SELF
    case Propose(proposer, quantity, sym, id) =>
      x.signer == proposer && HasPledge(x, proposer) && id !in s.motions && s.committee.Some? &&
      Key(proposer, id) !in s.approvals
    case Approve(approver, id) => MayVote(s, x, approver, id) && s.motions[id].section == Pending
    case Unapprove(approver, id) => MayVote(s, x, approver, id)
    case TakeCoin(proposer, motion, quantity, sym, id) =>
      x.signer == proposer && HasPledge(x, proposer) && motion in s.motions && s.committee.Some? &&
      Key(proposer, id) !in s.coins &&
      var m := s.motions[motion];
      m.approveEnd < x.height && m.section == Passed && m.proposer == proposer && m.sym == sym && quantity <= m.quantity
    case AgreeCoin(approver, proposer, id) =>
      MayVoteOnCoin(s, x, approver, Key(proposer, id)) &&
      var t := s.coins[Key(proposer, id)];
      Approved(t.ballot, approver).Passes() ==> CanPay(s, x, t)
    case UnagreeCoin(approver, proposer, id) => MayVoteOnCoin(s, x, approver, Key(proposer, id))
    case TurnDown(id) => x.signer == SELF && id in s.motions
    case CloseMotion(id) =>
      id in s.motions && x.signer == s.motions[id].proposer && Key(s.motions[id].proposer, id) in s.approvals
    case CloseCoin(proposer, id) => x.signer == proposer && Key(proposer, id) in s.coins
  }

  // ---- the effects ----

  function AfterPropose(s: State, h: nat, proposer: Name, quantity: int, sym: nat, id: nat): State
    requires s.committee.Some?
  {
    s.(motions := s.motions[id := Motion(quantity, sym, proposer, Pending, h + APPROVE_BLOCK_NUM)],
       approvals := s.approvals[Key(proposer, id) := Ballot(s.committee.value, [], [])])
  }

  function AfterVote(s: State, id: nat, b: Ballot, section: Section): State
    requires id in s.motions
  {
    s.(approvals := s.approvals[Key(s.motions[id].proposer, id) := b],
       motions := s.motions[id := s.motions[id].(section := section)])
  }

  function AfterTakeCoin(s: State, h: nat, proposer: Name, motion: nat, quantity: int, sym: nat, id: nat): State
    requires s.committee.Some?
  {
    s.(coins := s.coins[Key(proposer, id) :=
                  Coin(motion, quantity, sym, proposer, Pending, h + APPROVE_BLOCK_NUM,
                       Ballot(s.committee.value, [], []))])
  }

  function AfterAgreeCoin(s: State, approver: Name, key: Key): State
    requires key in s.coins
    requires Approved(s.coins[key].ballot, approver).Passes() ==> s.coins[key].motion in s.motions
  {
    var t := s.coins[key];
    var b := Approved(t.ballot, approver);
    if b.Passes() then
      var m := s.motions[t.motion];
      s.(coins := s.coins[key := t.(ballot := b, section := Passed)],
         motions := s.motions[t.motion := m.(quantity := m.quantity - t.quantity)])
    else s.(coins := s.coins[key := t.(ballot := b)])
  }

  function Effect(s: State, x: Host, a: Action): State
    requires Can(s, x, a)
  {
    match a
    case Handover(members) => s.(committee := Some(members))
    case Propose(proposer, quantity, sym, id) => AfterPropose(s, x.height, proposer, quantity, sym, id)
    case Approve(approver, id) =>
      var b := Approved(s.approvals[Key(s.motions[id].proposer, id)], approver);
      AfterVote(s, id, b, if b.Passes() then Passed else s.motions[id].section)
    case Unapprove(approver, id) =>
      var b := Unapproved(s.approvals[Key(s.motions[id].proposer, id)], approver);
      AfterVote(s, id, b, if b.Fails() then Rejected else s.motions[id].section)
    case TakeCoin(proposer, motion, quantity, sym, id) =>
      AfterTakeCoin(s, x.height, proposer, motion, quantity, sym, id)
    case AgreeCoin(approver, proposer, id) => AfterAgreeCoin(s, approver, Key(proposer, id))
    case UnagreeCoin(approver, proposer, id) =>
      var t := s.coins[Key(proposer, id)];
      var b := Unapproved(t.ballot, approver);
      s.(coins := s.coins[Key(proposer, id) := t.(ballot := b, section := if b.Fails() then Rejected else t.section)])
    case TurnDown(id) => s.(motions := s.motions[id := s.motions[id].(section := TurnedDown)])
    case CloseMotion(id) =>
      s.(motions := s.motions - {id}, approvals := s.approvals - {Key(s.motions[id].proposer, id)})
    case CloseCoin(proposer, id) => s.(coins := s.coins - {Key(proposer, id)})
  }

  function Next(s: State, x: Host, a: Action): State {
    if Can(s, x, a) then Effect(s, x, a) else s
  }

  // ---- votes ----

  /** No committee, of whatever size, can both pass and reject. */
  lemma QuorumsExclude(b: Ballot)
    ensures !(b.Passes() && b.Fails())
  {
  }

  lemma {:induction false} EraseTakesOne(names: seq<Name>, n: Name)
    requires n in names
    ensures multiset(Erase(names, n)) + multiset{n} == multiset(names)
    ensures |Erase(names, n)| == |names| - 1
  {
    assert names == [names[0]] + names[1..];
    if names[0] != n {
      EraseTakesOne(names[1..], n);
    }
  }

  /** A vote moves one member between the lists and keeps the committee together. */
  lemma VotesKeepVoters(b: Ballot, n: Name)
    requires n in b.requested
    ensures Approved(b, n).Voters() == b.Voters() && Approved(b, n).Size() == b.Size()
    ensures Unapproved(b, n).Voters() == b.Voters() && Unapproved(b, n).Size() == b.Size()
  {
    EraseTakesOne(b.requested, n);
  }

  predicate SectionFits(section: Section, b: Ballot) {
    match section
    case Pending => !b.Passes() && !b.Fails()
    case Passed => b.Passes()
    case Rejected => b.Fails()
    case TurnedDown => true
  }

  // ---- what the run did to each motion ----

  // Who was asked, what was proposed and what has been paid out, for each motion; and who was asked, for each coin.
  datatype Record = Record(voters: multiset<Name>, proposed: int, paid: int)
  datatype Book = Book(motions: map<nat, Record>, coins: map<Key, multiset<Name>>)

  datatype Payout = Payout(motion: nat, receiver: Name, quantity: int)

  /** What a step pays: from which motion, to whom, and how much. */
  function Payment(s: State, x: Host, a: Action): Option<Payout> {
    if Can(s, x, a) && a.AgreeCoin? && Approved(s.coins[Key(a.proposer, a.id)].ballot, a.approver).Passes() then
      var t := s.coins[Key(a.proposer, a.id)];
      Some(Payout(t.motion, t.receiver, t.quantity))
    else None
  }

  function RecordAt(k: Book, id: nat): Record {
    if id in k.motions then k.motions[id] else Record(multiset{}, 0, 0)
  }

  function BookAfter(k: Book, s: State, x: Host, a: Action): Book {
    if !Can(s, x, a) then k
    else if a.Propose? then
      k.(motions := k.motions[a.id := Record(multiset(s.committee.value), a.quantity, 0)])
    else if a.TakeCoin? then
      k.(coins := k.coins[Key(a.proposer, a.id) := multiset(s.committee.value)])
    else
      match Payment(s, x, a)
      case Some(p) =>
        k.(motions := k.motions[p.motion := RecordAt(k, p.motion).(paid := RecordAt(k, p.motion).paid + p.quantity)])
      case None => k
  }

  predicate MotionOk(s: State, k: Book, id: nat)
    requires id in s.motions
  {
    var m, r := s.motions[id], RecordAt(k, id);
    Key(m.proposer, id) in s.approvals &&
    s.approvals[Key(m.proposer, id)].Voters() == r.voters && SectionFits(m.section, s.approvals[Key(m.proposer, id)]) &&
    r.paid + m.quantity == r.proposed && 0 <= r.paid && (0 <= m.quantity || r.paid == 0)
  }

  predicate CoinOk(t: Coin, voters: multiset<Name>) {
    t.ballot.Voters() == voters && SectionFits(t.section, t.ballot) && t.section != TurnedDown
  }

  predicate Inv(s: State, k: Book) {
    (forall id | id in s.motions :: MotionOk(s, k, id)) &&
    (forall key | key in s.approvals :: key.id in s.motions && s.motions[key.id].proposer == key.proposer) &&
    (forall key | key in s.coins :: key in k.coins && CoinOk(s.coins[key], k.coins[key]) &&
      s.coins[key].receiver == key.proposer)
  }

  /** The section after a vote agrees with the votes again; a disapproval cannot undo a pass. */
  lemma SectionAfterVote(b: Ballot, section: Section, n: Name)
    requires n in b.requested && SectionFits(section, b)
    ensures var b' := Approved(b, n);
      section == Pending ==> SectionFits(if b'.Passes() then Passed else section, b')
    ensures var b' := Unapproved(b, n);
      SectionFits(if b'.Fails() then Rejected else section, b') && (section == Passed ==> !b'.Fails())
  {
    VotesKeepVoters(b, n);
  }

  lemma VoteKeeps(s: State, k: Book, id: nat, b: Ballot, section: Section)
    requires Inv(s, k) && id in s.motions && SectionFits(section, b)
    requires b.Voters() == s.approvals[Key(s.motions[id].proposer, id)].Voters()
    ensures Inv(AfterVote(s, id, b, section), k)
  {
    hide SectionFits, CoinOk, Ballot.Voters;
    assert MotionOk(s, k, id);
    var s' := AfterVote(s, id, b, section);
    forall i | i in s'.motions ensures MotionOk(s', k, i) {
      assert MotionOk(s, k, i);
    }
  }

  lemma CoinVoteKeeps(s: State, k: Book, key: Key, t: Coin)
    requires Inv(s, k) && key in s.coins && CoinOk(t, k.coins[key]) && t.receiver == key.proposer
    ensures Inv(s.(coins := s.coins[key := t]), k)
  {
    hide CoinOk, SectionFits, Ballot.Voters;
    var s' := s.(coins := s.coins[key := t]);
    forall i | i in s'.motions ensures MotionOk(s', k, i) {
      assert MotionOk(s, k, i);
    }
  }

  lemma DrawKeeps(s: State, k: Book, id: nat, quantity: int)
    requires Inv(s, k) && id in s.motions && 0 <= quantity <= s.motions[id].quantity
    ensures Inv(s.(motions := s.motions[id := s.motions[id].(quantity := s.motions[id].quantity - quantity)]),
                k.(motions := k.motions[id := RecordAt(k, id).(paid := RecordAt(k, id).paid + quantity)]))
  {
    hide CoinOk, SectionFits, Ballot.Voters;
    assert MotionOk(s, k, id);
    var s' := s.(motions := s.motions[id := s.motions[id].(quantity := s.motions[id].quantity - quantity)]);
    var k' := k.(motions := k.motions[id := RecordAt(k, id).(paid := RecordAt(k, id).paid + quantity)]);
    forall i | i in s'.motions ensures MotionOk(s', k', i) {
      assert MotionOk(s, k, i);
    }
  }

  lemma AgreeCoinKeeps(s: State, k: Book, x: Host, a: Action)
    requires Inv(s, k) && a.AgreeCoin? && Can(s, x, a)
    ensures Inv(Effect(s, x, a), BookAfter(k, s, x, a))
  {
    hide Erase, Inv, SectionFits, Ballot.Passes, Ballot.Fails, Ballot.Voters;
    var key := Key(a.proposer, a.id);
    var t := s.coins[key];
    var b := Approved(t.ballot, a.approver);
    InvGives(s, k, key);
    VotesKeepVoters(t.ballot, a.approver);
    SectionAfterVote(t.ballot, t.section, a.approver);
    var t' := t.(ballot := b, section := if b.Passes() then Passed else t.section);
    hide Approved;
    CoinVoteKeeps(s, k, key, t');
    if b.Passes() {
      DrawKeeps(s.(coins := s.coins[key := t']), k, t.motion, t.quantity);
    }
  }

  lemma InvGives(s: State, k: Book, key: Key)
    requires Inv(s, k) && key in s.coins
    ensures key in k.coins && CoinOk(s.coins[key], k.coins[key]) && s.coins[key].receiver == key.proposer
  {
  }

  lemma UnagreeCoinKeeps(s: State, k: Book, x: Host, a: Action)
    requires Inv(s, k) && a.UnagreeCoin? && Can(s, x, a)
    ensures Inv(Effect(s, x, a), k)
  {
    hide Erase, Inv, SectionFits, Ballot.Passes, Ballot.Fails, Ballot.Voters;
    var key := Key(a.proposer, a.id);
    var t := s.coins[key];
    var b := Unapproved(t.ballot, a.approver);
    InvGives(s, k, key);
    VotesKeepVoters(t.ballot, a.approver);
    SectionAfterVote(t.ballot, t.section, a.approver);
    CoinVoteKeeps(s, k, key, t.(ballot := b, section := if b.Fails() then Rejected else t.section));
  }

  lemma VoteActionKeeps(s: State, k: Book, x: Host, a: Action)
    requires Inv(s, k) && (a.Approve? || a.Unapprove?) && Can(s, x, a)
    ensures Inv(Effect(s, x, a), k)
  {
    hide Erase, SectionFits, CoinOk, Ballot.Passes, Ballot.Fails, Ballot.Voters;
    assert MotionOk(s, k, a.id);
    hide Inv, MotionOk;
    var b, section := s.approvals[Key(s.motions[a.id].proposer, a.id)], s.motions[a.id].section;
    VotesKeepVoters(b, a.approver);
    SectionAfterVote(b, section, a.approver);
    if a.Approve? {
      var b' := Approved(b, a.approver);
      VoteKeeps(s, k, a.id, b', if b'.Passes() then Passed else section);
    } else {
      var b' := Unapproved(b, a.approver);
      VoteKeeps(s, k, a.id, b', if b'.Fails() then Rejected else section);
    }
  }

  lemma NewBallotFits(members: seq<Name>)
    ensures var b := Ballot(members, [], []); SectionFits(Pending, b) && b.Voters() == multiset(members)
  {
  }

  lemma ProposeKeeps(s: State, k: Book, h: nat, proposer: Name, quantity: int, sym: nat, id: nat)
    requires Inv(s, k) && id !in s.motions && s.committee.Some?
    ensures Inv(AfterPropose(s, h, proposer, quantity, sym, id),
                k.(motions := k.motions[id := Record(multiset(s.committee.value), quantity, 0)]))
  {
    hide CoinOk, SectionFits, Ballot.Voters;
    var s', k' := AfterPropose(s, h, proposer, quantity, sym, id),
                  k.(motions := k.motions[id := Record(multiset(s.committee.value), quantity, 0)]);
    NewBallotFits(s.committee.value);
    assert MotionOk(s', k', id);
    forall i | i in s.motions ensures MotionOk(s', k', i) {
      OtherMotion(s, s', k, k', i);
    }
    hide MotionOk;
  }

  /** A motion whose rows and record are as before is as good as before. */
  lemma OtherMotion(s: State, s': State, k: Book, k': Book, id: nat)
    requires id in s.motions && MotionOk(s, k, id)
    requires id in s'.motions && s'.motions[id] == s.motions[id] && RecordAt(k', id) == RecordAt(k, id)
    requires var key := Key(s.motions[id].proposer, id);
      key in s.approvals ==> key in s'.approvals && s'.approvals[key] == s.approvals[key]
    ensures MotionOk(s', k', id)
  {
  }

  lemma TakeCoinKeeps(s: State, k: Book, x: Host, a: Action)
    requires Inv(s, k) && a.TakeCoin? && Can(s, x, a)
    ensures Inv(Effect(s, x, a), BookAfter(k, s, x, a))
  {
    hide SectionFits, Ballot.Voters, HasPledge;
    var s', k' := Effect(s, x, a), BookAfter(k, s, x, a);
    NewBallotFits(s.committee.value);
    forall id | id in s'.motions ensures MotionOk(s', k', id) {
      assert MotionOk(s, k, id);
    }
  }

  lemma CloseMotionKeeps(s: State, k: Book, id: nat)
    requires Inv(s, k) && id in s.motions
    ensures Inv(s.(motions := s.motions - {id}, approvals := s.approvals - {Key(s.motions[id].proposer, id)}), k)
  {
    hide CoinOk, SectionFits, Ballot.Voters;
    var s' := s.(motions := s.motions - {id}, approvals := s.approvals - {Key(s.motions[id].proposer, id)});
    forall i | i in s'.motions ensures MotionOk(s', k, i) {
      assert MotionOk(s, k, i);
    }
  }

  lemma TurnDownKeeps(s: State, k: Book, id: nat)
    requires Inv(s, k) && id in s.motions
    ensures Inv(s.(motions := s.motions[id := s.motions[id].(section := TurnedDown)]), k)
  {
    hide CoinOk, Ballot.Voters, Ballot.Passes, Ballot.Fails;
    assert MotionOk(s, k, id);
    hide MotionOk, Inv;
    var key := Key(s.motions[id].proposer, id);
    VoteKeeps(s, k, id, s.approvals[key], TurnedDown);
    assert s.approvals[key := s.approvals[key]] == s.approvals;
  }

  lemma OtherActionKeeps(s: State, k: Book, x: Host, a: Action)
    requires Inv(s, k) && (a.Handover? || a.CloseCoin?) && Can(s, x, a)
    ensures Inv(Effect(s, x, a), k)
  {
    hide CoinOk, SectionFits, Ballot.Voters;
    var s' := Effect(s, x, a);
    forall id | id in s'.motions ensures MotionOk(s', k, id) {
      assert MotionOk(s, k, id);
    }
  }

  lemma EffectKeeps(s: State, k: Book, x: Host, a: Action)
    requires Inv(s, k) && Can(s, x, a)
    ensures Inv(Effect(s, x, a), BookAfter(k, s, x, a))
  {
    hide Inv, AfterPropose, AfterTakeCoin, AfterAgreeCoin, AfterVote, Approved, Unapproved;
    hide MayVote, MayVoteOnCoin, CanPay, HasPledge;
    if a.Propose? {
      ProposeKeeps(s, k, x.height, a.proposer, a.quantity, a.sym, a.id);
    } else if a.Approve? || a.Unapprove? {
      VoteActionKeeps(s, k, x, a);
    } else if a.AgreeCoin? {
      AgreeCoinKeeps(s, k, x, a);
    } else if a.UnagreeCoin? {
      UnagreeCoinKeeps(s, k, x, a);
    } else if a.TakeCoin? {
      TakeCoinKeeps(s, k, x, a);
    } else if a.TurnDown? {
      TurnDownKeeps(s, k, a.id);
    } else if a.CloseMotion? {
      CloseMotionKeeps(s, k, a.id);
    } else {
      OtherActionKeeps(s, k, x, a);
    }
  }

  // ---- runs ----

  datatype Step = Step(x: Host, a: Action)

  const FRESH := State(None, map[], map[], map[])
  const NO_BOOK := Book(map[], map[])

  lemma FreshIsOk()
    ensures Inv(FRESH, NO_BOOK)
  {
  }

  function Exec(s: State, run: seq<Step>): State
    decreases |run|
  {
    if run == [] then s else Exec(Next(s, run[0].x, run[0].a), run[1..])
  }

  function BookOf(k: Book, s: State, run: seq<Step>): Book
    decreases |run|
  {
    if run == [] then k else BookOf(BookAfter(k, s, run[0].x, run[0].a), Next(s, run[0].x, run[0].a), run[1..])
  }

  lemma {:induction false} RunKeeps(s: State, k: Book, run: seq<Step>)
    requires Inv(s, k)
    ensures Inv(Exec(s, run), BookOf(k, s, run))
    decreases |run|
  {
    hide Inv, Can, Effect, BookAfter;
    if run != [] {
      var x, a := run[0].x, run[0].a;
      if Can(s, x, a) {
        EffectKeeps(s, k, x, a);
      } else {
        NothingBooked(k, s, x, a);
      }
      RunKeeps(Next(s, x, a), BookAfter(k, s, x, a), run[1..]);
    }
  }

  lemma NothingBooked(k: Book, s: State, x: Host, a: Action)
    requires !Can(s, x, a)
    ensures BookAfter(k, s, x, a) == k
  {
  }

  /** In every run, for each motion: asked, approving and disapproving members together are the committee it was
      proposed to; what was paid plus what remains is what was proposed, never more than that is paid; and its section
      agrees with its votes. */
  lemma BudgetAccounting(run: seq<Step>, id: nat)
    requires id in Exec(FRESH, run).motions
    ensures var s, r := Exec(FRESH, run), RecordAt(BookOf(NO_BOOK, FRESH, run), id);
      var m := s.motions[id];
      Key(m.proposer, id) in s.approvals &&
      var b := s.approvals[Key(m.proposer, id)];
      b.Voters() == r.voters &&
      r.paid + m.quantity == r.proposed && 0 <= r.paid <= Max(0, r.proposed) &&
      (m.section == Passed ==> b.Passes() && !b.Fails()) &&
      (m.section == Rejected ==> b.Fails() && !b.Passes()) &&
      (m.section == Pending ==> !b.Passes() && !b.Fails())
  {
    RunKeeps(FRESH, NO_BOOK, run);
    assert MotionOk(Exec(FRESH, run), BookOf(NO_BOOK, FRESH, run), id);
    QuorumsExclude(Exec(FRESH, run).approvals[Key(Exec(FRESH, run).motions[id].proposer, id)]);
  }

  /** The same for the vote on a coin. */
  lemma CoinAccounting(run: seq<Step>, key: Key)
    requires key in Exec(FRESH, run).coins
    ensures var t, k := Exec(FRESH, run).coins[key], BookOf(NO_BOOK, FRESH, run);
      key in k.coins && t.ballot.Voters() == k.coins[key] &&
      (t.section == Passed <==> t.ballot.Passes()) && (t.section == Rejected <==> t.ballot.Fails())
  {
    RunKeeps(FRESH, NO_BOOK, run);
    QuorumsExclude(Exec(FRESH, run).coins[key].ballot);
  }

  // ---- sections over a run ----

  /** The row of the motion is there in every state of the run. */
  predicate Stays(s: State, run: seq<Step>, id: nat)
    decreases |run|
  {
    id in s.motions && (run != [] ==> Stays(Next(s, run[0].x, run[0].a), run[1..], id))
  }

  lemma PassedStep(s: State, k: Book, x: Host, a: Action, id: nat)
    requires Inv(s, k) && id in s.motions && id in Next(s, x, a).motions
    requires s.motions[id].section == Passed && a != TurnDown(id)
    ensures Next(s, x, a).motions[id].section == Passed
  {
    hide Erase, Approved, Unapproved, SectionFits, L.CanTransfer, Ballot.Passes, Ballot.Fails, Ballot.Voters;
    assert MotionOk(s, k, id);
    hide Inv, MotionOk;
    if a.Unapprove? && Can(s, x, a) && a.id == id {
      SectionAfterVote(s.approvals[Key(s.motions[id].proposer, id)], Passed, a.approver);
    }
  }

  /** A passed motion stays passed for as long as its row is there and nobody turns it down, although unapprove does
      not look at the section. */
  lemma {:induction false} PassedUntilTurnedDown(s: State, k: Book, run: seq<Step>, id: nat)
    requires Inv(s, k) && Stays(s, run, id) && s.motions[id].section == Passed
    requires forall i | 0 <= i < |run| :: run[i].a != TurnDown(id)
    ensures id in Exec(s, run).motions && Exec(s, run).motions[id].section == Passed
    decreases |run|
  {
    hide Inv, Next, BookAfter;
    if run != [] {
      var x, a := run[0].x, run[0].a;
      RunKeeps(s, k, [run[0]]);
      OneStep(s, k, run[0]);
      PassedStep(s, k, x, a, id);
      PassedUntilTurnedDown(Next(s, x, a), BookAfter(k, s, x, a), run[1..], id);
    }
  }

  lemma OneStep(s: State, k: Book, step: Step)
    ensures Exec(s, [step]) == Next(s, step.x, step.a)
    ensures BookOf(k, s, [step]) == BookAfter(k, s, step.x, step.a)
  {
    hide Next, BookAfter;
    assert [step][1..] == [];
  }

  lemma SectionStep(s: State, x: Host, a: Action, id: nat)
    requires id in s.motions && id in Next(s, x, a).motions
    ensures s.motions[id].section in {Rejected, TurnedDown} ==>
      Next(s, x, a).motions[id].section in {Rejected, TurnedDown}
    ensures Next(s, x, a).motions[id].section == Pending ==> s.motions[id].section == Pending
  {
    hide Erase, L.CanTransfer;
  }

  /** A motion that was rejected or turned down never passes, however the run goes on. */
  lemma {:induction false} NeverPassesAgain(s: State, run: seq<Step>, id: nat)
    requires Stays(s, run, id) && s.motions[id].section in {Rejected, TurnedDown}
    ensures id in Exec(s, run).motions && Exec(s, run).motions[id].section in {Rejected, TurnedDown}
    decreases |run|
  {
    hide Next;
    if run != [] {
      SectionStep(s, run[0].x, run[0].a, id);
      NeverPassesAgain(Next(s, run[0].x, run[0].a), run[1..], id);
    }
  }

  // ---- payments ----

  /** The coin is pending, and with this approval its committee, as it was when the coin was put up, has passed it. */
  predicate PassedByCommittee(s: State, k: Book, a: Action) {
    a.AgreeCoin? && Key(a.proposer, a.id) in s.coins && Key(a.proposer, a.id) in k.coins &&
    var t := s.coins[Key(a.proposer, a.id)];
    t.section == Pending && Approved(t.ballot, a.approver).Passes() &&
    Approved(t.ballot, a.approver).Voters() == k.coins[Key(a.proposer, a.id)]
  }

  /** A passed motion covers the payment, and the system contract accepts the transfer. */
  predicate Covered(s: State, x: Host, p: Payout) {
    p.motion in s.motions && s.motions[p.motion].section == Passed && 0 <= p.quantity <= s.motions[p.motion].quantity &&
    L.CanTransfer(x.ledger, L.Context(x.height, SELF, x.frozen), SELF, p.receiver, p.quantity)
  }

  /** The motion has lost the payment and nothing else, and the coin is not pending any more. */
  predicate Drawn(s: State, s': State, a: Action, p: Payout)
    requires a.AgreeCoin?
  {
    p.motion in s.motions && Key(a.proposer, a.id) in s'.coins && s'.coins[Key(a.proposer, a.id)].section == Passed &&
    s'.motions ==
      s.motions[p.motion := s.motions[p.motion].(quantity := s.motions[p.motion].quantity - p.quantity)]
  }

  /** Coins are paid only when their committee passed them, from a passed motion that covers them, by a transfer that is
      accepted, to the proposer of the coin; the motion is drawn down by the payment, and the coin is settled. */
  lemma PaymentIsDue(s: State, k: Book, x: Host, a: Action)
    requires Inv(s, k) && Payment(s, x, a).Some?
    ensures PassedByCommittee(s, k, a)
    ensures Covered(s, x, Payment(s, x, a).value) && Payment(s, x, a).value.receiver == a.proposer
    ensures Drawn(s, Next(s, x, a), a, Payment(s, x, a).value)
  {
    hide Erase, SectionFits, Ballot.Passes, Ballot.Voters;
    InvGives(s, k, Key(a.proposer, a.id));
    VotesKeepVoters(s.coins[Key(a.proposer, a.id)].ballot, a.approver);
  }

  /** The same in every reachable state. */
  lemma PaymentsInRuns(run: seq<Step>, x: Host, a: Action)
    requires Payment(Exec(FRESH, run), x, a).Some?
    ensures PassedByCommittee(Exec(FRESH, run), BookOf(NO_BOOK, FRESH, run), a)
    ensures var s, p := Exec(FRESH, run), Payment(Exec(FRESH, run), x, a).value;
      Covered(s, x, p) && p.receiver == a.proposer && Drawn(s, Next(s, x, a), a, p)
  {
    hide Inv, PassedByCommittee, Covered, Drawn, Next, Payment;
    FreshIsOk();
    RunKeeps(FRESH, NO_BOOK, run);
    PaymentIsDue(Exec(FRESH, run), BookOf(NO_BOOK, FRESH, run), x, a);
    hide Exec;
    PassedNames(Exec(FRESH, run), BookOf(NO_BOOK, FRESH, run), a);
  }

  lemma PassedNames(s: State, k: Book, a: Action)
    requires PassedByCommittee(s, k, a)
    ensures a.AgreeCoin?
  {
  }

  // ---- which motion a coin is paid from ----

  predicate Ordered(now: nat, run: seq<Step>)
    decreases |run|
  {
    run == [] || (now <= run[0].x.height && Ordered(run[0].x.height, run[1..]))
  }

  /** The coin is drawn on a motion of its own receiver, as takecoin demands. */
  predicate OnOwnMotion(s: State, key: Key) {
    key in s.coins && s.coins[key].motion in s.motions &&
    s.motions[s.coins[key].motion].proposer == s.coins[key].receiver
  }

  predicate SameTerms(t: Coin, t': Coin) {
    t'.motion == t.motion && t'.receiver == t.receiver && t'.end == t.end
  }

  /** A step leaves the terms of a coin and of a motion alone. */
  lemma TermsStep(s: State, x: Host, a: Action, key: Key, id: nat)
    ensures key in s.coins && key in Next(s, x, a).coins ==> SameTerms(s.coins[key], Next(s, x, a).coins[key])
    ensures id in s.motions && id in Next(s, x, a).motions ==>
              var m, m' := s.motions[id], Next(s, x, a).motions[id];
              m'.proposer == m.proposer && m'.sym == m.sym && m'.approveEnd == m.approveEnd
  {
    hide Erase, L.CanTransfer, Ballot.Passes, Ballot.Fails;
  }

  lemma {:induction false} CoinTermsStay(s: State, run: seq<Step>, key: Key)
    requires CoinStays(s, run, key)
    ensures key in Exec(s, run).coins && SameTerms(s.coins[key], Exec(s, run).coins[key])
    decreases |run|
  {
    hide Next;
    if run != [] {
      TermsStep(s, run[0].x, run[0].a, key, 0);
      CoinTermsStay(Next(s, run[0].x, run[0].a), run[1..], key);
    }
  }

  /** While neither the coin nor its motion is closed, the coin stays drawn on a motion of its receiver, on the same
      terms. */
  lemma {:induction false} OwnMotionStays(s: State, run: seq<Step>, key: Key)
    requires OnOwnMotion(s, key) && CoinStays(s, run, key) && Stays(s, run, s.coins[key].motion)
    ensures OnOwnMotion(Exec(s, run), key) && Exec(s, run).coins[key].motion == s.coins[key].motion
    ensures Exec(s, run).motions[s.coins[key].motion].approveEnd == s.motions[s.coins[key].motion].approveEnd
    decreases |run|
  {
    hide Next;
    if run != [] {
      TermsStep(s, run[0].x, run[0].a, key, s.coins[key].motion);
      OwnMotionStays(Next(s, run[0].x, run[0].a), run[1..], key);
    }
  }

  /** There is no motion of that id, or one whose publicity period ends no earlier than this. */
  predicate Renewed(s: State, id: nat, end: nat) {
    id in s.motions ==> end <= s.motions[id].approveEnd
  }

  lemma RenewedStep(s: State, x: Host, a: Action, id: nat, from: nat)
    requires from <= x.height && Renewed(s, id, from + APPROVE_BLOCK_NUM)
    ensures Renewed(Next(s, x, a), id, from + APPROVE_BLOCK_NUM)
  {
    if id in s.motions {
      TermsStep(s, x, a, Key(0, 0), id);
    }
    hide Erase, L.CanTransfer, Ballot.Passes, Ballot.Fails;
  }

  lemma {:induction false} RenewedRun(s: State, run: seq<Step>, id: nat, from: nat, now: nat)
    requires from <= now && Ordered(now, run) && Renewed(s, id, from + APPROVE_BLOCK_NUM)
    ensures Renewed(Exec(s, run), id, from + APPROVE_BLOCK_NUM)
    decreases |run|
  {
    hide Next, Renewed;
    if run != [] {
      RenewedStep(s, run[0].x, run[0].a, id, from);
      RenewedRun(Next(s, run[0].x, run[0].a), run[1..], id, from, run[0].x.height);
    }
  }

  /** After a motion was closed, whatever has its id is still in its publicity period for APPROVE_BLOCK_NUM blocks. */
  lemma {:induction false} ClosedIsRenewed(s: State, run: seq<Step>, id: nat, from: nat, now: nat)
    requires from <= now && Ordered(now, run) && id in s.motions && !Stays(s, run, id)
    ensures Renewed(Exec(s, run), id, from + APPROVE_BLOCK_NUM)
    decreases |run|
  {
    hide Next;
    var s' := Next(s, run[0].x, run[0].a);
    if id in s'.motions {
      ClosedIsRenewed(s', run[1..], id, from, run[0].x.height);
    } else {
      RenewedRun(s', run[1..], id, from, run[0].x.height);
    }
  }

  function LastHeight(now: nat, run: seq<Step>): nat
    decreases |run|
  {
    if run == [] then now else LastHeight(run[0].x.height, run[1..])
  }

  lemma {:induction false} LastHeightIsLater(now: nat, run: seq<Step>)
    requires Ordered(now, run)
    ensures now <= LastHeight(now, run)
    decreases |run|
  {
    if run != [] {
      LastHeightIsLater(run[0].x.height, run[1..]);
    }
  }

  /** A coin, from the takecoin that put it up to its payment, with anything in between: it is paid from the motion it
      was drawn on, which then is its receiver's, if and only if that motion was not closed since; and that is the
      case if and only if the motion it is paid from is past its publicity period, which takecoin tests and agreecoin
      does not. */
  lemma PaidFromItsMotion(s: State, take: Step, after: seq<Step>, x: Host, a: Action)
    requires take.a.TakeCoin? && Can(s, take.x, take.a)
    requires Ordered(take.x.height, after) && LastHeight(take.x.height, after) <= x.height
    requires CoinStays(Next(s, take.x, take.a), after, Key(take.a.proposer, take.a.id))
    requires a.AgreeCoin? && Key(a.proposer, a.id) == Key(take.a.proposer, take.a.id)
    requires Payment(Exec(Next(s, take.x, take.a), after), x, a).Some?
    ensures var s1, id := Next(s, take.x, take.a), take.a.motion; var s2 := Exec(s1, after);
      Payment(s2, x, a).value.motion == id && Payment(s2, x, a).value.receiver == take.a.proposer && id in s2.motions &&
      (Stays(s1, after, id) <==> s2.motions[id].approveEnd < x.height) &&
      (Stays(s1, after, id) ==> s2.motions[id].proposer == take.a.proposer)
  {
    var s1, key, id := Next(s, take.x, take.a), Key(take.a.proposer, take.a.id), take.a.motion;
    assert OnOwnMotion(s1, key) && s1.motions[id].approveEnd < take.x.height;
    assert s1.coins[key].end == take.x.height + APPROVE_BLOCK_NUM && s1.coins[key].motion == id;
    assert s1.coins[key].receiver == take.a.proposer;
    hide Next, CoinStays, Stays, Exec;
    CoinTermsStay(s1, after, key);
    LastHeightIsLater(take.x.height, after);
    var s2 := Exec(s1, after);
    PaymentIsOpen(s2, x, a);
    if Stays(s1, after, id) {
      OwnMotionStays(s1, after, key);
    } else {
      ClosedIsRenewed(s1, after, id, take.x.height, take.x.height);
    }
  }

  lemma PaymentIsOpen(s: State, x: Host, a: Action)
    requires Payment(s, x, a).Some?
    ensures a.AgreeCoin? && Key(a.proposer, a.id) in s.coins
    ensures var t := s.coins[Key(a.proposer, a.id)];
      x.height < t.end && Payment(s, x, a).value == Payout(t.motion, t.receiver, t.quantity) && t.motion in s.motions
  {
    hide Erase, Ballot.Passes;
  }

  // ---- a coin that outlives its motion ----

  /** The host of the example: pledges of 20 and 30, and a budget account that can pay them. */
  function At(height: nat, signer: Name): Host {
    Host(height, signer, map[20 := 2000000, 30 := 2000000],
         L.Ledger(map[SELF := 1000, 20 := 0, 30 := 0], map[], map[], map[], map[], map[], 0, {}, map[]), {})
  }

  /** Member 10 alone is the committee. 20 proposes motion 0, has it passed, puts up a coin of 50 and closes the motion;
      next proposes under the free id 0 and has that passed. */
  function StaleRun(next: Name): seq<Step> {
    [Step(At(0, SELF), Handover([10])),
     Step(At(0, 20), Propose(20, 100, CORE, 0)),
     Step(At(1, 10), Approve(10, 0)),
     Step(At(APPROVE_BLOCK_NUM + 1, 20), TakeCoin(20, 0, 50, CORE, 0)),
     Step(At(APPROVE_BLOCK_NUM + 1, 20), CloseMotion(0)),
     Step(At(APPROVE_BLOCK_NUM + 1, next), Propose(next, 100, CORE, 0)),
     Step(At(APPROVE_BLOCK_NUM + 2, 10), Approve(10, 0))]
  }

  const ASKED_TEN := Ballot([10], [], [])
  const TEN_APPROVED := Ballot([], [10], [])
  const STALE_COIN := Coin(0, 50, CORE, 20, Pending, 2 * APPROVE_BLOCK_NUM + 1, ASKED_TEN)

  /** The tables of the example between its steps. */
  function StaleState(proposer: Name, passed: bool, end: nat, coins: map<Key, Coin>): State {
    State(Some([10]), map[0 := Motion(100, CORE, proposer, if passed then Passed else Pending, end)],
          map[Key(proposer, 0) := if passed then TEN_APPROVED else ASKED_TEN], coins)
  }

  lemma TenDecides()
    ensures Approved(ASKED_TEN, 10) == TEN_APPROVED && TEN_APPROVED.Passes()
  {
    assert Erase([10], 10) == [];
  }

  lemma FirstMotionSteps()
    ensures var s0 := State(Some([10]), map[], map[], map[]); var end := APPROVE_BLOCK_NUM;
      Next(FRESH, At(0, SELF), Handover([10])) == s0 &&
      Next(s0, At(0, 20), Propose(20, 100, CORE, 0)) == StaleState(20, false, end, map[]) &&
      Next(StaleState(20, false, end, map[]), At(1, 10), Approve(10, 0)) == StaleState(20, true, end, map[])
  {
    TenDecides();
    hide Approved, Ballot.Passes;
  }

  lemma CoinSteps()
    ensures var end := APPROVE_BLOCK_NUM; var coins := map[Key(20, 0) := STALE_COIN];
      Next(StaleState(20, true, end, map[]), At(end + 1, 20), TakeCoin(20, 0, 50, CORE, 0)) ==
        StaleState(20, true, end, coins) &&
      Next(StaleState(20, true, end, coins), At(end + 1, 20), CloseMotion(0)) ==
        State(Some([10]), map[], map[], coins)
  {
  }

  lemma SecondMotionSteps(next: Name)
    requires next in {20, 30}
    ensures var end := APPROVE_BLOCK_NUM; var coins := map[Key(20, 0) := STALE_COIN];
      Next(State(Some([10]), map[], map[], coins), At(end + 1, next), Propose(next, 100, CORE, 0)) ==
        StaleState(next, false, 2 * end + 1, coins) &&
      Next(StaleState(next, false, 2 * end + 1, coins), At(end + 2, 10), Approve(10, 0)) ==
        StaleState(next, true, 2 * end + 1, coins)
  {
    TenDecides();
    hide Approved, Ballot.Passes;
  }

  lemma {:induction false} ExecStep(s: State, step: Step, rest: seq<Step>)
    ensures Exec(s, [step] + rest) == Exec(Next(s, step.x, step.a), rest)
  {
    hide Next;
    assert ([step] + rest)[1..] == rest;
  }

  lemma StaleRunEnds(next: Name)
    requires next in {20, 30}
    ensures Exec(FRESH, StaleRun(next)) ==
            StaleState(next, true, 2 * APPROVE_BLOCK_NUM + 1, map[Key(20, 0) := STALE_COIN])
  {
    hide Next, At, StaleState;
    FirstMotionSteps();
    CoinSteps();
    SecondMotionSteps(next);
    var r := StaleRun(next);
    var s1 := Next(FRESH, r[0].x, r[0].a);
    var s2 := Next(s1, r[1].x, r[1].a);
    var s3 := Next(s2, r[2].x, r[2].a);
    var s4 := Next(s3, r[3].x, r[3].a);
    var s5 := Next(s4, r[4].x, r[4].a);
    var s6 := Next(s5, r[5].x, r[5].a);
    assert r == [r[0]] + r[1..] && r[1..] == [r[1]] + r[2..] && r[2..] == [r[2]] + r[3..] && r[3..] == [r[3]] + r[4..];
    assert r[4..] == [r[4]] + r[5..] && r[5..] == [r[5]] + r[6..] && r[6..] == [r[6]] + [];
    ExecStep(FRESH, r[0], r[1..]);
    ExecStep(s1, r[1], r[2..]);
    ExecStep(s2, r[2], r[3..]);
    ExecStep(s3, r[3], r[4..]);
    ExecStep(s4, r[4], r[5..]);
    ExecStep(s5, r[5], r[6..]);
    ExecStep(s6, r[6], []);
  }

  lemma StalePayment(next: Name)
    ensures var s := StaleState(next, true, 2 * APPROVE_BLOCK_NUM + 1, map[Key(20, 0) := STALE_COIN]);
      Payment(s, At(APPROVE_BLOCK_NUM + 3, 10), AgreeCoin(10, 20, 0)) == Some(Payout(0, 20, 50)) &&
      0 in s.motions && s.motions[0].proposer == next && s.motions[0].approveEnd == 2 * APPROVE_BLOCK_NUM + 1
  {
    TenDecides();
    hide Approved, Ballot.Passes;
  }

  /** In this run the motion was closed, and the approval of the old coin pays 20 out of the motion of 30. */
  lemma StaleCoinPaysAnother()
    ensures var s, x, a := Exec(FRESH, StaleRun(30)), At(APPROVE_BLOCK_NUM + 3, 10), AgreeCoin(10, 20, 0);
      Payment(s, x, a) == Some(Payout(0, 20, 50)) && 0 in s.motions && s.motions[0].proposer == 30
  {
    hide Exec, StaleRun, StaleState, Payment;
    StaleRunEnds(30);
    StalePayment(30);
  }

  /** And in this one 20 is paid out of its own new motion, which the coin was never drawn on and whose publicity period
      has not ended. */
  lemma StaleCoinPaysEarly()
    ensures var s, x, a := Exec(FRESH, StaleRun(20)), At(APPROVE_BLOCK_NUM + 3, 10), AgreeCoin(10, 20, 0);
      Payment(s, x, a) == Some(Payout(0, 20, 50)) && 0 in s.motions && s.motions[0].proposer == 20 &&
      x.height < s.motions[0].approveEnd
  {
    hide Exec, StaleRun, StaleState, Payment;
    StaleRunEnds(20);
    StalePayment(20);
  }

  // ---- coins over a run ----

  predicate CoinStays(s: State, run: seq<Step>, key: Key)
    decreases |run|
  {
    key in s.coins && (run != [] ==> CoinStays(Next(s, run[0].x, run[0].a), run[1..], key))
  }

  predicate Pays(s: State, step: Step, key: Key) {
    Payment(s, step.x, step.a).Some? && key == Key(step.a.proposer, step.a.id)
  }

  /** How often the run pays the coin. */
  function TimesPaid(s: State, run: seq<Step>, key: Key): nat
    decreases |run|
  {
    if run == [] then 0
    else (if Pays(s, run[0], key) then 1 else 0) + TimesPaid(Next(s, run[0].x, run[0].a), run[1..], key)
  }

  lemma CoinStep(s: State, step: Step, key: Key)
    requires key in s.coins && key in Next(s, step.x, step.a).coins
    ensures Pays(s, step, key) ==>
              s.coins[key].section == Pending && Next(s, step.x, step.a).coins[key].section == Passed
    ensures s.coins[key].section != Pending ==> Next(s, step.x, step.a).coins[key] == s.coins[key]
    ensures !Pays(s, step, key) && Next(s, step.x, step.a).coins[key].section == Passed ==>
      s.coins[key].section == Passed
  {
    hide Erase, L.CanTransfer;
  }

  /** While its row is there a coin is paid at most once: exactly if the run takes it from pending to passed. */
  lemma {:induction false} PaidOnce(s: State, run: seq<Step>, key: Key)
    requires CoinStays(s, run, key)
    ensures key in Exec(s, run).coins
    ensures TimesPaid(s, run, key) ==
            if s.coins[key].section == Pending && Exec(s, run).coins[key].section == Passed then 1 else 0
    ensures s.coins[key].section != Pending ==> Exec(s, run).coins[key] == s.coins[key]
    decreases |run|
  {
    hide Next, Payment;
    if run != [] {
      CoinStep(s, run[0], key);
      PaidOnce(Next(s, run[0].x, run[0].a), run[1..], key);
    }
  }

  // ---- the contract ----

  /** The contract's tables. Every action either leaves Next of the tables behind or, where a check fails, leaves them
      as they were: what was written before the failing check is put back, as the host drops it. */
  class Contract {
    var committee: Option<seq<Name>>
    var motions: map<nat, Motion>
    var approvals: map<Key, Ballot>
    var coins: map<Key, Coin>

    function View(): State
      reads this
    {
      State(committee, motions, approvals, coins)
    }

    constructor ()
      ensures View() == FRESH
    {
      committee, motions, approvals, coins := None, map[], map[], map[];
    }

    method HandOver(x: Host, members: seq<Name>) returns (ok: bool)
      modifies this
      ensures ok == Can(old(View()), x, Handover(members))
      ensures View() == Next(old(View()), x, Handover(members))
    {
      if x.signer != SELF { return false; }
      committee := Some(members);
      return true;
    }

    method ProposeMotion(x: Host, proposer: Name, quantity: int, sym: nat, id: nat) returns (ok: bool)
      modifies this
      ensures ok == Can(old(View()), x, Propose(proposer, quantity, sym, id))
      ensures View() == Next(old(View()), x, Propose(proposer, quantity, sym, id))
    {
      if x.signer != proposer || !HasPledge(x, proposer) || id in motions { return false; }
      var written := motions;
      motions := motions[id := Motion(quantity, sym, proposer, Pending, x.height + APPROVE_BLOCK_NUM)];
      if committee.None? || Key(proposer, id) in approvals {
        motions := written;
        return false;
      }
      approvals := approvals[Key(proposer, id) := Ballot(committee.value, [], [])];
      return true;
    }

    method ApproveMotion(x: Host, approver: Name, id: nat) returns (ok: bool)
      modifies this
      ensures ok == Can(old(View()), x, Approve(approver, id))
      ensures View() == Next(old(View()), x, Approve(approver, id))
    {
      if x.signer != approver || id !in motions { return false; }
      var m := motions[id];
      if m.approveEnd <= x.height || m.section != Pending { return false; }
      var key := Key(m.proposer, id);
      if key !in approvals || approver !in approvals[key].requested { return false; }
      var b := Approved(approvals[key], approver);
      approvals := approvals[key := b];
      if b.Passes() {
        motions := motions[id := m.(section := Passed)];
      }
      SameMotion(old(motions), id);
      return true;
    }

    method UnapproveMotion(x: Host, approver: Name, id: nat) returns (ok: bool)
      modifies this
      ensures ok == Can(old(View()), x, Unapprove(approver, id))
      ensures View() == Next(old(View()), x, Unapprove(approver, id))
    {
      if x.signer != approver || id !in motions { return false; }
      var m := motions[id];
      if m.approveEnd <= x.height { return false; }
      var key := Key(m.proposer, id);
      if key !in approvals || approver !in approvals[key].requested { return false; }
      var b := Unapproved(approvals[key], approver);
      approvals := approvals[key := b];
      if b.Fails() {
        motions := motions[id := m.(section := Rejected)];
      }
      SameMotion(old(motions), id);
      return true;
    }

    method ProposeCoin(x: Host, proposer: Name, motion: nat, quantity: int, sym: nat, id: nat) returns (ok: bool)
      modifies this
      ensures ok == Can(old(View()), x, TakeCoin(proposer, motion, quantity, sym, id))
      ensures View() == Next(old(View()), x, TakeCoin(proposer, motion, quantity, sym, id))
    {
      if x.signer != proposer || !HasPledge(x, proposer) || motion !in motions { return false; }
      var m := motions[motion];
      if m.approveEnd >= x.height || m.section != Passed || m.proposer != proposer { return false; }
      if m.sym != sym || m.quantity < quantity || committee.None? || Key(proposer, id) in coins { return false; }
      coins := coins[Key(proposer, id) :=
        Coin(motion, quantity, sym, proposer, Pending, x.height + APPROVE_BLOCK_NUM, Ballot(committee.value, [], []))];
      return true;
    }

    method ApproveCoin(x: Host, approver: Name, proposer: Name, id: nat) returns (ok: bool)
      modifies this
      ensures ok == Can(old(View()), x, AgreeCoin(approver, proposer, id))
      ensures View() == Next(old(View()), x, AgreeCoin(approver, proposer, id))
    {
      var key := Key(proposer, id);
      if !MayVoteOnCoin(View(), x, approver, key) { return false; }
      var t := coins[key];
      var written := coins;
      var b := Approved(t.ballot, approver);
      coins := coins[key := t.(ballot := b)];
      if b.Passes() {
        if !CanPay(View(), x, t) {
          coins := written;
          return false;
        }
        coins := coins[key := coins[key].(section := Passed)];
        var m := motions[t.motion];
        motions := motions[t.motion := m.(quantity := m.quantity - t.quantity)];
      }
      return true;
    }

    method UnapproveCoin(x: Host, approver: Name, proposer: Name, id: nat) returns (ok: bool)
      modifies this
      ensures ok == Can(old(View()), x, UnagreeCoin(approver, proposer, id))
      ensures View() == Next(old(View()), x, UnagreeCoin(approver, proposer, id))
    {
      var key := Key(proposer, id);
      if !MayVoteOnCoin(View(), x, approver, key) { return false; }
      var t := coins[key];
      var b := Unapproved(t.ballot, approver);
      coins := coins[key := t.(ballot := b)];
      if b.Fails() {
        coins := coins[key := coins[key].(section := Rejected)];
      }
      return true;
    }

    method TurnMotionDown(x: Host, id: nat) returns (ok: bool)
      modifies this
      ensures ok == Can(old(View()), x, TurnDown(id))
      ensures View() == Next(old(View()), x, TurnDown(id))
    {
      if x.signer != SELF || id !in motions { return false; }
      motions := motions[id := motions[id].(section := TurnedDown)];
      return true;
    }

    method Close(x: Host, id: nat) returns (ok: bool)
      modifies this
      ensures ok == Can(old(View()), x, CloseMotion(id))
      ensures View() == Next(old(View()), x, CloseMotion(id))
    {
      if id !in motions || x.signer != motions[id].proposer { return false; }
      var written, key := motions, Key(motions[id].proposer, id);
      motions := motions - {id};
      if key !in approvals {
        motions := written;
        return false;
      }
      approvals := approvals - {key};
      return true;
    }

    method CloseCoinVote(x: Host, proposer: Name, id: nat) returns (ok: bool)
      modifies this
      ensures ok == Can(old(View()), x, CloseCoin(proposer, id))
      ensures View() == Next(old(View()), x, CloseCoin(proposer, id))
    {
      if x.signer != proposer || Key(proposer, id) !in coins { return false; }
      coins := coins - {Key(proposer, id)};
      return true;
    }
  }

  lemma SameMotion(motions: map<nat, Motion>, id: nat)
    requires id in motions
    ensures motions[id := motions[id].(section := motions[id].section)] == motions
  {
  }
}
