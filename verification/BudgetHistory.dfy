/** The motions and coins of the budget contract by their history: what was proposed, and who voted how. */
module BudgetHistory {
  import opened Base
  import opened Budget
  import L = VoteLedger

  /** The terms of the last accepted proposal under that id, and the members whose accepted votes followed, in order. */
  datatype MotionStory = MotionStory(proposer: Name, quantity: int, sym: nat, approveEnd: nat,
                                     committee: seq<Name>, ayes: seq<Name>, noes: seq<Name>)

  datatype CoinStory = CoinStory(motion: nat, quantity: int, sym: nat, end: nat,
                                 committee: seq<Name>, ayes: seq<Name>, noes: seq<Name>)

  function MotionAfter(h: Option<MotionStory>, s: State, step: Step, id: nat): Option<MotionStory> {
    if !Can(s, step.x, step.a) then h
    else
      match step.a
      case Propose(proposer, quantity, sym, on) =>
        if on == id then
          Some(MotionStory(proposer, quantity, sym, step.x.height + APPROVE_BLOCK_NUM, s.committee.value, [], []))
        else h
      case Approve(approver, on) => if on == id && h.Some? then Some(h.value.(ayes := h.value.ayes + [approver])) else h
      case Unapprove(approver, on) => if on == id && h.Some? then
        Some(h.value.(noes := h.value.noes + [approver])) else h
      case _ => h
  }

  function CoinAfter(h: Option<CoinStory>, s: State, step: Step, key: Key): Option<CoinStory> {
    if !Can(s, step.x, step.a) then h
    else
      match step.a
      case TakeCoin(proposer, motion, quantity, sym, id) =>
        if key == Key(proposer, id) then
          Some(CoinStory(motion, quantity, sym, step.x.height + APPROVE_BLOCK_NUM, s.committee.value, [], []))
        else h
      case AgreeCoin(approver, proposer, id) =>
        if key == Key(proposer, id) && h.Some? then Some(h.value.(ayes := h.value.ayes + [approver])) else h
      case UnagreeCoin(approver, proposer, id) =>
        if key == Key(proposer, id) && h.Some? then Some(h.value.(noes := h.value.noes + [approver])) else h
      case _ => h
  }

  function MotionOver(h: Option<MotionStory>, s: State, run: seq<Step>, id: nat): Option<MotionStory>
    decreases |run|
  {
    if run == [] then h
    else MotionOver(MotionAfter(h, s, run[0], id), Next(s, run[0].x, run[0].a), run[1..], id)
  }

  function CoinOver(h: Option<CoinStory>, s: State, run: seq<Step>, key: Key): Option<CoinStory>
    decreases |run|
  {
    if run == [] then h
    else CoinOver(CoinAfter(h, s, run[0], key), Next(s, run[0].x, run[0].a), run[1..], key)
  }

  /** The rows of a motion tell its story. */
  predicate TellsMotion(s: State, h: Option<MotionStory>, id: nat) {
    id in s.motions ==>
      h.Some? &&
      var m, t := s.motions[id], h.value;
      m.proposer == t.proposer && m.sym == t.sym && m.approveEnd == t.approveEnd &&
      Key(m.proposer, id) in s.approvals &&
      TellsBallot(s.approvals[Key(m.proposer, id)], t.committee, t.ayes, t.noes)
  }

  predicate TellsCoin(s: State, h: Option<CoinStory>, key: Key) {
    key in s.coins ==>
      h.Some? &&
      var c, t := s.coins[key], h.value;
      c.motion == t.motion && c.quantity == t.quantity && c.sym == t.sym && c.end == t.end &&
      c.receiver == key.proposer && TellsBallot(c.ballot, t.committee, t.ayes, t.noes)
  }

  /** The votes are those, and they and the members still asked make up the committee. */
  predicate TellsBallot(b: Ballot, committee: seq<Name>, ayes: seq<Name>, noes: seq<Name>) {
    b.approved == ayes && b.unapproved == noes &&
    multiset(b.requested) + multiset(ayes) + multiset(noes) == multiset(committee)
  }

  lemma BallotStep(b: Ballot, committee: seq<Name>, ayes: seq<Name>, noes: seq<Name>, n: Name)
    requires TellsBallot(b, committee, ayes, noes) && n in b.requested
    ensures TellsBallot(Approved(b, n), committee, ayes + [n], noes)
    ensures TellsBallot(Unapproved(b, n), committee, ayes, noes + [n])
  {
    VotesKeepVoters(b, n);
  }

  lemma NewBallotTells(committee: seq<Name>)
    ensures TellsBallot(Ballot(committee, [], []), committee, [], [])
  {
  }

  lemma MotionTells(s: State, h: Option<MotionStory>, step: Step, id: nat)
    requires TellsMotion(s, h, id)
    ensures TellsMotion(Next(s, step.x, step.a), MotionAfter(h, s, step, id), id)
  {
    hide Approved, Unapproved, Ballot.Passes, Ballot.Fails, HasPledge, L.CanTransfer, TellsBallot;
    var a := step.a;
    if (a.Approve? || a.Unapprove?) && Can(s, step.x, a) {
      if a.id == id {
        var t := h.value;
        BallotStep(s.approvals[Key(s.motions[id].proposer, id)], t.committee, t.ayes, t.noes, a.approver);
      }
    } else if a.Propose? && s.committee.Some? {
      NewBallotTells(s.committee.value);
    }
  }

  lemma CoinTells(s: State, h: Option<CoinStory>, step: Step, key: Key)
    requires TellsCoin(s, h, key)
    ensures TellsCoin(Next(s, step.x, step.a), CoinAfter(h, s, step, key), key)
  {
    hide Approved, Unapproved, Ballot.Passes, Ballot.Fails, HasPledge, L.CanTransfer, TellsBallot;
    var a := step.a;
    if (a.AgreeCoin? || a.UnagreeCoin?) && Can(s, step.x, a) {
      if Key(a.proposer, a.id) == key {
        var t := h.value;
        BallotStep(s.coins[key].ballot, t.committee, t.ayes, t.noes, a.approver);
      }
    } else if a.TakeCoin? && s.committee.Some? {
      NewBallotTells(s.committee.value);
    }
  }

  lemma {:induction false} StoriesOverRun(s: State, h: Option<MotionStory>, h': Option<CoinStory>, run: seq<Step>,
                                          id: nat, key: Key)
    requires TellsMotion(s, h, id) && TellsCoin(s, h', key)
    ensures TellsMotion(Exec(s, run), MotionOver(h, s, run, id), id)
    ensures TellsCoin(Exec(s, run), CoinOver(h', s, run, key), key)
    decreases |run|
  {
    hide TellsMotion, TellsCoin, Next, MotionAfter, CoinAfter;
    if run != [] {
      MotionTells(s, h, run[0], id);
      CoinTells(s, h', run[0], key);
      StoriesOverRun(Next(s, run[0].x, run[0].a), MotionAfter(h, s, run[0], id), CoinAfter(h', s, run[0], key),
                     run[1..], id, key);
    }
  }

  /** In every run a motion in the table has the terms of the last proposal under its id, those who approved are the
      members whose approvals were accepted since, in order, and likewise those who did not. */
  lemma MotionsTellTheirStory(run: seq<Step>, id: nat)
    requires id in Exec(FRESH, run).motions
    ensures TellsMotion(Exec(FRESH, run), MotionOver(None, FRESH, run, id), id)
    ensures MotionOver(None, FRESH, run, id).Some?
  {
    StoriesOverRun(FRESH, None, None, run, id, Key(0, 0));
  }

  /** The same for a coin: its terms are those of the takecoin that put it up, its votes those accepted since. */
  lemma CoinsTellTheirStory(run: seq<Step>, key: Key)
    requires key in Exec(FRESH, run).coins
    ensures TellsCoin(Exec(FRESH, run), CoinOver(None, FRESH, run, key), key)
    ensures CoinOver(None, FRESH, run, key).Some?
  {
    StoriesOverRun(FRESH, None, None, run, 0, key);
  }

  /** So the decision on a motion is its committee's votes: passed takes ayes of more than two thirds of the committee
      it was proposed to, rejected noes of more than a third, and it is pending only as long as neither is reached. */
  lemma VotesDecide(run: seq<Step>, id: nat)
    requires id in Exec(FRESH, run).motions
    ensures var h := MotionOver(None, FRESH, run, id);
      h.Some? &&
      var section, t := Exec(FRESH, run).motions[id].section, h.value;
      (section == Passed ==> |t.ayes| > |t.committee| * 2 / 3) &&
      (section == Rejected ==> |t.noes| > |t.committee| / 3) &&
      (section == Pending ==> |t.ayes| <= |t.committee| * 2 / 3 && |t.noes| <= |t.committee| / 3)
  {
    MotionsTellTheirStory(run, id);
    BudgetAccounting(run, id);
    hide Exec, MotionOver, BookOf;
    var t := MotionOver(None, FRESH, run, id).value;
    var b := Exec(FRESH, run).approvals[Key(t.proposer, id)];
    assert |multiset(b.requested) + multiset(t.ayes) + multiset(t.noes)| == b.Size();
  }

  /** Likewise for a coin, which has been paid exactly if more than two thirds of its committee approved. */
  lemma CoinVotesDecide(run: seq<Step>, key: Key)
    requires key in Exec(FRESH, run).coins
    ensures var h := CoinOver(None, FRESH, run, key);
      h.Some? &&
      var section, t := Exec(FRESH, run).coins[key].section, h.value;
      (section == Passed <==> |t.ayes| > |t.committee| * 2 / 3) &&
      (section == Rejected <==> |t.noes| > |t.committee| / 3)
  {
    CoinsTellTheirStory(run, key);
    CoinAccounting(run, key);
    hide Exec, CoinOver, BookOf;
    var b, t := Exec(FRESH, run).coins[key].ballot, CoinOver(None, FRESH, run, key).value;
    assert |multiset(b.requested) + multiset(t.ayes) + multiset(t.noes)| == b.Size();
  }

  // ---- who may change what ----

  /** The committee is the contract's own to change. A motion comes from a proposer with the pledge, open and pending;
      it goes by its proposer; its terms stay; its section moves by a vote of a member still asked within the period,
      to passed only from pending, or is turned down by the contract's own account. */
  lemma MotionsAreEntitled(s: State, x: Host, a: Action, id: nat)
    ensures var s' := Next(s, x, a);
      (s'.committee != s.committee ==> x.signer == SELF) &&
      (id in s'.motions && id !in s.motions ==>
         var m := s'.motions[id];
         x.signer == m.proposer && x.signer in x.pledges && x.pledges[x.signer] > 1000000 &&
         m.section == Pending && m.approveEnd == x.height + 14 * 28800) &&
      (id in s.motions && id !in s'.motions ==> x.signer == s.motions[id].proposer) &&
      (id in s.motions && id in s'.motions ==>
         var m, m' := s.motions[id], s'.motions[id];
         m' == m.(quantity := m'.quantity, section := m'.section) &&
         (m'.section != m.section ==>
            (m'.section == TurnedDown && x.signer == SELF) ||
            (x.height < m.approveEnd && Key(m.proposer, id) in s.approvals &&
             x.signer in s.approvals[Key(m.proposer, id)].requested &&
             (m'.section == Rejected || (m'.section == Passed && m.section == Pending)))))
  {
    hide Erase, L.CanTransfer, Ballot.Passes, Ballot.Fails;
  }

  /** A ballot changes by a vote of its signer only, who is still asked, within the period. */
  lemma BallotsAreEntitled(s: State, x: Host, a: Action, key: Key)
    requires key in s.approvals && key in Next(s, x, a).approvals
    ensures var b, b' := s.approvals[key], Next(s, x, a).approvals[key];
      b' != b ==>
        key.id in s.motions && x.height < s.motions[key.id].approveEnd && x.signer in b.requested &&
        (b'.approved == b.approved + [x.signer] || b'.unapproved == b.unapproved + [x.signer])
  {
    hide Erase, L.CanTransfer, Ballot.Passes, Ballot.Fails;
  }

  /** A coin is put up by a proposer with the pledge, on a passed motion of its own past its period that still holds as
      much; its terms stay; it goes by its proposer, and changes by a vote of its signer only, who is still asked, while
      it is pending and within its period. */
  lemma CoinsAreEntitled(s: State, x: Host, a: Action, key: Key)
    ensures var s' := Next(s, x, a);
      (key in s'.coins && key !in s.coins ==>
         var t := s'.coins[key];
         x.signer == key.proposer == t.receiver && x.signer in x.pledges && x.pledges[x.signer] > 1000000 &&
         t.section == Pending && t.end == x.height + 14 * 28800 && t.motion in s.motions &&
         var m := s.motions[t.motion];
         m.proposer == x.signer && m.section == Passed && m.approveEnd < x.height &&
         m.sym == t.sym && t.quantity <= m.quantity) &&
      (key in s.coins && key !in s'.coins ==> x.signer == key.proposer) &&
      (key in s.coins && key in s'.coins && s'.coins[key] != s.coins[key] ==>
         var t, t' := s.coins[key], s'.coins[key];
         t' == t.(section := t'.section, ballot := t'.ballot) && t.section == Pending && x.height < t.end &&
           x.signer in t.ballot.requested &&
         (t'.ballot.approved == t.ballot.approved + [x.signer] ||
          t'.ballot.unapproved == t.ballot.unapproved + [x.signer]))
  {
    hide Erase, L.CanTransfer, Ballot.Passes, Ballot.Fails;
  }
}
