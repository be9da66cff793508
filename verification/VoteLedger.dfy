/** The voting ledger of the system contract: what each action of vote.cpp, transfer.cpp and the ledger part of
    producer.cpp and of the block reward does to the tables, as functions of the old tables. */
module VoteLedger {
  import opened Base
  import opened Totals
  import opened StakeAge

  const FROZEN_DELAY: nat := 3 * BLOCK_NUM_PER_DAY
  const BLOCK_REWARD_VOTER: int := 25000
  const BLOCK_REWARD_BPS_VOTER: int := 5000
  const BLOCK_BUDGET_REWARD: int := 15000
  const MIN_CLAIM_BP: int := 100 * 10000
  const FIX_TIME_VOTE_POWER_M: int := 5
  const WORD32: int := 0x1_0000_0000
  const BUDGET_ACCOUNT: Name := 2

  datatype VoteKey = VoteKey(voter: Name, bp: Name)
  datatype FixKey = FixKey(voter: Name, id: nat)

  datatype Vote = Vote(voteage: AssetAge, unstaking: int, unstakeHeight: nat)

  // The two tables vote_by_typ_imp and unfreeze_by_typ_imp are instantiated with.
  datatype Kind = Plain | ForRam

  datatype FixType = FixType(typ: string, days: nat, power: int)

  const FIX_TYPES: seq<FixType> := [
    FixType("fvote.a",  3 * 30, 1 * FIX_TIME_VOTE_POWER_M),
    FixType("fvote.b",  6 * 30, 2 * FIX_TIME_VOTE_POWER_M),
    FixType("fvote.c", 12 * 30, 4 * FIX_TIME_VOTE_POWER_M),
    FixType("fvote.d", 24 * 30, 8 * FIX_TIME_VOTE_POWER_M)
  ]

  function FindType(types: seq<FixType>, typ: string): (r: Option<FixType>)
    ensures r.Some? ==> r.value in types && r.value.typ == typ
    ensures r.None? ==> forall t | t in types :: t.typ != typ
  {
    if types == [] then None
    else if types[0].typ == typ then Some(types[0])
    else FindType(types[1..], typ)
  }

  datatype Ledger = Ledger(
    available: map<Name, int>,
    votes: map<VoteKey, Vote>,
    votes4ram: map<VoteKey, Vote>,
    vote4ramsum: map<Name, int>,
    fixvotes: map<FixKey, FixVote>,
    bps: map<Name, Bp>,
    gvotestat: int,
    blacklist: set<Name>,
    bpsreward: map<Name, int>)
  {
    function Table(kind: Kind): map<VoteKey, Vote> {
      if kind == Plain then votes else votes4ram
    }
  }

  function AddStake(bps: map<Name, Bp>, bp: Name, h: nat, amount: int): map<Name, Bp>
    requires bp in bps
  {
    bps[bp := bps[bp].AddTotalStaked(h, amount)]
  }

  /** What the host tells an action: the block height, who signed, and whom the freeze contract holds. */
  datatype Context = Context(height: nat, signer: Name, frozen: set<Name>)

  datatype Source = AccountToken | UnstakingToken | Unsupported

  datatype Action =
    | Transfer(from: Name, to: Name, quantity: int)
    | VoteFor(kind: Kind, voter: Name, bp: Name, stake: int)
    | Revote(voter: Name, frombp: Name, tobp: Name, restake: int)
    | Unfreeze(kind: Kind, voter: Name, bp: Name)
    | Claim(voter: Name, bp: Name)
    | VoteFix(voter: Name, bp: Name, typ: string, stake: int, source: Source, id: nat)
    | RevoteFix(voter: Name, id: nat, bp: Name)
    | OutFixVote(voter: Name, id: nat)
    | UpdateBp(bp: Name, commission: nat)
    | RemoveBp(bp: Name)
    | PayBp(bp: Name, blockShare: int)
    | Issue(able: set<Name>)

  function StakedIn(table: map<VoteKey, Vote>, key: VoteKey): int {
    if key in table then table[key].voteage.staked else 0
  }

  // ---- transfer ----

  predicate CanTransfer(s: Ledger, c: Context, from: Name, to: Name, quantity: int) {
    c.signer == from && from in s.available && to in s.available &&
    0 <= quantity <= s.available[from] && from !in c.frozen
  }

  function AfterTransfer(s: Ledger, from: Name, to: Name, quantity: int): Ledger
    requires from in s.available && to in s.available
  {
    var paid := s.available[from := s.available[from] - quantity];
    s.(available := paid[to := paid[to] + quantity])
  }

  // ---- vote and vote4ram ----

  function VoteChange(s: Ledger, kind: Kind, voter: Name, bp: Name, stake: int): int {
    stake - StakedIn(s.Table(kind), VoteKey(voter, bp))
  }

  /** The voter's row after its stake on the producer became stake. */
  function RowAfterVote(table: map<VoteKey, Vote>, key: VoteKey, stake: int, h: nat): Vote {
    if key !in table then Vote(AssetAge(stake, 0, h), 0, 0)
    else
      var row := table[key].(voteage := table[key].voteage.ChangeStakedTo(h, stake));
      var change := stake - table[key].voteage.staked;
      if change < 0 then row.(unstaking := row.unstaking - change, unstakeHeight := h) else row
  }

  function RamSumAfterVote(sums: map<Name, int>, voter: Name, stake: int, change: int): map<Name, int> {
    sums[voter := if voter in sums then sums[voter] + change else stake]
  }

  predicate CanVote(s: Ledger, c: Context, kind: Kind, voter: Name, bp: Name, stake: int) {
    c.signer == voter && voter in s.available && bp in s.bps &&
    0 <= stake && IsWhole(stake) && voter !in c.frozen &&
    var change := VoteChange(s, kind, voter, bp, stake);
    change <= s.available[voter] && (change > 0 ==> bp !in s.blacklist)
  }

  /** A vote that changes nothing still settles the age of the voter's row, but leaves the producer alone. */
  function AfterVote(s: Ledger, kind: Kind, voter: Name, bp: Name, stake: int, h: nat): Ledger
    requires voter in s.available && bp in s.bps
  {
    var key := VoteKey(voter, bp);
    var change := VoteChange(s, kind, voter, bp, stake);
    var row := RowAfterVote(s.Table(kind), key, stake, h);
    s.(votes := if kind == Plain then s.votes[key := row] else s.votes,
       votes4ram := if kind == ForRam then s.votes4ram[key := row] else s.votes4ram,
       vote4ramsum := if kind == ForRam then RamSumAfterVote(s.vote4ramsum, voter, stake, change) else s.vote4ramsum,
       available := if change > 0 then s.available[voter := s.available[voter] - change] else s.available,
       bps := if change == 0 then s.bps else AddStake(s.bps, bp, h, change),
       gvotestat := s.gvotestat + Whole(change))
  }

  // ---- revote ----

  predicate CanRevote(s: Ledger, c: Context, voter: Name, frombp: Name, tobp: Name, restake: int) {
    c.signer == voter && frombp != tobp && restake > 0 && IsWhole(restake) && voter !in c.frozen &&
    frombp in s.bps && tobp in s.bps &&
    VoteKey(voter, frombp) in s.votes && restake <= s.votes[VoteKey(voter, frombp)].voteage.staked
  }

  function RowLeft(votes: map<VoteKey, Vote>, key: VoteKey, restake: int, h: nat): Vote
    requires key in votes
  {
    votes[key].(voteage := votes[key].voteage.MinusStakedBy(h, restake))
  }

  function RowJoined(votes: map<VoteKey, Vote>, key: VoteKey, restake: int, h: nat): Vote {
    if key in votes then votes[key].(voteage := votes[key].voteage.AddStakedBy(h, restake))
    else Vote(AssetAge(restake, 0, h), 0, 0)
  }

  function AfterRevote(s: Ledger, voter: Name, frombp: Name, tobp: Name, restake: int, h: nat): Ledger
    requires frombp in s.bps && tobp in s.bps && VoteKey(voter, frombp) in s.votes
  {
    var kf, kt := VoteKey(voter, frombp), VoteKey(voter, tobp);
    s.(votes := s.votes[kf := RowLeft(s.votes, kf, restake, h)][kt := RowJoined(s.votes, kt, restake, h)],
       bps := AddStake(AddStake(s.bps, frombp, h, -restake), tobp, h, restake))
  }

  // ---- unfreeze and unfreezeram ----

  predicate CanUnfreeze(s: Ledger, c: Context, kind: Kind, voter: Name, bp: Name) {
    c.signer == voter && voter in s.available &&
    var key, table := VoteKey(voter, bp), s.Table(kind);
    key in table && table[key].unstakeHeight + FROZEN_DELAY < c.height && 0 < table[key].unstaking
  }

  function AfterUnfreeze(s: Ledger, kind: Kind, voter: Name, bp: Name): Ledger
    requires voter in s.available && VoteKey(voter, bp) in s.Table(kind)
  {
    var key := VoteKey(voter, bp);
    s.(available := s.available[voter := s.available[voter] + s.Table(kind)[key].unstaking],
       votes := if kind == Plain then s.votes[key := s.votes[key].(unstaking := 0)] else s.votes,
       votes4ram := if kind == ForRam then s.votes4ram[key := s.votes4ram[key].(unstaking := 0)] else s.votes4ram)
  }

  // ---- claim ----

  predicate ClaimedRow(voter: Name, bp: Name, k: FixKey, f: FixVote) {
    k.voter == voter && f.bp == bp
  }

  function FixAgeClaimed(voter: Name, bp: Name, h: nat): (FixKey, FixVote) -> int {
    (k: FixKey, f: FixVote) => if ClaimedRow(voter, bp, k, f) then f.GetAge(h) else 0
  }

  function VoteAgeClaimed(votes: map<VoteKey, Vote>, key: VoteKey, h: nat): int {
    if key in votes then votes[key].voteage.GetAge(h) else 0
  }

  function VotesAfterClaim(votes: map<VoteKey, Vote>, key: VoteKey, h: nat): map<VoteKey, Vote> {
    if key in votes then votes[key := votes[key].(voteage := votes[key].voteage.CleanAge(h))] else votes
  }

  /** All the age the voter holds on the producer: the current vote and every fix-time vote. */
  ghost function ClaimedAge(s: Ledger, voter: Name, bp: Name, h: nat): int {
    VoteAgeClaimed(s.votes, VoteKey(voter, bp), h) + Total(s.fixvotes, FixAgeClaimed(voter, bp, h))
  }

  /** Claimed rows start ageing anew; the withdrawn ones among them are erased. */
  function FixAfterClaim(fix: map<FixKey, FixVote>, voter: Name, bp: Name, h: nat): map<FixKey, FixVote> {
    map k | k in fix && !(ClaimedRow(voter, bp, k, fix[k]) && fix[k].isWithdraw) ::
      if ClaimedRow(voter, bp, k, fix[k]) then fix[k].CleanAge(h) else fix[k]
  }

  /** The share of the pool an age is worth; division as on the chain. */
  function Share(pool: int, age: int, totalAge: int): int
    requires totalAge > 0
  {
    TruncDiv(pool * age, totalAge)
  }

  ghost predicate CanClaim(s: Ledger, c: Context, voter: Name, bp: Name) {
    c.signer == voter && voter in s.available && bp in s.bps &&
    var b := s.bps[bp];
    0 < b.GetAge(c.height) &&
    0 <= Share(b.rewardsPool, ClaimedAge(s, voter, bp, c.height), b.GetAge(c.height)) <= b.rewardsPool
  }

  function BpAfterClaim(b: Bp, claimed: int, reward: int, h: nat): Bp {
    b.(rewardsPool := b.rewardsPool - reward, totalVoteage := b.GetAge(h) - claimed, updateHeight := h)
  }

  ghost function AfterClaim(s: Ledger, voter: Name, bp: Name, h: nat): Ledger
    requires voter in s.available && bp in s.bps && 0 < s.bps[bp].GetAge(h)
  {
    var claimed := ClaimedAge(s, voter, bp, h);
    var reward := Share(s.bps[bp].rewardsPool, claimed, s.bps[bp].GetAge(h));
    s.(votes := VotesAfterClaim(s.votes, VoteKey(voter, bp), h),
       fixvotes := FixAfterClaim(s.fixvotes, voter, bp, h),
       available := s.available[voter := s.available[voter] + reward],
       bps := s.bps[bp := BpAfterClaim(s.bps[bp], claimed, reward, h)])
  }

  // ---- votefix ----

  /** The key of the new row is the host's choice; an occupied key aborts. */
  predicate CanVoteFix(s: Ledger, c: Context, voter: Name, bp: Name, typ: string, stake: int, source: Source, id: nat) {
    c.signer == voter && FindType(FIX_TYPES, typ).Some? &&
    voter in s.available && bp in s.bps && 0 < stake && IsWhole(stake) && voter !in c.frozen &&
    (match source
     case AccountToken => stake <= s.available[voter]
     case UnstakingToken => VoteKey(voter, bp) in s.votes && stake < s.votes[VoteKey(voter, bp)].unstaking
     case Unsupported => false) &&
    bp !in s.blacklist && FixKey(voter, id) !in s.fixvotes
  }

  function FixRow(bp: Name, t: FixType, stake: int, h: nat): FixVote {
    FixVote(bp, AssetAge(stake * t.power, 0, h), stake, h, h + t.days * BLOCK_NUM_PER_DAY, false)
  }

  function AfterVoteFix(s: Ledger, voter: Name, bp: Name, t: FixType, stake: int, source: Source, id: nat,
                        h: nat): Ledger
    requires voter in s.available && bp in s.bps
    requires source == UnstakingToken ==> VoteKey(voter, bp) in s.votes
  {
    var key, row := VoteKey(voter, bp), FixRow(bp, t, stake, h);
    s.(available := if source == AccountToken then s.available[voter := s.available[voter] - stake] else s.available,
       votes := if source == UnstakingToken
                then s.votes[key := s.votes[key].(unstaking := s.votes[key].unstaking - stake)]
                else s.votes,
       fixvotes := s.fixvotes[FixKey(voter, id) := row],
       bps := AddStake(s.bps, bp, h, row.power.staked),
       gvotestat := s.gvotestat + Whole(row.power.staked))
  }

  // ---- revotefix ----

  predicate CanRevoteFix(s: Ledger, c: Context, voter: Name, id: nat, bp: Name) {
    c.signer == voter && FixKey(voter, id) in s.fixvotes &&
    var f := s.fixvotes[FixKey(voter, id)];
    f.bp != bp && !f.isWithdraw && f.withdrawAt > c.height &&
    voter !in c.frozen && bp !in s.blacklist && f.bp in s.bps && bp in s.bps &&
    f.GetAge(c.height) == 0
  }

  function AfterRevoteFix(s: Ledger, key: FixKey, bp: Name, h: nat): Ledger
    requires key in s.fixvotes && s.fixvotes[key].bp in s.bps && bp in s.bps
  {
    var f := s.fixvotes[key];
    s.(fixvotes := s.fixvotes[key := f.(bp := bp).CleanAge(h)],
       bps := AddStake(AddStake(s.bps, f.bp, h, -f.power.staked), bp, h, f.power.staked))
  }

  // ---- outfixvote ----

  predicate CanOutFixVote(s: Ledger, c: Context, voter: Name, id: nat) {
    c.signer == voter && FixKey(voter, id) in s.fixvotes && voter in s.available &&
    var f := s.fixvotes[FixKey(voter, id)];
    f.bp in s.bps && f.withdrawAt <= c.height && !f.isWithdraw
  }

  function RowAfterOut(votes: map<VoteKey, Vote>, key: VoteKey, principal: int, h: nat): Vote {
    var row := if key in votes then votes[key] else Vote(NO_AGE, 0, 0);
    row.(unstaking := row.unstaking + principal, unstakeHeight := h)
  }

  function AfterOutFixVote(s: Ledger, key: FixKey, h: nat): Ledger
    requires key in s.fixvotes && s.fixvotes[key].bp in s.bps
  {
    var f := s.fixvotes[key];
    var vk := VoteKey(key.voter, f.bp);
    s.(votes := s.votes[vk := RowAfterOut(s.votes, vk, f.principal, h)],
       fixvotes := s.fixvotes[key := f.(principal := 0, isWithdraw := true)],
       bps := AddStake(s.bps, f.bp, h, -f.power.staked),
       gvotestat := s.gvotestat + Whole(-f.power.staked))
  }

  // ---- producers ----

  predicate CanUpdateBp(c: Context, bp: Name, commission: nat) {
    c.signer == bp && 1 <= commission <= 10000
  }

  function AfterUpdateBp(s: Ledger, bp: Name, commission: nat): Ledger {
    var row := if bp in s.bps then s.bps[bp] else Bp(0, 0, 0, 0, 0);
    s.(bps := s.bps[bp := row.(commission := commission)])
  }

  function OwedTo(s: Ledger, n: Name): int {
    if n in s.bpsreward then s.bpsreward[n] else 0
  }

  /** The ledger part of bpclaim; blockShare comes out of the block reward. */
  predicate CanPayBp(s: Ledger, c: Context, bp: Name, blockShare: int) {
    c.signer == bp && bp in s.available && MIN_CLAIM_BP < OwedTo(s, bp) + blockShare
  }

  function AfterPayBp(s: Ledger, bp: Name, blockShare: int): Ledger
    requires bp in s.available
  {
    s.(available := s.available[bp := s.available[bp] + (OwedTo(s, bp) + blockShare)],
       bpsreward := if bp in s.bpsreward then s.bpsreward[bp := 0] else s.bpsreward)
  }

  // ---- block issuance ----

  /** The producers that share in a block: not banned, enough stake, a commission rate in range, and able, which
      stands for a recent heartbeat, a sufficient pledge and not being punished. */
  predicate Earns(s: Ledger, able: set<Name>, n: Name) {
    n in s.bps && n !in s.blacklist &&
    s.bps[n].totalStaked > TruncDiv(s.gvotestat, BLOCK_REWARD_VOTER) &&
    1 <= s.bps[n].commission <= 10000 && n in able
  }

  function VoterReward(b: Bp, all: int): int
    requires all > 0
  {
    TruncDiv(BLOCK_REWARD_VOTER * b.totalStaked, all)
  }

  function AccountShare(b: Bp, all: int): int
    requires all > 0
  {
    TruncDiv(BLOCK_REWARD_BPS_VOTER * b.totalStaked, all) + TruncDiv(VoterReward(b, all) * b.commission, 10000)
  }

  function PoolShare(b: Bp, all: int): int
    requires all > 0
  {
    TruncDiv(VoterReward(b, all) * (10000 - b.commission), 10000)
  }

  function EarnedBy(s: Ledger, able: set<Name>): (Name, Bp) -> int {
    (n: Name, b: Bp) =>
      if s.gvotestat > 0 && Earns(s, able, n) then AccountShare(b, s.gvotestat) + PoolShare(b, s.gvotestat) else 0
  }

  /** What is left for the budget account; the source computes it in unsigned 32-bit arithmetic. */
  ghost function BudgetReward(s: Ledger, able: set<Name>): int {
    (BLOCK_REWARD_VOTER + BLOCK_REWARD_BPS_VOTER - Total(s.bps, EarnedBy(s, able)) + BLOCK_BUDGET_REWARD) % WORD32
  }

  function BpsAfterIssue(s: Ledger, able: set<Name>): map<Name, Bp>
    requires s.gvotestat > 0
  {
    map n | n in s.bps ::
      if Earns(s, able, n) then s.bps[n].(rewardsPool := s.bps[n].rewardsPool + PoolShare(s.bps[n], s.gvotestat))
      else s.bps[n]
  }

  function BpsrewardAfterIssue(s: Ledger, able: set<Name>): map<Name, int>
    requires s.gvotestat > 0
  {
    map n | n in s.bps.Keys + s.bpsreward.Keys && (n in s.bpsreward || Earns(s, able, n)) ::
      OwedTo(s, n) + if Earns(s, able, n) then AccountShare(s.bps[n], s.gvotestat) else 0
  }

  ghost predicate CanIssue(s: Ledger, able: set<Name>) {
    s.gvotestat > 0 && BudgetReward(s, able) > 0 ==> BUDGET_ACCOUNT in s.available
  }

  ghost function AfterIssue(s: Ledger, able: set<Name>): Ledger
    requires CanIssue(s, able)
  {
    if s.gvotestat <= 0 then s else
    var budget := BudgetReward(s, able);
    s.(bps := BpsAfterIssue(s, able),
       bpsreward := BpsrewardAfterIssue(s, able),
       available := if budget > 0 then s.available[BUDGET_ACCOUNT := s.available[BUDGET_ACCOUNT] + budget]
                    else s.available)
  }

  // ---- all actions ----

  ghost predicate Can(s: Ledger, c: Context, a: Action) {
    match a
    case Transfer(from, to, quantity) => CanTransfer(s, c, from, to, quantity)
    case VoteFor(kind, voter, bp, stake) => CanVote(s, c, kind, voter, bp, stake)
    case Revote(voter, frombp, tobp, restake) => CanRevote(s, c, voter, frombp, tobp, restake)
    case Unfreeze(kind, voter, bp) => CanUnfreeze(s, c, kind, voter, bp)
    case Claim(voter, bp) => CanClaim(s, c, voter, bp)
    case VoteFix(voter, bp, typ, stake, source, id) => CanVoteFix(s, c, voter, bp, typ, stake, source, id)
    case RevoteFix(voter, id, bp) => CanRevoteFix(s, c, voter, id, bp)
    case OutFixVote(voter, id) => CanOutFixVote(s, c, voter, id)
    case UpdateBp(bp, commission) => CanUpdateBp(c, bp, commission)
    case RemoveBp(bp) => c.signer == SYSTEM_ACCOUNT
    case PayBp(bp, blockShare) => CanPayBp(s, c, bp, blockShare)
    case Issue(able) => CanIssue(s, able)
  }

  ghost function Effect(s: Ledger, c: Context, a: Action): Ledger
    requires Can(s, c, a)
  {
    match a
    case Transfer(from, to, quantity) => AfterTransfer(s, from, to, quantity)
    case VoteFor(kind, voter, bp, stake) => AfterVote(s, kind, voter, bp, stake, c.height)
    case Revote(voter, frombp, tobp, restake) => AfterRevote(s, voter, frombp, tobp, restake, c.height)
    case Unfreeze(kind, voter, bp) => AfterUnfreeze(s, kind, voter, bp)
    case Claim(voter, bp) => AfterClaim(s, voter, bp, c.height)
    case VoteFix(voter, bp, typ, stake, source, id) =>
      AfterVoteFix(s, voter, bp, FindType(FIX_TYPES, typ).value, stake, source, id, c.height)
    case RevoteFix(voter, id, bp) => AfterRevoteFix(s, FixKey(voter, id), bp, c.height)
    case OutFixVote(voter, id) => AfterOutFixVote(s, FixKey(voter, id), c.height)
    case UpdateBp(bp, commission) => AfterUpdateBp(s, bp, commission)
    case RemoveBp(bp) => s.(blacklist := s.blacklist + {bp})
    case PayBp(bp, blockShare) => AfterPayBp(s, bp, blockShare)
    case Issue(able) => AfterIssue(s, able)
  }

  /** An action whose checks fail is aborted and changes nothing. */
  ghost function Next(s: Ledger, c: Context, a: Action): Ledger {
    if Can(s, c, a) then Effect(s, c, a) else s
  }
}
