/** Where the resolution contract departs from its documentation: exactly when, and runs that show it. */
module ResolutionExamples {
  import opened Base
  import opened TokenLedger
  import opened BondMoney
  import opened Resolution
  import opened ResolutionInvariant
  import opened ResolutionRuns
  import opened ResolutionProgress

  // ---- What a paused contract still does ----

  /** Calls that do not look at the pause flag. */
  predicate IgnoresPause(op: Op) {
    op.OpProposeV2? || op.OpDepositCollateral? || op.OpSlashCollateral? || OutsideOrAdmin(op)
  }

  /** While paused, a call succeeds if and only if it ignores the flag and would succeed without it. */
  lemma PausedAccepts(s: State, e: Event)
    requires s.paused
    ensures Works(s, e) <==> IgnoresPause(e.op) && Works(s.(paused := false), e)
  {
    match e.op
    case OpProposeV2(_, _, _, _, _, _, _, _, _, _, _) =>
    case OpDepositCollateral(_, _) =>
    case OpSlashCollateral(_, _, _) =>
    case _ =>
  }

  // ---- Voiding in any round ----

  function InRound(s: State, id: nat, round: nat): State
    requires id in s.candidates
  {
    s.(candidates := s.candidates[id := s.candidates[id].(appealRound := round)])
  }

  /** Whether a market can be voided does not depend on the appeal round its candidate is in. */
  lemma VoidIgnoresRound(s: State, now: nat, admin: Address, id: nat, round: nat)
    requires id in s.candidates
    ensures VoidMarketOf(InRound(s, id, round), now, admin, id).Success? <==> VoidMarketOf(s, now, admin, id).Success?
  {
    var c, d := s.candidates[id], InRound(s, id, round).candidates[id];
    assert VoidTokens(s.purse, c, Records(s, id)) == VoidTokens(s.purse, d, Records(s, id));
  }

  // ---- Runs from a fresh deployment ----

  const SELF: Address := Address(0)
  const ADMIN: Address := Address(1)
  const PROPOSER: Address := Address(2)
  const CHALLENGER: Address := Address(3)
  const BOND: i128 := 10_000_000
  const HASH: Bytes := [7]

  /** A contract just initialized, in a world where the two parties hold `p` and `c` tokens. */
  function Deployed(p: int, c: int): State {
    State(ADMIN, false, Normal, 0, map[], map[], map[], map[],
          Purse(SELF, None, Ledger(map[PROPOSER := p, CHALLENGER := c], p + c, 0), 0), [])
  }

  /** The challenger can afford four bonds. */
  const START: State := Deployed(BOND, 4 * BOND)

  lemma DeployedInitial(p: nat, c: nat)
    ensures Initial(Deployed(p, c)) && Inv(Deployed(p, c))
  {
    var empty := Ledger(map[], 0, 0);
    var funded := Mint(empty, PROPOSER, p).value;
    MintKeepsSound(empty, PROPOSER, p);
    MintKeepsSound(funded, CHALLENGER, c);
    assert Mint(funded, CHALLENGER, c).value == Deployed(p, c).purse.ledger;
    InitialInv(Deployed(p, c));
  }

  lemma AtNext(s: State, es: seq<Event>, i: nat)
    requires i < |es|
    ensures At(s, es, i + 1) == Next(At(s, es, i), es[i])
  {
    assert es[..i + 1][..i] == es[..i];
  }

  /** Candidate 1, in some round of its dispute; `purse` is what the challenger has left. */
  predicate InDispute(s: State, status: CandidateStatus, hash: Option<Bytes>, round: nat, deadline: nat, purse: int) {
    && s.mode == Normal && s.admin == ADMIN && s.purse.holder == SELF && s.sent == []
    && 1 in s.candidates && s.candidates[1].id == 1 && s.candidates[1].status == status
    && s.candidates[1].challengeDeadline == deadline && s.candidates[1].appealRound == round
    && s.candidates[1].passphraseHash == hash && s.candidates[1].signatureExpiry == 1_000
    && s.purse.ledger.issued == 5 * BOND && s.purse.ledger.burned == 0
    && Balance(s.purse.ledger, CHALLENGER) == purse
  }

  const ProposalV1: Event := Event(0, OpPropose(PROPOSER, 5, true, [], 1_000, "u", 60, BOND, MarketView(true, true)))
  const ProposalV2: Event :=
    Event(0, OpProposeV2(PROPOSER, 5, true, [], 1_000, 0, HASH, "u", 60, BOND, MarketView(true, true)))

  lemma FirstVersionStands()
    ensures InDispute(Next(START, ProposalV1), Proposed, None, 0, 60, 4 * BOND) && !Next(START, ProposalV1).paused
  {
    assert Step(START, 0, ProposalV1.op) == ProposeChecked(START, 0, PROPOSER, 5, true, [], 1_000, "u", 60, BOND, 0,
                                                           None, MarketView(true, true));
  }

  lemma SecondVersionStands(pause: bool)
    ensures var t := Next(START.(paused := pause), ProposalV2);
            InDispute(t, Proposed, Some(HASH), 0, 60, 4 * BOND) && t.paused == pause
  {
    var s := START.(paused := pause);
    assert Step(s, 0, ProposalV2.op) == ProposeChecked(s, 0, PROPOSER, 5, true, [], 1_000, "u", 60, BOND, 0, Some(HASH),
                                                       MarketView(true, true));
  }

  /** From a fresh deployment, a second-version proposal goes through while the contract is paused. */
  lemma ProposalWhilePaused()
    ensures var s := Run(START, [Event(0, OpSetPaused(ADMIN, true)), ProposalV2]);
            Initial(START) && s.paused && 1 in s.candidates && s.candidates[1].status == Proposed
  {
    var es := [Event(0, OpSetPaused(ADMIN, true)), ProposalV2];
    DeployedInitial(BOND, 4 * BOND);
    AtNext(START, es, 0);
    assert es[..0] == [] && es[..2] == es;
    SecondVersionStands(true);
    AtNext(START, es, 1);
  }

  // ---- Disputes ----

  const ChallengeAgain: Event := Event(1, OpChallenge(CHALLENGER, 1, "u", BOND))
  const AppealAgain: Event := Event(1, OpAppeal(PROPOSER, 1, true, [], "u", 60, MarketView(true, true)))

  lemma ChallengeStands(s: State, hash: Option<Bytes>, round: nat, deadline: nat, purse: int)
    requires InDispute(s, Proposed, hash, round, deadline, purse) && !s.paused && 1 < deadline && purse >= BOND
    ensures var t := Next(s, ChallengeAgain);
            && Works(s, ChallengeAgain) && !t.paused
            && InDispute(t, Challenged, hash, round, deadline, purse - BOND)
  {
    assert Step(s, 1, ChallengeAgain.op) == Challenge(s, 1, CHALLENGER, 1, "u", BOND);
  }

  lemma AppealStands(s: State, round: nat, deadline: nat, purse: int)
    requires InDispute(s, Challenged, None, round, deadline, purse) && !s.paused && round < MAX_APPEAL_ROUNDS
    ensures var t := Next(s, AppealAgain);
            Works(s, AppealAgain) && InDispute(t, Proposed, None, round + 1, 61, purse) && !t.paused
  {
    assert Step(s, 1, AppealAgain.op) == Appeal(s, 1, PROPOSER, 1, true, [], "u", 60, MarketView(true, true));
  }

  /** The first challenge, of a proposal of either version. */
  lemma FirstChallenge(es: seq<Event>, hash: Option<Bytes>)
    requires |es| >= 2 && es[1] == ChallengeAgain
    requires (es[0] == ProposalV1 && hash == None) || (es[0] == ProposalV2 && hash == Some(HASH))
    ensures InDispute(At(START, es, 1), Proposed, hash, 0, 60, 4 * BOND) && !At(START, es, 1).paused
    ensures InDispute(At(START, es, 2), Challenged, hash, 0, 60, 3 * BOND) && !At(START, es, 2).paused
  {
    assert es[..0] == [];
    AtNext(START, es, 0);
    FirstVersionStands();
    SecondVersionStands(false);
    AtNext(START, es, 1);
    ChallengeStands(At(START, es, 1), hash, 0, 60, 4 * BOND);
  }

  /** The bonds of these runs split, so that the admin can close the dispute either way. */
  lemma BondsSplit(es: seq<Event>, i: nat, hash: Option<Bytes>, round: nat, deadline: nat, purse: int)
    requires i <= |es| && InDispute(At(START, es, i), Challenged, hash, round, deadline, purse)
    ensures Inv(At(START, es, i))
    ensures Splittable(At(START, es, i).candidates[1].bond) && AllSplittable(Records(At(START, es, i), 1))
  {
    DeployedInitial(BOND, 4 * BOND);
    RunKeeps(START, es[..i]);
    AllBondsSplittable(At(START, es, i), 1);
  }

  lemma VoidOf(s: State, now: nat)
    requires Inv(s) && !s.paused && s.admin == ADMIN && 1 in s.candidates && s.candidates[1].status == Challenged
    requires Splittable(s.candidates[1].bond) && s.candidates[1].challengeDeadline + ARBITRATION_TIMELOCK_SECONDS <= now
    ensures Works(s, Event(now, OpVoid(ADMIN, 1))) && 1 in Next(s, Event(now, OpVoid(ADMIN, 1))).candidates
    ensures Next(s, Event(now, OpVoid(ADMIN, 1))).candidates[1] == VoidedForm(s.candidates[1], now)
  {
    VoidSucceeds(s, now, 1);
    VoidIsStep(s, now, 1);
    VoidForm(s, now, ADMIN, 1);
    StoredId(s, 1);
  }

  lemma VoidComes(es: seq<Event>, i: nat, round: nat, deadline: nat, purse: int)
    requires i < |es| && es[i] == Event(deadline + ARBITRATION_TIMELOCK_SECONDS, OpVoid(ADMIN, 1))
    requires InDispute(At(START, es, i), Challenged, None, round, deadline, purse) && !At(START, es, i).paused
    ensures Succeeded(START, es, i)
    ensures var s := At(START, es, i + 1);
            && 1 in s.candidates && s.candidates[1].status == Voided
            && s.candidates[1].appealRound == round && s.candidates[1].passphraseHash == None
  {
    BondsSplit(es, i, None, round, deadline, purse);
    VoidOf(At(START, es, i), es[i].now);
    AtNext(START, es, i);
  }

  /** The proposal is challenged, and the market voided as soon as the timelock allows. */
  function EarlyVoid(): seq<Event> {
    [ProposalV1, ChallengeAgain, Event(60 + ARBITRATION_TIMELOCK_SECONDS, OpVoid(ADMIN, 1))]
  }

  /** From a fresh deployment, a candidate that was never appealed is voided. */
  lemma VoidedWithoutAppeal()
    ensures var s := Run(START, EarlyVoid());
            && Initial(START)
            && 1 in s.candidates && s.candidates[1].status == Voided && s.candidates[1].appealRound == 0
  {
    DeployedInitial(BOND, 4 * BOND);
    FirstChallenge(EarlyVoid(), None);
    VoidComes(EarlyVoid(), 2, 0, 60, 3 * BOND);
    assert EarlyVoid()[..3] == EarlyVoid();
  }

  /** A second-version proposal is challenged, and upheld by the admin. */
  function Arbitrated(): seq<Event> {
    [ProposalV2, ChallengeAgain, Event(60 + ARBITRATION_TIMELOCK_SECONDS, OpArbitrate(ADMIN, 1))]
  }

  lemma ArbitrationOf(s: State, now: nat)
    requires Inv(s) && !s.paused && s.admin == ADMIN && s.sent == [] && 1 in s.candidates
    requires s.candidates[1].status == Challenged && s.candidates[1].passphraseHash == Some(HASH)
    requires AllSplittable(Records(s, 1)) && s.candidates[1].challengeDeadline + ARBITRATION_TIMELOCK_SECONDS <= now
    ensures var t := Next(s, Event(now, OpArbitrate(ADMIN, 1)));
            && 1 in t.candidates && t.candidates[1].passphraseHash == Some(HASH)
            && |t.sent| == 1 && t.sent[0].ResolveMarket?
  {
    StoredId(s, 1);
    UpholdEffect(s, now, s.candidates[1], ResolveV1Call(s.candidates[1]));
    ArbitrateIsUphold(s, now, 1);
    ArbitrationVersion(s, now, ADMIN, 1);
  }

  /** From a fresh deployment, arbitration resolves a second-version candidate through the first-version callback. */
  lemma ArbitrationIgnoresVersion()
    ensures var s := Run(START, Arbitrated());
            && Initial(START)
            && 1 in s.candidates && s.candidates[1].passphraseHash == Some(HASH)
            && |s.sent| == 1 && s.sent[0].ResolveMarket?
  {
    DeployedInitial(BOND, 4 * BOND);
    FirstChallenge(Arbitrated(), Some(HASH));
    BondsSplit(Arbitrated(), 2, Some(HASH), 0, 60, 3 * BOND);
    ArbitrationOf(At(START, Arbitrated(), 2), Arbitrated()[2].now);
    AtNext(START, Arbitrated(), 2);
    assert Arbitrated()[..3] == Arbitrated();
  }

  // ---- The longest dispute ----

  /** Three rounds of challenge and appeal, a last challenge, and the market is voided. */
  function LongDispute(): seq<Event> {
    [ProposalV1, ChallengeAgain, AppealAgain, ChallengeAgain, AppealAgain, ChallengeAgain, AppealAgain, ChallengeAgain,
     Event(61 + ARBITRATION_TIMELOCK_SECONDS, OpVoid(ADMIN, 1))]
  }

  function DeadlineIn(round: nat): nat {
    if round == 0 then 60 else 61
  }

  /** After `i` events the dispute is in some round, and `moves` moves have been made. */
  predicate After(es: seq<Event>, i: nat, status: CandidateStatus, round: nat, purse: int, moves: nat)
    requires i <= |es|
  {
    && InDispute(At(START, es, i), status, None, round, DeadlineIn(round), purse) && !At(START, es, i).paused
    && MovesIn(START, es, i, 1) == moves
  }

  lemma MoveCounts(es: seq<Event>, i: nat)
    requires i < |es| && Succeeded(START, es, i) && Disputes(es[i].op) && es[i].op.id == 1
    ensures MovesIn(START, es, i + 1, 1) == MovesIn(START, es, i, 1) + 1
  {
  }

  lemma AppealAt(es: seq<Event>, i: nat, round: nat, purse: int, moves: nat)
    requires i < |es| && es[i] == AppealAgain && round < MAX_APPEAL_ROUNDS
    requires After(es, i, Challenged, round, purse, moves)
    ensures After(es, i + 1, Proposed, round + 1, purse, moves + 1)
  {
    AtNext(START, es, i);
    AppealStands(At(START, es, i), round, DeadlineIn(round), purse);
    MoveCounts(es, i);
  }

  lemma ChallengeAt(es: seq<Event>, i: nat, round: nat, purse: int, moves: nat)
    requires i < |es| && es[i] == ChallengeAgain && purse >= BOND && After(es, i, Proposed, round, purse, moves)
    ensures After(es, i + 1, Challenged, round, purse - BOND, moves + 1)
  {
    AtNext(START, es, i);
    ChallengeStands(At(START, es, i), None, round, DeadlineIn(round), purse);
    MoveCounts(es, i);
  }

  lemma Round(es: seq<Event>, i: nat, round: nat, purse: int, moves: nat)
    requires i + 2 <= |es| && es[i] == AppealAgain && es[i + 1] == ChallengeAgain
    requires round < MAX_APPEAL_ROUNDS && purse >= BOND && After(es, i, Challenged, round, purse, moves)
    ensures After(es, i + 2, Challenged, round + 1, purse - BOND, moves + 2)
  {
    AppealAt(es, i, round, purse, moves);
    ChallengeAt(es, i + 1, round + 1, purse, moves + 1);
  }

  lemma {:induction false} Rounds(es: seq<Event>, r: nat)
    requires r <= MAX_APPEAL_ROUNDS && 2 * r + 2 <= |es| && es[0] == ProposalV1 && es[1] == ChallengeAgain
    requires forall i :: 1 <= i <= r ==> es[2 * i] == AppealAgain && es[2 * i + 1] == ChallengeAgain
    ensures After(es, 2 * r + 2, Challenged, r, (3 - r) * BOND, 2 * r + 1)
  {
    if r == 0 {
      FirstChallenge(es, None);
      assert MovesIn(START, es, 0, 1) == 0 && After(es, 1, Proposed, 0, 4 * BOND, 0);
      ChallengeAt(es, 1, 0, 4 * BOND, 0);
    } else {
      Rounds(es, r - 1);
      Round(es, 2 * r, r - 1, (4 - r) * BOND, 2 * r - 1);
    }
  }

  /** From a fresh deployment, a candidate makes all of the 8 moves that `DisputeIsBounded` allows. */
  lemma EightMoves()
    ensures Initial(START) && MovesIn(START, LongDispute(), 9, 1) == 8
    ensures var s := Run(START, LongDispute());
            1 in s.candidates && s.candidates[1].status == Voided && MaxMoves(s.candidates[1]) == 8
  {
    DeployedInitial(BOND, 4 * BOND);
    LastMove();
    assert LongDispute()[..9] == LongDispute();
  }

  lemma LastMove()
    ensures MovesIn(START, LongDispute(), 9, 1) == 8
    ensures var s := At(START, LongDispute(), 9);
            1 in s.candidates && s.candidates[1].status == Voided && s.candidates[1].passphraseHash == None
  {
    Rounds(LongDispute(), 3);
    VoidComes(LongDispute(), 8, 3, 61, 0);
    MoveCounts(LongDispute(), 8);
  }

  // ---- Candidates that are stuck ----

  /** From a fresh deployment, a proposal nobody challenges or finalizes is stuck once its signature has expired. */
  lemma ProposalGetsStuck()
    ensures var s := Run(START, [ProposalV1]);
            && Initial(START)
            && 1 in s.candidates && Live(s.candidates[1]) && !Closable(s, 1_001, 1)
  {
    DeployedInitial(BOND, 4 * BOND);
    FirstVersionStands();
    RunOne(START, ProposalV1);
    NextKeeps(START, ProposalV1);
    StuckExactlyWhenExpired(Next(START, ProposalV1), 1_001, 1);
  }

  /** The smallest bond whose reward product does not fit 128 bits. */
  const HUGE: i128 := I128_MAX / REWARD_BPS + 1

  const RICH: State := Deployed(HUGE, HUGE)

  function HugeDispute(): seq<Event> {
    [Event(0, OpPropose(PROPOSER, 5, true, [], 1_000, "u", 60, HUGE, MarketView(true, true))),
     Event(1, OpChallenge(CHALLENGER, 1, "u", HUGE))]
  }

  predicate HugeBond(s: State, status: CandidateStatus, records: seq<ChallengeRecord>) {
    && !s.paused && s.mode == Normal && s.purse.holder == SELF
    && 1 in s.candidates && s.candidates[1].id == 1 && s.candidates[1].status == status
    && s.candidates[1].bond == HUGE && s.candidates[1].challengeDeadline == 60 && Records(s, 1) == records
  }

  lemma HugeProposal()
    ensures var t := Next(RICH, HugeDispute()[0]);
            HugeBond(t, Proposed, []) && Balance(t.purse.ledger, CHALLENGER) == HUGE
  {
    assert Step(RICH, 0, HugeDispute()[0].op)
           == ProposeChecked(RICH, 0, PROPOSER, 5, true, [], 1_000, "u", 60, HUGE, 0, None, MarketView(true, true));
  }

  lemma HugeChallenge(s: State)
    requires HugeBond(s, Proposed, []) && Balance(s.purse.ledger, CHALLENGER) == HUGE
    ensures HugeBond(Next(s, HugeDispute()[1]), Challenged, [ChallengeRecord(CHALLENGER, HUGE)])
  {
    assert Step(s, 1, HugeDispute()[1].op) == Challenge(s, 1, CHALLENGER, 1, "u", HUGE);
  }

  lemma NothingSplits(s: State)
    requires Inv(s) && HugeBond(s, Challenged, [ChallengeRecord(CHALLENGER, HUGE)])
    ensures !Closable(s, 1, 1)
  {
    assert !Splittable(Records(s, 1)[0].bond);
    ProgressExactly(s, 1, 1);
  }

  /** From a fresh deployment, a dispute over two bonds too large to split can never be closed. */
  lemma HugeBondsGetStuck()
    ensures var s := Run(RICH, HugeDispute());
            Initial(RICH) && 1 in s.candidates && s.candidates[1].status == Challenged && !Closable(s, 1, 1)
  {
    DeployedInitial(HUGE, HUGE);
    assert HugeDispute()[..0] == [] && HugeDispute()[..2] == HugeDispute();
    AtNext(RICH, HugeDispute(), 0);
    HugeProposal();
    AtNext(RICH, HugeDispute(), 1);
    HugeChallenge(At(RICH, HugeDispute(), 1));
    RunKeeps(RICH, HugeDispute());
    NothingSplits(Run(RICH, HugeDispute()));
  }
}
