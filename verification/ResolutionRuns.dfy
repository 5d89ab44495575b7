/** Safety over whole runs of the dispute game: exact custody, finality, one callback, bounded length, open windows. */
module ResolutionRuns {
  import opened Base
  import opened Sums
  import opened TokenLedger
  import opened BondMoney
  import opened Resolution
  import opened ResolutionInvariant

  // ---- Custody and conservation ----

  /** What an event adds to what the contract holds without owing it: cuts it keeps, payments to itself, gifts. */
  function SurplusFrom(s: State, e: Event): int {
    if !Works(s, e) then 0
    else
      match e.op
      case OpFinalize(_, id) => RetainedCut(s.purse, CutSum(Records(s, id)))
      case OpArbitrate(_, id) => RetainedCut(s.purse, CutSum(Records(s, id)))
      case OpVoid(_, id) => if id in s.candidates then RetainedCut(s.purse, TreasuryCut(s.candidates[id].bond)) else 0
      case OpSlashCollateral(_, proposer, recipient) => Credit(s.purse.holder, recipient, Get(s.collateral, proposer))
      case OpOutsideTransfer(_, to, amount) => Credit(s.purse.holder, to, amount)
      case OpOutsideMint(to, amount) => Credit(s.purse.holder, to, amount)
      case _ => 0
  }

  function SurplusIn(s: State, es: seq<Event>): int {
    if es == [] then 0 else SurplusIn(s, es[..|es| - 1]) + SurplusFrom(Run(s, es[..|es| - 1]), es[|es| - 1])
  }

  /** What an event newly issues; only the token's issuer can. */
  function Issued(s: State, e: Event): int {
    if e.op.OpOutsideMint? && Works(s, e) then e.op.amount else 0
  }

  function IssuedIn(s: State, es: seq<Event>): int {
    if es == [] then 0 else IssuedIn(s, es[..|es| - 1]) + Issued(Run(s, es[..|es| - 1]), es[|es| - 1])
  }

  predicate Closes(op: Op) {
    op.OpFinalize? || op.OpArbitrate? || op.OpVoid?
  }

  /** Calls with which a user puts tokens at stake. */
  predicate Stakes(op: Op) {
    op.OpPropose? || op.OpProposeV2? || op.OpChallenge? || op.OpDepositCollateral?
  }

  predicate OutsideOrAdmin(op: Op) {
    op.OpSetPaused? || op.OpSetMode? || op.OpSetTreasury? || op.OpOutsideTransfer? || op.OpOutsideMint?
  }

  /** The running totals of the purse go from those of `p` to those of `q`. */
  predicate Totals(p: Purse, q: Purse, kept: int, issued: int) {
    && q.holder == p.holder && q.surplus == p.surplus + kept
    && q.ledger.issued == p.ledger.issued + issued
  }

  lemma UpholdTotals(s: State, now: nat, id: nat, call: MarketCall)
    requires Shape(s) && id in s.candidates && Uphold(s, now, s.candidates[id], call).Success?
    ensures Totals(s.purse, Uphold(s, now, s.candidates[id], call).value.purse,
                   RetainedCut(s.purse, CutSum(Records(s, id))), 0)
  {
    var c, records := s.candidates[id], Records(s, id);
    assert GoodCandidate(s.purse.holder, id, c, records);
    StoredBonds(s, id);
    UpholdPurse(s, now, c, call);
    SplitAllKeeps(PayPositive(s.purse, c.proposer, c.bond).value, c.proposer, records);
  }

  lemma VoidTotals(s: State, now: nat, admin: Address, id: nat)
    requires Shape(s) && VoidMarketOf(s, now, admin, id).Success?
    ensures Totals(s.purse, VoidMarketOf(s, now, admin, id).value.purse,
                   RetainedCut(s.purse, TreasuryCut(s.candidates[id].bond)), 0)
  {
    var c, records := s.candidates[id], Records(s, id);
    VoidForm(s, now, admin, id);
    VoidRewardsChallenger(s, id);
    assert GoodCandidate(s.purse.holder, id, c, records);
    assert GoodRecords(s.purse.holder, records);
    SplitBondKeeps(s.purse, VoidRewardRecipient(c, records), c.bond);
    RefundAllKeeps(SplitBond(s.purse, VoidRewardRecipient(c, records), c.bond).value, records);
  }

  lemma FinalizeIsUphold(s: State, now: nat, finalizer: Address, id: nat)
    requires Finalize(s, now, finalizer, id).Success?
    ensures id in s.candidates
    ensures Finalize(s, now, finalizer, id) == Uphold(s, now, s.candidates[id], ResolveCall(s.candidates[id]))
  {
  }

  lemma ClosingTotals(s: State, e: Event)
    requires Shape(s) && Closes(e.op) && Works(s, e)
    ensures Totals(s.purse, Next(s, e).purse, SurplusFrom(s, e), 0)
  {
    match e.op
    case OpFinalize(a, id) =>
      FinalizeIsUphold(s, e.now, a, id);
      UpholdTotals(s, e.now, id, ResolveCall(s.candidates[id]));
    case OpArbitrate(_, id) => UpholdTotals(s, e.now, id, ResolveV1Call(s.candidates[id]));
    case OpVoid(a, id) => VoidTotals(s, e.now, a, id);
  }

  lemma AppealOrSlashTotals(s: State, e: Event)
    requires (e.op.OpAppeal? || e.op.OpSlashCollateral?) && Works(s, e)
    ensures Totals(s.purse, Next(s, e).purse, SurplusFrom(s, e), 0)
  {
    match e.op
    case OpAppeal(_, _, _, _, _, _, _) =>
    case OpSlashCollateral(_, _, _) =>
  }

  lemma OutsideTotals(s: State, e: Event)
    requires OutsideOrAdmin(e.op) && Works(s, e)
    ensures Totals(s.purse, Next(s, e).purse, SurplusFrom(s, e), Issued(s, e))
  {
    match e.op
    case OpOutsideTransfer(_, to, amount) => assert SurplusFrom(s, e) == Credit(s.purse.holder, to, amount);
    case OpOutsideMint(to, amount) => assert SurplusFrom(s, e) == Credit(s.purse.holder, to, amount);
    case _ =>
  }

  lemma StepTotals(s: State, e: Event)
    requires Shape(s)
    ensures Totals(s.purse, Next(s, e).purse, SurplusFrom(s, e), Issued(s, e))
  {
    if Works(s, e) {
      if Closes(e.op) {
        ClosingTotals(s, e);
      } else if Stakes(e.op) {
        StakeMoves(s, e, s.purse.holder);
      } else if OutsideOrAdmin(e.op) {
        OutsideTotals(s, e);
      } else {
        AppealOrSlashTotals(s, e);
      }
    }
  }

  lemma {:induction false} RunTotals(s: State, es: seq<Event>)
    requires Inv(s)
    ensures Totals(s.purse, Run(s, es).purse, SurplusIn(s, es), IssuedIn(s, es))
  {
    if es != [] {
      var init := es[..|es| - 1];
      RunTotals(s, init);
      RunKeeps(s, init);
      StepTotals(Run(s, init), es[|es| - 1]);
    }
  }

  /**
   In every reachable state the pool is exactly the live bonds, every recorded challenger bond, all proposer
   collateral, what the contract held at the start, and what `SurplusFrom` says it has kept since.
   */
  lemma PoolIsExact(s: State, es: seq<Event>)
    requires Initial(s)
    ensures var t := Run(s, es);
            && Balance(t.purse.ledger, s.purse.holder)
               == SumBy(t.candidates, LiveBond) + SumBy(t.challengers, ListedBonds) + SumBy(t.collateral, Owed)
                  + Balance(s.purse.ledger, s.purse.holder) + SurplusIn(s, es)
            && SumBy(t.purse.ledger.balances, Amount) + t.purse.ledger.burned == t.purse.ledger.issued
  {
    InitialInv(s);
    RunKeeps(s, es);
    RunTotals(s, es);
  }

  /** No call creates or destroys a token: balances and burned tokens change by outside issuance alone. */
  lemma RunConserves(s: State, es: seq<Event>)
    requires Inv(s)
    ensures var l := Run(s, es).purse.ledger;
            SumBy(l.balances, Amount) + l.burned
            == SumBy(s.purse.ledger.balances, Amount) + s.purse.ledger.burned + IssuedIn(s, es)
  {
    RunKeeps(s, es);
    RunTotals(s, es);
  }

  /** Slashing a proposer's collateral can always be paid. */
  lemma SlashNeverFallsShort(s: State, admin: Address, proposer: Address, recipient: Address)
    requires Inv(s)
    ensures SlashCollateral(s, admin, proposer, recipient).Success?
            <==> admin == s.admin && Get(s.collateral, proposer) > 0
  {
    PoolCoversCollateral(s, proposer);
  }

  /** Slashing gives the recipient all of it, and nobody else anything. */
  lemma SlashGain(s: State, admin: Address, proposer: Address, recipient: Address, a: Address)
    requires a != s.purse.holder && SlashCollateral(s, admin, proposer, recipient).Success?
    ensures var t := SlashCollateral(s, admin, proposer, recipient).value;
            && Gain(s.purse, t.purse, a) == Credit(a, recipient, Get(s.collateral, proposer))
            && Get(t.collateral, a) == if a == proposer then 0 else Get(s.collateral, a)
  {
  }

  function Payer(op: Op): Address
    requires Stakes(op)
  {
    if op.OpChallenge? then op.challenger else op.proposer
  }

  function Stake(op: Op): int
    requires Stakes(op)
  {
    if op.OpDepositCollateral? then op.amount else op.bond
  }

  /** Exactly the stake moves from the caller into the contract. */
  lemma StakeMoves(s: State, e: Event, a: Address)
    requires Stakes(e.op) && Works(s, e)
    ensures Payer(e.op) != s.purse.holder && Stake(e.op) > 0
    ensures Gain(s.purse, Next(s, e).purse, a)
            == Credit(a, s.purse.holder, Stake(e.op)) - Credit(a, Payer(e.op), Stake(e.op))
    ensures Totals(s.purse, Next(s, e).purse, 0, 0)
  {
    match e.op
    case OpPropose(_, _, _, _, _, _, _, _, _) =>
    case OpProposeV2(_, _, _, _, _, _, _, _, _, _, _) =>
    case OpChallenge(_, _, _, _) =>
    case OpDepositCollateral(_, _) =>
  }

  // ---- One candidate through one step ----

  /** Calls that move the dispute over an existing candidate on. */
  predicate Disputes(op: Op) {
    op.OpChallenge? || op.OpAppeal? || op.OpFinalize? || op.OpArbitrate? || op.OpVoid?
  }

  predicate Proposes(op: Op) {
    op.OpPropose? || op.OpProposeV2?
  }

  /** When a candidate admits a dispute call, as far as the candidate and the clock decide. */
  predicate Admits(c: Candidate, now: nat, op: Op)
    requires Disputes(op)
  {
    match op
    case OpChallenge(_, _, _, _) => c.status == Proposed && now < c.challengeDeadline
    case OpAppeal(_, _, _, _, _, window, _) =>
      c.status == Challenged && c.appealRound < MAX_APPEAL_ROUNDS && c.passphraseHash == None && ValidWindow(window)
    case OpFinalize(_, _) => c.status == Proposed && c.challengeDeadline <= now <= c.signatureExpiry
    case _ => c.status == Challenged && c.challengeDeadline + ARBITRATION_TIMELOCK_SECONDS <= now
  }

  /** The candidate after a dispute call it admits. */
  function Revised(c: Candidate, now: nat, op: Op): Candidate
    requires Disputes(op)
  {
    match op
    case OpChallenge(challenger, _, uri, _) =>
      c.(status := Challenged, challengedBy := Some(challenger), challengeUri := Some(uri))
    case OpAppeal(_, _, outcome, signature, uri, window, _) =>
      c.(outcome := outcome, signature := signature, evidenceUri := uri, proposedAt := now,
         challengeDeadline := now + window, status := Proposed, challengedBy := None, challengeUri := None,
         appealRound := c.appealRound + 1)
    case OpVoid(_, _) => c.(status := Voided, finalizedAt := Some(now))
    case _ => c.(status := Finalized, finalizedAt := Some(now))
  }

  ghost predicate Fresh(c: Candidate, id: nat, e: Event)
    requires Proposes(e.op)
  {
    && c.id == id && c.status == Proposed && c.appealRound == 0 && c.proposedAt == e.now
    && c.challengeDeadline == e.now + e.op.window && ValidWindow(e.op.window)
    && c.proposer == e.op.proposer && c.marketId == e.op.marketId && c.bond == e.op.bond >= MIN_BOND_AMOUNT
    && c.outcome == e.op.outcome && c.signature == e.op.signature && c.evidenceUri == e.op.uri
    && e.now <= c.signatureExpiry == e.op.expiry
    && c.passphraseHash == (if e.op.OpProposeV2? then Some(e.op.hash) else None)
    && c.epoch == (if e.op.OpProposeV2? then e.op.epoch else 0)
  }

  ghost predicate Keyed(candidates: CandidateMap) {
    forall id :: id in candidates ==> candidates[id].id == id
  }

  /** What an event does to the candidates: a failed call nothing, a successful one what its kind says. */
  ghost predicate Advance(before: CandidateMap, counter: nat, e: Event, ok: bool, after: CandidateMap) {
    if ok && Proposes(e.op) then
      && counter + 1 in after && Fresh(after[counter + 1], counter + 1, e)
      && after == before[counter + 1 := after[counter + 1]]
    else if ok && Disputes(e.op) then
      && e.op.id in before && Admits(before[e.op.id], e.now, e.op)
      && after == before[e.op.id := Revised(before[e.op.id], e.now, e.op)]
    else after == before
  }

  predicate Works(s: State, e: Event) {
    Step(s, e.now, e.op).Success?
  }

  /** A proposal that goes through stores one candidate more. */
  lemma ProposalAdvances(s: State, e: Event)
    requires Proposes(e.op) && Works(s, e)
    ensures Advance(s.candidates, s.counter, e, true, Next(s, e).candidates)
  {
    match e.op
    case OpPropose(p, m, o, sig, exp, uri, w, b, v) =>
      ProposeForm(s, e.now, p, m, o, sig, exp, uri, w, b, 0, None, v);
    case OpProposeV2(p, m, o, sig, exp, ep, h, uri, w, b, v) =>
      ProposeForm(s, e.now, p, m, o, sig, exp, uri, w, b, ep, Some(h), v);
  }

  lemma ChallengeAdvances(s: State, e: Event)
    requires e.op.OpChallenge? && Works(s, e) && Keyed(s.candidates)
    ensures Advance(s.candidates, s.counter, e, true, Next(s, e).candidates)
  {
    assert s.candidates[e.op.id].id == e.op.id;
  }

  lemma AppealAdvances(s: State, e: Event)
    requires e.op.OpAppeal? && Works(s, e) && Keyed(s.candidates)
    ensures Advance(s.candidates, s.counter, e, true, Next(s, e).candidates)
  {
    assert s.candidates[e.op.id].id == e.op.id;
  }

  lemma ClosingAdvances(s: State, e: Event)
    requires (e.op.OpFinalize? || e.op.OpArbitrate? || e.op.OpVoid?) && Works(s, e) && Keyed(s.candidates)
    ensures Advance(s.candidates, s.counter, e, true, Next(s, e).candidates)
  {
    assert s.candidates[e.op.id].id == e.op.id;
  }

  lemma ShapeKeyed(s: State)
    requires Shape(s)
    ensures Keyed(s.candidates)
  {
  }

  lemma NextAdvances(s: State, e: Event)
    requires Shape(s)
    ensures Keyed(s.candidates) && Advance(s.candidates, s.counter, e, Works(s, e), Next(s, e).candidates)
  {
    ShapeKeyed(s);
    if Works(s, e) {
      if Proposes(e.op) {
        ProposalAdvances(s, e);
      } else if e.op.OpChallenge? {
        ChallengeAdvances(s, e);
      } else if e.op.OpAppeal? {
        AppealAdvances(s, e);
      } else if Disputes(e.op) {
        ClosingAdvances(s, e);
      } else {
        OthersStay(s, e);
      }
    }
  }

  lemma OthersStay(s: State, e: Event)
    requires !Proposes(e.op) && !Disputes(e.op)
    ensures Next(s, e).candidates == s.candidates
  {
    match e.op
    case OpDepositCollateral(_, _) =>
    case OpSlashCollateral(_, _, _) =>
    case OpOutsideTransfer(_, _, _) =>
    case OpOutsideMint(_, _) =>
    case _ =>
  }

  // ---- Reachable states ----

  /** The state after the first `n` events. */
  function At(s: State, es: seq<Event>, n: nat): State
    requires n <= |es|
  {
    Run(s, es[..n])
  }

  predicate Succeeded(s: State, es: seq<Event>, i: nat)
    requires i < |es|
  {
    Works(At(s, es, i), es[i])
  }

  /** All that later proofs need of one event of a run. */
  lemma EventAdvances(s: State, es: seq<Event>, i: nat)
    requires Inv(s) && i < |es|
    ensures Numbered(At(s, es, i).candidates, At(s, es, i).counter) && Keyed(At(s, es, i).candidates)
    ensures Advance(At(s, es, i).candidates, At(s, es, i).counter, es[i], Succeeded(s, es, i),
                    At(s, es, i + 1).candidates)
  {
    RunKeeps(s, es[..i]);
    NextAdvances(At(s, es, i), es[i]);
    assert es[..i + 1][..i] == es[..i];
  }

  /** Only a successful move changes a candidate; market, proposer, bond, expiry, epoch and version never change. */
  lemma AdvanceOf(before: CandidateMap, counter: nat, e: Event, ok: bool, after: CandidateMap, id: nat)
    requires Numbered(before, counter) && Advance(before, counter, e, ok, after) && id in before
    ensures id in after
    ensures !(ok && Disputes(e.op) && e.op.id == id) ==> after[id] == before[id]
    ensures after[id].marketId == before[id].marketId && after[id].proposer == before[id].proposer
    ensures after[id].bond == before[id].bond && after[id].signatureExpiry == before[id].signatureExpiry
    ensures after[id].epoch == before[id].epoch && after[id].passphraseHash == before[id].passphraseHash
  {
  }

  /** A closed candidate admits no move. */
  lemma ClosedOf(before: CandidateMap, counter: nat, e: Event, ok: bool, after: CandidateMap, id: nat)
    requires Numbered(before, counter) && Advance(before, counter, e, ok, after) && id in before && !Live(before[id])
    ensures id in after && after[id] == before[id]
  {
  }

  // ---- Finality ----

  /** A closed candidate never changes again. */
  lemma {:induction false} ClosedStays(s: State, es: seq<Event>, k: nat, n: nat, id: nat)
    requires Inv(s) && k <= n <= |es| && id in At(s, es, k).candidates && !Live(At(s, es, k).candidates[id])
    ensures id in At(s, es, n).candidates && At(s, es, n).candidates[id] == At(s, es, k).candidates[id]
    decreases n
  {
    if k < n {
      ClosedStays(s, es, k, n - 1, id);
      ClosedNext(s, es, n - 1, id);
    }
  }

  lemma ClosedNext(s: State, es: seq<Event>, i: nat, id: nat)
    requires Inv(s) && i < |es| && id in At(s, es, i).candidates && !Live(At(s, es, i).candidates[id])
    ensures id in At(s, es, i + 1).candidates && At(s, es, i + 1).candidates[id] == At(s, es, i).candidates[id]
  {
    EventAdvances(s, es, i);
    ClosedOf(At(s, es, i).candidates, At(s, es, i).counter, es[i], Succeeded(s, es, i),
             At(s, es, i + 1).candidates, id);
  }

  /** The candidate of a market never changes: a market that has one keeps it, with its proposer and bond. */
  lemma {:induction false} CandidateStays(s: State, es: seq<Event>, k: nat, n: nat, id: nat)
    requires Inv(s) && k <= n <= |es| && id in At(s, es, k).candidates
    ensures id in At(s, es, n).candidates
    ensures var c, d := At(s, es, k).candidates[id], At(s, es, n).candidates[id];
            && d.marketId == c.marketId && d.proposer == c.proposer && d.bond == c.bond
            && d.signatureExpiry == c.signatureExpiry && d.epoch == c.epoch && d.passphraseHash == c.passphraseHash
    decreases n
  {
    if k < n {
      CandidateStays(s, es, k, n - 1, id);
      EventAdvances(s, es, n - 1);
      AdvanceOf(At(s, es, n - 1).candidates, At(s, es, n - 1).counter, es[n - 1], Succeeded(s, es, n - 1),
                At(s, es, n).candidates, id);
    }
  }

  /** Over a whole run a market has one candidate at most, and at most one callback, which says what it says. */
  lemma OneCandidateOneCallback(s: State, es: seq<Event>, m: u32)
    requires Initial(s)
    ensures var t := Run(s, es);
            && (forall i, j | i in t.candidates && j in t.candidates
                              && t.candidates[i].marketId == m && t.candidates[j].marketId == m :: i == j)
            && CallsAbout(t.sent, m) <= 1
            && (CallsAbout(t.sent, m) == 1 <==> Closed(t.candidates, t.candidateByMarket, m))
            && (forall k :: 0 <= k < |t.sent| && About(t.sent[k]) == Some(m) ==>
                  Closed(t.candidates, t.candidateByMarket, m)
                  && Matches(t.candidates[t.candidateByMarket[m]], t.sent[k]))
  {
    InitialInv(s);
    RunKeeps(s, es);
  }

  /** The version of a candidate asks for a callback of the second kind if it has a network hash. */
  predicate OwnVersion(c: Candidate, call: MarketCall) {
    call.ResolveMarketV2? <==> c.passphraseHash.Some?
  }

  /** Arbitration sends one callback, of the candidate's own version exactly when that version is the first. */
  lemma ArbitrationVersion(s: State, now: nat, admin: Address, id: nat)
    requires ArbitrateUpholdProposer(s, now, admin, id).Success?
    ensures var sent := ArbitrateUpholdProposer(s, now, admin, id).value.sent;
            && |sent| == |s.sent| + 1 && sent[..|s.sent|] == s.sent
            && sent[|s.sent|].ResolveMarket?
            && (OwnVersion(s.candidates[id], sent[|s.sent|]) <==> s.candidates[id].passphraseHash == None)
  {
  }

  /** Finalization always sends one of the candidate's own version. */
  lemma FinalizeVersion(s: State, now: nat, finalizer: Address, id: nat)
    requires Finalize(s, now, finalizer, id).Success?
    ensures var sent := Finalize(s, now, finalizer, id).value.sent;
            && |sent| == |s.sent| + 1 && sent[..|s.sent|] == s.sent
            && !sent[|s.sent|].VoidMarket? && OwnVersion(s.candidates[id], sent[|s.sent|])
  {
  }

  // ---- Length of a dispute ----

  function Rank(status: CandidateStatus): nat {
    match status
    case Proposed => 2
    case Challenged => 1
    case _ => 0
  }

  /** How many more moves a candidate can make; a second-version candidate cannot be appealed. */
  function Potential(c: Candidate): int {
    Rank(c.status) + (if c.passphraseHash.Some? then 0 else 2 * (MAX_APPEAL_ROUNDS - c.appealRound))
  }

  function MaxMoves(c: Candidate): nat {
    if c.passphraseHash.Some? then 2 else 8
  }

  /** Every move a candidate admits strictly lowers its potential, and never below zero. */
  lemma MovesLowerPotential(c: Candidate, now: nat, op: Op)
    requires Disputes(op) && Admits(c, now, op) && c.appealRound <= MAX_APPEAL_ROUNDS
    ensures 0 <= Potential(Revised(c, now, op)) < Potential(c)
    ensures MaxMoves(Revised(c, now, op)) == MaxMoves(c) && Revised(c, now, op).appealRound <= MAX_APPEAL_ROUNDS
  {
  }

  /** One event, seen from a candidate: a move costs potential, anything else leaves it, a new candidate has no more. */
  lemma PotentialStep(before: CandidateMap, counter: nat, e: Event, ok: bool, after: CandidateMap, id: nat)
    requires Numbered(before, counter) && Advance(before, counter, e, ok, after) && id in after
    ensures id !in before ==>
              !(ok && Disputes(e.op) && e.op.id == id)
              && after[id].appealRound == 0 && 0 <= Potential(after[id]) <= MaxMoves(after[id])
    ensures id in before && before[id].appealRound <= MAX_APPEAL_ROUNDS && Potential(before[id]) >= 0 ==>
              && after[id].appealRound <= MAX_APPEAL_ROUNDS && MaxMoves(after[id]) == MaxMoves(before[id])
              && 0 <= Potential(after[id])
              && Potential(after[id]) + (if ok && Disputes(e.op) && e.op.id == id then 1 else 0)
                 <= Potential(before[id])
  {
    if id in before && ok && Disputes(e.op) && e.op.id == id && before[id].appealRound <= MAX_APPEAL_ROUNDS {
      MovesLowerPotential(before[id], e.now, e.op);
    }
  }

  function MovesIn(s: State, es: seq<Event>, n: nat, id: nat): nat
    requires n <= |es|
  {
    if n == 0 then 0
    else
      MovesIn(s, es, n - 1, id)
      + (if MovedAt(s, es, n - 1, id) then 1 else 0)
  }

  /** However a run goes, a candidate makes at most 8 moves, or 2 if it is second-version. */
  lemma {:induction false} DisputeIsBounded(s: State, es: seq<Event>, n: nat, id: nat)
    requires Initial(s) && n <= |es|
    ensures id !in At(s, es, n).candidates ==> MovesIn(s, es, n, id) == 0
    ensures id in At(s, es, n).candidates ==>
              var c := At(s, es, n).candidates[id];
              && MovesIn(s, es, n, id) + Potential(c) <= MaxMoves(c)
              && Potential(c) >= 0 && c.appealRound <= MAX_APPEAL_ROUNDS
    decreases n
  {
    InitialInv(s);
    if n > 0 {
      DisputeIsBounded(s, es, n - 1, id);
      BoundStep(s, es, n - 1, id);
    }
  }

  /** The `i`-th event moves candidate `id` on. */
  predicate MovedAt(s: State, es: seq<Event>, i: nat, id: nat)
    requires i < |es|
  {
    Succeeded(s, es, i) && Disputes(es[i].op) && es[i].op.id == id
  }

  lemma BoundStep(s: State, es: seq<Event>, i: nat, id: nat)
    requires Inv(s) && i < |es|
    ensures id in At(s, es, i).candidates ==> id in At(s, es, i + 1).candidates
    ensures id !in At(s, es, i).candidates ==> !MovedAt(s, es, i, id)
    ensures id in At(s, es, i + 1).candidates ==>
              var c := At(s, es, i + 1).candidates[id];
              if id in At(s, es, i).candidates then
                var b := At(s, es, i).candidates[id];
                b.appealRound <= MAX_APPEAL_ROUNDS && Potential(b) >= 0 ==>
                  && c.appealRound <= MAX_APPEAL_ROUNDS && MaxMoves(c) == MaxMoves(b) && 0 <= Potential(c)
                  && Potential(c) + (if MovedAt(s, es, i, id) then 1 else 0) <= Potential(b)
              else
                c.appealRound == 0 && 0 <= Potential(c) <= MaxMoves(c)
  {
    EventAdvances(s, es, i);
    if id in At(s, es, i + 1).candidates {
      PotentialStep(At(s, es, i).candidates, At(s, es, i).counter, es[i], Succeeded(s, es, i),
                    At(s, es, i + 1).candidates, id);
    }
  }

  // ---- Windows ----

  /** The `i`-th event opened a challenge window on candidate `id`, of the seconds its caller chose. */
  predicate OpenedAt(s: State, es: seq<Event>, i: nat, id: nat)
    requires i < |es|
  {
    && Succeeded(s, es, i)
    && ((Proposes(es[i].op) && At(s, es, i).counter + 1 == id) || (es[i].op.OpAppeal? && es[i].op.id == id))
  }

  predicate ChallengedAt(s: State, es: seq<Event>, i: nat, id: nat)
    requires i < |es|
  {
    Succeeded(s, es, i) && es[i].op.OpChallenge? && es[i].op.id == id
  }

  predicate FinalizedAt(s: State, es: seq<Event>, i: nat, id: nat)
    requires i < |es|
  {
    Succeeded(s, es, i) && es[i].op.OpFinalize? && es[i].op.id == id
  }

  /** Event `j` is the latest to have opened a window on `id` among the first `n`. */
  ghost predicate LatestOpening(s: State, es: seq<Event>, n: nat, id: nat, j: nat)
    requires j < n <= |es|
  {
    OpenedAt(s, es, j, id) && forall i :: j < i < n ==> !OpenedAt(s, es, i, id)
  }

  ghost predicate Unchallenged(s: State, es: seq<Event>, n: nat, id: nat, j: nat)
    requires j < n <= |es|
  {
    forall i :: j < i < n ==> !ChallengedAt(s, es, i, id)
  }

  lemma LatestExtends(s: State, es: seq<Event>, n: nat, id: nat, j: nat)
    requires j < n < |es| && LatestOpening(s, es, n, id, j) && !OpenedAt(s, es, n, id)
    ensures LatestOpening(s, es, n + 1, id, j)
  {
  }

  lemma UnchallengedExtends(s: State, es: seq<Event>, n: nat, id: nat, j: nat)
    requires j < n < |es| && Unchallenged(s, es, n, id, j) && !ChallengedAt(s, es, n, id)
    ensures Unchallenged(s, es, n + 1, id, j)
  {
  }

  /** The event leaves no window of `id` newly opened: the deadline stays, and `Proposed` means unchallenged. */
  lemma DeadlineStays(before: CandidateMap, counter: nat, e: Event, ok: bool, after: CandidateMap, id: nat)
    requires Numbered(before, counter) && Advance(before, counter, e, ok, after) && id in after
    requires !(ok && Proposes(e.op) && counter + 1 == id) && !(ok && e.op.OpAppeal? && e.op.id == id)
    ensures id in before && after[id].challengeDeadline == before[id].challengeDeadline
    ensures after[id].outcome == before[id].outcome && after[id].signature == before[id].signature
    ensures after[id].status == Proposed ==>
              before[id].status == Proposed && !(ok && e.op.OpChallenge? && e.op.id == id)
  {
  }

  lemma DeadlineOpens(before: CandidateMap, counter: nat, e: Event, after: CandidateMap, id: nat)
    requires Advance(before, counter, e, true, after)
    requires (Proposes(e.op) && counter + 1 == id) || (e.op.OpAppeal? && e.op.id == id)
    ensures id in after && after[id].challengeDeadline == e.now + e.op.window && ValidWindow(e.op.window)
    ensures after[id].outcome == e.op.outcome && after[id].signature == e.op.signature
  {
  }

  /**
   The deadline, outcome and signature of a candidate come from its latest opening, and while it is `Proposed` nobody
   challenged since.
   */
  lemma {:induction false} DeadlineOrigin(s: State, es: seq<Event>, n: nat, id: nat) returns (j: nat)
    requires Initial(s) && n <= |es| && id in At(s, es, n).candidates
    ensures j < n && LatestOpening(s, es, n, id, j) && ValidWindow(es[j].op.window)
    ensures var c := At(s, es, n).candidates[id];
            && c.challengeDeadline == es[j].now + es[j].op.window
            && c.outcome == es[j].op.outcome && c.signature == es[j].op.signature
            && (c.status == Proposed ==> Unchallenged(s, es, n, id, j))
    decreases n
  {
    var m: nat := n - 1;
    InitialInv(s);
    EventAdvances(s, es, m);
    if OpenedAt(s, es, m, id) {
      DeadlineOpens(At(s, es, m).candidates, At(s, es, m).counter, es[m], At(s, es, n).candidates, id);
      j := m;
    } else {
      DeadlineStays(At(s, es, m).candidates, At(s, es, m).counter, es[m], Succeeded(s, es, m),
                    At(s, es, n).candidates, id);
      j := DeadlineOrigin(s, es, m, id);
      LatestExtends(s, es, m, id, j);
      if At(s, es, n).candidates[id].status == Proposed {
        UnchallengedExtends(s, es, m, id, j);
      }
    }
  }

  /** The candidate's window was opened at event `j` and has passed in full, plus `delay`, by event `k`. */
  ghost predicate FullWindowBefore(s: State, es: seq<Event>, k: nat, id: nat, j: nat, delay: nat)
    requires j < k < |es|
  {
    && LatestOpening(s, es, k, id, j)
    && 60 <= es[j].op.window <= 1_209_600
    && es[j].now + es[j].op.window + delay <= es[k].now
  }

  /**
   Whenever `finalize` succeeds, a full window has passed since the latest proposal or appeal, nobody has
   challenged since then, and the signature has not expired.
   */
  lemma FinalizeIsSafe(s: State, es: seq<Event>, k: nat, id: nat)
    requires Initial(s) && k < |es| && FinalizedAt(s, es, k, id)
    ensures id in At(s, es, k).candidates && es[k].now <= At(s, es, k).candidates[id].signatureExpiry
    ensures exists j :: 0 <= j < k && FullWindowBefore(s, es, k, id, j, 0) && Unchallenged(s, es, k, id, j)
  {
    InitialInv(s);
    EventAdvances(s, es, k);
    var j := DeadlineOrigin(s, es, k, id);
    assert FullWindowBefore(s, es, k, id, j, 0);
  }

  /** Arbitration and voiding come at least the arbitration timelock after the latest window closed. */
  lemma ArbitrationIsLate(s: State, es: seq<Event>, k: nat, id: nat)
    requires Initial(s) && k < |es| && Succeeded(s, es, k)
    requires (es[k].op.OpArbitrate? || es[k].op.OpVoid?) && es[k].op.id == id
    ensures exists j :: 0 <= j < k && FullWindowBefore(s, es, k, id, j, 172_800)
  {
    InitialInv(s);
    EventAdvances(s, es, k);
    var j := DeadlineOrigin(s, es, k, id);
    assert FullWindowBefore(s, es, k, id, j, 172_800);
  }

  /** The window that led to a finalization. */
  lemma FinalizedWindow(s: State, es: seq<Event>, k: nat, id: nat) returns (j: nat)
    requires Initial(s) && k < |es| && FinalizedAt(s, es, k, id)
    ensures j < k && Unchallenged(s, es, k, id, j) && es[j].now + 60 <= es[k].now
  {
    FinalizeIsSafe(s, es, k, id);
    j :| 0 <= j < k && FullWindowBefore(s, es, k, id, j, 0) && Unchallenged(s, es, k, id, j);
  }

  lemma NoChallengeAfterFinalize(s: State, es: seq<Event>, k: nat, i: nat, id: nat)
    requires Inv(s) && k < i < |es| && FinalizedAt(s, es, k, id)
    ensures !ChallengedAt(s, es, i, id)
  {
    EventAdvances(s, es, k);
    ClosedStays(s, es, k + 1, i, id);
    EventAdvances(s, es, i);
  }

  /**
   A challenge and a finalization of the same candidate never share a timestamp: the challenge comes first,
   and a whole further window lies between them.
   */
  lemma ChallengeAndFinalizeApart(s: State, es: seq<Event>, i: nat, k: nat, id: nat)
    requires Initial(s) && Timed(es) && i < |es| && k < |es|
    requires ChallengedAt(s, es, i, id) && FinalizedAt(s, es, k, id)
    ensures i < k && es[i].now + 60 <= es[k].now
  {
    InitialInv(s);
    if k < i {
      NoChallengeAfterFinalize(s, es, k, i, id);
    } else {
      ChallengePrecedesWindow(s, es, i, k, id);
    }
  }

  /** A challenge before a finalization came before the window that led to it. */
  lemma ChallengePrecedesWindow(s: State, es: seq<Event>, i: nat, k: nat, id: nat)
    requires Initial(s) && Timed(es) && i <= k < |es|
    requires ChallengedAt(s, es, i, id) && FinalizedAt(s, es, k, id)
    ensures i < k && es[i].now + 60 <= es[k].now
  {
    var j := FinalizedWindow(s, es, k, id);
    assert i <= j;
    assert es[i].now <= es[j].now;
  }
}
