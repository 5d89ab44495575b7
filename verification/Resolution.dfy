/**
 The resolution dispute game as a timed state machine: what each entrypoint of the resolution
 contract accepts, and the state it leaves. Every function here is total; a `Failure` means the
 host rolls the call back.
 */
module Resolution {
  import opened Base
  import opened Sums
  import opened TokenLedger
  import opened BondMoney
  import Decimal

  const MIN_CHALLENGE_WINDOW_SECONDS: nat := 60
  const MAX_CHALLENGE_WINDOW_SECONDS: nat := 14 * 24 * 60 * 60
  const MAX_URI_BYTES: nat := 512
  const MAX_APPEAL_ROUNDS: nat := 3
  const MIN_BOND_AMOUNT: int := 10_000_000
  const MIN_CHALLENGE_BOND_AMOUNT: int := 10_000_000
  const ARBITRATION_TIMELOCK_SECONDS: nat := 172_800

  type Bytes = seq<byte>

  datatype CandidateStatus = Proposed | Challenged | Finalized | Voided

  datatype Candidate = Candidate(
    id: nat,
    marketId: u32,
    outcome: bool,
    signature: Bytes,
    signatureExpiry: nat,
    proposer: Address,
    evidenceUri: string,
    proposedAt: nat,
    challengeDeadline: nat,
    status: CandidateStatus,
    challengedBy: Option<Address>,
    challengeUri: Option<string>,
    finalizedAt: Option<nat>,
    appealRound: nat,
    bond: i128,
    epoch: u32,
    passphraseHash: Option<Bytes>)

  datatype Error =
    | CandidateNotFound | CandidateAlreadyExists | CandidateAlreadyChallenged | CandidateAlreadyFinalized
    | ChallengeWindowOpen | ChallengeWindowClosed | InvalidChallengeWindow | InvalidEvidenceUri
    | SignatureExpired | InvalidSignatureExpiry | MarketAlreadyResolved | CandidateNotChallenged
    | AppealLimitExceeded | InsufficientBond | InsufficientCollateral | InvalidCollateral
    | InsufficientChallengeBond | NotArbitrable | ArbitrationTimelockNotElapsed
    | Unauthorized | NotAdmin | InvalidAdmin | AlreadyInitialized | EmergencyModeActive | ContractPaused
    | SignatureRejected  // the market contract's own verification error, passed on
    | HostTrap           // failed authorization, arithmetic overflow, or a token call the payer cannot cover

  /** What the market contract answers while a proposal or appeal is checked. */
  datatype MarketView = MarketView(active: bool, signatureVerifies: bool)

  /** The terminal callbacks, with the arguments the market contract receives. */
  datatype MarketCall =
    | ResolveMarket(marketText: string, outcome: bool, signature: Bytes, expiresAt: nat)
    | ResolveMarketV2(marketText: string, outcome: bool, validUntil: nat, epoch: u32, signature: Bytes,
                      passphraseHash: Bytes)
    | VoidMarket(marketId: u32)

  /** The contract's storage, its token account, and the history of its terminal callbacks. */
  datatype State = State(
    admin: Address,
    paused: bool,
    mode: EmergencyMode,
    counter: nat,
    candidates: CandidateMap,
    candidateByMarket: MarketIndex,
    challengers: ChallengerLists,
    collateral: map<Address, int>,
    purse: Purse,
    sent: seq<MarketCall>)

  type Outcome = Result<State, Error>

  // ---- Storage ----

  type CandidateMap = map<nat, Candidate>
  type MarketIndex = map<u32, nat>
  type ChallengerLists = map<nat, seq<ChallengeRecord>>

  function ListOf(lists: ChallengerLists, id: nat): seq<ChallengeRecord> {
    if id in lists then lists[id] else []
  }

  function Records(s: State, id: nat): seq<ChallengeRecord> {
    ListOf(s.challengers, id)
  }

  function SetCandidate(s: State, c: Candidate): State {
    s.(candidates := s.candidates[c.id := c], candidateByMarket := s.candidateByMarket[c.marketId := c.id])
  }

  predicate Live(c: Candidate) {
    c.status == Proposed || c.status == Challenged
  }

  // ---- Guards ----

  predicate ValidUri(uri: string) {
    1 <= |uri| <= MAX_URI_BYTES
  }

  predicate ValidWindow(seconds: nat) {
    MIN_CHALLENGE_WINDOW_SECONDS <= seconds <= MAX_CHALLENGE_WINDOW_SECONDS
  }

  function RequireArbitrable(c: Candidate, now: nat): Option<Error> {
    if c.status != Challenged then Some(NotArbitrable)
    else if now < c.challengeDeadline + ARBITRATION_TIMELOCK_SECONDS then Some(ArbitrationTimelockNotElapsed)
    else None
  }

  /** The contract moves on only if its token call went through. */
  function After(m: Movement, s: State): Outcome {
    match m
    case Success(p) => Success(s.(purse := p))
    case Failure(_) => Failure(HostTrap)
  }

  // ---- Entrypoints ----

  function NewCandidate(s: State, now: nat, proposer: Address, marketId: u32, outcome: bool, signature: Bytes,
                        expiry: nat, uri: string, window: nat, bond: i128, epoch: u32, hash: Option<Bytes>): Candidate
  {
    Candidate(s.counter + 1, marketId, outcome, signature, expiry, proposer, uri, now, now + window,
              Proposed, None, None, None, 0, bond, epoch, hash)
  }

  /** The part `propose` and `propose_v2` share; the V1 entrypoint also checks the pause flag. */
  function ProposeChecked(s: State, now: nat, proposer: Address, marketId: u32, outcome: bool, signature: Bytes,
                          expiry: nat, uri: string, window: nat, bond: i128, epoch: u32, hash: Option<Bytes>,
                          view: MarketView): Outcome
  {
    if s.mode != Normal then Failure(EmergencyModeActive)
    else if !ValidUri(uri) then Failure(InvalidEvidenceUri)
    else if !ValidWindow(window) then Failure(InvalidChallengeWindow)
    else if bond < MIN_BOND_AMOUNT then Failure(InsufficientBond)
    else if marketId in s.candidateByMarket then Failure(CandidateAlreadyExists)
    else if !view.active then Failure(MarketAlreadyResolved)
    else if !view.signatureVerifies then Failure(SignatureRejected)
    else if expiry < now then Failure(InvalidSignatureExpiry)
    else if s.counter + 1 > U32_MAX then Failure(HostTrap)
    else
      var c := NewCandidate(s, now, proposer, marketId, outcome, signature, expiry, uri, window, bond, epoch, hash);
      After(Lock(s.purse, proposer, bond), SetCandidate(s, c).(counter := s.counter + 1))
  }

  function Propose(s: State, now: nat, proposer: Address, marketId: u32, outcome: bool, signature: Bytes,
                   expiry: nat, uri: string, window: nat, bond: i128, view: MarketView): Outcome
  {
    if proposer == s.purse.holder then Failure(HostTrap)
    else if s.paused then Failure(ContractPaused)
    else ProposeChecked(s, now, proposer, marketId, outcome, signature, expiry, uri, window, bond, 0, None, view)
  }

  function ProposeV2(s: State, now: nat, proposer: Address, marketId: u32, outcome: bool, signature: Bytes,
                     validUntil: nat, epoch: u32, hash: Bytes, uri: string, window: nat, bond: i128,
                     view: MarketView): Outcome
  {
    if proposer == s.purse.holder then Failure(HostTrap)
    else ProposeChecked(s, now, proposer, marketId, outcome, signature, validUntil, uri, window, bond, epoch,
                        Some(hash), view)
  }

  function Challenge(s: State, now: nat, challenger: Address, id: nat, uri: string, bond: i128): Outcome {
    if challenger == s.purse.holder then Failure(HostTrap)
    else if s.paused then Failure(ContractPaused)
    else if s.mode != Normal && s.mode != TradingHalted then Failure(EmergencyModeActive)
    else if !ValidUri(uri) then Failure(InvalidEvidenceUri)
    else if bond < MIN_CHALLENGE_BOND_AMOUNT then Failure(InsufficientChallengeBond)
    else if id !in s.candidates then Failure(CandidateNotFound)
    else
      var c := s.candidates[id];
      if c.status == Finalized || c.status == Voided then Failure(CandidateAlreadyFinalized)
      else if c.status == Challenged then Failure(CandidateAlreadyChallenged)
      else if now >= c.challengeDeadline then Failure(ChallengeWindowClosed)
      else
        var marked := SetCandidate(s, c.(status := Challenged, challengedBy := Some(challenger),
                                         challengeUri := Some(uri)));
        var recorded := marked.(challengers :=
                                  s.challengers[id := Records(s, id) + [ChallengeRecord(challenger, bond)]]);
        After(Lock(s.purse, challenger, bond), recorded)
  }

  function Appeal(s: State, now: nat, proposer: Address, id: nat, outcome: bool, signature: Bytes, uri: string,
                  window: nat, view: MarketView): Outcome
  {
    if proposer == s.purse.holder then Failure(HostTrap)
    else if s.paused then Failure(ContractPaused)
    else if s.mode != Normal then Failure(EmergencyModeActive)
    else if !ValidUri(uri) then Failure(InvalidEvidenceUri)
    else if !ValidWindow(window) then Failure(InvalidChallengeWindow)
    else if id !in s.candidates then Failure(CandidateNotFound)
    else
      var c := s.candidates[id];
      if c.status != Challenged then Failure(CandidateNotChallenged)
      else if c.appealRound >= MAX_APPEAL_ROUNDS then Failure(AppealLimitExceeded)
      else if c.passphraseHash.Some? then Failure(Unauthorized)
      else if !view.active then Failure(MarketAlreadyResolved)
      else if !view.signatureVerifies then Failure(SignatureRejected)
      else
        Success(SetCandidate(s, c.(outcome := outcome, signature := signature, evidenceUri := uri,
                                   proposedAt := now, challengeDeadline := now + window, status := Proposed,
                                   challengedBy := None, challengeUri := None, appealRound := c.appealRound + 1)))
  }

  /** The callback of `finalize`: the version follows the candidate. */
  function ResolveCall(c: Candidate): MarketCall {
    match c.passphraseHash
    case Some(hash) =>
      ResolveMarketV2(Decimal.Digits(c.marketId), c.outcome, c.signatureExpiry, c.epoch, c.signature, hash)
    case None => ResolveV1Call(c)
  }

  /** The callback of `arbitrate_uphold_proposer`: always the first version. */
  function ResolveV1Call(c: Candidate): MarketCall {
    ResolveMarket(Decimal.Digits(c.marketId), c.outcome, c.signature, c.signatureExpiry)
  }

  /** The candidate is closed, its list dropped, and the market told. */
  function Close(s: State, d: Candidate, call: MarketCall): State {
    SetCandidate(s, d).(challengers := s.challengers - {d.id}, sent := s.sent + [call])
  }

  /** The token side of `finalize` and arbitration: refund the proposer, slash every challenger. */
  function UpholdTokens(p: Purse, c: Candidate, records: seq<ChallengeRecord>): Movement {
    var refunded :- PayPositive(p, c.proposer, c.bond);
    SplitAll(refunded, c.proposer, records)
  }

  /** Who is rewarded for a voided market: the last challenger on record. */
  function VoidRewardRecipient(c: Candidate, records: seq<ChallengeRecord>): Address {
    if records == [] then c.proposer else records[|records| - 1].challenger
  }

  /** The token side of voiding: slash the proposer, refund every challenger. */
  function VoidTokens(p: Purse, c: Candidate, records: seq<ChallengeRecord>): Movement {
    var slashed :- SplitBond(p, VoidRewardRecipient(c, records), c.bond);
    RefundAll(slashed, records)
  }

  function FinalizedForm(c: Candidate, now: nat): Candidate {
    c.(status := Finalized, finalizedAt := Some(now))
  }

  function VoidedForm(c: Candidate, now: nat): Candidate {
    c.(status := Voided, finalizedAt := Some(now))
  }

  function Uphold(s: State, now: nat, c: Candidate, call: MarketCall): Outcome {
    After(UpholdTokens(s.purse, c, Records(s, c.id)), Close(s, FinalizedForm(c, now), call))
  }

  function Finalize(s: State, now: nat, finalizer: Address, id: nat): Outcome {
    if s.paused then Failure(ContractPaused)
    else if s.mode == GlobalFreeze then Failure(EmergencyModeActive)
    else if id !in s.candidates then Failure(CandidateNotFound)
    else
      var c := s.candidates[id];
      if c.status == Finalized || c.status == Voided then Failure(CandidateAlreadyFinalized)
      else if c.status == Challenged then Failure(CandidateAlreadyChallenged)
      else if now < c.challengeDeadline then Failure(ChallengeWindowOpen)
      else if now > c.signatureExpiry then Failure(SignatureExpired)
      else Uphold(s, now, c, ResolveCall(c))
  }

  function ArbitrateUpholdProposer(s: State, now: nat, admin: Address, id: nat): Outcome {
    if s.paused then Failure(ContractPaused)
    else if admin != s.admin then Failure(NotAdmin)
    else if id !in s.candidates then Failure(CandidateNotFound)
    else
      var c := s.candidates[id];
      match RequireArbitrable(c, now)
      case Some(e) => Failure(e)
      case None => Uphold(s, now, c, ResolveV1Call(c))
  }

  function VoidMarketOf(s: State, now: nat, admin: Address, id: nat): Outcome {
    if s.paused then Failure(ContractPaused)
    else if admin != s.admin then Failure(NotAdmin)
    else if id !in s.candidates then Failure(CandidateNotFound)
    else
      var c := s.candidates[id];
      match RequireArbitrable(c, now)
      case Some(e) => Failure(e)
      case None =>
        After(VoidTokens(s.purse, c, Records(s, id)), Close(s, VoidedForm(c, now), VoidMarket(c.marketId)))
  }

  function DepositCollateral(s: State, proposer: Address, amount: i128): Outcome {
    if proposer == s.purse.holder then Failure(HostTrap)
    else if s.mode != Normal then Failure(EmergencyModeActive)
    else if amount <= 0 then Failure(InvalidCollateral)
    else if Get(s.collateral, proposer) + amount > I128_MAX then Failure(HostTrap)
    else
      After(Lock(s.purse, proposer, amount),
            s.(collateral := s.collateral[proposer := Get(s.collateral, proposer) + amount]))
  }

  function SlashCollateral(s: State, admin: Address, proposer: Address, recipient: Address): Outcome {
    if admin != s.admin then Failure(NotAdmin)
    else
      var amount := Get(s.collateral, proposer);
      if amount <= 0 then Failure(InsufficientCollateral)
      else After(Pay(s.purse, recipient, amount), s.(collateral := s.collateral[proposer := 0]))
  }

  // ---- The state machine ----

  datatype Op =
    | OpPropose(proposer: Address, marketId: u32, outcome: bool, signature: Bytes, expiry: nat, uri: string,
                window: nat, bond: i128, view: MarketView)
    | OpProposeV2(proposer: Address, marketId: u32, outcome: bool, signature: Bytes, expiry: nat, epoch: u32,
                  hash: Bytes, uri: string, window: nat, bond: i128, view: MarketView)
    | OpChallenge(challenger: Address, id: nat, uri: string, bond: i128)
    | OpAppeal(proposer: Address, id: nat, outcome: bool, signature: Bytes, uri: string, window: nat,
               view: MarketView)
    | OpFinalize(finalizer: Address, id: nat)
    | OpArbitrate(admin: Address, id: nat)
    | OpVoid(admin: Address, id: nat)
    | OpDepositCollateral(proposer: Address, amount: i128)
    | OpSlashCollateral(admin: Address, proposer: Address, recipient: Address)
    | OpSetPaused(admin: Address, paused: bool)
    | OpSetMode(admin: Address, mode: EmergencyMode)
    | OpSetTreasury(treasury: Address)
    // The token's other users: anybody may move their own tokens, also to the contract, and the issuer may issue.
    | OpOutsideTransfer(from: Address, to: Address, amount: i128)
    | OpOutsideMint(to: Address, amount: i128)

  function Step(s: State, now: nat, op: Op): Outcome {
    match op
    case OpPropose(p, m, o, sig, exp, uri, w, b, v) => Propose(s, now, p, m, o, sig, exp, uri, w, b, v)
    case OpProposeV2(p, m, o, sig, exp, ep, h, uri, w, b, v) =>
      ProposeV2(s, now, p, m, o, sig, exp, ep, h, uri, w, b, v)
    case OpChallenge(a, id, uri, b) => Challenge(s, now, a, id, uri, b)
    case OpAppeal(a, id, o, sig, uri, w, v) => Appeal(s, now, a, id, o, sig, uri, w, v)
    case OpFinalize(a, id) => Finalize(s, now, a, id)
    case OpArbitrate(a, id) => ArbitrateUpholdProposer(s, now, a, id)
    case OpVoid(a, id) => VoidMarketOf(s, now, a, id)
    case OpDepositCollateral(a, amount) => DepositCollateral(s, a, amount)
    case OpSlashCollateral(a, p, r) => SlashCollateral(s, a, p, r)
    case OpSetPaused(a, b) => if a != s.admin then Failure(NotAdmin) else Success(s.(paused := b))
    case OpSetMode(a, m) => if a != s.admin then Failure(NotAdmin) else Success(s.(mode := m))
    case OpSetTreasury(t) => Success(s.(purse := s.purse.(treasury := Some(t))))
    case OpOutsideTransfer(from, to, amount) =>
      if from == s.purse.holder then Failure(HostTrap)
      else Outside(s, Transfer(s.purse.ledger, from, to, amount), to, amount)
    case OpOutsideMint(to, amount) => Outside(s, Mint(s.purse.ledger, to, amount), to, amount)
  }

  /** A token call the contract takes no part in; what it receives this way is surplus. */
  function Outside(s: State, l: Option<Ledger>, to: Address, amount: int): Outcome {
    match l
    case Some(l) =>
      Success(s.(purse := s.purse.(ledger := l, surplus := s.purse.surplus + Credit(s.purse.holder, to, amount))))
    case None => Failure(HostTrap)
  }

  datatype Event = Event(now: nat, op: Op)

  /** A failed call leaves no trace. */
  function Next(s: State, e: Event): State {
    match Step(s, e.now, e.op)
    case Success(t) => t
    case Failure(_) => s
  }

  function Run(s: State, es: seq<Event>): State {
    if es == [] then s else Next(Run(s, es[..|es| - 1]), es[|es| - 1])
  }

  /** Ledger timestamps never go back. */
  predicate Timed(es: seq<Event>) {
    forall i, j :: 0 <= i <= j < |es| ==> es[i].now <= es[j].now
  }

  /** A freshly initialized contract; tokens somebody sent to its address before are surplus. */
  ghost predicate Initial(s: State) {
    && Sound(s.purse.ledger)
    && s.counter == 0
    && s.candidates == map[] && s.candidateByMarket == map[] && s.challengers == map[] && s.collateral == map[]
    && Committed(s.purse) == 0
    && s.sent == []
    && !s.paused && s.mode == Normal && s.purse.treasury == None
  }
}
