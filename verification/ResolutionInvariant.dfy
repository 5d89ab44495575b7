/** What every call keeps: indexes that agree, a pool that covers every bond, one callback per market. */
module ResolutionInvariant {
  import opened Base
  import opened Sums
  import opened TokenLedger
  import opened Resolution
  import opened BondMoney

  // ---- Shape: candidates, indexes and challenger lists ----

  /** Live candidates carry one record per appeal round, plus the standing challenge; closed ones carry none. */
  function ExpectedRecords(c: Candidate): nat {
    match c.status
    case Proposed => c.appealRound
    case Challenged => c.appealRound + 1
    case _ => 0
  }

  ghost predicate GoodCandidate(self: Address, id: nat, c: Candidate, records: seq<ChallengeRecord>) {
    && c.id == id
    && c.proposer != self
    && c.bond >= MIN_BOND_AMOUNT
    && c.appealRound <= MAX_APPEAL_ROUNDS
    && c.proposedAt <= c.challengeDeadline && ValidWindow(c.challengeDeadline - c.proposedAt)
    && (c.passphraseHash.Some? ==> c.appealRound == 0)
    && (c.finalizedAt.Some? <==> !Live(c))
    && |records| == ExpectedRecords(c)
    && (c.status == Proposed ==> c.challengedBy == None)
    && (c.status == Challenged ==> c.challengedBy == Some(records[|records| - 1].challenger))
  }

  ghost predicate GoodRecords(self: Address, records: seq<ChallengeRecord>) {
    forall i :: 0 <= i < |records| ==>
      records[i].bond >= MIN_CHALLENGE_BOND_AMOUNT && records[i].challenger != self
  }

  /** Ids are exactly 1 to the counter. */
  ghost predicate Numbered(candidates: CandidateMap, counter: nat) {
    counter <= U32_MAX && forall id :: id in candidates <==> 1 <= id <= counter
  }

  /** The market index and the candidates agree both ways. */
  ghost predicate Indexed(candidates: CandidateMap, index: MarketIndex) {
    && (forall id :: id in candidates ==>
          candidates[id].marketId in index && index[candidates[id].marketId] == id)
    && (forall m :: m in index ==> index[m] in candidates && candidates[index[m]].marketId == m)
  }

  ghost predicate CandidatesGood(self: Address, candidates: CandidateMap, lists: ChallengerLists) {
    forall id :: id in candidates ==> GoodCandidate(self, id, candidates[id], ListOf(lists, id))
  }

  ghost predicate ListsGood(self: Address, candidates: CandidateMap, lists: ChallengerLists) {
    forall id :: id in lists ==> id in candidates && lists[id] != [] && GoodRecords(self, lists[id])
  }

  ghost predicate Shape(s: State) {
    && Numbered(s.candidates, s.counter)
    && Indexed(s.candidates, s.candidateByMarket)
    && CandidatesGood(s.purse.holder, s.candidates, s.challengers)
    && ListsGood(s.purse.holder, s.candidates, s.challengers)
  }

  // ---- Custody: the pooled balance is exactly what the contract owes, plus its surplus ----

  function LiveBond(id: nat, c: Candidate): int {
    if Live(c) then c.bond else 0
  }

  function ListedBonds(id: nat, records: seq<ChallengeRecord>): int {
    BondSum(records)
  }

  function Owed(a: Address, amount: int): int {
    amount
  }

  ghost function Obligations(candidates: CandidateMap, lists: ChallengerLists, collateral: map<Address, int>): int {
    SumBy(candidates, LiveBond) + SumBy(lists, ListedBonds) + SumBy(collateral, Owed)
  }

  ghost predicate CollateralGood(collateral: map<Address, int>) {
    forall a :: a in collateral ==> collateral[a] >= 0
  }

  ghost predicate Custody(s: State) {
    && Solvent(s.purse)
    && CollateralGood(s.collateral)
    && Committed(s.purse) == Obligations(s.candidates, s.challengers, s.collateral)
  }

  // ---- Callbacks ----

  /** The market a callback reaches: the market contract parses the text it is sent. */
  function About(call: MarketCall): Option<u32> {
    match call
    case ResolveMarket(text, _, _, _) => Decimal.Parse(text)
    case ResolveMarketV2(text, _, _, _, _, _) => Decimal.Parse(text)
    case VoidMarket(m) => Some(m)
  }

  function CallsAbout(sent: seq<MarketCall>, m: u32): nat {
    if sent == [] then 0
    else CallsAbout(sent[..|sent| - 1], m) + (if About(sent[|sent| - 1]) == Some(m) then 1 else 0)
  }

  predicate Closed(candidates: CandidateMap, index: MarketIndex, m: u32) {
    m in index && index[m] in candidates && !Live(candidates[index[m]])
  }

  /** A callback says what the closed candidate says, field by field. */
  predicate Matches(c: Candidate, call: MarketCall) {
    match call
    case ResolveMarket(text, outcome, signature, expiresAt) =>
      && c.status == Finalized && Decimal.Parse(text) == Some(c.marketId)
      && outcome == c.outcome && signature == c.signature && expiresAt == c.signatureExpiry
    case ResolveMarketV2(text, outcome, validUntil, epoch, signature, hash) =>
      && c.status == Finalized && Decimal.Parse(text) == Some(c.marketId)
      && outcome == c.outcome && signature == c.signature && validUntil == c.signatureExpiry
      && c.passphraseHash == Some(hash) && epoch == c.epoch
    case VoidMarket(m) => c.status == Voided && m == c.marketId
  }

  ghost predicate GoodCall(candidates: CandidateMap, index: MarketIndex, call: MarketCall) {
    && About(call).Some?
    && Closed(candidates, index, About(call).value)
    && Matches(candidates[index[About(call).value]], call)
  }

  ghost predicate Callbacks(candidates: CandidateMap, index: MarketIndex, sent: seq<MarketCall>) {
    && (forall m: u32 :: CallsAbout(sent, m) == if Closed(candidates, index, m) then 1 else 0)
    && (forall i :: 0 <= i < |sent| ==> GoodCall(candidates, index, sent[i]))
  }

  ghost predicate CallbacksOf(s: State) {
    Callbacks(s.candidates, s.candidateByMarket, s.sent)
  }

  ghost predicate Inv(s: State) {
    Shape(s) && Custody(s) && CallbacksOf(s)
  }

  // ---- Establishing and using the invariant ----

  lemma InitialInv(s: State)
    requires Initial(s)
    ensures Inv(s)
  {
  }

  lemma GoodRecordsNonnegative(self: Address, records: seq<ChallengeRecord>)
    requires GoodRecords(self, records)
    ensures NonnegativeBonds(records) && BondSum(records) >= 0
  {
  }

  lemma ObligationParts(s: State)
    requires Shape(s) && Custody(s)
    ensures forall id :: id in s.candidates ==> LiveBond(id, s.candidates[id]) >= 0
    ensures forall id :: id in s.challengers ==> ListedBonds(id, s.challengers[id]) >= 0
    ensures forall a :: a in s.collateral ==> Owed(a, s.collateral[a]) >= 0
  {
    forall id | id in s.challengers ensures ListedBonds(id, s.challengers[id]) >= 0 {
      GoodRecordsNonnegative(s.purse.holder, s.challengers[id]);
    }
  }

  /** The pool covers a candidate's bond together with every bond recorded against it. */
  lemma PoolCoversCandidate(s: State, id: nat)
    requires Shape(s) && Custody(s) && id in s.candidates
    ensures LiveBond(id, s.candidates[id]) + BondSum(Records(s, id)) <= Committed(s.purse)
    ensures NonnegativeBonds(Records(s, id)) && BondSum(Records(s, id)) >= 0
  {
    ObligationParts(s);
    SumByAtLeast(s.candidates, LiveBond, id);
    SumByAtLeast(s.challengers, ListedBonds, id);
    SumByNonnegative(s.collateral, Owed);
    if id in s.challengers {
      GoodRecordsNonnegative(s.purse.holder, s.challengers[id]);
    }
  }

  lemma PoolCoversCollateral(s: State, a: Address)
    requires Shape(s) && Custody(s)
    ensures 0 <= Get(s.collateral, a) <= Committed(s.purse)
  {
    ObligationParts(s);
    SumByNonnegative(s.candidates, LiveBond);
    SumByNonnegative(s.challengers, ListedBonds);
    SumByAtLeast(s.collateral, Owed, a);
  }

  /** The candidate stored under `id`; `Shape` says it also carries that id. */
  lemma StoredId(s: State, id: nat)
    requires Shape(s) && id in s.candidates
    ensures s.candidates[id].id == id
  {
    assert GoodCandidate(s.purse.holder, id, s.candidates[id], Records(s, id));
  }

  // ---- Storing a new candidate ----

  lemma NewShape(s: State, c: Candidate)
    requires Shape(s) && c.id == s.counter + 1 <= U32_MAX && c.marketId !in s.candidateByMarket
    requires GoodCandidate(s.purse.holder, c.id, c, [])
    ensures c.id !in s.candidates
    ensures Shape(SetCandidate(s, c).(counter := s.counter + 1))
  {
    assert c.id !in s.candidates && c.id !in s.challengers;
  }

  /** Callbacks survive storing a live candidate for a market whose candidate, if any, was live. */
  lemma LiveCallbacks(candidates: CandidateMap, index: MarketIndex, sent: seq<MarketCall>, c: Candidate)
    requires Callbacks(candidates, index, sent) && Live(c)
    requires forall m :: m in index && index[m] == c.id ==> m == c.marketId
    requires !Closed(candidates, index, c.marketId)
    ensures Callbacks(candidates[c.id := c], index[c.marketId := c.id], sent)
  {
  }

  lemma ProposeForm(s: State, now: nat, proposer: Address, marketId: u32, outcome: bool, signature: Bytes,
                    expiry: nat, uri: string, window: nat, bond: i128, epoch: u32, hash: Option<Bytes>,
                    view: MarketView)
    requires ProposeChecked(s, now, proposer, marketId, outcome, signature, expiry, uri, window, bond, epoch, hash,
                            view).Success?
    ensures ValidWindow(window) && bond >= MIN_BOND_AMOUNT && now <= expiry
    ensures marketId !in s.candidateByMarket && s.counter + 1 <= U32_MAX
    ensures Lock(s.purse, proposer, bond).Success?
    ensures var c :=
              NewCandidate(s, now, proposer, marketId, outcome, signature, expiry, uri, window, bond, epoch, hash);
            ProposeChecked(s, now, proposer, marketId, outcome, signature, expiry, uri, window, bond, epoch, hash,
                           view).value
            == SetCandidate(s, c).(counter := s.counter + 1, purse := Lock(s.purse, proposer, bond).value)
  {
  }

  lemma ProposedKeeps(s: State, c: Candidate)
    requires Inv(s) && c.id == s.counter + 1 <= U32_MAX && c.marketId !in s.candidateByMarket
    requires c.status == Proposed && GoodCandidate(s.purse.holder, c.id, c, [])
    requires Lock(s.purse, c.proposer, c.bond).Success?
    ensures Inv(SetCandidate(s, c).(counter := s.counter + 1, purse := Lock(s.purse, c.proposer, c.bond).value))
  {
    NewShape(s, c);
    LiveCallbacks(s.candidates, s.candidateByMarket, s.sent, c);
    SumByUpdate(s.candidates, LiveBond, c.id, c);
    LockEffect(s.purse, c.proposer, c.bond);
  }

  lemma ProposeKeeps(s: State, now: nat, proposer: Address, marketId: u32, outcome: bool, signature: Bytes,
                     expiry: nat, uri: string, window: nat, bond: i128, epoch: u32, hash: Option<Bytes>,
                     view: MarketView)
    requires Inv(s) && proposer != s.purse.holder
    requires ProposeChecked(s, now, proposer, marketId, outcome, signature, expiry, uri, window, bond, epoch, hash,
                            view).Success?
    ensures Inv(ProposeChecked(s, now, proposer, marketId, outcome, signature, expiry, uri, window, bond, epoch, hash,
                               view).value)
  {
    ProposeForm(s, now, proposer, marketId, outcome, signature, expiry, uri, window, bond, epoch, hash, view);
    var c := NewCandidate(s, now, proposer, marketId, outcome, signature, expiry, uri, window, bond, epoch, hash);
    ProposedKeeps(s, c);
  }

  // ---- Replacing a candidate by one of the same id and market ----

  lemma SameKeyIndexed(candidates: CandidateMap, index: MarketIndex, c: Candidate)
    requires Indexed(candidates, index) && c.id in candidates && candidates[c.id].marketId == c.marketId
    ensures Indexed(candidates[c.id := c], index[c.marketId := c.id])
  {
  }

  /** Only the list of `id` may differ. */
  ghost predicate SameElsewhere(lists: ChallengerLists, lists': ChallengerLists, id: nat) {
    forall i :: i != id ==> (i in lists <==> i in lists') && ListOf(lists, i) == ListOf(lists', i)
  }

  lemma SameKeyCandidates(self: Address, candidates: CandidateMap, lists: ChallengerLists, c: Candidate,
                          lists': ChallengerLists)
    requires CandidatesGood(self, candidates, lists) && SameElsewhere(lists, lists', c.id)
    requires GoodCandidate(self, c.id, c, ListOf(lists', c.id))
    ensures CandidatesGood(self, candidates[c.id := c], lists')
  {
  }

  lemma SameKeyLists(self: Address, candidates: CandidateMap, lists: ChallengerLists, c: Candidate,
                     lists': ChallengerLists)
    requires ListsGood(self, candidates, lists) && SameElsewhere(lists, lists', c.id) && c.id in candidates
    requires c.id in lists' ==> lists'[c.id] != [] && GoodRecords(self, lists'[c.id])
    ensures ListsGood(self, candidates[c.id := c], lists')
  {
  }

  lemma SameKeyShape(s: State, c: Candidate, lists: ChallengerLists)
    requires Shape(s) && c.id in s.candidates && s.candidates[c.id].marketId == c.marketId
    requires SameElsewhere(s.challengers, lists, c.id)
    requires GoodCandidate(s.purse.holder, c.id, c, ListOf(lists, c.id))
    requires c.id in lists ==> lists[c.id] != [] && GoodRecords(s.purse.holder, lists[c.id])
    ensures Shape(SetCandidate(s, c).(challengers := lists))
  {
    SameKeyIndexed(s.candidates, s.candidateByMarket, c);
    SameKeyCandidates(s.purse.holder, s.candidates, s.challengers, c, lists);
    SameKeyLists(s.purse.holder, s.candidates, s.challengers, c, lists);
  }

  /** Storing a live candidate over a live one of the same bond, and changing its list, moves what is owed. */
  lemma LiveObligations(s: State, c: Candidate, lists: ChallengerLists)
    requires c.id in s.candidates && Live(s.candidates[c.id]) && Live(c) && c.bond == s.candidates[c.id].bond
    requires lists == s.challengers || (c.id in lists && lists == s.challengers[c.id := lists[c.id]])
    ensures Obligations(s.candidates[c.id := c], lists, s.collateral)
            == Obligations(s.candidates, s.challengers, s.collateral)
               - BondSum(Records(s, c.id)) + BondSum(ListOf(lists, c.id))
  {
    SumByUpdate(s.candidates, LiveBond, c.id, c);
    if lists != s.challengers {
      SumByUpdate(s.challengers, ListedBonds, c.id, lists[c.id]);
    }
  }

  lemma AppendedGood(self: Address, records: seq<ChallengeRecord>, r: ChallengeRecord)
    requires GoodRecords(self, records) && r.bond >= MIN_CHALLENGE_BOND_AMOUNT && r.challenger != self
    ensures GoodRecords(self, records + [r]) && BondSum(records + [r]) == BondSum(records) + r.bond
  {
  }

  /** `t` is `s` with the live candidate under `c.id` replaced by `c`, and its list by the one in `lists`. */
  ghost predicate Restored(s: State, t: State, c: Candidate, lists: ChallengerLists) {
    && c.id in s.candidates && s.candidates[c.id].marketId == c.marketId
    && Live(s.candidates[c.id]) && Live(c) && c.bond == s.candidates[c.id].bond
    && (lists == s.challengers || (c.id in lists && lists == s.challengers[c.id := lists[c.id]]))
    && t == SetCandidate(s, c).(challengers := lists, purse := t.purse)
    && t.purse.holder == s.purse.holder
  }

  lemma RestoredShape(s: State, t: State, c: Candidate, lists: ChallengerLists)
    requires Shape(s) && Restored(s, t, c, lists)
    requires GoodCandidate(s.purse.holder, c.id, c, ListOf(lists, c.id))
    requires c.id in lists ==> lists[c.id] != [] && GoodRecords(s.purse.holder, lists[c.id])
    ensures Shape(t)
  {
    SameKeyShape(s, c, lists);
  }

  lemma RestoredCustody(s: State, t: State, c: Candidate, lists: ChallengerLists)
    requires Custody(s) && Restored(s, t, c, lists)
    requires Moved(s.purse, t.purse, BondSum(Records(s, c.id)) - BondSum(ListOf(lists, c.id)), 0)
    ensures Custody(t)
  {
    LiveObligations(s, c, lists);
  }

  lemma RestoredCallbacks(s: State, t: State, c: Candidate, lists: ChallengerLists)
    requires Shape(s) && CallbacksOf(s) && Restored(s, t, c, lists)
    ensures CallbacksOf(t)
  {
    LiveCallbacks(s.candidates, s.candidateByMarket, s.sent, c);
  }

  /** A restored candidate that fits its list, with tokens moved as the list grew, keeps the invariant. */
  lemma RestoredKeeps(s: State, t: State, c: Candidate, lists: ChallengerLists)
    requires Inv(s) && Restored(s, t, c, lists)
    requires GoodCandidate(s.purse.holder, c.id, c, ListOf(lists, c.id))
    requires c.id in lists ==> lists[c.id] != [] && GoodRecords(s.purse.holder, lists[c.id])
    requires Moved(s.purse, t.purse, BondSum(Records(s, c.id)) - BondSum(ListOf(lists, c.id)), 0)
    ensures Inv(t)
  {
    RestoredShape(s, t, c, lists);
    RestoredCustody(s, t, c, lists);
    RestoredCallbacks(s, t, c, lists);
  }

  /** What a successful challenge changes. */
  ghost predicate ChallengedAs(s: State, t: State, challenger: Address, id: nat, uri: string, bond: i128) {
    && id in s.candidates && s.candidates[id].status == Proposed
    && challenger != s.purse.holder && bond >= MIN_CHALLENGE_BOND_AMOUNT
    && Lock(s.purse, challenger, bond).Success?
    && t.candidates == s.candidates[s.candidates[id].id :=
                                      s.candidates[id].(status := Challenged, challengedBy := Some(challenger),
                                                        challengeUri := Some(uri))]
    && Restored(s, t, t.candidates[s.candidates[id].id],
                s.challengers[id := Records(s, id) + [ChallengeRecord(challenger, bond)]])
    && t.purse == Lock(s.purse, challenger, bond).value
  }

  lemma ChallengeForm(s: State, now: nat, challenger: Address, id: nat, uri: string, bond: i128)
    requires Challenge(s, now, challenger, id, uri, bond).Success? && s.candidates[id].id == id
    ensures ChallengedAs(s, Challenge(s, now, challenger, id, uri, bond).value, challenger, id, uri, bond)
  {
  }

  lemma ChallengedKeeps(s: State, t: State, challenger: Address, id: nat, uri: string, bond: i128)
    requires Inv(s) && ChallengedAs(s, t, challenger, id, uri, bond) && s.candidates[id].id == id
    ensures Inv(t)
  {
    var records, r := Records(s, id), ChallengeRecord(challenger, bond);
    ChallengedGood(s, t, challenger, id, uri, bond);
    AppendedGood(s.purse.holder, records, r);
    LockEffect(s.purse, challenger, bond);
    RestoredKeeps(s, t, t.candidates[id], s.challengers[id := records + [r]]);
  }

  lemma ChallengedGood(s: State, t: State, challenger: Address, id: nat, uri: string, bond: i128)
    requires Shape(s) && ChallengedAs(s, t, challenger, id, uri, bond) && s.candidates[id].id == id
    ensures GoodRecords(s.purse.holder, Records(s, id))
    ensures GoodCandidate(s.purse.holder, id, t.candidates[id], Records(s, id) + [ChallengeRecord(challenger, bond)])
  {
    assert GoodCandidate(s.purse.holder, id, s.candidates[id], Records(s, id));
  }

  /** What a successful appeal changes: one challenged candidate, open again for one more round. */
  ghost predicate AppealedAs(s: State, t: State, id: nat, now: nat, window: nat) {
    && id in s.candidates && id in t.candidates && s.candidates[id].status == Challenged
    && s.candidates[id].appealRound < MAX_APPEAL_ROUNDS && s.candidates[id].passphraseHash == None
    && ValidWindow(window)
    && t.candidates[id].id == id && t.candidates[id].proposer == s.candidates[id].proposer
    && t.candidates[id].status == Proposed && t.candidates[id].challengedBy == None
    && t.candidates[id].appealRound == s.candidates[id].appealRound + 1 && t.candidates[id].passphraseHash == None
    && t.candidates[id].finalizedAt == s.candidates[id].finalizedAt
    && t.candidates[id].proposedAt == now && t.candidates[id].challengeDeadline == now + window
    && Restored(s, t, t.candidates[id], s.challengers) && t.purse == s.purse
  }

  lemma AppealForm(s: State, now: nat, proposer: Address, id: nat, outcome: bool, signature: Bytes, uri: string,
                   window: nat, view: MarketView)
    requires Appeal(s, now, proposer, id, outcome, signature, uri, window, view).Success? && s.candidates[id].id == id
    ensures AppealedAs(s, Appeal(s, now, proposer, id, outcome, signature, uri, window, view).value, id, now, window)
  {
  }

  lemma AppealedKeeps(s: State, t: State, id: nat, now: nat, window: nat)
    requires Inv(s) && AppealedAs(s, t, id, now, window) && s.candidates[id].id == id
    ensures Inv(t)
  {
    assert GoodCandidate(s.purse.holder, id, s.candidates[id], Records(s, id));
    RestoredKeeps(s, t, t.candidates[id], s.challengers);
  }

  lemma AppealKeeps(s: State, now: nat, proposer: Address, id: nat, outcome: bool, signature: Bytes, uri: string,
                    window: nat, view: MarketView)
    requires Inv(s) && Appeal(s, now, proposer, id, outcome, signature, uri, window, view).Success?
    ensures Inv(Appeal(s, now, proposer, id, outcome, signature, uri, window, view).value)
  {
    StoredId(s, id);
    AppealForm(s, now, proposer, id, outcome, signature, uri, window, view);
    AppealedKeeps(s, Appeal(s, now, proposer, id, outcome, signature, uri, window, view).value, id, now, window);
  }

  // ---- Closing a candidate ----

  lemma ClosingCallbacks(candidates: CandidateMap, index: MarketIndex, sent: seq<MarketCall>, c: Candidate,
                         call: MarketCall)
    requires Indexed(candidates, index) && Callbacks(candidates, index, sent)
    requires c.id in candidates && candidates[c.id].marketId == c.marketId && Live(candidates[c.id]) && !Live(c)
    requires About(call) == Some(c.marketId) && Matches(c, call)
    ensures Callbacks(candidates[c.id := c], index[c.marketId := c.id], sent + [call])
  {
    var candidates', index' := candidates[c.id := c], index[c.marketId := c.id];
    assert (sent + [call])[..|sent|] == sent;
    forall m: u32
      ensures CallsAbout(sent + [call], m) == if Closed(candidates', index', m) then 1 else 0
      ensures Closed(candidates, index, m) ==>
                Closed(candidates', index', m) && candidates'[index'[m]] == candidates[index[m]]
    {
      assert CallsAbout(sent, m) == if Closed(candidates, index, m) then 1 else 0;
      if m != c.marketId && m in index {
        assert index[m] != c.id;
      }
    }
    forall i | 0 <= i < |sent + [call]| ensures GoodCall(candidates', index', (sent + [call])[i]) {
      if i < |sent| {
        assert GoodCall(candidates, index, sent[i]);
      }
    }
  }

  lemma CallReachesMarket(c: Candidate, call: MarketCall)
    requires Matches(c, call)
    ensures About(call) == Some(c.marketId)
  {
  }

  /** What is sent for an upheld candidate carries its own outcome, signature and expiry. */
  lemma CallsMatch(c: Candidate, now: nat)
    ensures Matches(FinalizedForm(c, now), ResolveCall(c)) && Matches(FinalizedForm(c, now), ResolveV1Call(c))
  {
    Decimal.PrintThenParse(c.marketId);
  }

  /** Closing a candidate and dropping its list releases exactly its bond and the listed bonds. */
  lemma CloseObligations(s: State, d: Candidate)
    requires d.id in s.candidates && Live(s.candidates[d.id]) && !Live(d)
    ensures Obligations(s.candidates[d.id := d], s.challengers - {d.id}, s.collateral)
            == Obligations(s.candidates, s.challengers, s.collateral)
               - s.candidates[d.id].bond - BondSum(Records(s, d.id))
  {
    SumByUpdate(s.candidates, LiveBond, d.id, d);
    SumByDrop(s.challengers, ListedBonds, d.id);
  }

  /** `d` is a closed form of the live candidate `c` stored under its id. */
  ghost predicate Closing(s: State, c: Candidate, d: Candidate) {
    && d.id in s.candidates && s.candidates[d.id] == c && Live(c)
    && !Live(d) && d.finalizedAt.Some? && d == c.(status := d.status, finalizedAt := d.finalizedAt)
  }

  lemma CloseShape(s: State, c: Candidate, d: Candidate, call: MarketCall)
    requires Shape(s) && Closing(s, c, d)
    ensures Shape(Close(s, d, call))
  {
    assert GoodCandidate(s.purse.holder, d.id, c, Records(s, d.id));
    SameKeyShape(s, d, s.challengers - {d.id});
  }

  lemma CloseCallbacks(s: State, c: Candidate, d: Candidate, call: MarketCall)
    requires Shape(s) && CallbacksOf(s) && Closing(s, c, d) && Matches(d, call)
    ensures CallbacksOf(Close(s, d, call))
  {
    CallReachesMarket(d, call);
    ClosingCallbacks(s.candidates, s.candidateByMarket, s.sent, d, call);
  }

  lemma CloseCustody(s: State, c: Candidate, d: Candidate, call: MarketCall, p: Purse, burned: int)
    requires Custody(s) && Closing(s, c, d)
    requires Moved(s.purse, p, c.bond + BondSum(Records(s, d.id)), burned)
    ensures Custody(Close(s, d, call).(purse := p))
  {
    CloseObligations(s, d);
  }

  lemma CloseKeeps(s: State, c: Candidate, d: Candidate, call: MarketCall, p: Purse, burned: int)
    requires Inv(s) && Closing(s, c, d) && Matches(d, call)
    requires Moved(s.purse, p, c.bond + BondSum(Records(s, d.id)), burned)
    ensures Inv(Close(s, d, call).(purse := p))
  {
    CloseShape(s, c, d, call);
    CloseCallbacks(s, c, d, call);
    CloseCustody(s, c, d, call, p, burned);
  }

  lemma UpholdTokensEffect(p: Purse, c: Candidate, records: seq<ChallengeRecord>)
    requires Solvent(p) && c.bond >= 0 && NonnegativeBonds(records) && BondSum(records) >= 0
    requires c.bond + BondSum(records) <= Committed(p)
    ensures UpholdTokens(p, c, records).Success? <==> AllSplittable(records)
    ensures AllSplittable(records) ==>
              Moved(p, UpholdTokens(p, c, records).value, c.bond + BondSum(records), BurnSum(records))
  {
    PayPositiveEffect(p, c.proposer, c.bond);
    SplitAllEffect(PayPositive(p, c.proposer, c.bond).value, c.proposer, records);
  }

  /** Upholding a live candidate never falls short: it fails exactly when a listed bond is too large to split. */
  lemma UpholdEffect(s: State, now: nat, c: Candidate, call: MarketCall)
    requires Shape(s) && Custody(s) && c.id in s.candidates && s.candidates[c.id] == c && Live(c)
    ensures Uphold(s, now, c, call).Success? <==> AllSplittable(Records(s, c.id))
    ensures Uphold(s, now, c, call).Success? ==>
              Moved(s.purse, Uphold(s, now, c, call).value.purse,
                    c.bond + BondSum(Records(s, c.id)), BurnSum(Records(s, c.id)))
  {
    assert GoodCandidate(s.purse.holder, c.id, c, Records(s, c.id));
    PoolCoversCandidate(s, c.id);
    UpholdTokensEffect(s.purse, c, Records(s, c.id));
  }

  /** What `Shape` says about the bonds of a candidate and of its challengers. */
  lemma StoredBonds(s: State, id: nat)
    requires Shape(s) && id in s.candidates
    ensures s.candidates[id].bond >= 0 && NonnegativeBonds(Records(s, id))
  {
    assert GoodCandidate(s.purse.holder, id, s.candidates[id], Records(s, id));
    assert GoodRecords(s.purse.holder, Records(s, id));
  }

  lemma UpholdPurse(s: State, now: nat, c: Candidate, call: MarketCall)
    requires Uphold(s, now, c, call).Success?
    ensures UpholdTokens(s.purse, c, Records(s, c.id)).Success?
    ensures Uphold(s, now, c, call).value.purse == UpholdTokens(s.purse, c, Records(s, c.id)).value
  {
  }

  /** The state an upheld candidate leaves, and its tokens. */
  lemma UpholdForm(s: State, now: nat, c: Candidate, call: MarketCall)
    requires Uphold(s, now, c, call).Success?
    ensures UpholdTokens(s.purse, c, Records(s, c.id)).Success?
    ensures Uphold(s, now, c, call).value
            == Close(s, FinalizedForm(c, now), call).(purse := UpholdTokens(s.purse, c, Records(s, c.id)).value)
  {
  }

  lemma UpholdTokensGain(p: Purse, c: Candidate, records: seq<ChallengeRecord>, a: Address)
    requires c.bond >= 0 && NonnegativeBonds(records) && a != p.holder && UpholdTokens(p, c, records).Success?
    ensures Gain(p, UpholdTokens(p, c, records).value, a)
            == Credit(a, c.proposer, c.bond + RewardSum(records)) + TreasuryGain(p, CutSum(records), a)
  {
    PayPositiveGain(p, c.proposer, c.bond, a);
    SplitAllGain(PayPositive(p, c.proposer, c.bond).value, c.proposer, records, a);
  }

  /**
   Upholding pays the proposer the bond and half of every challenge; only the treasury shares in the rest. What is
   assumed of the bonds holds of every stored candidate, by `StoredBonds`.
   */
  lemma UpholdGain(s: State, now: nat, c: Candidate, call: MarketCall, a: Address)
    requires c.bond >= 0 && NonnegativeBonds(Records(s, c.id)) && a != s.purse.holder
    requires Uphold(s, now, c, call).Success?
    ensures Gain(s.purse, Uphold(s, now, c, call).value.purse, a)
            == Credit(a, c.proposer, c.bond + RewardSum(Records(s, c.id)))
               + TreasuryGain(s.purse, CutSum(Records(s, c.id)), a)
  {
    UpholdPurse(s, now, c, call);
    UpholdTokensGain(s.purse, c, Records(s, c.id), a);
  }

  lemma UpholdKeeps(s: State, now: nat, c: Candidate, call: MarketCall)
    requires Inv(s) && c.id in s.candidates && s.candidates[c.id] == c && Live(c)
    requires call == ResolveCall(c) || call == ResolveV1Call(c)
    requires Uphold(s, now, c, call).Success?
    ensures Inv(Uphold(s, now, c, call).value)
  {
    UpholdForm(s, now, c, call);
    UpholdEffect(s, now, c, call);
    CallsMatch(c, now);
    CloseKeeps(s, c, FinalizedForm(c, now), call, UpholdTokens(s.purse, c, Records(s, c.id)).value,
               BurnSum(Records(s, c.id)));
  }

  /** The reward of a voided market always goes to a challenger: the fallback to the proposer is never taken. */
  lemma VoidRewardsChallenger(s: State, id: nat)
    requires Shape(s) && id in s.candidates && s.candidates[id].status == Challenged
    ensures Records(s, id) != []
    ensures s.candidates[id].challengedBy == Some(VoidRewardRecipient(s.candidates[id], Records(s, id)))
  {
    assert GoodCandidate(s.purse.holder, id, s.candidates[id], Records(s, id));
  }

  /** Voiding never falls short either: only the proposer's bond has to be small enough to split. */
  lemma VoidEffect(s: State, now: nat, admin: Address, id: nat)
    requires Shape(s) && Custody(s) && id in s.candidates
    requires !s.paused && admin == s.admin && RequireArbitrable(s.candidates[id], now) == None
    ensures VoidMarketOf(s, now, admin, id).Success? <==> Splittable(s.candidates[id].bond)
    ensures VoidMarketOf(s, now, admin, id).Success? ==>
              Moved(s.purse, VoidMarketOf(s, now, admin, id).value.purse,
                    s.candidates[id].bond + BondSum(Records(s, id)), Burned(s.candidates[id].bond))
  {
    var c, records := s.candidates[id], Records(s, id);
    assert GoodCandidate(s.purse.holder, id, c, records);
    PoolCoversCandidate(s, id);
    SplitBondEffect(s.purse, VoidRewardRecipient(c, records), c.bond);
    if Splittable(c.bond) {
      RefundAllEffect(SplitBond(s.purse, VoidRewardRecipient(c, records), c.bond).value, records);
    }
  }

  /** Voiding refunds every challenger and pays half of the proposer's bond to the standing one. */
  lemma VoidGain(s: State, now: nat, admin: Address, id: nat, a: Address)
    requires Shape(s) && a != s.purse.holder && VoidMarketOf(s, now, admin, id).Success?
    ensures Records(s, id) != []
    ensures Gain(s.purse, VoidMarketOf(s, now, admin, id).value.purse, a)
            == Credit(a, Records(s, id)[|Records(s, id)| - 1].challenger, Reward(s.candidates[id].bond))
               + TreasuryGain(s.purse, TreasuryCut(s.candidates[id].bond), a) + BondsOf(Records(s, id), a)
  {
    var c, records := s.candidates[id], Records(s, id);
    VoidRewardsChallenger(s, id);
    assert GoodCandidate(s.purse.holder, id, c, records);
    assert GoodRecords(s.purse.holder, records);
    VoidTokensGain(s.purse, c, records, a);
  }

  lemma VoidTokensGain(p: Purse, c: Candidate, records: seq<ChallengeRecord>, a: Address)
    requires c.bond >= 0 && NonnegativeBonds(records) && a != p.holder && VoidTokens(p, c, records).Success?
    ensures Gain(p, VoidTokens(p, c, records).value, a)
            == Credit(a, VoidRewardRecipient(c, records), Reward(c.bond))
               + TreasuryGain(p, TreasuryCut(c.bond), a) + BondsOf(records, a)
  {
    SplitBondGain(p, VoidRewardRecipient(c, records), c.bond, a);
    SplitBondScope(p, VoidRewardRecipient(c, records), c.bond);
    RefundAllGain(SplitBond(p, VoidRewardRecipient(c, records), c.bond).value, records, a);
  }

  /** The state a voided market leaves, apart from its tokens. */
  lemma VoidForm(s: State, now: nat, admin: Address, id: nat)
    requires VoidMarketOf(s, now, admin, id).Success?
    ensures id in s.candidates && s.candidates[id].status == Challenged
    ensures !s.paused && admin == s.admin && RequireArbitrable(s.candidates[id], now) == None
    ensures var c := s.candidates[id];
            var t := VoidMarketOf(s, now, admin, id).value;
            t == Close(s, VoidedForm(c, now), VoidMarket(c.marketId)).(purse := t.purse)
  {
  }

  lemma VoidedKeeps(s: State, now: nat, id: nat, p: Purse)
    requires Inv(s) && id in s.candidates && s.candidates[id].status == Challenged
    requires Moved(s.purse, p, s.candidates[id].bond + BondSum(Records(s, id)), Burned(s.candidates[id].bond))
    ensures Inv(Close(s, VoidedForm(s.candidates[id], now), VoidMarket(s.candidates[id].marketId)).(purse := p))
  {
    StoredId(s, id);
    var c := s.candidates[id];
    CloseKeeps(s, c, VoidedForm(c, now), VoidMarket(c.marketId), p, Burned(c.bond));
  }

  lemma VoidKeeps(s: State, now: nat, admin: Address, id: nat)
    requires Inv(s) && VoidMarketOf(s, now, admin, id).Success?
    ensures Inv(VoidMarketOf(s, now, admin, id).value)
  {
    VoidForm(s, now, admin, id);
    VoidEffect(s, now, admin, id);
    VoidedKeeps(s, now, id, VoidMarketOf(s, now, admin, id).value.purse);
  }

  // ---- Proposer collateral and outside token traffic ----

  lemma DepositKeeps(s: State, a: Address, amount: i128)
    requires Inv(s) && DepositCollateral(s, a, amount).Success?
    ensures Inv(DepositCollateral(s, a, amount).value)
  {
    var total := Get(s.collateral, a) + amount;
    SumByUpdate(s.collateral, Owed, a, total);
    LockEffect(s.purse, a, amount);
  }

  lemma SlashKeeps(s: State, admin: Address, a: Address, recipient: Address)
    requires Inv(s) && SlashCollateral(s, admin, a, recipient).Success?
    ensures Inv(SlashCollateral(s, admin, a, recipient).value)
  {
    SumByUpdate(s.collateral, Owed, a, 0);
    PoolCoversCollateral(s, a);
    PayPositiveEffect(s.purse, recipient, Get(s.collateral, a));
  }

  lemma OutsideTransferKeeps(s: State, now: nat, from: Address, to: Address, amount: i128)
    requires Inv(s) && Step(s, now, OpOutsideTransfer(from, to, amount)).Success?
    ensures Inv(Step(s, now, OpOutsideTransfer(from, to, amount)).value)
  {
    TransferKeepsSound(s.purse.ledger, from, to, amount);
  }

  lemma OutsideMintKeeps(s: State, now: nat, to: Address, amount: i128)
    requires Inv(s) && Step(s, now, OpOutsideMint(to, amount)).Success?
    ensures Inv(Step(s, now, OpOutsideMint(to, amount)).value)
  {
    MintKeepsSound(s.purse.ledger, to, amount);
  }

  lemma ChallengeKeeps(s: State, now: nat, challenger: Address, id: nat, uri: string, bond: i128)
    requires Inv(s) && Challenge(s, now, challenger, id, uri, bond).Success?
    ensures Inv(Challenge(s, now, challenger, id, uri, bond).value)
  {
    StoredId(s, id);
    ChallengeForm(s, now, challenger, id, uri, bond);
    ChallengedKeeps(s, Challenge(s, now, challenger, id, uri, bond).value, challenger, id, uri, bond);
  }

  lemma FinalizeKeeps(s: State, now: nat, finalizer: Address, id: nat)
    requires Inv(s) && Finalize(s, now, finalizer, id).Success?
    ensures Inv(Finalize(s, now, finalizer, id).value)
  {
    StoredId(s, id);
    UpholdKeeps(s, now, s.candidates[id], ResolveCall(s.candidates[id]));
  }

  lemma ArbitrateKeeps(s: State, now: nat, admin: Address, id: nat)
    requires Inv(s) && ArbitrateUpholdProposer(s, now, admin, id).Success?
    ensures Inv(ArbitrateUpholdProposer(s, now, admin, id).value)
  {
    StoredId(s, id);
    UpholdKeeps(s, now, s.candidates[id], ResolveV1Call(s.candidates[id]));
  }

  /** Every call keeps the invariant. */
  lemma StepKeeps(s: State, now: nat, op: Op)
    requires Inv(s) && Step(s, now, op).Success?
    ensures Inv(Step(s, now, op).value)
  {
    match op
    case OpPropose(p, m, o, sig, exp, uri, w, b, v) => ProposeKeeps(s, now, p, m, o, sig, exp, uri, w, b, 0, None, v);
    case OpProposeV2(p, m, o, sig, exp, ep, h, uri, w, b, v) =>
      ProposeKeeps(s, now, p, m, o, sig, exp, uri, w, b, ep, Some(h), v);
    case OpChallenge(a, id, uri, b) => ChallengeKeeps(s, now, a, id, uri, b);
    case OpAppeal(a, id, o, sig, uri, w, v) => AppealKeeps(s, now, a, id, o, sig, uri, w, v);
    case OpFinalize(a, id) => FinalizeKeeps(s, now, a, id);
    case OpArbitrate(a, id) => ArbitrateKeeps(s, now, a, id);
    case OpVoid(a, id) => VoidKeeps(s, now, a, id);
    case OpDepositCollateral(a, amount) => DepositKeeps(s, a, amount);
    case OpSlashCollateral(admin, a, r) => SlashKeeps(s, admin, a, r);
    case OpOutsideTransfer(from, to, amount) => OutsideTransferKeeps(s, now, from, to, amount);
    case OpOutsideMint(to, amount) => OutsideMintKeeps(s, now, to, amount);
    case _ =>
  }

  lemma NextKeeps(s: State, e: Event)
    requires Inv(s)
    ensures Inv(Next(s, e))
  {
    if Step(s, e.now, e.op).Success? {
      StepKeeps(s, e.now, e.op);
    }
  }

  /** In every state a run can reach, the pool covers what is owed, indexes agree and callbacks are unique. */
  lemma {:induction false} RunKeeps(s: State, es: seq<Event>)
    requires Inv(s)
    ensures Inv(Run(s, es))
  {
    if es != [] {
      RunKeeps(s, es[..|es| - 1]);
      NextKeeps(Run(s, es[..|es| - 1]), es[|es| - 1]);
    }
  }
}
