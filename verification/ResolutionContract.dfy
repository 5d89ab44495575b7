/**
 The resolution contract as an object: entrypoints load a candidate, assign its fields, store it, and then
 make their token calls and callbacks. Each is proved against the state machine of module `Resolution`.
 */
module ResolutionContract {
  import opened Base
  import opened Sums
  import opened TokenLedger
  import opened BondMoney
  import opened Resolution
  import opened ResolutionInvariant

  class Contract {
    var admin: Address
    var paused: bool
    var mode: EmergencyMode
    var counter: nat
    var candidates: CandidateMap
    var candidateByMarket: MarketIndex
    var challengers: ChallengerLists
    var collateral: map<Address, int>
    var purse: Purse
    var sent: seq<MarketCall>

    function Abstract(): State
      reads this
    {
      State(admin, paused, mode, counter, candidates, candidateByMarket, challengers, collateral, purse, sent)
    }

    /** The invariant of module `ResolutionInvariant`. */
    ghost predicate Valid()
      reads this
    {
      Inv(Abstract())
    }

    /** What `Valid` says about one candidate: it carries its own id, and a stored list is not empty. */
    ghost predicate Tidy(id: nat)
      reads this
    {
      (id in candidates ==> candidates[id].id == id) && (id in challengers ==> challengers[id] != [])
    }

    lemma ValidIsTidy(id: nat)
      requires Valid()
      ensures Tidy(id)
    {
      if id in candidates {
        StoredId(Abstract(), id);
      }
    }

    /** A contract just configured, on a token account that owes nobody anything. */
    constructor (admin: Address, self: Address, ledger: Ledger)
      requires Sound(ledger)
      ensures Valid() && Initial(Abstract()) && this.admin == admin && purse.holder == self && purse.ledger == ledger
    {
      this.admin, paused, mode, counter := admin, false, Normal, 0;
      candidates, candidateByMarket, challengers, collateral := map[], map[], map[], map[];
      purse := Purse(self, None, ledger, Balance(ledger, self));
      sent := [];
      new;
      InitialInv(Abstract());
    }

    /** `initialize`: refuses a contract as admin, a second time, and a window out of range, in this order. */
    static method Initialize(configured: bool, admin: Address, adminIsContract: bool, window: nat, self: Address,
                             ledger: Ledger)
      returns (r: Result<Contract, Error>)
      requires Sound(ledger)
      ensures r == Failure(InvalidAdmin) <==> adminIsContract
      ensures r == Failure(AlreadyInitialized) <==> !adminIsContract && configured
      ensures r == Failure(InvalidChallengeWindow) <==> !adminIsContract && !configured && !ValidWindow(window)
      ensures r.Success? <==> !adminIsContract && !configured && ValidWindow(window)
      ensures r.Success? ==>
                && fresh(r.value) && r.value.Valid() && Initial(r.value.Abstract())
                && r.value.admin == admin && r.value.purse.holder == self && r.value.purse.ledger == ledger
    {
      if adminIsContract {
        return Failure(InvalidAdmin);
      }
      if configured {
        return Failure(AlreadyInitialized);
      }
      if !ValidWindow(window) {
        return Failure(InvalidChallengeWindow);
      }
      var contract := new Contract(admin, self, ledger);
      return Success(contract);
    }

    // ---- Storage accessors ----

    method StoreCandidate(c: Candidate)
      modifies this`candidates, this`candidateByMarket
      ensures Abstract() == SetCandidate(old(Abstract()), c)
    {
      candidates := candidates[c.id := c];
      candidateByMarket := candidateByMarket[c.marketId := c.id];
    }

    method IncrementCandidateId() returns (r: Option<nat>)
      modifies this`counter
      ensures if old(counter) + 1 > U32_MAX then r == None && counter == old(counter)
              else r == Some(old(counter) + 1) && counter == old(counter) + 1
    {
      if counter + 1 > U32_MAX {
        return None;
      }
      counter := counter + 1;
      return Some(counter);
    }

    method AppendChallenger(id: nat, challenger: Address, bond: i128)
      modifies this`challengers
      ensures challengers == old(challengers)[id := ListOf(old(challengers), id) + [ChallengeRecord(challenger, bond)]]
    {
      var list := if id in challengers then challengers[id] else [];
      list := list + [ChallengeRecord(challenger, bond)];
      challengers := challengers[id := list];
    }

    method ClearChallengers(id: nat)
      modifies this`challengers
      ensures challengers == old(challengers) - {id}
    {
      challengers := challengers - {id};
    }

    // ---- Token calls; `false` is a trap ----

    method LockFrom(from: Address, amount: int) returns (ok: bool)
      modifies this`purse
      ensures ok <==> Lock(old(purse), from, amount).Success?
      ensures ok ==> Lock(old(purse), from, amount) == Success(purse)
    {
      var l := Transfer(purse.ledger, from, purse.holder, amount);
      if l.None? {
        return false;
      }
      purse := purse.(ledger := l.value);
      return true;
    }

    method PayTo(to: Address, amount: int) returns (ok: bool)
      modifies this`purse
      ensures ok <==> Pay(old(purse), to, amount).Success?
      ensures ok ==> Pay(old(purse), to, amount) == Success(purse)
    {
      var l := Transfer(purse.ledger, purse.holder, to, amount);
      if l.None? {
        return false;
      }
      purse := purse.(ledger := l.value, surplus := purse.surplus + Credit(purse.holder, to, amount));
      return true;
    }

    /** `split_bond`: reward, burn, and the remainder to the treasury or to nobody. */
    method Split(winner: Address, total: int) returns (ok: bool)
      modifies this`purse
      ensures ok <==> SplitBond(old(purse), winner, total).Success?
      ensures ok ==> SplitBond(old(purse), winner, total) == Success(purse)
    {
      if total <= 0 {
        return true;
      }
      if total * REWARD_BPS > I128_MAX {
        return false;
      }
      var reward := total * REWARD_BPS / BPS_DENOMINATOR;
      var burned := total * BURN_BPS / BPS_DENOMINATOR;
      var cut := total - reward - burned;
      if reward > 0 {
        ok := PayTo(winner, reward);
        if !ok {
          return;
        }
      }
      assert PayPositive(old(purse), winner, reward) == Success(purse);
      ghost var rewarded := purse;
      if burned > 0 {
        var l := Burn(purse.ledger, purse.holder, burned);
        if l.None? {
          return false;
        }
        purse := purse.(ledger := l.value);
      }
      assert BurnPositive(rewarded, burned) == Success(purse);
      ok := true;
      if cut > 0 {
        if purse.treasury.Some? {
          ok := PayTo(purse.treasury.value, cut);
        } else {
          purse := purse.(surplus := purse.surplus + cut);
        }
      }
    }

    /** `settle_challengers_as_losers` */
    method SettleChallengersAsLosers(id: nat, winner: Address) returns (ok: bool)
      modifies this`purse, this`challengers
      ensures ok <==> SplitAll(old(purse), winner, ListOf(old(challengers), id)).Success?
      ensures ok ==> SplitAll(old(purse), winner, ListOf(old(challengers), id)) == Success(purse)
      ensures ok ==>
                challengers == if ListOf(old(challengers), id) == [] then old(challengers) else old(challengers) - {id}
    {
      var records := ListOf(challengers, id);
      if records == [] {
        return true;
      }
      var i := 0;
      while i < |records|
        invariant 0 <= i <= |records|
        invariant SplitAll(old(purse), winner, records[..i]) == Success(purse)
        invariant challengers == old(challengers)
      {
        SplitAllPrefix(old(purse), winner, records, i);
        var fine := Split(winner, records[i].bond);
        if !fine {
          SplitAllFails(old(purse), winner, records, i + 1);
          return false;
        }
        i := i + 1;
      }
      assert records[..i] == records;
      ClearChallengers(id);
      return true;
    }

    /** The refund loop of `void_market`. */
    method RefundChallengers(records: seq<ChallengeRecord>) returns (ok: bool)
      modifies this`purse
      ensures ok <==> RefundAll(old(purse), records).Success?
      ensures ok ==> RefundAll(old(purse), records) == Success(purse)
    {
      var i := 0;
      while i < |records|
        invariant 0 <= i <= |records|
        invariant RefundAll(old(purse), records[..i]) == Success(purse)
      {
        RefundAllPrefix(old(purse), records, i);
        if records[i].bond > 0 {
          var fine := PayTo(records[i].challenger, records[i].bond);
          if !fine {
            RefundAllFails(old(purse), records, i + 1);
            return false;
          }
        }
        i := i + 1;
      }
      assert records[..i] == records;
      return true;
    }

    // ---- Proposals ----

    method ProposeUnpaused(now: nat, proposer: Address, marketId: u32, outcome: bool, signature: Bytes, expiry: nat,
                           uri: string, window: nat, bond: i128, epoch: u32, hash: Option<Bytes>, view: MarketView)
      returns (r: Result<nat, Error>)
      modifies this
      ensures Agrees(ProposeChecked(old(Abstract()), now, proposer, marketId, outcome, signature, expiry, uri, window,
                                    bond, epoch, hash, view), r, Abstract())
      ensures r.Success? ==> r.value == counter
    {
      if mode != Normal {
        return Failure(EmergencyModeActive);
      }
      if !ValidUri(uri) {
        return Failure(InvalidEvidenceUri);
      }
      if !ValidWindow(window) {
        return Failure(InvalidChallengeWindow);
      }
      if bond < MIN_BOND_AMOUNT {
        return Failure(InsufficientBond);
      }
      if marketId in candidateByMarket {
        return Failure(CandidateAlreadyExists);
      }
      if !view.active {
        return Failure(MarketAlreadyResolved);
      }
      if !view.signatureVerifies {
        return Failure(SignatureRejected);
      }
      if expiry < now {
        return Failure(InvalidSignatureExpiry);
      }
      var id := IncrementCandidateId();
      if id.None? {
        return Failure(HostTrap);
      }
      var candidate := Candidate(id.value, marketId, outcome, signature, expiry, proposer, uri, now, now + window,
                                 Proposed, None, None, None, 0, bond, epoch, hash);
      StoreCandidate(candidate);
      var ok := LockFrom(proposer, bond);
      if !ok {
        return Failure(HostTrap);
      }
      return Success(id.value);
    }

    method Propose(now: nat, proposer: Address, marketId: u32, outcome: bool, signature: Bytes, expiry: nat,
                   uri: string, window: nat, bond: i128, view: MarketView)
      returns (r: Result<nat, Error>)
      modifies this
      ensures Agrees(Resolution.Propose(old(Abstract()), now, proposer, marketId, outcome, signature, expiry, uri,
                                        window, bond, view), r, Abstract())
      ensures r.Success? ==> r.value == counter
    {
      if proposer == purse.holder {
        return Failure(HostTrap);
      }
      if paused {
        return Failure(ContractPaused);
      }
      r := ProposeUnpaused(now, proposer, marketId, outcome, signature, expiry, uri, window, bond, 0, None, view);
    }

    method ProposeV2(now: nat, proposer: Address, marketId: u32, outcome: bool, signature: Bytes, validUntil: nat,
                     epoch: u32, hash: Bytes, uri: string, window: nat, bond: i128, view: MarketView)
      returns (r: Result<nat, Error>)
      modifies this
      ensures Agrees(Resolution.ProposeV2(old(Abstract()), now, proposer, marketId, outcome, signature, validUntil,
                                          epoch, hash, uri, window, bond, view), r, Abstract())
      ensures r.Success? ==> r.value == counter
    {
      if proposer == purse.holder {
        return Failure(HostTrap);
      }
      r := ProposeUnpaused(now, proposer, marketId, outcome, signature, validUntil, uri, window, bond, epoch,
                           Some(hash), view);
    }

    // ---- Disputes ----

    method Challenge(now: nat, challenger: Address, id: nat, uri: string, bond: i128) returns (r: Result<(), Error>)
      modifies this
      ensures Agrees(Resolution.Challenge(old(Abstract()), now, challenger, id, uri, bond), r, Abstract())
    {
      if challenger == purse.holder {
        return Failure(HostTrap);
      }
      if paused {
        return Failure(ContractPaused);
      }
      if mode != Normal && mode != TradingHalted {
        return Failure(EmergencyModeActive);
      }
      if !ValidUri(uri) {
        return Failure(InvalidEvidenceUri);
      }
      if bond < MIN_CHALLENGE_BOND_AMOUNT {
        return Failure(InsufficientChallengeBond);
      }
      if id !in candidates {
        return Failure(CandidateNotFound);
      }
      var candidate := candidates[id];
      if candidate.status == Finalized {
        return Failure(CandidateAlreadyFinalized);
      }
      if candidate.status == Voided {
        return Failure(CandidateAlreadyFinalized);
      }
      if candidate.status == Challenged {
        return Failure(CandidateAlreadyChallenged);
      }
      if now >= candidate.challengeDeadline {
        return Failure(ChallengeWindowClosed);
      }
      candidate := candidate.(status := Challenged);
      candidate := candidate.(challengedBy := Some(challenger));
      candidate := candidate.(challengeUri := Some(uri));
      StoreCandidate(candidate);
      AppendChallenger(id, challenger, bond);
      var ok := LockFrom(challenger, bond);
      if !ok {
        return Failure(HostTrap);
      }
      return Success(());
    }

    method Appeal(now: nat, proposer: Address, id: nat, outcome: bool, signature: Bytes, uri: string, window: nat,
                  view: MarketView)
      returns (r: Result<(), Error>)
      modifies this
      ensures Agrees(Resolution.Appeal(old(Abstract()), now, proposer, id, outcome, signature, uri, window, view), r,
                     Abstract())
    {
      if proposer == purse.holder {
        return Failure(HostTrap);
      }
      if paused {
        return Failure(ContractPaused);
      }
      if mode != Normal {
        return Failure(EmergencyModeActive);
      }
      if !ValidUri(uri) {
        return Failure(InvalidEvidenceUri);
      }
      if !ValidWindow(window) {
        return Failure(InvalidChallengeWindow);
      }
      if id !in candidates {
        return Failure(CandidateNotFound);
      }
      var candidate := candidates[id];
      if candidate.status != Challenged {
        return Failure(CandidateNotChallenged);
      }
      if candidate.appealRound >= MAX_APPEAL_ROUNDS {
        return Failure(AppealLimitExceeded);
      }
      if candidate.passphraseHash.Some? {
        return Failure(Unauthorized);
      }
      if !view.active {
        return Failure(MarketAlreadyResolved);
      }
      if !view.signatureVerifies {
        return Failure(SignatureRejected);
      }
      candidate := candidate.(outcome := outcome);
      candidate := candidate.(signature := signature);
      candidate := candidate.(evidenceUri := uri);
      candidate := candidate.(proposedAt := now);
      candidate := candidate.(challengeDeadline := now + window);
      candidate := candidate.(status := Proposed);
      candidate := candidate.(challengedBy := None, challengeUri := None);
      candidate := candidate.(appealRound := candidate.appealRound + 1);
      StoreCandidate(candidate);
      return Success(());
    }

    // ---- Closing ----

    /** The settlement after the closed candidate is stored: refund, slash, and nothing else. */
    method SettleUpheld(candidate: Candidate) returns (ok: bool)
      requires candidate.id in challengers ==> challengers[candidate.id] != []
      modifies this`purse, this`challengers
      ensures ok <==> UpholdTokens(old(purse), candidate, ListOf(old(challengers), candidate.id)).Success?
      ensures ok ==> UpholdTokens(old(purse), candidate, ListOf(old(challengers), candidate.id)) == Success(purse)
      ensures ok ==> challengers == old(challengers) - {candidate.id}
    {
      if candidate.bond > 0 {
        ok := PayTo(candidate.proposer, candidate.bond);
        if !ok {
          return;
        }
      }
      assert PayPositive(old(purse), candidate.proposer, candidate.bond) == Success(purse);
      ok := SettleChallengersAsLosers(candidate.id, candidate.proposer);
    }

    method Finalize(now: nat, finalizer: Address, id: nat) returns (r: Result<Candidate, Error>)
      requires Tidy(id)
      modifies this
      ensures Agrees(Resolution.Finalize(old(Abstract()), now, finalizer, id), r, Abstract())
      ensures r.Success? ==> id in candidates && r.value == candidates[id]
    {
      if paused {
        return Failure(ContractPaused);
      }
      if mode == GlobalFreeze {
        return Failure(EmergencyModeActive);
      }
      if id !in candidates {
        return Failure(CandidateNotFound);
      }
      var candidate := candidates[id];
      if candidate.status == Finalized || candidate.status == Voided {
        return Failure(CandidateAlreadyFinalized);
      }
      if candidate.status == Challenged {
        return Failure(CandidateAlreadyChallenged);
      }
      if now < candidate.challengeDeadline {
        return Failure(ChallengeWindowOpen);
      }
      if now > candidate.signatureExpiry {
        return Failure(SignatureExpired);
      }
      candidate := candidate.(status := Finalized);
      candidate := candidate.(finalizedAt := Some(now));
      StoreCandidate(candidate);
      var ok := SettleUpheld(candidate);
      if !ok {
        return Failure(HostTrap);
      }
      var text := Decimal.MarketIdToString(candidate.marketId);
      var call := if candidate.passphraseHash.Some?
        then ResolveMarketV2(text, candidate.outcome, candidate.signatureExpiry, candidate.epoch, candidate.signature,
                             candidate.passphraseHash.value)
        else ResolveMarket(text, candidate.outcome, candidate.signature, candidate.signatureExpiry);
      sent := sent + [call];
      return Success(candidate);
    }

    method ArbitrateUpholdProposer(now: nat, caller: Address, id: nat) returns (r: Result<Candidate, Error>)
      requires Tidy(id)
      modifies this
      ensures Agrees(Resolution.ArbitrateUpholdProposer(old(Abstract()), now, caller, id), r, Abstract())
      ensures r.Success? ==> id in candidates && r.value == candidates[id]
    {
      if paused {
        return Failure(ContractPaused);
      }
      if caller != admin {
        return Failure(NotAdmin);
      }
      if id !in candidates {
        return Failure(CandidateNotFound);
      }
      var candidate := candidates[id];
      var refusal := RequireArbitrable(candidate, now);
      if refusal.Some? {
        return Failure(refusal.value);
      }
      candidate := candidate.(status := Finalized);
      candidate := candidate.(finalizedAt := Some(now));
      StoreCandidate(candidate);
      var ok := SettleUpheld(candidate);
      if !ok {
        return Failure(HostTrap);
      }
      var text := Decimal.MarketIdToString(candidate.marketId);
      sent := sent + [ResolveMarket(text, candidate.outcome, candidate.signature, candidate.signatureExpiry)];
      return Success(candidate);
    }

    method Void(now: nat, caller: Address, id: nat) returns (r: Result<Candidate, Error>)
      requires Tidy(id)
      modifies this
      ensures Agrees(VoidMarketOf(old(Abstract()), now, caller, id), r, Abstract())
      ensures r.Success? ==> id in candidates && r.value == candidates[id]
    {
      if paused {
        return Failure(ContractPaused);
      }
      if caller != admin {
        return Failure(NotAdmin);
      }
      if id !in candidates {
        return Failure(CandidateNotFound);
      }
      var candidate := candidates[id];
      var refusal := RequireArbitrable(candidate, now);
      if refusal.Some? {
        return Failure(refusal.value);
      }
      candidate := candidate.(status := Voided);
      candidate := candidate.(finalizedAt := Some(now));
      StoreCandidate(candidate);
      var records := ListOf(challengers, id);
      var ok := true;
      if candidate.bond > 0 {
        var recipient := if records == [] then candidate.proposer else records[|records| - 1].challenger;
        ok := Split(recipient, candidate.bond);
        if !ok {
          return Failure(HostTrap);
        }
      }
      ok := RefundChallengers(records);
      if !ok {
        return Failure(HostTrap);
      }
      ClearChallengers(id);
      sent := sent + [VoidMarket(candidate.marketId)];
      return Success(candidate);
    }

    // ---- Proposer collateral ----

    method DepositCollateral(proposer: Address, amount: i128) returns (r: Result<(), Error>)
      modifies this
      ensures Agrees(Resolution.DepositCollateral(old(Abstract()), proposer, amount), r, Abstract())
    {
      if proposer == purse.holder {
        return Failure(HostTrap);
      }
      if mode != Normal {
        return Failure(EmergencyModeActive);
      }
      if amount <= 0 {
        return Failure(InvalidCollateral);
      }
      var prev := Get(collateral, proposer);
      if prev + amount > I128_MAX {
        return Failure(HostTrap);
      }
      collateral := collateral[proposer := prev + amount];
      var ok := LockFrom(proposer, amount);
      if !ok {
        return Failure(HostTrap);
      }
      return Success(());
    }

    method SlashCollateral(caller: Address, proposer: Address, recipient: Address) returns (r: Result<int, Error>)
      modifies this
      ensures Agrees(Resolution.SlashCollateral(old(Abstract()), caller, proposer, recipient), r, Abstract())
      ensures r.Success? ==> r.value == Get(old(collateral), proposer)
    {
      if caller != admin {
        return Failure(NotAdmin);
      }
      var amount := Get(collateral, proposer);
      if amount <= 0 {
        return Failure(InsufficientCollateral);
      }
      collateral := collateral[proposer := 0];
      var ok := PayTo(recipient, amount);
      if !ok {
        return Failure(HostTrap);
      }
      return Success(amount);
    }

    // ---- The host ----

    /** The kind of failure of a call, if any. */
    static function ErrorOf<T>(r: Result<T, Error>): Option<Error> {
      match r
      case Success(_) => None
      case Failure(e) => Some(e)
    }

    method Dispatch(now: nat, op: Op) returns (e: Option<Error>)
      requires Valid()
      modifies this
      ensures match Step(old(Abstract()), now, op)
              case Success(t) => e == None && Abstract() == t
              case Failure(error) => e == Some(error)
    {
      match op {
        case OpPropose(p, m, o, sig, exp, uri, w, b, v) =>
          var r := Propose(now, p, m, o, sig, exp, uri, w, b, v); e := ErrorOf(r);
        case OpProposeV2(p, m, o, sig, exp, ep, h, uri, w, b, v) =>
          var r := ProposeV2(now, p, m, o, sig, exp, ep, h, uri, w, b, v); e := ErrorOf(r);
        case OpChallenge(a, id, uri, b) => var r := Challenge(now, a, id, uri, b); e := ErrorOf(r);
        case OpAppeal(a, id, o, sig, uri, w, v) => var r := Appeal(now, a, id, o, sig, uri, w, v); e := ErrorOf(r);
        case OpFinalize(a, id) =>
          ValidIsTidy(id);
          var r := Finalize(now, a, id); e := ErrorOf(r);
        case OpArbitrate(a, id) =>
          ValidIsTidy(id);
          var r := ArbitrateUpholdProposer(now, a, id); e := ErrorOf(r);
        case OpVoid(a, id) =>
          ValidIsTidy(id);
          var r := Void(now, a, id); e := ErrorOf(r);
        case OpDepositCollateral(a, amount) => var r := DepositCollateral(a, amount); e := ErrorOf(r);
        case OpSlashCollateral(a, p, to) => var r := SlashCollateral(a, p, to); e := ErrorOf(r);
        case _ => e := DispatchAdminOrOutside(now, op);
      }
    }

    /** Admin switches, the treasury, and what others do with their tokens. */
    method DispatchAdminOrOutside(now: nat, op: Op) returns (e: Option<Error>)
      requires op.OpSetPaused? || op.OpSetMode? || op.OpSetTreasury? || op.OpOutsideTransfer? || op.OpOutsideMint?
      modifies this
      ensures match Step(old(Abstract()), now, op)
              case Success(t) => e == None && Abstract() == t
              case Failure(error) => e == Some(error)
    {
      match op {
        case OpSetPaused(caller, flag) =>
          if caller != admin {
            return Some(NotAdmin);
          }
          paused := flag;
        case OpSetMode(caller, newMode) =>
          if caller != admin {
            return Some(NotAdmin);
          }
          mode := newMode;
        case OpSetTreasury(t) =>
          purse := purse.(treasury := Some(t));
        case OpOutsideTransfer(from, to, amount) =>
          var l := Transfer(purse.ledger, from, to, amount);
          if from == purse.holder || l.None? {
            return Some(HostTrap);
          }
          purse := purse.(ledger := l.value, surplus := purse.surplus + Credit(purse.holder, to, amount));
        case OpOutsideMint(to, amount) =>
          var l := Mint(purse.ledger, to, amount);
          if l.None? {
            return Some(HostTrap);
          }
          purse := purse.(ledger := l.value, surplus := purse.surplus + Credit(purse.holder, to, amount));
      }
      return None;
    }

    /** The host runs a call and, should it fail, puts everything back. */
    method Execute(now: nat, op: Op) returns (e: Option<Error>)
      requires Valid()
      modifies this
      ensures Valid()
      ensures Abstract() == Next(old(Abstract()), Event(now, op))
      ensures e == None <==> Step(old(Abstract()), now, op).Success?
    {
      var before := Abstract();
      NextKeeps(before, Event(now, op));
      e := Dispatch(now, op);
      if e.Some? {
        Restore(before);
      }
    }

    method Restore(s: State)
      modifies this
      ensures Abstract() == s
    {
      admin, paused, mode, counter := s.admin, s.paused, s.mode, s.counter;
      candidates, candidateByMarket := s.candidates, s.candidateByMarket;
      challengers, collateral, purse, sent := s.challengers, s.collateral, s.purse, s.sent;
    }
  }

  lemma SplitAllPrefix(p: Purse, winner: Address, records: seq<ChallengeRecord>, i: nat)
    requires i < |records| && SplitAll(p, winner, records[..i]).Success?
    ensures SplitAll(p, winner, records[..i + 1])
            == SplitBond(SplitAll(p, winner, records[..i]).value, winner, records[i].bond)
  {
    assert records[..i + 1][..i] == records[..i];
  }

  lemma {:induction false} SplitAllFails(p: Purse, winner: Address, records: seq<ChallengeRecord>, i: nat)
    requires i <= |records| && SplitAll(p, winner, records[..i]).Failure?
    ensures SplitAll(p, winner, records).Failure?
  {
    if i < |records| {
      assert records[..|records| - 1][..i] == records[..i];
      SplitAllFails(p, winner, records[..|records| - 1], i);
    } else {
      assert records[..i] == records;
    }
  }

  lemma RefundAllPrefix(p: Purse, records: seq<ChallengeRecord>, i: nat)
    requires i < |records| && RefundAll(p, records[..i]).Success?
    ensures RefundAll(p, records[..i + 1])
            == PayPositive(RefundAll(p, records[..i]).value, records[i].challenger, records[i].bond)
  {
    assert records[..i + 1][..i] == records[..i];
  }

  lemma {:induction false} RefundAllFails(p: Purse, records: seq<ChallengeRecord>, i: nat)
    requires i <= |records| && RefundAll(p, records[..i]).Failure?
    ensures RefundAll(p, records).Failure?
  {
    if i < |records| {
      assert records[..|records| - 1][..i] == records[..i];
      RefundAllFails(p, records[..|records| - 1], i);
    } else {
      assert records[..i] == records;
    }
  }
}
