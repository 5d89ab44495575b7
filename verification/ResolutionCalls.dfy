/** Which calls of the resolution contract go through, in full, and where what is sent to the market comes from. */
module ResolutionCalls {
  import opened Base
  import opened Sums
  import opened TokenLedger
  import opened BondMoney
  import opened Resolution
  import opened ResolutionInvariant
  import opened ResolutionRuns
  import opened ResolutionProgress

  // ---- Acceptance ----

  /** What both kinds of proposal need. */
  predicate ProposalFits(s: State, now: nat, proposer: Address, marketId: u32, expiry: nat, uri: string, window: nat,
                         bond: i128, view: MarketView)
  {
    && proposer != s.purse.holder && s.mode == Normal
    && 1 <= |uri| <= 512 && 60 <= window <= 1_209_600
    && 10_000_000 <= bond <= Balance(s.purse.ledger, proposer)
    && marketId !in s.candidateByMarket && s.counter < 0xFFFF_FFFF
    && view.active && view.signatureVerifies && now <= expiry
  }

  /** A proposal goes through exactly for a fresh market, on a verified and unexpired signature, with a bond paid. */
  lemma ProposeAccepts(s: State, now: nat, proposer: Address, marketId: u32, outcome: bool, signature: Bytes,
                       expiry: nat, epoch: u32, hash: Bytes, uri: string, window: nat, bond: i128, view: MarketView)
    ensures Propose(s, now, proposer, marketId, outcome, signature, expiry, uri, window, bond, view).Success?
            <==> !s.paused && ProposalFits(s, now, proposer, marketId, expiry, uri, window, bond, view)
    ensures ProposeV2(s, now, proposer, marketId, outcome, signature, expiry, epoch, hash, uri, window, bond,
                      view).Success?
            <==> ProposalFits(s, now, proposer, marketId, expiry, uri, window, bond, view)
  {
  }

  /** A challenge goes through exactly against a proposed candidate before its deadline, with a bond paid. */
  lemma ChallengeAccepts(s: State, now: nat, challenger: Address, id: nat, uri: string, bond: i128)
    ensures Challenge(s, now, challenger, id, uri, bond).Success?
            <==> && challenger != s.purse.holder && !s.paused && (s.mode == Normal || s.mode == TradingHalted)
                 && 1 <= |uri| <= 512
                 && 10_000_000 <= bond <= Balance(s.purse.ledger, challenger)
                 && id in s.candidates && s.candidates[id].status == Proposed
                 && now < s.candidates[id].challengeDeadline
  {
  }

  /** An appeal goes through exactly for a challenged first-version candidate in its first three rounds. */
  lemma AppealAccepts(s: State, now: nat, proposer: Address, id: nat, outcome: bool, signature: Bytes, uri: string,
                      window: nat, view: MarketView)
    ensures Appeal(s, now, proposer, id, outcome, signature, uri, window, view).Success?
            <==> && proposer != s.purse.holder && !s.paused && s.mode == Normal
                 && 1 <= |uri| <= 512 && 60 <= window <= 1_209_600
                 && id in s.candidates && s.candidates[id].status == Challenged
                 && s.candidates[id].appealRound < 3 && s.candidates[id].passphraseHash == None
                 && view.active && view.signatureVerifies
  {
  }

  /** No reward product of the bonds overflows 128 bits. */
  predicate BondsFit(records: seq<ChallengeRecord>) {
    forall i :: 0 <= i < |records| ==> records[i].bond * 5_000 <= I128_MAX
  }

  /** Anybody can finalize exactly an unchallenged candidate between its deadline and its expiry. */
  lemma FinalizeAccepts(s: State, now: nat, finalizer: Address, id: nat)
    requires Inv(s)
    ensures Finalize(s, now, finalizer, id).Success?
            <==> && !s.paused && s.mode != GlobalFreeze
                 && id in s.candidates && s.candidates[id].status == Proposed
                 && s.candidates[id].challengeDeadline <= now <= s.candidates[id].signatureExpiry
                 && BondsFit(Records(s, id))
  {
    if id in s.candidates && Live(s.candidates[id]) {
      StoredId(s, id);
      UpholdEffect(s, now, s.candidates[id], ResolveCall(s.candidates[id]));
    }
  }

  /** Only the admin closes a challenged candidate, and only two days after its deadline. */
  predicate MayArbitrate(s: State, now: nat, caller: Address, id: nat) {
    && !s.paused && caller == s.admin
    && id in s.candidates && s.candidates[id].status == Challenged
    && s.candidates[id].challengeDeadline + 172_800 <= now
  }

  lemma ArbitrateChecks(s: State, now: nat, caller: Address, id: nat)
    ensures if MayArbitrate(s, now, caller, id)
            then ArbitrateUpholdProposer(s, now, caller, id)
                 == Uphold(s, now, s.candidates[id], ResolveV1Call(s.candidates[id]))
            else ArbitrateUpholdProposer(s, now, caller, id).Failure?
  {
  }

  lemma ArbitrateAccepts(s: State, now: nat, caller: Address, id: nat)
    requires Inv(s)
    ensures ArbitrateUpholdProposer(s, now, caller, id).Success?
            <==> MayArbitrate(s, now, caller, id) && BondsFit(Records(s, id))
  {
    ArbitrateChecks(s, now, caller, id);
    if MayArbitrate(s, now, caller, id) {
      StoredId(s, id);
      UpholdEffect(s, now, s.candidates[id], ResolveV1Call(s.candidates[id]));
    }
  }

  lemma VoidAccepts(s: State, now: nat, caller: Address, id: nat)
    requires Inv(s)
    ensures VoidMarketOf(s, now, caller, id).Success?
            <==> MayArbitrate(s, now, caller, id) && s.candidates[id].bond * 5_000 <= I128_MAX
  {
    if MayArbitrate(s, now, caller, id) {
      VoidEffect(s, now, caller, id);
    }
  }

  /** Collateral can be deposited exactly in normal mode; the depositor's own entry grows, by the amount. */
  lemma CollateralGrows(s: State, proposer: Address, amount: i128, a: Address)
    ensures DepositCollateral(s, proposer, amount).Success?
            <==> && proposer != s.purse.holder && s.mode == Normal
                 && 0 < amount <= Balance(s.purse.ledger, proposer)
                 && Get(s.collateral, proposer) + amount <= I128_MAX
    ensures DepositCollateral(s, proposer, amount).Success? ==>
              Get(DepositCollateral(s, proposer, amount).value.collateral, a)
              == Get(s.collateral, a) + (if a == proposer then amount else 0)
  {
  }

  /** Pause flag and mode change at the admin's word alone, and nothing else with them. */
  lemma SettingsChange(s: State, now: nat, caller: Address, flag: bool, mode: EmergencyMode)
    ensures Step(s, now, OpSetPaused(caller, flag)).Success? <==> caller == s.admin
    ensures Step(s, now, OpSetMode(caller, mode)).Success? <==> caller == s.admin
    ensures caller == s.admin ==>
              && Step(s, now, OpSetPaused(caller, flag)).value == s.(paused := flag)
              && Step(s, now, OpSetMode(caller, mode)).value == s.(mode := mode)
  {
  }

  // ---- Where a callback comes from ----

  /** The `p`-th event proposed candidate `id`. */
  predicate ProposedAt(s: State, es: seq<Event>, p: nat, id: nat)
    requires p < |es|
  {
    Succeeded(s, es, p) && Proposes(es[p].op) && At(s, es, p).counter + 1 == id
  }

  /** Market, proposer, bond, expiry and version of a candidate are those it was proposed with. */
  lemma {:induction false} ProposalOrigin(s: State, es: seq<Event>, n: nat, id: nat) returns (p: nat)
    requires Initial(s) && n <= |es| && id in At(s, es, n).candidates
    ensures p < n && ProposedAt(s, es, p, id)
    ensures var c := At(s, es, n).candidates[id];
            && c.marketId == es[p].op.marketId && c.proposer == es[p].op.proposer && c.bond == es[p].op.bond
            && c.signatureExpiry == es[p].op.expiry
            && c.passphraseHash == (if es[p].op.OpProposeV2? then Some(es[p].op.hash) else None)
            && c.epoch == (if es[p].op.OpProposeV2? then es[p].op.epoch else 0)
    decreases n
  {
    InitialInv(s);
    EventAdvances(s, es, n - 1);
    if id in At(s, es, n - 1).candidates {
      p := ProposalOrigin(s, es, n - 1, id);
      AdvanceOf(At(s, es, n - 1).candidates, At(s, es, n - 1).counter, es[n - 1], Succeeded(s, es, n - 1),
                At(s, es, n).candidates, id);
    } else {
      p := n - 1;
    }
  }

  /** The callback, of either version, resolves its market to this outcome on this signature. */
  predicate Carries(call: MarketCall, outcome: bool, signature: Bytes, expiry: nat) {
    match call
    case ResolveMarket(_, o, sig, exp) => o == outcome && sig == signature && exp == expiry
    case ResolveMarketV2(_, o, exp, _, sig, _) => o == outcome && sig == signature && exp == expiry
    case VoidMarket(_) => false
  }

  /**
   Over every run, a market is resolved to the outcome, and on the signature, that its latest proposal or appeal gave,
   with the expiry of its proposal.
   */
  lemma CallbackOrigin(s: State, es: seq<Event>, k: nat) returns (id: nat, j: nat, p: nat)
    requires Initial(s) && k < |Run(s, es).sent| && !Run(s, es).sent[k].VoidMarket?
    ensures j < |es| && LatestOpening(s, es, |es|, id, j)
    ensures p < |es| && ProposedAt(s, es, p, id)
    ensures About(Run(s, es).sent[k]) == Some(es[p].op.marketId)
    ensures Carries(Run(s, es).sent[k], es[j].op.outcome, es[j].op.signature, es[p].op.expiry)
    ensures Run(s, es).sent[k].ResolveMarketV2? ==>
              && es[p].op.OpProposeV2? && Run(s, es).sent[k].epoch == es[p].op.epoch
              && Run(s, es).sent[k].passphraseHash == es[p].op.hash
  {
    var t := Run(s, es);
    assert es[..|es|] == es;
    id := SentFor(s, es, k);
    j := DeadlineOrigin(s, es, |es|, id);
    p := ProposalOrigin(s, es, |es|, id);
  }

  lemma SentFor(s: State, es: seq<Event>, k: nat) returns (id: nat)
    requires Initial(s) && k < |Run(s, es).sent|
    ensures id in Run(s, es).candidates && Matches(Run(s, es).candidates[id], Run(s, es).sent[k])
    ensures About(Run(s, es).sent[k]) == Some(Run(s, es).candidates[id].marketId)
  {
    InitialInv(s);
    RunKeeps(s, es);
    var t := Run(s, es);
    assert GoodCall(t.candidates, t.candidateByMarket, t.sent[k]);
    id := t.candidateByMarket[About(t.sent[k]).value];
  }

  // ---- Whose bonds are on record ----

  /** The challenges to a candidate that went through since it was proposed, until it is closed. */
  function ChallengesTo(s: State, es: seq<Event>, n: nat, id: nat): seq<ChallengeRecord>
    requires n <= |es|
  {
    if n == 0 then []
    else
      var before, op := ChallengesTo(s, es, n - 1, id), es[n - 1].op;
      if !Succeeded(s, es, n - 1) then before
      else if op.OpChallenge? && op.id == id then before + [ChallengeRecord(op.challenger, op.bond)]
      else if (op.OpFinalize? || op.OpArbitrate? || op.OpVoid?) && op.id == id then []
      else before
  }

  lemma ClosedList(s: State, e: Event, id: nat)
    requires Keyed(s.candidates) && Works(s, e) && Closes(e.op) && e.op.id == id
    ensures Records(Next(s, e), id) == []
  {
    assert id in s.candidates && s.candidates[id].id == id;
  }

  /** Over every run, the bonds on record are those of the successful challenges, under their challengers' names. */
  lemma {:induction false} RecordsAreChallenges(s: State, es: seq<Event>, n: nat, id: nat)
    requires Initial(s) && n <= |es|
    ensures Records(At(s, es, n), id) == ChallengesTo(s, es, n, id)
  {
    if n > 0 {
      RecordsAreChallenges(s, es, n - 1, id);
      InitialInv(s);
      RunKeeps(s, es[..n - 1]);
      ShapeKeyed(At(s, es, n - 1));
      assert es[..n][..n - 1] == es[..n - 1];
      if Closes(es[n - 1].op) && es[n - 1].op.id == id && Succeeded(s, es, n - 1) {
        ClosedList(At(s, es, n - 1), es[n - 1], id);
      } else {
        RecordsAdvance(At(s, es, n - 1), es[n - 1], id);
      }
    }
  }
}
