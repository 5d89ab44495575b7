/** When a dispute can still be closed, and exactly when it is stuck for good. */
module ResolutionProgress {
  import opened Base
  import opened TokenLedger
  import opened BondMoney
  import opened Resolution
  import opened ResolutionInvariant
  import opened ResolutionRuns

  /** Some run of events from time `now` on closes candidate `id`. */
  ghost predicate Closable(s: State, now: nat, id: nat) {
    exists es :: ClosedBy(s, now, es, id)
  }

  ghost predicate StartsAt(es: seq<Event>, now: nat) {
    forall i :: 0 <= i < |es| ==> now <= es[i].now
  }

  ghost predicate ClosedBy(s: State, now: nat, es: seq<Event>, id: nat) {
    && Timed(es) && StartsAt(es, now)
    && id in Run(s, es).candidates && !Live(Run(s, es).candidates[id])
  }

  /** What decides whether a candidate can be closed from time `now` on; everything here can be read off its record. */
  ghost predicate CanClose(c: Candidate, records: seq<ChallengeRecord>, now: nat) {
    match c.status
    case Proposed =>
      || (AllSplittable(records) && Max(now, c.challengeDeadline) <= c.signatureExpiry)
      || (now < c.challengeDeadline && (Splittable(c.bond) || AllSplittable(records)))
    case Challenged => Splittable(c.bond) || AllSplittable(records)
    case _ => true
  }

  // ---- Runs, one event at a time ----

  lemma {:induction false} RunConcat(s: State, es: seq<Event>, fs: seq<Event>)
    ensures Run(s, es + fs) == Run(Run(s, es), fs)
    decreases |fs|
  {
    if fs == [] {
      assert es + fs == es;
    } else {
      assert (es + fs)[..|es + fs| - 1] == es + fs[..|fs| - 1];
      RunConcat(s, es, fs[..|fs| - 1]);
    }
  }

  lemma RunOne(s: State, e: Event)
    ensures Run(s, [e]) == Next(s, e)
  {
    assert [e][..0] == [];
  }

  lemma TimedPrepend(e: Event, es: seq<Event>)
    requires Timed(es) && StartsAt(es, e.now)
    ensures Timed([e] + es) && StartsAt([e] + es, e.now)
  {
  }

  lemma ClosableVia(s: State, now: nat, e: Event, t: State, id: nat)
    requires now <= e.now && t == Next(s, e) && Closable(t, e.now, id)
    ensures Closable(s, now, id)
  {
    var es :| ClosedBy(t, e.now, es, id);
    TimedPrepend(e, es);
    RunConcat(s, [e], es);
    RunOne(s, e);
    assert ClosedBy(s, now, [e] + es, id);
  }

  lemma ClosedIsClosable(s: State, now: nat, id: nat)
    requires id in s.candidates && !Live(s.candidates[id])
    ensures Closable(s, now, id)
  {
    assert ClosedBy(s, now, [], id);
  }

  lemma ClosableAtOnce(s: State, e: Event, t: State, id: nat)
    requires Step(s, e.now, e.op) == Success(t) && id in t.candidates && !Live(t.candidates[id])
    ensures Closable(s, e.now, id)
  {
    ClosedIsClosable(t, e.now, id);
    ClosableVia(s, e.now, e, t, id);
  }

  // ---- Closing what can be closed ----

  lemma UpholdCloses(s: State, now: nat, id: nat, call: MarketCall)
    requires Inv(s) && id in s.candidates && Live(s.candidates[id]) && AllSplittable(Records(s, id))
    ensures Uphold(s, now, s.candidates[id], call).Success?
    ensures var t := Uphold(s, now, s.candidates[id], call).value; id in t.candidates && !Live(t.candidates[id])
  {
    StoredId(s, id);
    UpholdEffect(s, now, s.candidates[id], call);
  }

  lemma VoidSucceeds(s: State, now: nat, id: nat)
    requires Inv(s) && !s.paused && id in s.candidates && s.candidates[id].status == Challenged
    requires Splittable(s.candidates[id].bond)
    requires s.candidates[id].challengeDeadline + ARBITRATION_TIMELOCK_SECONDS <= now
    ensures VoidMarketOf(s, now, s.admin, id).Success?
    ensures var t := VoidMarketOf(s, now, s.admin, id).value; id in t.candidates && !Live(t.candidates[id])
  {
    StoredId(s, id);
    VoidEffect(s, now, s.admin, id);
  }

  lemma FinalizeCloses(s: State, now: nat, id: nat)
    requires Inv(s) && !s.paused && s.mode == Normal && id in s.candidates && s.candidates[id].status == Proposed
    requires AllSplittable(Records(s, id))
    requires s.candidates[id].challengeDeadline <= now <= s.candidates[id].signatureExpiry
    ensures Closable(s, now, id)
  {
    var call := ResolveCall(s.candidates[id]);
    UpholdCloses(s, now, id, call);
    ClosableAtOnce(s, Event(now, OpFinalize(s.admin, id)), Uphold(s, now, s.candidates[id], call).value, id);
  }

  lemma ArbitrateIsUphold(s: State, now: nat, id: nat)
    requires !s.paused && id in s.candidates && s.candidates[id].status == Challenged
    requires s.candidates[id].challengeDeadline + ARBITRATION_TIMELOCK_SECONDS <= now
    ensures Step(s, now, OpArbitrate(s.admin, id)) == Uphold(s, now, s.candidates[id], ResolveV1Call(s.candidates[id]))
  {
  }

  lemma ArbitrateCloses(s: State, now: nat, id: nat)
    requires Inv(s) && !s.paused && id in s.candidates && s.candidates[id].status == Challenged
    requires AllSplittable(Records(s, id))
    requires s.candidates[id].challengeDeadline + ARBITRATION_TIMELOCK_SECONDS <= now
    ensures Closable(s, now, id)
  {
    var call := ResolveV1Call(s.candidates[id]);
    UpholdCloses(s, now, id, call);
    ArbitrateIsUphold(s, now, id);
    ClosableAtOnce(s, Event(now, OpArbitrate(s.admin, id)), Uphold(s, now, s.candidates[id], call).value, id);
  }

  lemma VoidIsStep(s: State, now: nat, id: nat)
    ensures Step(s, now, OpVoid(s.admin, id)) == VoidMarketOf(s, now, s.admin, id)
  {
  }

  lemma VoidCloses(s: State, now: nat, id: nat)
    requires Inv(s) && !s.paused && id in s.candidates && s.candidates[id].status == Challenged
    requires Splittable(s.candidates[id].bond)
    requires s.candidates[id].challengeDeadline + ARBITRATION_TIMELOCK_SECONDS <= now
    ensures Closable(s, now, id)
  {
    VoidSucceeds(s, now, id);
    VoidIsStep(s, now, id);
    ClosableAtOnce(s, Event(now, OpVoid(s.admin, id)), VoidMarketOf(s, now, s.admin, id).value, id);
  }

  lemma SoonerClosable(s: State, now: nat, later: nat, id: nat)
    requires now <= later && Closable(s, later, id)
    ensures Closable(s, now, id)
  {
    var es :| ClosedBy(s, later, es, id);
    assert ClosedBy(s, now, es, id);
  }

  lemma ChallengedCloses(s: State, now: nat, id: nat)
    requires Inv(s) && !s.paused && id in s.candidates && s.candidates[id].status == Challenged
    requires CanClose(s.candidates[id], Records(s, id), now)
    ensures Closable(s, now, id)
  {
    var later := Max(now, s.candidates[id].challengeDeadline + ARBITRATION_TIMELOCK_SECONDS);
    if Splittable(s.candidates[id].bond) {
      VoidCloses(s, later, id);
    } else {
      ArbitrateCloses(s, later, id);
    }
    SoonerClosable(s, now, later, id);
  }

  lemma SplittableAppend(records: seq<ChallengeRecord>, r: ChallengeRecord)
    ensures AllSplittable(records + [r]) <==> AllSplittable(records) && Splittable(r.bond)
  {
    AllSplittableLast(records + [r]);
    assert (records + [r])[..|records|] == records;
  }

  /** What a funded challenger does to a proposed candidate whose window is open. */
  lemma FundedChallenge(s: State, now: nat, challenger: Address, id: nat) returns (t: State)
    requires !s.paused && s.mode == Normal && challenger != s.purse.holder
    requires Balance(s.purse.ledger, challenger) >= MIN_CHALLENGE_BOND_AMOUNT
    requires id in s.candidates && s.candidates[id].id == id && s.candidates[id].status == Proposed
    requires now < s.candidates[id].challengeDeadline
    ensures t == Next(s, Event(now, OpChallenge(challenger, id, "u", MIN_CHALLENGE_BOND_AMOUNT))) && !t.paused
    ensures id in t.candidates && t.candidates[id].status == Challenged
    ensures t.candidates[id].bond == s.candidates[id].bond
    ensures Records(t, id) == Records(s, id) + [ChallengeRecord(challenger, MIN_CHALLENGE_BOND_AMOUNT)]
  {
    t := Next(s, Event(now, OpChallenge(challenger, id, "u", MIN_CHALLENGE_BOND_AMOUNT)));
  }

  /** Anybody who holds a bond can bring about the challenge that lets the dispute be closed. */
  lemma FundedWindowCloses(s: State, now: nat, challenger: Address, id: nat)
    requires Inv(s) && !s.paused && s.mode == Normal && id in s.candidates && s.candidates[id].status == Proposed
    requires now < s.candidates[id].challengeDeadline && challenger != s.purse.holder
    requires Balance(s.purse.ledger, challenger) >= MIN_CHALLENGE_BOND_AMOUNT
    requires Splittable(s.candidates[id].bond) || AllSplittable(Records(s, id))
    ensures Closable(s, now, id)
  {
    StoredId(s, id);
    var e := Event(now, OpChallenge(challenger, id, "u", MIN_CHALLENGE_BOND_AMOUNT));
    var t := FundedChallenge(s, now, challenger, id);
    NextKeeps(s, e);
    SplittableAppend(Records(s, id), ChallengeRecord(challenger, MIN_CHALLENGE_BOND_AMOUNT));
    ChallengedCloses(t, now, id);
    ClosableVia(s, now, e, t, id);
  }

  lemma Funding(s: State, now: nat, challenger: Address)
    requires Inv(s)
    ensures var t := Next(s, Event(now, OpOutsideMint(challenger, MIN_CHALLENGE_BOND_AMOUNT)));
            && t == s.(purse := t.purse) && t.purse.holder == s.purse.holder
            && Balance(t.purse.ledger, challenger) >= MIN_CHALLENGE_BOND_AMOUNT
  {
    BalanceWithinIssued(s.purse.ledger, challenger);
  }

  lemma OpenWindowCloses(s: State, now: nat, id: nat)
    requires Inv(s) && !s.paused && s.mode == Normal && id in s.candidates && s.candidates[id].status == Proposed
    requires now < s.candidates[id].challengeDeadline
    requires Splittable(s.candidates[id].bond) || AllSplittable(Records(s, id))
    ensures Closable(s, now, id)
  {
    var challenger := Address(s.purse.holder.id + 1);
    var fund := Event(now, OpOutsideMint(challenger, MIN_CHALLENGE_BOND_AMOUNT));
    NextKeeps(s, fund);
    Funding(s, now, challenger);
    FundedWindowCloses(Next(s, fund), now, challenger, id);
    ClosableVia(s, now, fund, Next(s, fund), id);
  }

  lemma ReadyCloses(s: State, now: nat, id: nat)
    requires Inv(s) && !s.paused && s.mode == Normal && id in s.candidates
    requires CanClose(s.candidates[id], Records(s, id), now)
    ensures Closable(s, now, id)
  {
    var c := s.candidates[id];
    if !Live(c) {
      ClosedIsClosable(s, now, id);
    } else if c.status == Challenged {
      ChallengedCloses(s, now, id);
    } else if AllSplittable(Records(s, id)) && Max(now, c.challengeDeadline) <= c.signatureExpiry {
      FinalizeCloses(s, Max(now, c.challengeDeadline), id);
      SoonerClosable(s, now, Max(now, c.challengeDeadline), id);
    } else {
      OpenWindowCloses(s, now, id);
    }
  }

  lemma CanCloseSuffices(s: State, now: nat, id: nat)
    requires Inv(s) && id in s.candidates && CanClose(s.candidates[id], Records(s, id), now)
    ensures Closable(s, now, id)
  {
    var unpause := Event(now, OpSetPaused(s.admin, false));
    var normal := Event(now, OpSetMode(s.admin, Normal));
    var u := s.(paused := false);
    var v := u.(mode := Normal);
    assert u == Next(s, unpause) && v == Next(u, normal);
    ReadyCloses(v, now, id);
    ClosableVia(u, now, normal, v, id);
    ClosableVia(s, now, unpause, u, id);
  }

  // ---- What cannot be closed stays so ----

  lemma StuckEarlier(c: Candidate, records: seq<ChallengeRecord>, now: nat, later: nat)
    requires now <= later && !CanClose(c, records, now)
    ensures !CanClose(c, records, later)
  {
  }

  /** A dispute call a stuck candidate admits leaves it stuck. */
  lemma StuckRevision(c: Candidate, records: seq<ChallengeRecord>, now: nat, op: Op)
    requires !CanClose(c, records, now) && (op.OpChallenge? || op.OpAppeal?) && Admits(c, now, op)
    ensures op.OpAppeal? ==> !CanClose(Revised(c, now, op), records, now)
    ensures op.OpChallenge? ==>
              !CanClose(Revised(c, now, op), records + [ChallengeRecord(op.challenger, op.bond)], now)
  {
    if op.OpChallenge? {
      SplittableAppend(records, ChallengeRecord(op.challenger, op.bond));
    }
  }

  lemma FinalizeNeeds(s: State, now: nat, finalizer: Address, id: nat)
    requires Inv(s) && Finalize(s, now, finalizer, id).Success?
    ensures var c := s.candidates[id];
            c.status == Proposed && c.challengeDeadline <= now <= c.signatureExpiry && AllSplittable(Records(s, id))
  {
    StoredId(s, id);
    UpholdEffect(s, now, s.candidates[id], ResolveCall(s.candidates[id]));
  }

  lemma ArbitrateNeeds(s: State, now: nat, admin: Address, id: nat)
    requires Inv(s) && ArbitrateUpholdProposer(s, now, admin, id).Success?
    ensures s.candidates[id].status == Challenged && AllSplittable(Records(s, id))
  {
    StoredId(s, id);
    UpholdEffect(s, now, s.candidates[id], ResolveV1Call(s.candidates[id]));
  }

  /** No closing call on a stuck candidate goes through. */
  lemma StuckRefusesClosing(s: State, e: Event)
    requires Inv(s) && Closes(e.op) && Works(s, e)
    ensures e.op.id in s.candidates && CanClose(s.candidates[e.op.id], Records(s, e.op.id), e.now)
  {
    var id := e.op.id;
    StoredId(s, id);
    match e.op {
      case OpFinalize(a, _) => FinalizeNeeds(s, e.now, a, id);
      case OpArbitrate(a, _) => ArbitrateNeeds(s, e.now, a, id);
      case OpVoid(a, _) =>
        VoidForm(s, e.now, a, id);
        VoidEffect(s, e.now, a, id);
    }
  }

  /** How a call that closes nothing changes the list of a candidate. */
  lemma RecordsAdvance(s: State, e: Event, id: nat)
    requires Keyed(s.candidates) && !(Closes(e.op) && e.op.id == id && Works(s, e))
    ensures Records(Next(s, e), id)
            == if e.op.OpChallenge? && e.op.id == id && Works(s, e)
               then Records(s, id) + [ChallengeRecord(e.op.challenger, e.op.bond)] else Records(s, id)
  {
    if Works(s, e) && Disputes(e.op) {
      assert s.candidates[e.op.id].id == e.op.id;
    }
  }

  lemma StuckStep(s: State, now: nat, e: Event, id: nat)
    requires Inv(s) && now <= e.now && id in s.candidates && !CanClose(s.candidates[id], Records(s, id), now)
    ensures id in Next(s, e).candidates
    ensures !CanClose(Next(s, e).candidates[id], Records(Next(s, e), id), e.now)
  {
    var c := s.candidates[id];
    StuckEarlier(c, Records(s, id), now, e.now);
    NextAdvances(s, e);
    if Closes(e.op) && e.op.id == id && Works(s, e) {
      StuckRefusesClosing(s, e);
    } else {
      RecordsAdvance(s, e, id);
      if (e.op.OpChallenge? || e.op.OpAppeal?) && e.op.id == id && Works(s, e) {
        StuckRevision(c, Records(s, id), e.now, e.op);
      }
    }
  }

  lemma {:induction false} StuckRun(s: State, now: nat, es: seq<Event>, id: nat)
    requires Inv(s) && id in s.candidates && !CanClose(s.candidates[id], Records(s, id), now)
    requires Timed(es) && StartsAt(es, now)
    ensures var t := Run(s, es);
            id in t.candidates
            && !CanClose(t.candidates[id], Records(t, id), if es == [] then now else es[|es| - 1].now)
  {
    if es != [] {
      var init, last := es[..|es| - 1], es[|es| - 1];
      StuckRun(s, now, init, id);
      RunKeeps(s, init);
      StuckStep(Run(s, init), if init == [] then now else init[|init| - 1].now, last, id);
    }
  }

  // ---- The theorems ----

  /**
   Progress, exactly: from any reachable state, a candidate can still be closed after `now` if and only if its
   record satisfies `CanClose`; otherwise no run whatsoever closes it.
   */
  lemma ProgressExactly(s: State, now: nat, id: nat)
    requires Inv(s) && id in s.candidates
    ensures Closable(s, now, id) <==> CanClose(s.candidates[id], Records(s, id), now)
  {
    if CanClose(s.candidates[id], Records(s, id), now) {
      CanCloseSuffices(s, now, id);
    } else if Closable(s, now, id) {
      var es :| ClosedBy(s, now, es, id);
      StuckRun(s, now, es, id);
    }
  }

  /**
   While no more tokens exist than a 128-bit reward product can take, a live candidate is stuck for good exactly
   when it is `Proposed`, its challenge window has passed and its signature has expired.
   */
  lemma StuckExactlyWhenExpired(s: State, now: nat, id: nat)
    requires Inv(s) && id in s.candidates && Live(s.candidates[id])
    requires Splittable(s.purse.ledger.issued - s.purse.ledger.burned)
    ensures !Closable(s, now, id)
            <==> s.candidates[id].status == Proposed && s.candidates[id].challengeDeadline <= now
                 && s.candidates[id].signatureExpiry < now
  {
    ProgressExactly(s, now, id);
    AllBondsSplittable(s, id);
  }

  lemma {:induction false} BondWithinSum(records: seq<ChallengeRecord>, i: nat)
    requires NonnegativeBonds(records) && i < |records|
    ensures records[i].bond <= BondSum(records)
  {
    BondSumNonnegative(records[..|records| - 1]);
    if i < |records| - 1 {
      BondWithinSum(records[..|records| - 1], i);
    }
  }

  lemma AllBondsSplittable(s: State, id: nat)
    requires Inv(s) && id in s.candidates && Live(s.candidates[id])
    requires Splittable(s.purse.ledger.issued - s.purse.ledger.burned)
    ensures Splittable(s.candidates[id].bond) && AllSplittable(Records(s, id))
  {
    var records := Records(s, id);
    StoredId(s, id);
    assert GoodCandidate(s.purse.holder, id, s.candidates[id], records);
    PoolCoversCandidate(s, id);
    BalanceWithinIssued(s.purse.ledger, s.purse.holder);
    forall i | 0 <= i < |records| ensures Splittable(records[i].bond) {
      BondWithinSum(records, i);
    }
  }

  /** Once its timelock has passed, a challenged candidate can be closed at once unless both sides' bonds overflow. */
  lemma TerminalStepEnabled(s: State, now: nat, id: nat)
    requires Inv(s) && !s.paused && id in s.candidates && s.candidates[id].status == Challenged
    requires s.candidates[id].challengeDeadline + ARBITRATION_TIMELOCK_SECONDS <= now
    ensures VoidMarketOf(s, now, s.admin, id).Success? <==> Splittable(s.candidates[id].bond)
    ensures ArbitrateUpholdProposer(s, now, s.admin, id).Success? <==> AllSplittable(Records(s, id))
  {
    StoredId(s, id);
    VoidEffect(s, now, s.admin, id);
    UpholdEffect(s, now, s.candidates[id], ResolveV1Call(s.candidates[id]));
  }
}
