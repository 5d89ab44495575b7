/** Whole runs of the market contract: what the pool holds, every user's account, payments, and single use of ids. */
module VaultRuns {
  import opened Base
  import opened Sums
  import opened TokenLedger
  import opened MarketTypes
  import opened Positions
  import opened Settlement
  import opened Vault
  import opened VaultInvariant

  // ---- States along a run ----

  /** The state after the first `n` events. */
  function At(s: State, es: seq<Event>, n: nat): State
    requires n <= |es|
  {
    Run(s, es[..n])
  }

  predicate Succeeded(s: State, es: seq<Event>, i: nat)
    requires i < |es|
  {
    Works(At(s, es, i), es[i])
  }

  lemma AtNext(s: State, es: seq<Event>, i: nat)
    requires i < |es|
    ensures At(s, es, i + 1) == Next(At(s, es, i), es[i])
  {
    assert es[..i + 1][..i] == es[..i];
  }

  // ---- Custody, as a reader would state it ----

  /** What an event adds to what the contract holds without owing it to a depositor. */
  function SurplusFrom(s: State, e: Event): int {
    if !Works(s, e) then 0
    else
      match e.op
      case OpWithdraw(user, _, amount) =>
        (match FeeFor(s.config, user, amount)
         case Success(fee) => Retained(s.book.holder, s.config.treasury, fee)
         case Failure(_) => 0)
      case OpMerge(m, _, primary, other, _, _, _) => Forgotten(s.book, m, primary, other)
      case OpOutsideTransfer(_, to, amount) => Credit(s.book.holder, to, amount)
      case OpOutsideMint(to, amount) => Credit(s.book.holder, to, amount)
      case _ => 0
  }

  function SurplusIn(s: State, es: seq<Event>): int {
    if es == [] then 0 else SurplusIn(s, es[..|es| - 1]) + SurplusFrom(Run(s, es[..|es| - 1]), es[|es| - 1])
  }

  /** What an event issues from outside. */
  function Issued(s: State, e: Event): int {
    if e.op.OpOutsideMint? && Works(s, e) then e.op.amount else 0
  }

  function IssuedIn(s: State, es: seq<Event>): int {
    if es == [] then 0 else IssuedIn(s, es[..|es| - 1]) + Issued(Run(s, es[..|es| - 1]), es[|es| - 1])
  }

  /** The contract's running totals go from those of `s` to those of `t`. */
  predicate Totals(s: State, t: State, kept: int, issued: int) {
    && t.book.holder == s.book.holder && t.accounts.surplus == s.accounts.surplus + kept
    && t.book.ledger.issued == s.book.ledger.issued + issued
  }

  lemma WithdrawTotals(s: State, now: nat, user: Address, m: u32, amount: i128)
    requires Inv(s) && Withdraw(s, now, user, m, amount).Success?
    ensures Totals(s, Withdraw(s, now, user, m, amount).value,
                   Retained(s.book.holder, s.config.treasury, FeeFor(s.config, user, amount).value), 0)
  {
    FeeNonnegative(s.config, user, amount);
    PayWithdrawalEffect(s.book.ledger, s.book.holder, s.config.treasury, user, FeeFor(s.config, user, amount).value,
                        amount);
  }

  lemma StepTotals(s: State, e: Event)
    requires Inv(s) && Works(s, e)
    ensures Totals(s, Next(s, e), SurplusFrom(s, e), Issued(s, e))
  {
    match e.op
    case OpWithdraw(user, m, amount) => WithdrawTotals(s, e.now, user, m, amount);
    case OpSettle(user, m) => ApplyKeeps(s.book, s.accounts.surplus, s.config.markets[m], m, user);
    case OpBatchSettle(m, users) => BatchKeeps(s.book, s.accounts.surplus, s.config.markets[m], m, users);
    case OpSettlePage(m, start, limit) =>
      BatchKeeps(s.book, s.accounts.surplus, s.config.markets[m], m,
                 PageOf(ParticipantsOf(s.accounts.participants, m), start, limit));
    case _ =>
  }

  lemma {:induction false} RunTotals(s: State, es: seq<Event>)
    requires Inv(s)
    ensures Totals(s, Run(s, es), SurplusIn(s, es), IssuedIn(s, es))
  {
    if es != [] {
      var init, last := es[..|es| - 1], es[|es| - 1];
      RunTotals(s, init);
      RunKeeps(s, init);
      if Works(Run(s, init), last) {
        StepTotals(Run(s, init), last);
      }
    }
  }

  /**
   In every reachable state the contract holds exactly the sum of all deposits, what it held at the start, the
   fees it kept, what others sent it and the deposits self-merges forgot, less what it has paid out in settlement.
   */
  lemma PoolIsExact(s: State, es: seq<Event>)
    requires Initial(s)
    ensures var t := Run(s, es);
            && Balance(t.book.ledger, s.book.holder) + PaidOut(t.book)
               == SumBy(t.book.positions, Deposited) + Balance(s.book.ledger, s.book.holder) + SurplusIn(s, es)
            && Balance(t.book.ledger, s.book.holder) >= 0
  {
    InitialInv(s);
    RunKeeps(s, es);
    RunTotals(s, es);
  }

  // ---- Fees ----

  /** The fee a successful withdrawal charges. */
  function FeeOf(s: State, e: Event): int {
    if e.op.OpWithdraw? && Works(s, e) then
      match FeeFor(s.config, e.op.user, e.op.amount)
      case Success(fee) => fee
      case Failure(_) => 0
    else 0
  }

  function FeesIn(s: State, es: seq<Event>): int {
    if es == [] then 0 else FeesIn(s, es[..|es| - 1]) + FeeOf(Run(s, es[..|es| - 1]), es[|es| - 1])
  }

  /** Of those, what was charged while no treasury was registered. */
  function KeptIn(s: State, es: seq<Event>): int {
    if es == [] then 0
    else
      var t := Run(s, es[..|es| - 1]);
      KeptIn(s, es[..|es| - 1]) + (if t.config.treasury == None then FeeOf(t, es[|es| - 1]) else 0)
  }

  function Reported(calls: seq<FeeCall>): int {
    if calls == [] then 0 else Reported(calls[..|calls| - 1]) + calls[|calls| - 1].fee
  }

  lemma StepFees(s: State, e: Event)
    ensures Reported(Next(s, e).accounts.feeCalls)
            == Reported(s.accounts.feeCalls) + if s.config.treasury == None then 0 else FeeOf(s, e)
  {
    if e.op.OpWithdraw? && Works(s, e) {
      WithdrawFees(s, e.now, e.op.user, e.op.m, e.op.amount);
    }
  }

  lemma WithdrawFees(s: State, now: nat, user: Address, m: u32, amount: i128)
    requires Withdraw(s, now, user, m, amount).Success?
    ensures Reported(Withdraw(s, now, user, m, amount).value.accounts.feeCalls)
            == Reported(s.accounts.feeCalls)
               + if s.config.treasury == None then 0 else FeeFor(s.config, user, amount).value
  {
    var calls := s.accounts.feeCalls;
    FeeNonnegative(s.config, user, amount);
    if s.config.treasury.Some? {
      var call := FeeCall(s.config.treasury.value, m, FeeFor(s.config, user, amount).value);
      assert (calls + [call])[..|calls|] == calls;
    }
  }

  /** Over every run, exactly the fees charged while a treasury was registered have been reported to one. */
  lemma {:induction false} RunFees(s: State, es: seq<Event>)
    requires Initial(s)
    ensures Reported(Run(s, es).accounts.feeCalls) == FeesIn(s, es) - KeptIn(s, es)
  {
    if es != [] {
      RunFees(s, es[..|es| - 1]);
      StepFees(Run(s, es[..|es| - 1]), es[|es| - 1]);
    }
  }

  // ---- Token conservation ----

  /** No call creates or destroys a token: users, market and treasury together change by outside issuance alone. */
  lemma RunConserves(s: State, es: seq<Event>)
    requires Inv(s)
    ensures var l := Run(s, es).book.ledger;
            SumBy(l.balances, Amount) + l.burned
            == SumBy(s.book.ledger.balances, Amount) + s.book.ledger.burned + IssuedIn(s, es)
  {
    RunKeeps(s, es);
    RunTotals(s, es);
  }

  // ---- Every user's account ----

  function DepositOf(user: Address): (Key, Position) -> int {
    (k: Key, p: Position) => if k.user == user then p.totalDeposited else 0
  }

  /** The protocol-wide collateral balance is the sum of the user's deposits over all markets. */
  ghost predicate Accounted(s: State, user: Address) {
    Get(s.accounts.collateral, user) == SumBy(s.book.positions, DepositOf(user))
  }

  lemma PutDeposit(positions: PositionMap, key: Key, p: Position, user: Address)
    ensures SumBy(positions[key := p], DepositOf(user))
            == SumBy(positions, DepositOf(user))
               + if key.user == user
                 then p.totalDeposited - PositionAt(positions, key.marketId, key.user).totalDeposited else 0
  {
    SumByUpdate(positions, DepositOf(user), key, p);
    assert Key(key.marketId, key.user) == key;
  }

  lemma {:induction false} BatchDeposits(b: Book, market: Market, m: u32, users: seq<Address>, user: Address)
    requires BatchFold(b, market, m, users).Success?
    ensures SumBy(BatchFold(b, market, m, users).value.positions, DepositOf(user))
            == SumBy(b.positions, DepositOf(user))
  {
    if users != [] {
      var init, last := users[..|users| - 1], users[|users| - 1];
      BatchDeposits(b, market, m, init, user);
      var t := BatchFold(b, market, m, init).value;
      PutDeposit(t.positions, Key(m, last), PositionOf(t, m, last).(isSettled := true), user);
    }
  }

  lemma TransferDeposits(s: State, m: u32, from: Address, to: Address, caller: Address, yes: i128, no: i128, price: int,
                         id: u64, user: Address)
    requires TransferShares(s, m, from, to, caller, yes, no, price, id).Success?
    ensures SumBy(TransferShares(s, m, from, to, caller, yes, no, price, id).value.book.positions, DepositOf(user))
            == SumBy(s.book.positions, DepositOf(user))
  {
    var source, dest := PositionOf(s.book, m, from), PositionOf(s.book, m, to);
    var p, q := Relock(AddShares(source, -yes, -no), price), Relock(AddShares(dest, yes, no), price);
    PutDeposit(s.book.positions, Key(m, from), p, user);
    PutDeposit(s.book.positions[Key(m, from) := p], Key(m, to), q, user);
  }

  /** A merge takes the emptied position's deposit from its owner's sum and adds it to the other's. */
  lemma MergeDeposits(s: State, m: u32, owner: Address, primary: Address, other: Address, caller: Address, price: int,
                      id: u64, user: Address)
    requires Merge(s, m, owner, primary, other, caller, price, id).Success?
    ensures var t := Merge(s, m, owner, primary, other, caller, price, id).value;
            var moved := PositionOf(s.book, m, other).totalDeposited;
            SumBy(t.book.positions, DepositOf(user))
            == SumBy(s.book.positions, DepositOf(user))
               + (if user == other then -moved else if user == primary then moved else 0)
  {
    var p, q := PositionOf(s.book, m, primary), PositionOf(s.book, m, other);
    PutDeposit(s.book.positions, Key(m, primary), Combine(p, q, price), user);
    PutDeposit(s.book.positions[Key(m, primary) := Combine(p, q, price)], Key(m, other), Emptied(q), user);
  }

  /** After a merge the accounts still agree if and only if the emptied position held no deposit. */
  lemma MergeAccountsExactly(s: State, m: u32, owner: Address, primary: Address, other: Address, caller: Address,
                             price: int, id: u64)
    requires Merge(s, m, owner, primary, other, caller, price, id).Success?
    requires forall u :: Accounted(s, u)
    ensures (forall u :: Accounted(Merge(s, m, owner, primary, other, caller, price, id).value, u))
            <==> PositionOf(s.book, m, other).totalDeposited == 0
  {
    var t := Merge(s, m, owner, primary, other, caller, price, id).value;
    assert Accounted(s, other);
    MergeDeposits(s, m, owner, primary, other, caller, price, id, other);
    if PositionOf(s.book, m, other).totalDeposited == 0 {
      forall u ensures Accounted(t, u) {
        assert Accounted(s, u);
        MergeDeposits(s, m, owner, primary, other, caller, price, id, u);
      }
    } else {
      assert !Accounted(t, other);
    }
  }

  /** A merge that moves a deposit from one account to another. */
  predicate MovesDeposit(s: State, e: Event) {
    e.op.OpMerge? && Works(s, e) && PositionOf(s.book, e.op.m, e.op.other).totalDeposited != 0
  }

  predicate Settles(op: Op) {
    op.OpSettle? || op.OpBatchSettle? || op.OpSettlePage?
  }

  lemma SettlementAccounts(s: State, e: Event, user: Address)
    requires Accounted(s, user) && Works(s, e) && Settles(e.op)
    ensures Accounted(Next(s, e), user)
  {
    match e.op
    case OpSettle(u, m) =>
      PutDeposit(s.book.positions, Key(m, u), PositionOf(s.book, m, u).(isSettled := true), user);
    case OpBatchSettle(m, users) => BatchDeposits(s.book, s.config.markets[m], m, users, user);
    case OpSettlePage(m, start, limit) =>
      BatchDeposits(s.book, s.config.markets[m], m, PageOf(ParticipantsOf(s.accounts.participants, m), start, limit),
                    user);
  }

  lemma WithdrawAccounts(s: State, now: nat, u: Address, m: u32, amount: i128, user: Address)
    requires Accounted(s, user) && Withdraw(s, now, u, m, amount).Success?
    ensures Accounted(Withdraw(s, now, u, m, amount).value, user)
  {
    var fee := FeeFor(s.config, u, amount).value;
    PutDeposit(s.book.positions, Key(m, u), WithDeposit(PositionOf(s.book, m, u), -(amount + fee)), user);
  }

  lemma DepositAccounted(s: State, now: nat, u: Address, m: u32, amount: i128, user: Address)
    requires Accounted(s, user) && Deposit(s, now, u, m, amount).Success?
    ensures Accounted(Deposit(s, now, u, m, amount).value, user)
  {
    PutDeposit(s.book.positions, Key(m, u), WithDeposit(PositionOf(s.book, m, u), amount), user);
  }

  lemma StepAccounts(s: State, e: Event, user: Address)
    requires Accounted(s, user) && Works(s, e) && !MovesDeposit(s, e)
    ensures Accounted(Next(s, e), user)
  {
    if Settles(e.op) {
      SettlementAccounts(s, e, user);
    } else {
      match e.op
      case OpDeposit(u, m, amount) => DepositAccounted(s, e.now, u, m, amount, user);
      case OpWithdraw(u, m, amount) => WithdrawAccounts(s, e.now, u, m, amount, user);
      case OpTrade(u, m, yes, no, price) =>
        PutDeposit(s.book.positions, Key(m, u), UpdatePosition(PositionOf(s.book, m, u), yes, no, price).value, user);
      case OpTransfer(m, from, to, caller, yes, no, price, id) =>
        TransferDeposits(s, m, from, to, caller, yes, no, price, id, user);
      case OpMerge(m, owner, primary, other, caller, price, id) =>
        MergeDeposits(s, m, owner, primary, other, caller, price, id, user);
      case _ =>
    }
  }

  predicate DepositsStay(s: State, es: seq<Event>) {
    forall i :: 0 <= i < |es| ==> !MovesDeposit(Run(s, es[..i]), es[i])
  }

  /** Over every run that merges no deposit away, each user's collateral balance is the sum of that user's deposits. */
  lemma {:induction false} RunAccounts(s: State, es: seq<Event>, user: Address)
    requires Initial(s) && DepositsStay(s, es)
    ensures Accounted(Run(s, es), user)
  {
    if es == [] {
      SumByZero(s.book.positions, DepositOf(user));
    } else {
      var init, last := es[..|es| - 1], es[|es| - 1];
      forall i | 0 <= i < |init| ensures !MovesDeposit(Run(s, init[..i]), init[i]) {
        assert es[..i] == init[..i];
      }
      RunAccounts(s, init, user);
      if Works(Run(s, init), last) {
        assert es[..|init|] == init;
        StepAccounts(Run(s, init), last, user);
      }
    }
  }

  // ---- Payments ----

  /** In every reachable state, a position has been paid at most once, and once exactly when it is settled. */
  lemma PaidAtMostOnce(s: State, es: seq<Event>, key: Key)
    requires Initial(s)
    ensures var b := Run(s, es).book;
            |PaymentsTo(b, key)| == if PositionOf(b, key.marketId, key.user).isSettled then 1 else 0
  {
    InitialInv(s);
    RunKeeps(s, es);
  }

  lemma {:induction false} BatchSettledForGood(b: Book, market: Market, m: u32, users: seq<Address>, key: Key)
    requires PositionOf(b, key.marketId, key.user).isSettled && BatchFold(b, market, m, users).Success?
    ensures var t := BatchFold(b, market, m, users).value;
            PositionOf(t, key.marketId, key.user).isSettled && PaymentsTo(t, key) == PaymentsTo(b, key)
  {
    if users != [] {
      BatchSettledForGood(b, market, m, users[..|users| - 1], key);
    }
  }

  lemma TransferSettled(s: State, m: u32, from: Address, to: Address, caller: Address, yes: i128, no: i128, price: int,
                        id: u64, key: Key)
    requires PositionOf(s.book, key.marketId, key.user).isSettled
    requires TransferShares(s, m, from, to, caller, yes, no, price, id).Success?
    ensures var b := TransferShares(s, m, from, to, caller, yes, no, price, id).value.book;
            PositionOf(b, key.marketId, key.user).isSettled && PaymentsTo(b, key) == PaymentsTo(s.book, key)
  {
  }

  lemma SettledForGood(s: State, e: Event, key: Key)
    requires PositionOf(s.book, key.marketId, key.user).isSettled && Works(s, e)
    ensures var b := Next(s, e).book;
            PositionOf(b, key.marketId, key.user).isSettled && PaymentsTo(b, key) == PaymentsTo(s.book, key)
  {
    match e.op
    case OpBatchSettle(m, users) => BatchSettledForGood(s.book, s.config.markets[m], m, users, key);
    case OpSettlePage(m, start, limit) =>
      BatchSettledForGood(s.book, s.config.markets[m], m,
                          PageOf(ParticipantsOf(s.accounts.participants, m), start, limit), key);
    case OpTransfer(m, from, to, caller, yes, no, price, id) =>
      TransferSettled(s, m, from, to, caller, yes, no, price, id, key);
    case _ =>
  }

  /** Over any mix of routes and whatever else happens, the one payment to a settled position is the last. */
  lemma {:induction false} NeverPaidAgain(s: State, es: seq<Event>, k: nat, n: nat, key: Key)
    requires k <= n <= |es| && PositionOf(At(s, es, k).book, key.marketId, key.user).isSettled
    ensures var b := At(s, es, n).book;
            PositionOf(b, key.marketId, key.user).isSettled && PaymentsTo(b, key) == PaymentsTo(At(s, es, k).book, key)
    decreases n
  {
    if k < n {
      NeverPaidAgain(s, es, k, n - 1, key);
      AtNext(s, es, n - 1);
      if Succeeded(s, es, n - 1) {
        SettledForGood(At(s, es, n - 1), es[n - 1], key);
      }
    }
  }

  // ---- Whose calls lower a position ----

  predicate Lowers(b: Book, t: Book, key: Key) {
    var p, q := PositionOf(b, key.marketId, key.user), PositionOf(t, key.marketId, key.user);
    q.yesShares < p.yesShares || q.noShares < p.noShares || q.totalDeposited < p.totalDeposited
  }

  /** The call is the position owner's own, or one that an operator approved by the owner makes in the owner's name. */
  predicate Consented(c: Config, op: Op, key: Key) {
    match op
    case OpWithdraw(user, m, _) => Key(m, user) == key
    case OpTrade(user, m, _, _, _) => Key(m, user) == key
    case OpTransfer(m, from, _, caller, _, _, _, _) => Key(m, from) == key && MayAct(c.operators, from, caller)
    case OpMerge(m, owner, _, other, caller, _, _) =>
      Key(m, other) == key && owner == other && MayAct(c.operators, owner, caller)
    case _ => false
  }

  /** A merge that empties a position in the name of somebody who does not own it. */
  predicate EmptiedByAnother(op: Op, key: Key) {
    op.OpMerge? && Key(op.m, op.other) == key && op.owner != op.other
  }

  lemma {:induction false} BatchLowersNothing(b: Book, market: Market, m: u32, users: seq<Address>, key: Key)
    requires BatchFold(b, market, m, users).Success?
    ensures !Lowers(b, BatchFold(b, market, m, users).value, key)
  {
    if users != [] {
      BatchLowersNothing(b, market, m, users[..|users| - 1], key);
    }
  }

  lemma TransferLowers(s: State, e: Event, key: Key)
    requires AllGood(s.book.positions) && e.op.OpTransfer? && Works(s, e) && Lowers(s.book, Next(s, e).book, key)
    ensures Consented(s.config, e.op, key)
  {
    match e.op
    case OpTransfer(m, from, to, caller, yes, no, price, id) =>
      TransferEffect(ShelfOf(s), s.config.operators, m, from, to, caller, yes, no, price, id, key);
      assert Key(key.marketId, key.user) == key;
  }

  lemma MergeLowers(s: State, e: Event, key: Key)
    requires AllGood(s.book.positions) && e.op.OpMerge? && Works(s, e) && Lowers(s.book, Next(s, e).book, key)
    ensures Consented(s.config, e.op, key) || EmptiedByAnother(e.op, key)
  {
    match e.op
    case OpMerge(m, owner, primary, other, caller, price, id) =>
      MergeEffect(ShelfOf(s), s.config.operators, m, owner, primary, other, caller, price, id, key);
      StoredGood(s.book, m, other);
      assert Key(key.marketId, key.user) == key;
  }

  lemma OwnCallLowers(s: State, e: Event, key: Key)
    requires Works(s, e) && Lowers(s.book, Next(s, e).book, key)
    requires !e.op.OpBatchSettle? && !e.op.OpSettlePage? && !e.op.OpTransfer? && !e.op.OpMerge?
    ensures Consented(s.config, e.op, key)
  {
    assert Key(key.marketId, key.user) == key;
  }

  /**
   A user's shares and deposit fall only through the user's own calls or an approved operator's, except for merges: the
   position a merge empties need not belong to the owner who merges.
   */
  lemma LoweredOnlyBy(s: State, e: Event, key: Key)
    requires Inv(s) && Works(s, e) && Lowers(s.book, Next(s, e).book, key)
    ensures Consented(s.config, e.op, key) || EmptiedByAnother(e.op, key)
  {
    match e.op
    case OpBatchSettle(m, users) => BatchLowersNothing(s.book, s.config.markets[m], m, users, key);
    case OpSettlePage(m, start, limit) =>
      BatchLowersNothing(s.book, s.config.markets[m], m,
                         PageOf(ParticipantsOf(s.accounts.participants, m), start, limit), key);
    case OpTransfer(_, _, _, _, _, _, _, _) => TransferLowers(s, e, key);
    case OpMerge(_, _, _, _, _, _, _) => MergeLowers(s, e, key);
    case _ => OwnCallLowers(s, e, key);
  }

  /** Over every run, a position never falls without its owner's consent unless a merge empties it for another owner. */
  lemma {:induction false} FallsOnlyByConsent(s: State, es: seq<Event>, k: nat, n: nat, key: Key)
    requires Initial(s) && k <= n <= |es|
    requires forall i :: k <= i < n && Succeeded(s, es, i) ==>
               !Consented(At(s, es, i).config, es[i].op, key) && !EmptiedByAnother(es[i].op, key)
    ensures !Lowers(At(s, es, k).book, At(s, es, n).book, key)
    decreases n
  {
    if k < n {
      FallsOnlyByConsent(s, es, k, n - 1, key);
      InitialInv(s);
      RunKeeps(s, es[..n - 1]);
      AtNext(s, es, n - 1);
      if Succeeded(s, es, n - 1) && Lowers(At(s, es, n - 1).book, At(s, es, n).book, key) {
        LoweredOnlyBy(At(s, es, n - 1), es[n - 1], key);
      }
    }
  }

  // ---- Ids are used once ----

  /** The id an event spends when it goes through. */
  function RequestOf(op: Op): Option<Request> {
    match op
    case OpTransfer(_, from, _, _, _, _, _, id) => Some(Request(from, id))
    case OpMerge(_, owner, _, _, _, _, id) => Some(Request(owner, id))
    case _ => None
  }

  /** The event mints or burns outcome tokens to repair a mismatch. */
  predicate Repairing(s: State, e: Event) {
    e.op.OpReconcile? && Works(s, e) && !Matched(s.book, e.op.m, e.op.user)
  }

  lemma StepSpends(s: State, e: Event)
    requires Works(s, e)
    ensures s.consumed <= Next(s, e).consumed && s.records.Keys <= Next(s, e).records.Keys
    ensures RequestOf(e.op).Some? ==>
              RequestOf(e.op).value !in s.consumed && RequestOf(e.op).value in Next(s, e).consumed
    ensures Repairing(s, e) ==> e.op.correlation !in s.records && e.op.correlation in Next(s, e).records
  {
  }

  lemma {:induction false} SpentStaySpent(s: State, es: seq<Event>, k: nat, n: nat)
    requires k <= n <= |es|
    ensures At(s, es, k).consumed <= At(s, es, n).consumed
    ensures At(s, es, k).records.Keys <= At(s, es, n).records.Keys
    decreases n
  {
    if k < n {
      SpentStaySpent(s, es, k, n - 1);
      AtNext(s, es, n - 1);
      if Succeeded(s, es, n - 1) {
        StepSpends(At(s, es, n - 1), es[n - 1]);
      }
    }
  }

  /** Over any run, two successful transfers or merges never share an owner and request id, nor two repairs an id. */
  lemma IdsAreUsedOnce(s: State, es: seq<Event>, i: nat, j: nat)
    requires i < j < |es| && Succeeded(s, es, i) && Succeeded(s, es, j)
    ensures RequestOf(es[i].op).Some? ==> RequestOf(es[i].op) != RequestOf(es[j].op)
    ensures Repairing(At(s, es, i), es[i]) && Repairing(At(s, es, j), es[j]) ==>
              es[i].op.correlation != es[j].op.correlation
  {
    AtNext(s, es, i);
    StepSpends(At(s, es, i), es[i]);
    SpentStaySpent(s, es, i + 1, j);
    StepSpends(At(s, es, j), es[j]);
  }
}
