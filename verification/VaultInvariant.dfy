/** What every reachable state of the market contract satisfies: custody of the pool, single payment, proper lists. */
module VaultInvariant {
  import opened Base
  import opened Sums
  import opened TokenLedger
  import opened OutcomeTokens
  import opened MarketTypes
  import opened PositionMath
  import opened Positions
  import opened Settlement
  import opened Reconciliation
  import opened Vault

  // ---- The invariant ----

  function Deposited(k: Key, p: Position): int {
    p.totalDeposited
  }

  function Total(payments: seq<int>): int {
    if payments == [] then 0 else Total(payments[..|payments| - 1]) + payments[|payments| - 1]
  }

  /** What left the contract for a position; a payment to the contract's own address goes nowhere. */
  function PaidAway(holder: Address): (Key, seq<int>) -> int {
    (k: Key, payments: seq<int>) => if k.user == holder then 0 else Total(payments)
  }

  ghost function PaidOut(b: Book): int {
    SumBy(b.payments, PaidAway(b.holder))
  }

  /** The contract's one balance is the sum of all deposits and the surplus, less what settlement has paid. */
  ghost predicate Custody(b: Book, surplus: int) {
    Balance(b.ledger, b.holder) + PaidOut(b) == SumBy(b.positions, Deposited) + surplus
  }

  /** Settled positions have been paid exactly once, all others never. */
  ghost predicate PaidOnce(b: Book) {
    forall k :: && |PaymentsTo(b, k)| == (if PositionOf(b, k.marketId, k.user).isSettled then 1 else 0)
                && forall i :: 0 <= i < |PaymentsTo(b, k)| ==> PaymentsTo(b, k)[i] >= 0
  }

  ghost predicate OutcomesGood(o: Option<Outcomes>) {
    o.Some? ==> Backed(o.value) && forall m, kind :: TotalSupply(o.value, m, kind) <= I128_MAX
  }

  ghost predicate BookInv(b: Book, surplus: int) {
    Sound(b.ledger) && AllGood(b.positions) && Custody(b, surplus) && PaidOnce(b) && OutcomesGood(b.outcomes)
  }

  predicate Distinct(list: seq<Address>) {
    forall i, j :: 0 <= i < j < |list| ==> list[i] != list[j]
  }

  /** Participant lists name nobody twice, everyone who ever deposited, and never the contract itself. */
  ghost predicate Listed(holder: Address, a: Accounts) {
    && (forall m :: Distinct(ParticipantsOf(a.participants, m)))
    && (forall k :: k in a.lastDeposit ==> k.user in ParticipantsOf(a.participants, k.marketId))
    && (forall m :: holder !in ParticipantsOf(a.participants, m))
  }

  ghost predicate NoDebts(collateral: map<Address, int>) {
    forall a :: Get(collateral, a) >= 0
  }

  ghost predicate Inv(s: State) {
    && BookInv(s.book, s.accounts.surplus)
    && s.accounts.surplus >= 0 && !s.accounts.depositLocked
    && NoDebts(s.accounts.collateral)
    && Listed(s.book.holder, s.accounts)
  }

  lemma InitialInv(s: State)
    requires Initial(s)
    ensures Inv(s)
  {
  }

  // ---- Writing one position ----

  function Put(b: Book, key: Key, p: Position, l: Ledger): Book {
    b.(positions := b.positions[key := p], ledger := l)
  }

  /** A position may change if the contract's balance follows its deposit, up to the surplus. */
  lemma PutKeeps(b: Book, surplus: int, key: Key, p: Position, l: Ledger, surplus': int)
    requires BookInv(b, surplus) && Sound(l) && Good(p)
    requires p.isSettled == PositionOf(b, key.marketId, key.user).isSettled
    requires Balance(l, b.holder) - Balance(b.ledger, b.holder)
             == p.totalDeposited - PositionOf(b, key.marketId, key.user).totalDeposited + surplus' - surplus
    ensures BookInv(Put(b, key, p, l), surplus')
  {
    SumByUpdate(b.positions, Deposited, key, p);
    assert Key(key.marketId, key.user) == key;
    PutPaidOnce(b, key, p, l);
  }

  lemma PutPaidOnce(b: Book, key: Key, p: Position, l: Ledger)
    requires PaidOnce(b) && p.isSettled == PositionOf(b, key.marketId, key.user).isSettled
    ensures PaidOnce(Put(b, key, p, l))
  {
  }

  lemma StoredGood(b: Book, m: u32, user: Address)
    requires AllGood(b.positions)
    ensures Good(PositionOf(b, m, user))
  {
  }

  // ---- Participants ----

  lemma EnlistKeeps(holder: Address, a: Accounts, m: u32, user: Address)
    requires Listed(holder, a) && user != holder
    ensures Listed(holder, a.(participants := Enlist(a.participants, m, user)))
    ensures user in ParticipantsOf(Enlist(a.participants, m, user), m)
  {
    var participants := Enlist(a.participants, m, user);
    forall n ensures Distinct(ParticipantsOf(participants, n)) && holder !in ParticipantsOf(participants, n) {
      assert Distinct(ParticipantsOf(a.participants, n)) && holder !in ParticipantsOf(a.participants, n);
    }
  }

  // ---- Deposits and withdrawals ----

  lemma CreditKeepsNoDebts(collateral: map<Address, int>, user: Address, balance: nat)
    requires NoDebts(collateral)
    ensures NoDebts(collateral[user := balance])
  {
    var credited := collateral[user := balance];
    forall a ensures Get(credited, a) >= 0 {
      assert Get(collateral, a) >= 0;
    }
  }

  lemma DepositAccountsKeep(holder: Address, a: Accounts, now: nat, user: Address, m: u32, amount: nat)
    requires Listed(holder, a) && NoDebts(a.collateral) && user != holder
    ensures Listed(holder, DepositAccounts(a, now, user, m, amount))
    ensures NoDebts(DepositAccounts(a, now, user, m, amount).collateral)
  {
    assert Get(a.collateral, user) >= 0;
    CreditKeepsNoDebts(a.collateral, user, Get(a.collateral, user) + amount);
    EnlistKeeps(holder, a, m, user);
  }

  lemma DepositForm(s: State, now: nat, user: Address, m: u32, amount: i128)
    requires Deposit(s, now, user, m, amount).Success?
    ensures user != s.book.holder && amount > 0 && Transfer(s.book.ledger, user, s.book.holder, amount).Some?
    ensures Deposit(s, now, user, m, amount).value
            == s.(book := Put(s.book, Key(m, user), WithDeposit(PositionOf(s.book, m, user), amount),
                              Transfer(s.book.ledger, user, s.book.holder, amount).value),
                  accounts := DepositAccounts(s.accounts, now, user, m, amount))
  {
  }

  lemma DepositKeeps(s: State, now: nat, user: Address, m: u32, amount: i128)
    requires Inv(s) && Deposit(s, now, user, m, amount).Success?
    ensures Inv(Deposit(s, now, user, m, amount).value)
  {
    DepositForm(s, now, user, m, amount);
    var b, l := s.book, Transfer(s.book.ledger, user, s.book.holder, amount).value;
    TransferKeepsSound(b.ledger, user, b.holder, amount);
    StoredGood(b, m, user);
    PutKeeps(b, s.accounts.surplus, Key(m, user), WithDeposit(PositionOf(b, m, user), amount), l, s.accounts.surplus);
    DepositAccountsKeep(b.holder, s.accounts, now, user, m, amount);
  }

  /** What paying a withdrawal does to the contract's balance. */
  lemma PayWithdrawalEffect(l: Ledger, holder: Address, treasury: Option<Address>, user: Address, fee: int, amount: int)
    requires Sound(l) && user != holder && fee >= 0
    requires PayWithdrawal(l, holder, treasury, user, fee, amount).Some?
    ensures var t := PayWithdrawal(l, holder, treasury, user, fee, amount).value;
            && Sound(t) && t.issued == l.issued && t.burned == l.burned
            && Balance(t, holder) == Balance(l, holder) - (amount + fee) + Retained(holder, treasury, fee)
  {
    if fee > 0 && treasury.Some? {
      TransferKeepsSound(l, holder, treasury.value, fee);
      TransferKeepsSound(Transfer(l, holder, treasury.value, fee).value, holder, user, amount);
    } else {
      TransferKeepsSound(l, holder, user, amount);
    }
  }

  lemma FeeNonnegative(c: Config, user: Address, amount: int)
    requires amount > 0 && FeeFor(c, user, amount).Success?
    ensures 0 <= FeeFor(c, user, amount).value <= amount
  {
    if c.feeRate != 0 && user !in c.waived {
      FeeBounds(amount, c.feeRate);
    }
  }

  lemma WithdrawNetKeeps(s: State, user: Address, m: u32, amount: int, fee: int)
    requires Inv(s) && user != s.book.holder && amount > 0 && fee >= 0
    requires WithdrawNet(s, user, m, amount, fee).Success?
    ensures Inv(WithdrawNet(s, user, m, amount, fee).value)
  {
    var b, t := s.book, WithdrawNet(s, user, m, amount, fee).value;
    CreditKeepsNoDebts(s.accounts.collateral, user, Get(s.accounts.collateral, user) - (amount + fee));
    PayWithdrawalEffect(b.ledger, b.holder, s.config.treasury, user, fee, amount);
    StoredGood(b, m, user);
    PutKeeps(b, s.accounts.surplus, Key(m, user), WithDeposit(PositionOf(b, m, user), -(amount + fee)),
             t.book.ledger, t.accounts.surplus);
    SameLists(s.book.holder, s.accounts, t.accounts);
  }

  lemma SameLists(holder: Address, a: Accounts, t: Accounts)
    requires Listed(holder, a) && t.participants == a.participants && t.lastDeposit == a.lastDeposit
    ensures Listed(holder, t)
  {
  }

  lemma WithdrawKeeps(s: State, now: nat, user: Address, m: u32, amount: i128)
    requires Inv(s) && Withdraw(s, now, user, m, amount).Success?
    ensures Inv(Withdraw(s, now, user, m, amount).value)
  {
    FeeNonnegative(s.config, user, amount);
    WithdrawNetKeeps(s, user, m, amount, FeeFor(s.config, user, amount).value);
  }

  lemma TradeKeeps(s: State, user: Address, m: u32, yes: i128, no: i128, price: int)
    requires Inv(s) && Trade(s, user, m, yes, no, price).Success?
    ensures Inv(Trade(s, user, m, yes, no, price).value)
  {
    var p := PositionOf(s.book, m, user);
    StoredGood(s.book, m, user);
    LockBounds(p.yesShares + yes, p.noShares + no, price);
    PutKeeps(s.book, s.accounts.surplus, Key(m, user), UpdatePosition(p, yes, no, price).value, s.book.ledger,
             s.accounts.surplus);
    EnlistKeeps(s.book.holder, s.accounts, m, user);
  }

  // ---- Settlement ----

  lemma TotalAppend(payments: seq<int>, x: int)
    ensures Total(payments + [x]) == Total(payments) + x
  {
    assert (payments + [x])[..|payments|] == payments;
  }

  lemma ApplyPaidOut(b: Book, market: Market, m: u32, user: Address)
    ensures PaidOut(Apply(b, market, m, user))
            == PaidOut(b) + if user == b.holder then 0 else Payout(PositionOf(b, m, user), market)
  {
    var key, payout := Key(m, user), Payout(PositionOf(b, m, user), market);
    SumByUpdate(b.payments, PaidAway(b.holder), key, PaymentsTo(b, key) + [payout]);
    TotalAppend(PaymentsTo(b, key), payout);
  }

  lemma ApplyDeposits(b: Book, market: Market, m: u32, user: Address)
    requires Key(m, user) in b.positions
    ensures SumBy(Apply(b, market, m, user).positions, Deposited) == SumBy(b.positions, Deposited)
  {
    SumByUpdate(b.positions, Deposited, Key(m, user), PositionOf(b, m, user).(isSettled := true));
  }

  lemma PayOutBalance(l: Ledger, holder: Address, user: Address, payout: int)
    requires payout >= 0
    ensures Balance(PayOut(l, holder, user, payout), holder)
            == Balance(l, holder) - if user == holder then 0 else payout
  {
  }

  lemma ApplyCustody(b: Book, surplus: int, market: Market, m: u32, user: Address)
    requires Custody(b, surplus) && Eligible(b, market, m, user)
    ensures Custody(Apply(b, market, m, user), surplus)
  {
    ApplyPaidOut(b, market, m, user);
    ApplyDeposits(b, market, m, user);
    PayOutBalance(b.ledger, b.holder, user, Payout(PositionOf(b, m, user), market));
  }

  lemma ApplyPaidOnce(b: Book, market: Market, m: u32, user: Address)
    requires PaidOnce(b) && Eligible(b, market, m, user)
    ensures PaidOnce(Apply(b, market, m, user))
  {
  }

  lemma ApplyOutcomes(b: Book, market: Market, m: u32, user: Address)
    requires OutcomesGood(b.outcomes) && Eligible(b, market, m, user)
    ensures OutcomesGood(Apply(b, market, m, user).outcomes)
  {
    if b.outcomes.Some? {
      SettleRetiresShares(b, market, m, user);
      var o, t := b.outcomes.value, Apply(b, market, m, user).outcomes.value;
      forall n, kind ensures TotalSupply(t, n, kind) <= I128_MAX {
        assert TotalSupply(o, n, kind) <= I128_MAX;
      }
    }
  }

  lemma PayOutSound(l: Ledger, holder: Address, user: Address, payout: int)
    requires Sound(l) && payout <= Balance(l, holder)
    ensures Sound(PayOut(l, holder, user, payout))
    ensures PayOut(l, holder, user, payout).issued == l.issued
  {
    if payout > 0 {
      TransferKeepsSound(l, holder, user, payout);
    }
  }

  lemma ApplyKeeps(b: Book, surplus: int, market: Market, m: u32, user: Address)
    requires BookInv(b, surplus) && Eligible(b, market, m, user) && Payable(b, market, m, user)
    ensures BookInv(Apply(b, market, m, user), surplus)
    ensures Apply(b, market, m, user).ledger.issued == b.ledger.issued
  {
    ApplyCustody(b, surplus, market, m, user);
    ApplyPaidOnce(b, market, m, user);
    ApplyOutcomes(b, market, m, user);
    PayOutSound(b.ledger, b.holder, user, Payout(PositionOf(b, m, user), market));
  }

  lemma {:induction false} BatchKeeps(b: Book, surplus: int, market: Market, m: u32, users: seq<Address>)
    requires BookInv(b, surplus) && BatchFold(b, market, m, users).Success?
    ensures BookInv(BatchFold(b, market, m, users).value, surplus)
    ensures BatchFold(b, market, m, users).value.ledger.issued == b.ledger.issued
    ensures BatchFold(b, market, m, users).value.holder == b.holder
  {
    if users != [] {
      var init, last := users[..|users| - 1], users[|users| - 1];
      BatchKeeps(b, surplus, market, m, init);
      var t := BatchFold(b, market, m, init).value;
      if Eligible(t, market, m, last) {
        ApplyKeeps(t, surplus, market, m, last);
      }
    }
  }

  // ---- Transfers and merges ----

  /** Two positions are written back; what their deposits together lose becomes surplus. */
  lemma PutBothKeeps(b: Book, surplus: int, request: Request, consumed: set<Request>, i: Key, p: Position, j: Key,
                     q: Position)
    requires BookInv(b, surplus) && Good(p) && Good(q) && !p.isSettled && !q.isSettled
    requires !PositionOf(b, i.marketId, i.user).isSettled && !PositionOf(b, j.marketId, j.user).isSettled
    ensures var before := PositionOf(b, i.marketId, i.user).totalDeposited
                          + (if i == j then p.totalDeposited else PositionOf(b, j.marketId, j.user).totalDeposited);
            BookInv(b.(positions := WriteBoth(Shelf(b.positions, consumed), request, i, p, j, q).positions),
                    surplus + before - p.totalDeposited - q.totalDeposited)
  {
    var between := surplus + PositionOf(b, i.marketId, i.user).totalDeposited - p.totalDeposited;
    PutKeeps(b, surplus, i, p, b.ledger, between);
    var t := Put(b, i, p, b.ledger);
    assert Key(i.marketId, i.user) == i && Key(j.marketId, j.user) == j;
    PutKeeps(t, between, j, q, b.ledger, between + PositionOf(t, j.marketId, j.user).totalDeposited - q.totalDeposited);
    assert Put(t, j, q, b.ledger).positions == b.positions[i := p][j := q];
  }

  lemma TransferSharesKeeps(s: State, m: u32, from: Address, to: Address, caller: Address, yes: i128, no: i128,
                            price: int, id: u64)
    requires Inv(s) && TransferShares(s, m, from, to, caller, yes, no, price, id).Success?
    ensures Inv(TransferShares(s, m, from, to, caller, yes, no, price, id).value)
  {
    var source, dest := PositionOf(s.book, m, from), PositionOf(s.book, m, to);
    StoredGood(s.book, m, from);
    StoredGood(s.book, m, to);
    LockBounds(source.yesShares - yes, source.noShares - no, price);
    LockBounds(dest.yesShares + yes, dest.noShares + no, price);
    PutBothKeeps(s.book, s.accounts.surplus, Request(from, id), s.consumed,
                 Key(m, from), Relock(AddShares(source, -yes, -no), price),
                 Key(m, to), Relock(AddShares(dest, yes, no), price));
  }

  lemma MergeKeeps(s: State, m: u32, owner: Address, primary: Address, other: Address, caller: Address, price: int,
                   id: u64)
    requires Inv(s) && Merge(s, m, owner, primary, other, caller, price, id).Success?
    ensures Inv(Merge(s, m, owner, primary, other, caller, price, id).value)
  {
    var p, q := PositionOf(s.book, m, primary), PositionOf(s.book, m, other);
    StoredGood(s.book, m, primary);
    StoredGood(s.book, m, other);
    LockBounds(p.yesShares + q.yesShares, p.noShares + q.noShares, price);
    PutBothKeeps(s.book, s.accounts.surplus, Request(owner, id), s.consumed,
                 Key(m, primary), Combine(p, q, price), Key(m, other), Emptied(q));
    SameLists(s.book.holder, s.accounts, Merge(s, m, owner, primary, other, caller, price, id).value.accounts);
  }

  // ---- Outcome tokens and outside traffic ----

  lemma OutcomesKeep(b: Book, surplus: int, o: Outcomes)
    requires BookInv(b, surplus) && OutcomesGood(Some(o))
    ensures BookInv(b.(outcomes := Some(o)), surplus)
  {
  }

  lemma LedgerKeeps(b: Book, surplus: int, l: Ledger, surplus': int)
    requires BookInv(b, surplus) && Sound(l)
    requires Balance(l, b.holder) - Balance(b.ledger, b.holder) == surplus' - surplus
    ensures BookInv(b.(ledger := l), surplus')
  {
  }

  lemma AdjustKeepsGood(o: Outcomes, m: u32, user: Address, kind: TokenKind, delta: int)
    requires OutcomesGood(Some(o)) && BalanceOf(o, m, user, kind) + delta >= 0
    requires TotalSupply(o, m, kind) + delta <= I128_MAX
    ensures OutcomesGood(Some(Adjust(o, m, user, kind, delta)))
  {
    AdjustKeepsBacked(o, m, user, kind, delta);
    forall n, k ensures TotalSupply(Adjust(o, m, user, kind, delta), n, k) <= I128_MAX {
      AdjustFrame(o, m, user, kind, delta, n, user, k);
    }
  }

  lemma MintBurnGood(o: Outcomes, m: u32, user: Address, kind: TokenKind, amount: int)
    requires OutcomesGood(Some(o))
    ensures OutcomeTokens.Mint(o, m, user, kind, amount).Some? ==>
              OutcomesGood(OutcomeTokens.Mint(o, m, user, kind, amount))
    ensures OutcomeTokens.Burn(o, m, user, kind, amount).Some? ==>
              OutcomesGood(OutcomeTokens.Burn(o, m, user, kind, amount))
  {
    BalanceWithinSupply(o, m, user, kind);
    if OutcomeTokens.Mint(o, m, user, kind, amount).Some? {
      AdjustKeepsGood(o, m, user, kind, amount);
    }
    if OutcomeTokens.Burn(o, m, user, kind, amount).Some? {
      AdjustKeepsGood(o, m, user, kind, -amount);
    }
  }

  lemma RepairSideGood(o: Outcomes, m: u32, user: Address, kind: TokenKind, shares: int)
    requires OutcomesGood(Some(o)) && RepairSide(o, m, user, kind, shares).Some?
    ensures OutcomesGood(RepairSide(o, m, user, kind, shares))
  {
    var delta := shares - BalanceOf(o, m, user, kind);
    MintBurnGood(o, m, user, kind, delta);
    MintBurnGood(o, m, user, kind, -delta);
  }

  lemma RepairKeeps(s: State, m: u32, user: Address, id: CorrelationId)
    requires Inv(s) && Repair(s, m, user, id).Success?
    ensures Inv(Repair(s, m, user, id).value)
  {
    if !Matched(s.book, m, user) {
      var o, p := s.book.outcomes.value, PositionOf(s.book, m, user);
      RepairSideGood(o, m, user, Yes, p.yesShares);
      RepairSideGood(RepairSide(o, m, user, Yes, p.yesShares).value, m, user, No, p.noShares);
      OutcomesKeep(s.book, s.accounts.surplus, RepairBoth(o, m, user, p).value);
    }
  }

  lemma OutsideTransferKeeps(s: State, now: nat, from: Address, to: Address, amount: i128)
    requires Inv(s) && Step(s, now, OpOutsideTransfer(from, to, amount)).Success?
    ensures Inv(Step(s, now, OpOutsideTransfer(from, to, amount)).value)
  {
    var t := Step(s, now, OpOutsideTransfer(from, to, amount)).value;
    TransferKeepsSound(s.book.ledger, from, to, amount);
    LedgerKeeps(s.book, s.accounts.surplus, t.book.ledger, t.accounts.surplus);
    SameLists(s.book.holder, s.accounts, t.accounts);
  }

  lemma OutsideMintKeeps(s: State, now: nat, to: Address, amount: i128)
    requires Inv(s) && Step(s, now, OpOutsideMint(to, amount)).Success?
    ensures Inv(Step(s, now, OpOutsideMint(to, amount)).value)
  {
    var t := Step(s, now, OpOutsideMint(to, amount)).value;
    MintKeepsSound(s.book.ledger, to, amount);
    LedgerKeeps(s.book, s.accounts.surplus, t.book.ledger, t.accounts.surplus);
    SameLists(s.book.holder, s.accounts, t.accounts);
  }

  lemma OutcomeTrafficKeeps(s: State, now: nat, op: Op)
    requires Inv(s) && (op.OpOutcomeMint? || op.OpOutcomeBurn?) && Step(s, now, op).Success?
    ensures Inv(Step(s, now, op).value)
  {
    var o := s.book.outcomes.value;
    MintBurnGood(o, op.m, op.user, op.kind, op.amount);
    OutcomesKeep(s.book, s.accounts.surplus, Step(s, now, op).value.book.outcomes.value);
  }

  /** Every call keeps the invariant. */
  lemma StepKeeps(s: State, now: nat, op: Op)
    requires Inv(s) && Step(s, now, op).Success?
    ensures Inv(Step(s, now, op).value)
  {
    match op
    case OpDeposit(user, m, amount) => DepositKeeps(s, now, user, m, amount);
    case OpWithdraw(user, m, amount) => WithdrawKeeps(s, now, user, m, amount);
    case OpTrade(user, m, yes, no, price) => TradeKeeps(s, user, m, yes, no, price);
    case OpSettle(user, m) => ApplyKeeps(s.book, s.accounts.surplus, s.config.markets[m], m, user);
    case OpBatchSettle(m, users) => BatchKeeps(s.book, s.accounts.surplus, s.config.markets[m], m, users);
    case OpSettlePage(m, start, limit) =>
      BatchKeeps(s.book, s.accounts.surplus, s.config.markets[m], m,
                 PageOf(ParticipantsOf(s.accounts.participants, m), start, limit));
    case OpTransfer(m, from, to, caller, yes, no, price, id) =>
      TransferSharesKeeps(s, m, from, to, caller, yes, no, price, id);
    case OpMerge(m, owner, primary, other, caller, price, id) =>
      MergeKeeps(s, m, owner, primary, other, caller, price, id);
    case OpReconcile(m, user, id) => RepairKeeps(s, m, user, id);
    case OpConfigure(_) =>
    case OpOutsideTransfer(from, to, amount) => OutsideTransferKeeps(s, now, from, to, amount);
    case OpOutsideMint(to, amount) => OutsideMintKeeps(s, now, to, amount);
    case _ => OutcomeTrafficKeeps(s, now, op);
  }

  lemma NextKeeps(s: State, e: Event)
    requires Inv(s)
    ensures Inv(Next(s, e))
  {
    if Works(s, e) {
      StepKeeps(s, e.now, e.op);
    }
  }

  /** Every run keeps the invariant. */
  lemma {:induction false} RunKeeps(s: State, es: seq<Event>)
    requires Inv(s)
    ensures Inv(Run(s, es))
  {
    if es != [] {
      RunKeeps(s, es[..|es| - 1]);
      NextKeeps(Run(s, es[..|es| - 1]), es[|es| - 1]);
    }
  }
}
