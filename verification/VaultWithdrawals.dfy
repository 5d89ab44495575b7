/** Deposits and withdrawals: exactly when a withdrawal succeeds, what it does, and which amounts are accepted. */
module VaultWithdrawals {
  import opened Base
  import opened Sums
  import opened TokenLedger
  import opened MarketTypes
  import opened PositionMath
  import opened Settlement
  import opened Vault
  import opened VaultInvariant
  import opened VaultRuns

  // ---- When a withdrawal succeeds ----

  /** The deposit of one position is covered by its owner's account and by all deposits together. */
  lemma DepositCovered(s: State, m: u32, user: Address)
    requires Inv(s)
    ensures 0 <= PositionOf(s.book, m, user).totalDeposited <= SumBy(s.book.positions, Deposited)
    ensures PositionOf(s.book, m, user).totalDeposited <= SumBy(s.book.positions, DepositOf(user))
  {
    SumByAtLeast(s.book.positions, Deposited, Key(m, user));
    SumByAtLeast(s.book.positions, DepositOf(user), Key(m, user));
  }

  /**
   The fee of a withdrawal: nothing for a user on the waiver list or at rate 0, otherwise the rate's share of the
   amount in basis points, rounded down.
   */
  predicate FeeIs(c: Config, user: Address, amount: int, fee: int) {
    && 0 <= c.feeRate <= 10_000
    && (if c.feeRate == 0 || user in c.waived then fee == 0
        else 0 < amount && amount * c.feeRate <= I128_MAX && 0 <= amount * c.feeRate - fee * 10_000 < 10_000)
  }

  /** The fee charged is that one, and without one there is no withdrawal. */
  lemma FeeCharged(c: Config, user: Address, amount: int, fee: int)
    ensures FeeFor(c, user, amount) == Success(fee) <==> FeeIs(c, user, amount, fee)
  {
    FeeBounds(amount, c.feeRate);
  }

  /** The contract can pay the fee, and then the amount out of what it has left. */
  predicate PoolCovers(s: State, fee: int, amount: int) {
    var held := Balance(s.book.ledger, s.book.holder);
    match s.config.treasury
    case None => amount <= held
    case Some(treasury) => fee <= held && (if treasury == s.book.holder then amount else amount + fee) <= held
  }

  /** The guards on the position: enough of its deposit is neither locked nor needed for the fee. */
  predicate PositionCovers(s: State, m: u32, user: Address, fee: int, amount: int) {
    var p := PositionOf(s.book, m, user);
    amount + fee <= p.totalDeposited - p.lockedCollateral && amount + fee <= I128_MAX
  }

  /** The user's account bears the amount and the fee. */
  predicate AccountCovers(s: State, user: Address, fee: int, amount: int) {
    amount + fee <= Get(s.accounts.collateral, user)
  }

  /** What is asked of a withdrawal before anybody is charged. */
  predicate Withdrawable(s: State, now: nat, user: Address, m: u32, amount: int) {
    && user != s.book.holder && s.config.mode != GlobalFreeze
    && 0 < amount <= I128_MAX / 2
    && m in s.config.markets && s.config.markets[m].status == Active
    && (Key(m, user) in s.accounts.lastDeposit ==> s.accounts.lastDeposit[Key(m, user)] + 3_600 <= now)
    && PositionAt(s.book.positions, m, user).totalDeposited != 0
  }

  /** A withdrawal succeeds exactly when its guards hold, the user's account bears it, and the contract can pay. */
  lemma WithdrawExactly(s: State, now: nat, user: Address, m: u32, amount: i128)
    requires Inv(s)
    ensures Withdraw(s, now, user, m, amount).Success?
            <==> && Withdrawable(s, now, user, m, amount)
                 && exists fee :: && FeeIs(s.config, user, amount, fee)
                                  && PositionCovers(s, m, user, fee, amount)
                                  && AccountCovers(s, user, fee, amount)
                                  && PoolCovers(s, fee, amount)
  {
    assert Withdrawable(s, now, user, m, amount) <==> WithdrawRefusal(s, now, user, m, amount) == None;
    if fee :| FeeIs(s.config, user, amount, fee) && Withdrawable(s, now, user, m, amount) {
      FeeCharged(s.config, user, amount, fee);
      forall f | FeeIs(s.config, user, amount, f) ensures f == fee {
        FeeCharged(s.config, user, amount, f);
      }
      NetExactly(s, user, m, amount, fee);
    } else if FeeFor(s.config, user, amount).Success? {
      FeeCharged(s.config, user, amount, FeeFor(s.config, user, amount).value);
    }
  }

  lemma NetExactly(s: State, user: Address, m: u32, amount: i128, fee: int)
    requires Inv(s) && user != s.book.holder && 0 < amount && FeeIs(s.config, user, amount, fee)
    ensures WithdrawNet(s, user, m, amount, fee).Success?
            <==> PositionCovers(s, m, user, fee, amount) && AccountCovers(s, user, fee, amount)
                 && PoolCovers(s, fee, amount)
  {
    FeeCharged(s.config, user, amount, fee);
    FeeNonnegative(s.config, user, amount);
    StoredGood(s.book, m, user);
  }

  /** An account that is the sum of its user's deposits bears every withdrawal its positions cover. */
  lemma AccountCoversWhenRight(s: State, user: Address, m: u32, fee: int, amount: int)
    requires Inv(s) && Accounted(s, user) && PositionCovers(s, m, user, fee, amount)
    ensures AccountCovers(s, user, fee, amount)
  {
    StoredGood(s.book, m, user);
    DepositCovered(s, m, user);
  }

  /** The contract covers every deposit still owed if and only if settlement has paid out no more than the surplus. */
  lemma DepositsAreCoveredExactly(s: State)
    requires Inv(s)
    ensures Balance(s.book.ledger, s.book.holder) >= SumBy(s.book.positions, Deposited)
            <==> PaidOut(s.book) <= s.accounts.surplus
  {
  }

  /** As long as it does, it can always pay. */
  lemma PoolCoversUntilPaidOut(s: State, user: Address, m: u32, fee: int, amount: int)
    requires Inv(s) && PaidOut(s.book) <= s.accounts.surplus && 0 <= fee <= amount
    requires PositionCovers(s, m, user, fee, amount)
    ensures PoolCovers(s, fee, amount)
  {
    StoredGood(s.book, m, user);
    DepositCovered(s, m, user);
  }

  // ---- What deposits and withdrawals do ----

  /** What the treasury and the user receive. */
  lemma PayWithdrawalGain(l: Ledger, holder: Address, treasury: Option<Address>, user: Address, fee: int, amount: int,
                          a: Address)
    requires PayWithdrawal(l, holder, treasury, user, fee, amount).Some? && a != holder && fee >= 0
    ensures var t := PayWithdrawal(l, holder, treasury, user, fee, amount).value;
            Balance(t, a) == Balance(l, a) + Credit(a, user, amount)
                             + (if treasury.Some? then Credit(a, treasury.value, fee) else 0)
  {
  }

  /**
   A withdrawal pays the user exactly the amount asked for; the fee comes on top and goes to the treasury, which is told
   of it. The position and the account go down by both, the lock stays covered, and the withdrawn position had no
   running cooldown.
   */
  lemma WithdrawEffect(s: State, now: nat, user: Address, m: u32, amount: i128, a: Address) returns (fee: int)
    requires Inv(s) && Withdraw(s, now, user, m, amount).Success? && a != s.book.holder
    ensures FeeIs(s.config, user, amount, fee) && 0 <= fee <= amount
    ensures var t := Withdraw(s, now, user, m, amount).value;
            var p, q := PositionAt(s.book.positions, m, user), PositionAt(t.book.positions, m, user);
            && Balance(t.book.ledger, a)
               == Balance(s.book.ledger, a) + (if a == user then amount else 0)
                  + (if s.config.treasury == Some(a) then fee else 0)
            && q == p.(totalDeposited := p.totalDeposited - amount - fee)
            && Get(t.accounts.collateral, user) == Get(s.accounts.collateral, user) - amount - fee >= 0
            && 0 <= q.lockedCollateral <= q.totalDeposited
            && t.accounts.feeCalls
               == s.accounts.feeCalls
                  + (if fee > 0 && s.config.treasury.Some? then [FeeCall(s.config.treasury.value, m, fee)] else [])
            && (Key(m, user) in s.accounts.lastDeposit ==> s.accounts.lastDeposit[Key(m, user)] + 3_600 <= now)
  {
    fee := FeeFor(s.config, user, amount).value;
    FeeCharged(s.config, user, amount, fee);
    FeeNonnegative(s.config, user, amount);
    StoredGood(s.book, m, user);
    PayWithdrawalGain(s.book.ledger, s.book.holder, s.config.treasury, user, fee, amount, a);
  }

  /** Deposits never touch a lock, so one that was covered stays covered. */
  lemma DepositEffect(s: State, now: nat, user: Address, m: u32, amount: i128, a: Address)
    requires Deposit(s, now, user, m, amount).Success?
    ensures var t := Deposit(s, now, user, m, amount).value;
            && Balance(t.book.ledger, a)
               == Balance(s.book.ledger, a) - Credit(a, user, amount) + Credit(a, s.book.holder, amount)
            && PositionOf(t.book, m, user)
               == PositionOf(s.book, m, user).(totalDeposited := PositionOf(s.book, m, user).totalDeposited + amount)
            && Get(t.accounts.collateral, user) == Get(s.accounts.collateral, user) + amount
            && user in ParticipantsOf(t.accounts.participants, m)
            && CoolingDown(t.accounts, now, Key(m, user))
            && !t.accounts.depositLocked
  {
  }

  /** A deposit leaves everything a withdrawal of it will ask for, once the cooldown is over. */
  lemma DepositIsWithdrawable(s: State, now: nat, later: nat, user: Address, m: u32, amount: i128)
    requires Inv(s) && Deposit(s, now, user, m, amount).Success? && now + WITHDRAW_COOLDOWN_SECONDS <= later
    ensures WithdrawRefusal(Deposit(s, now, user, m, amount).value, later, user, m, amount) == None
  {
    StoredGood(s.book, m, user);
  }

  /** The position, the account and the contract have what was deposited. */
  lemma DepositCoversItself(s: State, now: nat, user: Address, m: u32, amount: i128)
    requires Inv(s) && Deposit(s, now, user, m, amount).Success?
    requires PositionOf(s.book, m, user).lockedCollateral <= PositionOf(s.book, m, user).totalDeposited
    ensures PositionCovers(Deposit(s, now, user, m, amount).value, m, user, 0, amount)
    ensures AccountCovers(Deposit(s, now, user, m, amount).value, user, 0, amount)
    ensures PoolCovers(Deposit(s, now, user, m, amount).value, 0, amount)
  {
    DepositEffect(s, now, user, m, amount, s.book.holder);
    BalanceWithinIssued(s.book.ledger, s.book.holder);
    assert Get(s.accounts.collateral, user) >= 0;
  }

  lemma RefundSucceeds(s: State, now: nat, later: nat, user: Address, m: u32, amount: i128)
    requires Inv(s)
    requires Deposit(s, now, user, m, amount).Success? && now + WITHDRAW_COOLDOWN_SECONDS <= later
    requires FeeFor(s.config, user, amount) == Success(0)
    requires PositionOf(s.book, m, user).lockedCollateral <= PositionOf(s.book, m, user).totalDeposited
    ensures Withdraw(Deposit(s, now, user, m, amount).value, later, user, m, amount).Success?
  {
    var t := Deposit(s, now, user, m, amount).value;
    DepositKeeps(s, now, user, m, amount);
    DepositIsWithdrawable(s, now, later, user, m, amount);
    DepositConfig(s, now, user, m, amount);
    DepositCoversItself(s, now, user, m, amount);
    WithdrawExactly(t, later, user, m, amount);
  }

  /** A free withdrawal of what was deposited, an hour later, restores every balance, the position and the account. */
  lemma WithdrawUndoesDeposit(s: State, now: nat, later: nat, user: Address, m: u32, amount: i128, a: Address)
    requires Inv(s)
    requires Deposit(s, now, user, m, amount).Success? && now + WITHDRAW_COOLDOWN_SECONDS <= later
    requires FeeFor(s.config, user, amount) == Success(0)
    requires PositionOf(s.book, m, user).lockedCollateral <= PositionOf(s.book, m, user).totalDeposited
    ensures var t := Deposit(s, now, user, m, amount).value;
            var u := Withdraw(t, later, user, m, amount);
            && u.Success?
            && PositionOf(u.value.book, m, user) == PositionOf(s.book, m, user)
            && Balance(u.value.book.ledger, a) == Balance(s.book.ledger, a)
            && Get(u.value.accounts.collateral, user) == Get(s.accounts.collateral, user)
  {
    RefundSucceeds(s, now, later, user, m, amount);
    DepositEffect(s, now, user, m, amount, a);
    DepositConfig(s, now, user, m, amount);
    FreeWithdrawalBalance(Deposit(s, now, user, m, amount).value, later, user, m, amount, a);
  }

  lemma DepositConfig(s: State, now: nat, user: Address, m: u32, amount: i128)
    requires Deposit(s, now, user, m, amount).Success?
    ensures var t := Deposit(s, now, user, m, amount).value;
            t.config == s.config && t.book.holder == s.book.holder
  {
  }

  lemma FreeWithdrawalBalance(s: State, now: nat, user: Address, m: u32, amount: i128, a: Address)
    requires FeeFor(s.config, user, amount) == Success(0) && Withdraw(s, now, user, m, amount).Success?
    ensures var u := Withdraw(s, now, user, m, amount).value;
            && Balance(u.book.ledger, a)
               == Balance(s.book.ledger, a) + Credit(a, user, amount) - Credit(a, s.book.holder, amount)
            && PositionOf(u.book, m, user)
               == PositionOf(s.book, m, user).(totalDeposited := PositionOf(s.book, m, user).totalDeposited - amount)
            && Get(u.accounts.collateral, user) == Get(s.accounts.collateral, user) - amount
  {
  }

  // ---- The accepted amounts ----

  lemma FeeMonotone(c: Config, user: Address, x: int, y: int)
    requires 0 < y <= x && FeeFor(c, user, x).Success?
    ensures FeeFor(c, user, y).Success? && 0 <= FeeFor(c, user, y).value <= FeeFor(c, user, x).value
  {
    assert 0 <= y * c.feeRate <= x * c.feeRate;
  }

  lemma WithdrawLess(s: State, now: nat, user: Address, m: u32, x: i128, y: i128)
    requires 0 < y <= x && Withdraw(s, now, user, m, x).Success?
    ensures Withdraw(s, now, user, m, y).Success?
  {
    FeeMonotone(s.config, user, x, y);
  }

  lemma {:induction false} LargestUpTo(s: State, now: nat, user: Address, m: u32, n: nat) returns (largest: nat)
    requires n <= I128_MAX
    ensures largest <= n
    ensures forall x: i128 :: 0 < x <= n ==> (Withdraw(s, now, user, m, x).Success? <==> x <= largest)
  {
    if n == 0 {
      return 0;
    }
    if Withdraw(s, now, user, m, n).Success? {
      forall x: i128 | 0 < x <= n ensures Withdraw(s, now, user, m, x).Success? {
        WithdrawLess(s, now, user, m, n, x);
      }
      return n;
    }
    largest := LargestUpTo(s, now, user, m, n - 1);
  }

  /** In any state whatsoever, the amounts a user can withdraw are exactly those from 1 up to some largest one. */
  lemma AcceptedAmountsAreAnInterval(s: State, now: nat, user: Address, m: u32) returns (largest: nat)
    ensures largest <= MAX_REASONABLE_AMOUNT
    ensures forall x: i128 :: Withdraw(s, now, user, m, x).Success? <==> 1 <= x <= largest
  {
    largest := LargestUpTo(s, now, user, m, MAX_REASONABLE_AMOUNT);
    forall x: i128 ensures Withdraw(s, now, user, m, x).Success? <==> 1 <= x <= largest {
      if Withdraw(s, now, user, m, x).Success? {
        assert ReasonableAmount(x);
      }
    }
  }
}
