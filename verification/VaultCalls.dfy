/** Which calls of the market contract go through, in full, and what they do to a single position. */
module VaultCalls {
  import opened Base
  import opened Sums
  import opened TokenLedger
  import opened OutcomeTokens
  import opened MarketTypes
  import opened PositionMath
  import opened Positions
  import opened Settlement
  import opened SettlementPayments
  import opened Reconciliation
  import opened Vault
  import opened VaultInvariant
  import opened VaultRuns

  // ---- Deposits and trades ----

  /** When a deposit goes through, in full. */
  lemma DepositAccepts(s: State, now: nat, user: Address, m: u32, amount: i128)
    ensures Deposit(s, now, user, m, amount).Success?
            <==> && user != s.book.holder && s.config.mode == Normal && !s.accounts.depositLocked
                 && 0 < amount <= I128_MAX / 2
                 && m in s.config.markets && s.config.markets[m].status == Active
                 && !s.config.markets[m].closedToDeposits && now < s.config.markets[m].endTime
                 && Get(s.accounts.collateral, user) + amount <= I128_MAX
                 && PositionAt(s.book.positions, m, user).totalDeposited + amount <= I128_MAX
                 && amount <= Balance(s.book.ledger, user)
  {
  }

  /** When a trade's position update goes through, in full. */
  lemma TradeAccepts(s: State, user: Address, m: u32, yes: i128, no: i128, price: int)
    ensures var p := PositionAt(s.book.positions, m, user);
            Trade(s, user, m, yes, no, price).Success?
            <==> && user != s.book.holder && 0 <= price <= 10_000
                 && 0 <= p.yesShares + yes <= I128_MAX && 0 <= p.noShares + no <= I128_MAX
  {
  }

  /**
   A trade adds its deltas to the trader's shares and locks the value of the net side at its price. Deposit and
   settled flag stay, and so do all other positions, every token, and the list but for the trader.
   */
  lemma TradeEffect(s: State, user: Address, m: u32, yes: i128, no: i128, price: int, key: Key)
    requires Trade(s, user, m, yes, no, price).Success?
    ensures var t := Trade(s, user, m, yes, no, price).value;
            var p, q := PositionAt(s.book.positions, m, user), PositionAt(t.book.positions, m, user);
            && q.yesShares == p.yesShares + yes && q.noShares == p.noShares + no
            && ProperLock(q.yesShares, q.noShares, q.lockedCollateral, price)
            && q.totalDeposited == p.totalDeposited && q.isSettled == p.isSettled
            && (key != Key(m, user) ==>
                  (key in t.book.positions <==> key in s.book.positions)
                  && (key in s.book.positions ==> t.book.positions[key] == s.book.positions[key]))
            && t.book == s.book.(positions := t.book.positions)
            && t.accounts == s.accounts.(participants := t.accounts.participants)
            && user in ParticipantsOf(t.accounts.participants, m)
  {
    LockBounds(PositionAt(s.book.positions, m, user).yesShares + yes,
               PositionAt(s.book.positions, m, user).noShares + no, price);
  }

  /** Deposits, withdrawals and trades concern the caller's position in that market and the caller's account alone. */
  lemma OthersUntouched(s: State, e: Event, key: Key)
    requires Works(s, e) && (e.op.OpDeposit? || e.op.OpWithdraw? || e.op.OpTrade?)
    ensures var t := Next(s, e);
            && (key != Key(e.op.m, e.op.user) ==>
                  PositionAt(t.book.positions, key.marketId, key.user)
                  == PositionAt(s.book.positions, key.marketId, key.user))
            && (key.user != e.op.user ==>
                  Get(t.accounts.collateral, key.user) == Get(s.accounts.collateral, key.user))
            && t.config == s.config && t.consumed == s.consumed && t.records == s.records
            && t.book.outcomes == s.book.outcomes && t.book.payments == s.book.payments
  {
    assert Key(key.marketId, key.user) == key;
  }

  // ---- Settlement ----

  /** When a user can settle, in full. */
  lemma SettlePositionAccepts(s: State, user: Address, m: u32, paid: int)
    requires m in s.config.markets ==>
               Pays(s.config.markets[m].result, PositionAt(s.book.positions, m, user), paid)
    ensures var p := PositionAt(s.book.positions, m, user);
            SettlePosition(s, user, m).Success?
            <==> && user != s.book.holder && s.config.mode != GlobalFreeze
                 && m in s.config.markets && s.config.markets[m].status == Resolved
                 && Key(m, user) in s.book.positions && !p.isSettled
                 && (s.book.outcomes.Some? ==>
                       && BalanceOf(s.book.outcomes.value, m, user, Yes) == p.yesShares
                       && BalanceOf(s.book.outcomes.value, m, user, No) == p.noShares)
                 && 0 <= paid <= Balance(s.book.ledger, s.book.holder)
  {
    if m in s.config.markets {
      SettleAccepts(s.book, s.config.markets[m], m, user, paid);
    }
  }

  /** A user who settles receives the winning shares, or the deposit when nobody won, and nothing for losing shares. */
  lemma SettlePositionPays(s: State, user: Address, m: u32)
    requires SettlePosition(s, user, m).Success?
    ensures var t, result := SettlePosition(s, user, m).value, s.config.markets[m].result;
            var p := PositionAt(s.book.positions, m, user);
            var gain := Balance(t.book.ledger, user) - Balance(s.book.ledger, user);
            && (result == Some(true) ==> gain == p.yesShares)
            && (result == Some(false) ==> gain == p.noShares)
            && (result == None ==> gain == p.totalDeposited)
            && Balance(t.book.ledger, s.book.holder) == Balance(s.book.ledger, s.book.holder) - gain
            && PositionAt(t.book.positions, m, user) == p.(isSettled := true)
            && t.accounts == s.accounts && t.config == s.config
  {
    var p := PositionAt(s.book.positions, m, user);
    PayoutPays(s.config.markets[m], p);
    SettlePays(s.book, s.config.markets[m], m, user, Payout(p, s.config.markets[m]), user, Key(m, user));
  }

  /** A batch takes 1 to 100 users of a resolved market. */
  lemma BatchAccepts(s: State, m: u32, users: seq<Address>)
    requires Balance(s.book.ledger, s.book.holder) >= 0
    ensures BatchSettle(s, m, users).Success?
            <==> && s.config.mode != GlobalFreeze && 1 <= |users| <= 100
                 && m in s.config.markets && s.config.markets[m].status == Resolved
                 && Affordable(s.book, s.config.markets[m], m, users)
  {
    if m in s.config.markets {
      BatchIsSet(s.book, s.config.markets[m], m, users);
    }
  }

  /** A page holds as many users as asked for, or those left from its start on, in the order of the list. */
  lemma PageSize(list: seq<Address>, start: u32, limit: u32)
    requires |list| <= U32_MAX
    ensures var page := PageOf(list, start, limit);
            && (start >= |list| ==> page == [])
            && (start < |list| ==>
                  |page| == (if start + limit <= |list| then limit else |list| - start)
                  && page <= list[start..])
  {
  }

  // ---- Settled positions ----

  /** No transfer and no merge touches a settled position. */
  lemma SettledNotMoved(s: State, e: Event, key: Key)
    requires PositionAt(s.book.positions, key.marketId, key.user).isSettled
    requires Works(s, e) && (e.op.OpTransfer? || e.op.OpMerge?)
    ensures PositionAt(Next(s, e).book.positions, key.marketId, key.user)
            == PositionAt(s.book.positions, key.marketId, key.user)
  {
    match e.op
    case OpTransfer(m, from, to, caller, yes, no, price, id) =>
    case OpMerge(m, owner, primary, other, caller, price, id) =>
  }

  /** The owner deposits, withdraws or trades there. */
  predicate OwnMove(op: Op, key: Key) {
    (op.OpDeposit? || op.OpWithdraw? || op.OpTrade?) && Key(op.m, op.user) == key
  }

  lemma {:induction false} BatchSkipsSettled(b: Book, market: Market, m: u32, users: seq<Address>, key: Key)
    requires BatchFold(b, market, m, users).Success? && PositionAt(b.positions, key.marketId, key.user).isSettled
    ensures PositionAt(BatchFold(b, market, m, users).value.positions, key.marketId, key.user)
            == PositionAt(b.positions, key.marketId, key.user)
  {
    if users != [] {
      BatchSkipsSettled(b, market, m, users[..|users| - 1], key);
      assert Key(key.marketId, key.user) == key;
    }
  }

  lemma StepFreezes(s: State, e: Event, key: Key)
    requires PositionAt(s.book.positions, key.marketId, key.user).isSettled
    requires Works(s, e) && !OwnMove(e.op, key)
    ensures PositionAt(Next(s, e).book.positions, key.marketId, key.user)
            == PositionAt(s.book.positions, key.marketId, key.user)
  {
    match e.op
    case OpBatchSettle(m, users) => BatchSkipsSettled(s.book, s.config.markets[m], m, users, key);
    case OpSettlePage(m, start, limit) =>
      BatchSkipsSettled(s.book, s.config.markets[m], m,
                        PageOf(ParticipantsOf(s.accounts.participants, m), start, limit), key);
    case OpTransfer(_, _, _, _, _, _, _, _) => SettledNotMoved(s, e, key);
    case OpMerge(_, _, _, _, _, _, _) => SettledNotMoved(s, e, key);
    case OpDeposit(_, _, _) => OthersUntouched(s, e, key);
    case OpWithdraw(_, _, _) => OthersUntouched(s, e, key);
    case OpTrade(_, _, _, _, _) => OthersUntouched(s, e, key);
    case _ => assert Key(key.marketId, key.user) == key;
  }

  lemma NextFreezes(s: State, es: seq<Event>, i: nat, key: Key)
    requires i < |es| && PositionAt(At(s, es, i).book.positions, key.marketId, key.user).isSettled
    requires Succeeded(s, es, i) ==> !OwnMove(es[i].op, key)
    ensures PositionAt(At(s, es, i + 1).book.positions, key.marketId, key.user)
            == PositionAt(At(s, es, i).book.positions, key.marketId, key.user)
  {
    AtNext(s, es, i);
    if Succeeded(s, es, i) {
      StepFreezes(At(s, es, i), es[i], key);
    }
  }

  /** Over any run, a settled position stays exactly as it was until its owner deposits, withdraws or trades there. */
  lemma {:induction false} SettledIsFrozen(s: State, es: seq<Event>, k: nat, n: nat, key: Key)
    requires k <= n <= |es| && PositionAt(At(s, es, k).book.positions, key.marketId, key.user).isSettled
    requires forall i :: k <= i < n && Succeeded(s, es, i) ==> !OwnMove(es[i].op, key)
    ensures PositionAt(At(s, es, n).book.positions, key.marketId, key.user)
            == PositionAt(At(s, es, k).book.positions, key.marketId, key.user)
    decreases n
  {
    if k < n {
      SettledIsFrozen(s, es, k, n - 1, key);
      NextFreezes(s, es, n - 1, key);
    }
  }

  // ---- The cooldown ----

  /** Time does not go back along the run. */
  predicate Timed(es: seq<Event>) {
    forall i, j :: 0 <= i <= j < |es| ==> es[i].now <= es[j].now
  }

  lemma StepDates(s: State, e: Event, key: Key)
    requires Works(s, e)
    ensures e.op.OpDeposit? && Key(e.op.m, e.op.user) == key ==>
              key in Next(s, e).accounts.lastDeposit && Next(s, e).accounts.lastDeposit[key] == e.now
    ensures !(e.op.OpDeposit? && Key(e.op.m, e.op.user) == key) ==>
              (key in Next(s, e).accounts.lastDeposit <==> key in s.accounts.lastDeposit)
              && (key in s.accounts.lastDeposit ==>
                    Next(s, e).accounts.lastDeposit[key] == s.accounts.lastDeposit[key])
  {
  }

  /** A deposit is dated, and dates only rise. */
  lemma {:induction false} DatedSince(s: State, es: seq<Event>, i: nat, n: nat)
    requires Timed(es) && i < n <= |es| && Succeeded(s, es, i) && es[i].op.OpDeposit?
    ensures var key, last := Key(es[i].op.m, es[i].op.user), At(s, es, n).accounts.lastDeposit;
            key in last && last[key] >= es[i].now
    decreases n
  {
    var key := Key(es[i].op.m, es[i].op.user);
    AtNext(s, es, n - 1);
    if i < n - 1 {
      DatedSince(s, es, i, n - 1);
    }
    if Succeeded(s, es, n - 1) {
      StepDates(At(s, es, n - 1), es[n - 1], key);
    }
  }

  /** Over every run, a withdrawal comes at least an hour after each earlier deposit of that user in that market. */
  lemma CooldownHolds(s: State, es: seq<Event>, i: nat, j: nat)
    requires Timed(es) && i < j < |es| && Succeeded(s, es, i) && Succeeded(s, es, j)
    requires es[i].op.OpDeposit? && es[j].op.OpWithdraw?
    requires es[i].op.user == es[j].op.user && es[i].op.m == es[j].op.m
    ensures es[i].now + 3_600 <= es[j].now
  {
    DatedSince(s, es, i, j);
    WithdrawWaits(At(s, es, j), es[j].now, es[j].op.user, es[j].op.m, es[j].op.amount);
  }

  lemma WithdrawWaits(s: State, now: nat, user: Address, m: u32, amount: i128)
    requires Withdraw(s, now, user, m, amount).Success? && Key(m, user) in s.accounts.lastDeposit
    ensures s.accounts.lastDeposit[Key(m, user)] + 3_600 <= now
  {
  }

  // ---- Parity ----

  /** The two ledgers agree on a position that is not settled when the token balances are its shares. */
  lemma ParityMeans(b: Book, m: u32, user: Address)
    ensures var p := PositionAt(b.positions, m, user);
            Matched(b, m, user)
            <==> p.isSettled || b.outcomes == None
                 || (BalanceOf(b.outcomes.value, m, user, Yes) == p.yesShares
                     && BalanceOf(b.outcomes.value, m, user, No) == p.noShares)
  {
  }
}
