/** What an outcome pays each position, and what settling a whole market costs. */
module SettlementPayments {
  import opened Base
  import opened Sums
  import opened TokenLedger
  import opened OutcomeTokens
  import opened MarketTypes
  import opened Positions
  import opened Settlement

  // ---- One position ----

  /** A settlement pays one token for each winning share, or the deposit when the market has no winner. */
  predicate Pays(result: Option<bool>, p: Position, paid: int) {
    && (result == Some(true) ==> paid == p.yesShares)
    && (result == Some(false) ==> paid == p.noShares)
    && (result == None ==> paid == p.totalDeposited)
  }

  lemma PayoutPays(market: Market, p: Position)
    ensures Pays(market.result, p, Payout(p, market))
  {
  }

  /** When a position can be settled, in full. */
  lemma SettleAccepts(b: Book, market: Market, m: u32, user: Address, paid: int)
    requires Pays(market.result, PositionAt(b.positions, m, user), paid)
    ensures var p := PositionAt(b.positions, m, user);
            SettleOne(b, market, m, user).Success?
            <==> && Key(m, user) in b.positions && !p.isSettled && market.status == Resolved
                 && (b.outcomes.Some? ==>
                       && BalanceOf(b.outcomes.value, m, user, Yes) == p.yesShares
                       && BalanceOf(b.outcomes.value, m, user, No) == p.noShares)
                 && 0 <= paid <= Balance(b.ledger, b.holder)
  {
    PayoutPays(market, PositionAt(b.positions, m, user));
  }

  /**
   What settling a position does: the winning shares, or the deposit, go from the contract to the user and are
   recorded; the position is marked; nobody else's tokens and no other position change. The losing side pays nothing.
   */
  lemma SettlePays(b: Book, market: Market, m: u32, user: Address, paid: int, a: Address, key: Key)
    requires SettleOne(b, market, m, user).Success? && user != b.holder
    requires Pays(market.result, PositionAt(b.positions, m, user), paid)
    ensures var t, p := SettleOne(b, market, m, user).value, PositionAt(b.positions, m, user);
            && Balance(t.ledger, user) == Balance(b.ledger, user) + paid
            && Balance(t.ledger, b.holder) == Balance(b.ledger, b.holder) - paid
            && (a != user && a != b.holder ==> Balance(t.ledger, a) == Balance(b.ledger, a))
            && PositionAt(t.positions, m, user) == p.(isSettled := true)
            && PaymentsTo(t, Key(m, user)) == PaymentsTo(b, Key(m, user)) + [paid]
            && (key != Key(m, user) ==>
                  && (key in t.positions <==> key in b.positions)
                  && PositionAt(t.positions, key.marketId, key.user) == PositionAt(b.positions, key.marketId, key.user)
                  && PaymentsTo(t, key) == PaymentsTo(b, key))
            && (p.yesShares == 0 && market.result == Some(true) ==> Balance(t.ledger, user) == Balance(b.ledger, user))
            && (p.noShares == 0 && market.result == Some(false) ==> Balance(t.ledger, user) == Balance(b.ledger, user))
  {
    PayoutPays(market, PositionAt(b.positions, m, user));
    assert Key(key.marketId, key.user) == key;
  }

  // ---- A whole market ----

  /** What a market still owes a position; what the contract would pay to itself it keeps. */
  function Unpaid(holder: Address, m: u32, result: Option<bool>): (Key, Position) -> int {
    (k: Key, p: Position) =>
      if k.marketId != m || k.user == holder || p.isSettled then 0
      else if result == Some(true) then p.yesShares
      else if result == Some(false) then p.noShares
      else p.totalDeposited
  }

  ghost function Owed(b: Book, market: Market, m: u32): int {
    SumBy(b.positions, Unpaid(b.holder, m, market.result))
  }

  /** Settling a position lowers what is owed by exactly what it pays. */
  lemma ApplyPays(b: Book, market: Market, m: u32, user: Address)
    requires Key(m, user) in b.positions && !b.positions[Key(m, user)].isSettled
    requires Payout(PositionOf(b, m, user), market) >= 0
    ensures var t := Apply(b, market, m, user);
            t.holder == b.holder
            && Balance(t.ledger, b.holder) - Owed(t, market, m) == Balance(b.ledger, b.holder) - Owed(b, market, m)
  {
    var p := PositionOf(b, m, user);
    PayoutPays(market, p);
    SumByUpdate(b.positions, Unpaid(b.holder, m, market.result), Key(m, user), p.(isSettled := true));
  }

  lemma {:induction false} SettleSetPaysOwed(b: Book, market: Market, m: u32, users: set<Address>)
    requires forall u :: u in users ==> Eligible(b, market, m, u)
    ensures var t := SettleSet(b, market, m, users);
            Balance(t.ledger, b.holder) - Owed(t, market, m) == Balance(b.ledger, b.holder) - Owed(b, market, m)
    decreases |users|
  {
    if users != {} {
      var u := PickUser(users);
      SettleSetPaysOwed(b, market, m, users - {u});
      SettleSetEffect(b, market, m, users - {u}, u);
      ApplyPays(SettleSet(b, market, m, users - {u}), market, m, u);
    }
  }

  /** Whichever users a batch lists, in whatever order, it pays out exactly what the market owes less afterwards. */
  lemma BatchPaysOwed(b: Book, market: Market, m: u32, users: seq<Address>)
    requires Balance(b.ledger, b.holder) >= 0 && BatchFold(b, market, m, users).Success?
    ensures var t := BatchFold(b, market, m, users).value;
            Balance(t.ledger, b.holder) - Owed(t, market, m) == Balance(b.ledger, b.holder) - Owed(b, market, m)
  {
    BatchIsSet(b, market, m, users);
    SettleSetPaysOwed(b, market, m, EligibleAmong(b, market, m, users));
  }

  ghost function HoldersOf(positions: PositionMap, m: u32): set<Address> {
    set k | k in positions && k.marketId == m :: k.user
  }

  /** Everybody with a position in the market is listed, and can be settled or has been. */
  ghost predicate NamesAll(b: Book, market: Market, m: u32, users: seq<Address>) {
    forall u :: u in HoldersOf(b.positions, m) && u != b.holder ==>
                  u in users && (Eligible(b, market, m, u) || PositionOf(b, m, u).isSettled)
  }

  lemma SettledOwesNothing(b: Book, market: Market, m: u32, users: seq<Address>)
    requires NamesAll(b, market, m, users)
    ensures Owed(SettleSet(b, market, m, EligibleAmong(b, market, m, users)), market, m) == 0
  {
    var all := EligibleAmong(b, market, m, users);
    var t := SettleSet(b, market, m, all);
    SettleSetHolder(b, market, m, all);
    forall k | k in t.positions ensures Unpaid(b.holder, m, market.result)(k, t.positions[k]) == 0 {
      if k.marketId == m && k.user != b.holder {
        SettleSetEffect(b, market, m, all, k.user);
        assert Key(m, k.user) == k;
        assert k in b.positions ==> k.user in HoldersOf(b.positions, m);
      }
    }
    SumByZero(t.positions, Unpaid(b.holder, m, market.result));
  }

  /** Settling the rest of a market succeeds exactly when the contract holds what is owed, and costs exactly that. */
  lemma MarketSettlesExactly(b: Book, market: Market, m: u32, users: seq<Address>)
    requires Balance(b.ledger, b.holder) >= 0 && NamesAll(b, market, m, users) && HolderApart(b, market, m, users)
    ensures var r := BatchFold(b, market, m, users);
            && (r.Success? <==> Owed(b, market, m) <= Balance(b.ledger, b.holder))
            && (r.Success? ==> Owed(r.value, market, m) == 0
                               && Balance(r.value.ledger, b.holder)
                                  == Balance(b.ledger, b.holder) - Owed(b, market, m))
  {
    var all := EligibleAmong(b, market, m, users);
    BatchIsSet(b, market, m, users);
    SettledOwesNothing(b, market, m, users);
    SettleSetPaysOwed(b, market, m, all);
    SettleSetEffect(b, market, m, all, b.holder);
  }

  /** A market none of whose positions has been settled owes its winning shares, or its deposits. */
  lemma FreshMarketOwes(b: Book, market: Market, m: u32)
    requires forall k :: k in b.positions && k.marketId == m ==> k.user != b.holder && !b.positions[k].isSettled
    ensures market.result == Some(true) ==> Owed(b, market, m) == SumBy(b.positions, YesIn(m))
    ensures market.result == Some(false) ==> Owed(b, market, m) == SumBy(b.positions, NoIn(m))
    ensures market.result == None ==> Owed(b, market, m) == SumBy(b.positions, DepositIn(m))
  {
    match market.result
    case Some(outcome) =>
      if outcome {
        SumBySame(b.positions, Unpaid(b.holder, m, market.result), YesIn(m));
      } else {
        SumBySame(b.positions, Unpaid(b.holder, m, market.result), NoIn(m));
      }
    case None => SumBySame(b.positions, Unpaid(b.holder, m, market.result), DepositIn(m));
  }

  /**
   Settling everybody in a resolved market costs exactly its YES shares if YES won, its NO shares if NO won, and its
   deposits if nobody did; and the contract can do it exactly when it holds that much.
   */
  lemma WholeMarketCosts(b: Book, market: Market, m: u32, users: seq<Address>)
    requires Balance(b.ledger, b.holder) >= 0
    requires forall u :: u in HoldersOf(b.positions, m) ==>
                           u in users && u != b.holder && Eligible(b, market, m, u)
    ensures var cost := match market.result
                        case Some(outcome) => SumBy(b.positions, if outcome then YesIn(m) else NoIn(m))
                        case None => SumBy(b.positions, DepositIn(m));
            var r := BatchFold(b, market, m, users);
            && (r.Success? <==> cost <= Balance(b.ledger, b.holder))
            && (r.Success? ==> Balance(r.value.ledger, b.holder) == Balance(b.ledger, b.holder) - cost)
  {
    forall k | k in b.positions && k.marketId == m ensures k.user != b.holder && !b.positions[k].isSettled {
      assert k.user in HoldersOf(b.positions, m) && Key(m, k.user) == k;
    }
    assert Key(m, b.holder) in b.positions ==> b.holder in HoldersOf(b.positions, m);
    FreshMarketOwes(b, market, m);
    MarketSettlesExactly(b, market, m, users);
  }
}
