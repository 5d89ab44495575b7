/** The outcome-token ledger: per-market, per-side balances whose sum is the recorded supply. */
module OutcomeTokens {
  import opened Base
  import opened Sums

  datatype TokenKind = Yes | No

  datatype Holding = Holding(marketId: u32, user: Address, kind: TokenKind)

  datatype Side = Side(marketId: u32, kind: TokenKind)

  datatype Outcomes = Outcomes(balances: map<Holding, int>, supply: map<Side, int>)

  function BalanceOf(o: Outcomes, m: u32, user: Address, kind: TokenKind): int {
    Get(o.balances, Holding(m, user, kind))
  }

  function TotalSupply(o: Outcomes, m: u32, kind: TokenKind): int {
    Get(o.supply, Side(m, kind))
  }

  /** Adds `delta` to a balance and to the supply of its side. */
  function Adjust(o: Outcomes, m: u32, user: Address, kind: TokenKind, delta: int): Outcomes {
    o.(balances := o.balances[Holding(m, user, kind) := BalanceOf(o, m, user, kind) + delta],
       supply := o.supply[Side(m, kind) := TotalSupply(o, m, kind) + delta])
  }

  /** `None` is an invalid amount, or a result beyond 128 bits. */
  function Mint(o: Outcomes, m: u32, user: Address, kind: TokenKind, amount: int): Option<Outcomes> {
    if amount <= 0 || TotalSupply(o, m, kind) + amount > I128_MAX then None
    else Some(Adjust(o, m, user, kind, amount))
  }

  /** `None` is an invalid amount or an insufficient balance. */
  function Burn(o: Outcomes, m: u32, user: Address, kind: TokenKind, amount: int): Option<Outcomes> {
    if amount <= 0 || BalanceOf(o, m, user, kind) < amount then None
    else Some(Adjust(o, m, user, kind, -amount))
  }

  /** What a holding contributes to side `(m, kind)`. */
  function OnSide(m: u32, kind: TokenKind): (Holding, int) -> int {
    (h: Holding, v: int) => if h.marketId == m && h.kind == kind then v else 0
  }

  /** Balances are nonnegative, and every supply is the sum of its balances. */
  ghost predicate Backed(o: Outcomes) {
    && (forall h :: h in o.balances ==> o.balances[h] >= 0)
    && (forall m, kind :: TotalSupply(o, m, kind) == SumBy(o.balances, OnSide(m, kind)))
  }

  lemma AdjustKeepsBacked(o: Outcomes, m: u32, user: Address, kind: TokenKind, delta: int)
    requires Backed(o) && BalanceOf(o, m, user, kind) + delta >= 0
    ensures Backed(Adjust(o, m, user, kind, delta))
  {
    var t := Adjust(o, m, user, kind, delta);
    var h := Holding(m, user, kind);
    forall n, k ensures TotalSupply(t, n, k) == SumBy(t.balances, OnSide(n, k)) {
      assert TotalSupply(o, n, k) == SumBy(o.balances, OnSide(n, k));
      SumByUpdate(o.balances, OnSide(n, k), h, BalanceOf(o, m, user, kind) + delta);
    }
  }

  lemma MintKeepsBacked(o: Outcomes, m: u32, user: Address, kind: TokenKind, amount: nat)
    requires Backed(o)
    ensures Backed(Adjust(o, m, user, kind, amount))
  {
    BalanceWithinSupply(o, m, user, kind);
    AdjustKeepsBacked(o, m, user, kind, amount);
  }

  /** A mint or burn moves one balance and one supply by the same amount, and nothing else. */
  lemma AdjustFrame(o: Outcomes, m: u32, user: Address, kind: TokenKind, delta: int, n: u32, other: Address,
                    k: TokenKind)
    ensures var t := Adjust(o, m, user, kind, delta);
            && BalanceOf(t, n, other, k)
               == BalanceOf(o, n, other, k) + (if n == m && other == user && k == kind then delta else 0)
            && TotalSupply(t, n, k) == TotalSupply(o, n, k) + (if n == m && k == kind then delta else 0)
  {
  }

  /** Minting takes a positive amount that the supply has room for; burning a positive amount the user has. */
  lemma MintAndBurn(o: Outcomes, m: u32, user: Address, kind: TokenKind, amount: int)
    ensures var minted, burned := Mint(o, m, user, kind, amount), Burn(o, m, user, kind, amount);
            && (minted.Some? <==> 0 < amount && TotalSupply(o, m, kind) + amount <= I128_MAX)
            && (minted.Some? ==>
                  BalanceOf(minted.value, m, user, kind) == BalanceOf(o, m, user, kind) + amount
                  && TotalSupply(minted.value, m, kind) == TotalSupply(o, m, kind) + amount)
            && (burned.Some? <==> 0 < amount <= BalanceOf(o, m, user, kind))
            && (burned.Some? ==>
                  BalanceOf(burned.value, m, user, kind) == BalanceOf(o, m, user, kind) - amount
                  && TotalSupply(burned.value, m, kind) == TotalSupply(o, m, kind) - amount)
  {
    AdjustFrame(o, m, user, kind, amount, m, user, kind);
    AdjustFrame(o, m, user, kind, -amount, m, user, kind);
  }

  /** Adding to two entries of a map that defaults to 0 commutes, also when they are the same entry. */
  lemma AdditionsCommute<K>(m: map<K, int>, i: K, x: int, j: K, y: int)
    ensures var a, b := m[i := Get(m, i) + x], m[j := Get(m, j) + y];
            a[j := Get(a, j) + y] == b[i := Get(b, i) + x]
  {
    if i != j {
      UpdatesCommute(m, i, Get(m, i) + x, j, Get(m, j) + y);
    }
  }

  /** Adjustments commute. */
  lemma AdjustCommutes(o: Outcomes, m: u32, user: Address, k: TokenKind, x: int, other: Address, l: TokenKind, y: int)
    ensures Adjust(Adjust(o, m, user, k, x), m, other, l, y) == Adjust(Adjust(o, m, other, l, y), m, user, k, x)
  {
    AdditionsCommute(o.balances, Holding(m, user, k), x, Holding(m, other, l), y);
    AdditionsCommute(o.supply, Side(m, k), x, Side(m, l), y);
  }

  /** A user's balance never exceeds the supply. */
  lemma BalanceWithinSupply(o: Outcomes, m: u32, user: Address, kind: TokenKind)
    requires Backed(o)
    ensures 0 <= BalanceOf(o, m, user, kind) <= TotalSupply(o, m, kind)
  {
    SumByAtLeast(o.balances, OnSide(m, kind), Holding(m, user, kind));
  }

  /** The ledger's storage, overwritten entry by entry. */
  class OutcomeToken {
    var balances: map<Holding, int>
    var supply: map<Side, int>

    ghost function Abstract(): Outcomes
      reads this
    {
      Outcomes(balances, supply)
    }

    ghost predicate Valid()
      reads this
    {
      Backed(Abstract())
    }

    constructor ()
      ensures Valid() && balances == map[] && supply == map[]
    {
      balances, supply := map[], map[];
      new;
      forall m, kind ensures TotalSupply(Abstract(), m, kind) == SumBy(balances, OnSide(m, kind)) {
        SumByZero(balances, OnSide(m, kind));
      }
    }

    method SetBalance(m: u32, user: Address, kind: TokenKind, amount: int)
      modifies this`balances
      ensures balances == old(balances)[Holding(m, user, kind) := amount]
    {
      balances := balances[Holding(m, user, kind) := amount];
    }

    method SetTotalSupply(m: u32, kind: TokenKind, amount: int)
      modifies this`supply
      ensures supply == old(supply)[Side(m, kind) := amount]
    {
      supply := supply[Side(m, kind) := amount];
    }

    method MintTo(m: u32, user: Address, kind: TokenKind, amount: int) returns (ok: bool)
      requires Valid()
      modifies this
      ensures Valid()
      ensures ok <==> Mint(old(Abstract()), m, user, kind, amount).Some?
      ensures Abstract() == if ok then Mint(old(Abstract()), m, user, kind, amount).value else old(Abstract())
    {
      var supplied := Get(supply, Side(m, kind));
      if amount <= 0 || supplied + amount > I128_MAX {
        return false;
      }
      ghost var minted := Adjust(Abstract(), m, user, kind, amount);
      MintKeepsBacked(Abstract(), m, user, kind, amount);
      var held := Get(balances, Holding(m, user, kind));
      SetBalance(m, user, kind, held + amount);
      SetTotalSupply(m, kind, supplied + amount);
      assert Abstract() == minted;
      return true;
    }

    method BurnFrom(m: u32, user: Address, kind: TokenKind, amount: int) returns (ok: bool)
      requires Valid()
      modifies this
      ensures Valid()
      ensures ok <==> Burn(old(Abstract()), m, user, kind, amount).Some?
      ensures Abstract() == if ok then Burn(old(Abstract()), m, user, kind, amount).value else old(Abstract())
    {
      var held := Get(balances, Holding(m, user, kind));
      if amount <= 0 || held < amount {
        return false;
      }
      AdjustKeepsBacked(Abstract(), m, user, kind, -amount);
      var supplied := Get(supply, Side(m, kind));
      SetBalance(m, user, kind, held - amount);
      SetTotalSupply(m, kind, supplied - amount);
      return true;
    }
  }
}
