/** Repairing outcome-token balances that have drifted from the positions they mirror. */
module Reconciliation {
  import opened Base
  import opened OutcomeTokens
  import opened MarketTypes
  import opened Settlement

  type CorrelationId = seq<byte>

  /** The ids of the repairs made, each with the position it was made for. */
  type Records = map<CorrelationId, Key>

  datatype Repairs = Repairs(book: Book, records: Records)

  /** Mints or burns the difference; `None` is a trap of the 128-bit subtraction or of the token call. */
  function RepairSide(o: Outcomes, m: u32, user: Address, kind: TokenKind, shares: int): Option<Outcomes> {
    var delta := shares - BalanceOf(o, m, user, kind);
    if !(-I128_MAX <= delta <= I128_MAX) then None
    else if delta > 0 then Mint(o, m, user, kind, delta)
    else if delta < 0 then Burn(o, m, user, kind, -delta)
    else Some(o)
  }

  function RepairBoth(o: Outcomes, m: u32, user: Address, p: Position): Option<Outcomes> {
    match RepairSide(o, m, user, Yes, p.yesShares)
    case Some(y) => RepairSide(y, m, user, No, p.noShares)
    case None => None
  }

  function Reconcile(r: Repairs, m: u32, user: Address, id: CorrelationId): Result<Repairs, MarketError> {
    if Matched(r.book, m, user) then Success(r)
    else if id in r.records then Failure(ReconciliationAlreadyApplied)
    else if r.book.outcomes.None? then Failure(HostTrap)
    else
      match RepairBoth(r.book.outcomes.value, m, user, PositionOf(r.book, m, user))
      case None => Failure(HostTrap)
      case Some(o) =>
        Success(Repairs(r.book.(outcomes := Some(o)), r.records[id := Key(m, user)]))
  }

  /** The supply left room for what would have to be minted. */
  predicate Mintable(o: Outcomes, m: u32, user: Address, kind: TokenKind, shares: int) {
    TotalSupply(o, m, kind) + shares - BalanceOf(o, m, user, kind) <= I128_MAX
    || shares <= BalanceOf(o, m, user, kind)
  }

  /** One side is repaired exactly when the supply has room, by the difference and for this holding alone. */
  lemma RepairSideEffect(o: Outcomes, m: u32, user: Address, kind: TokenKind, shares: int, n: u32, other: Address,
                         k: TokenKind)
    requires Backed(o) && shares >= 0 && TotalSupply(o, m, kind) <= I128_MAX
    ensures RepairSide(o, m, user, kind, shares).Some? <==> Mintable(o, m, user, kind, shares)
    ensures RepairSide(o, m, user, kind, shares).Some? ==>
              var t := RepairSide(o, m, user, kind, shares).value;
              var delta := shares - BalanceOf(o, m, user, kind);
              && Backed(t)
              && BalanceOf(t, m, user, kind) == shares
              && BalanceOf(t, n, other, k)
                 == BalanceOf(o, n, other, k) + (if n == m && other == user && k == kind then delta else 0)
              && TotalSupply(t, n, k) == TotalSupply(o, n, k) + (if n == m && k == kind then delta else 0)
  {
    var delta := shares - BalanceOf(o, m, user, kind);
    BalanceWithinSupply(o, m, user, kind);
    if Mintable(o, m, user, kind, shares) && delta != 0 {
      AdjustKeepsBacked(o, m, user, kind, delta);
      AdjustFrame(o, m, user, kind, delta, n, other, k);
    }
  }

  /** What a repair does to one holding and one supply. */
  function RepairOf(b: Book, m: u32, user: Address, kind: TokenKind): int {
    var p := PositionOf(b, m, user);
    (if kind == Yes then p.yesShares else p.noShares) - TokensHeld(b, m, user, kind)
  }

  /** Supplies are 128-bit numbers. */
  predicate SuppliesFit(o: Outcomes, m: u32) {
    TotalSupply(o, m, Yes) <= I128_MAX && TotalSupply(o, m, No) <= I128_MAX
  }

  lemma RepairBothEffect(o: Outcomes, m: u32, user: Address, p: Position, n: u32, other: Address, k: TokenKind)
    requires Backed(o) && Good(p) && SuppliesFit(o, m)
    ensures RepairBoth(o, m, user, p).Some?
            <==> Mintable(o, m, user, Yes, p.yesShares) && Mintable(o, m, user, No, p.noShares)
    ensures RepairBoth(o, m, user, p).Some? ==>
              var t := RepairBoth(o, m, user, p).value;
              var delta := (if k == Yes then p.yesShares else p.noShares) - BalanceOf(o, m, user, k);
              && Backed(t)
              && BalanceOf(t, m, user, Yes) == p.yesShares && BalanceOf(t, m, user, No) == p.noShares
              && BalanceOf(t, n, other, k) == BalanceOf(o, n, other, k) + (if n == m && other == user then delta else 0)
              && TotalSupply(t, n, k) == TotalSupply(o, n, k) + (if n == m then delta else 0)
  {
    RepairSideEffect(o, m, user, Yes, p.yesShares, n, other, k);
    RepairSideEffect(o, m, user, Yes, p.yesShares, m, user, No);
    if RepairSide(o, m, user, Yes, p.yesShares).Some? {
      var y := RepairSide(o, m, user, Yes, p.yesShares).value;
      RepairSideEffect(y, m, user, No, p.noShares, n, other, k);
      RepairSideEffect(y, m, user, No, p.noShares, m, user, Yes);
    }
  }

  /** When a repair goes through: nothing to do, or a fresh id and room in both supplies. */
  lemma ReconcileAccepts(r: Repairs, m: u32, user: Address, id: CorrelationId)
    requires r.book.outcomes.Some? && Backed(r.book.outcomes.value) && SuppliesFit(r.book.outcomes.value, m)
    requires Good(PositionOf(r.book, m, user))
    ensures var o, p := r.book.outcomes.value, PositionOf(r.book, m, user);
            Reconcile(r, m, user, id).Success?
            <==> Matched(r.book, m, user)
                 || (id !in r.records
                     && Mintable(o, m, user, Yes, p.yesShares) && Mintable(o, m, user, No, p.noShares))
  {
    RepairBothEffect(r.book.outcomes.value, m, user, PositionOf(r.book, m, user), m, user, Yes);
  }

  /**
   Reconciling ends in parity. A pair that agreed is left alone, its id unused; otherwise one user's two holdings
   and the two supplies move by exactly the differences and the id is spent. Everybody else is undisturbed.
   */
  lemma ReconcileEffect(r: Repairs, m: u32, user: Address, id: CorrelationId, n: u32, other: Address, k: TokenKind)
    requires r.book.outcomes.Some? ==> Backed(r.book.outcomes.value) && SuppliesFit(r.book.outcomes.value, m)
    requires Good(PositionOf(r.book, m, user)) && Reconcile(r, m, user, id).Success?
    ensures var t := Reconcile(r, m, user, id).value;
            && Matched(t.book, m, user)
            && t.book == r.book.(outcomes := t.book.outcomes)
            && (Matched(r.book, m, user) ==> t == r)
            && (!Matched(r.book, m, user) ==>
                  && r.book.outcomes.Some? && t.book.outcomes.Some? && Backed(t.book.outcomes.value)
                  && id !in r.records && t.records == r.records[id := Key(m, user)]
                  && TokensHeld(t.book, n, other, k)
                     == TokensHeld(r.book, n, other, k)
                        + (if n == m && other == user then RepairOf(r.book, m, user, k) else 0)
                  && TotalSupply(t.book.outcomes.value, n, k)
                     == TotalSupply(r.book.outcomes.value, n, k) + (if n == m then RepairOf(r.book, m, user, k) else 0))
  {
    if !Matched(r.book, m, user) {
      RepairBothEffect(r.book.outcomes.value, m, user, PositionOf(r.book, m, user), n, other, k);
    }
  }

  /** A repair with the same id is refused from then on, and repairing again with any id changes nothing. */
  lemma ReconcileOnce(r: Repairs, m: u32, user: Address, id: CorrelationId, n: u32, other: Address,
                      again: CorrelationId)
    requires r.book.outcomes.Some? ==> Backed(r.book.outcomes.value) && SuppliesFit(r.book.outcomes.value, m)
    requires Good(PositionOf(r.book, m, user))
    requires !Matched(r.book, m, user) && Reconcile(r, m, user, id).Success?
    ensures var t := Reconcile(r, m, user, id).value;
            && Reconcile(t, m, user, again) == Success(t)
            && (Reconcile(t, n, other, id).Success? <==> Matched(t.book, n, other))
  {
    ReconcileEffect(r, m, user, id, m, user, Yes);
  }

  /** After settlement nothing is minted back: the tokens stay burned although the shares stay on record. */
  lemma SettledNeverReminted(r: Repairs, market: Market, m: u32, user: Address, id: CorrelationId)
    requires Eligible(r.book, market, m, user)
    ensures var t := r.(book := Apply(r.book, market, m, user));
            Reconcile(t, m, user, id) == Success(t)
  {
  }
}
