/** Settling resolved markets: one position, a batch, or page by page, and why the route does not matter. */
module Settlement {
  import opened Base
  import opened Sums
  import opened TokenLedger
  import opened OutcomeTokens
  import opened MarketTypes
  import opened PositionMath

  const MAX_BATCH_SETTLE_SIZE: nat := 100

  /**
   What settlement reads and writes: positions, the outcome-token ledger if one is registered, the collateral
   token, and the history of payouts made to each position.
   */
  datatype Book = Book(holder: Address, positions: PositionMap, outcomes: Option<Outcomes>, ledger: Ledger,
                       payments: map<Key, seq<int>>)

  function PositionOf(b: Book, m: u32, user: Address): Position {
    PositionAt(b.positions, m, user)
  }

  function PaymentsTo(b: Book, key: Key): seq<int> {
    if key in b.payments then b.payments[key] else []
  }

  // ---- Parity of the two ledgers ----

  /** The outcome-token balance that parity compares; without a registered ledger it mirrors the shares. */
  function TokensHeld(b: Book, m: u32, user: Address, kind: TokenKind): int {
    match b.outcomes
    case Some(o) => BalanceOf(o, m, user, kind)
    case None => if kind == Yes then PositionOf(b, m, user).yesShares else PositionOf(b, m, user).noShares
  }

  predicate Matched(b: Book, m: u32, user: Address) {
    var p := PositionOf(b, m, user);
    p.isSettled || (TokensHeld(b, m, user, Yes) == p.yesShares && TokensHeld(b, m, user, No) == p.noShares)
  }

  // ---- One position ----

  function Payout(p: Position, market: Market): int {
    match market.result
    case Some(outcome) => if outcome then p.yesShares else p.noShares
    case None => p.totalDeposited
  }

  /** `compute_settlement`: why a stored position cannot be settled, if so. */
  function Ineligible(b: Book, market: Market, m: u32, user: Address): Option<MarketError> {
    var p := PositionOf(b, m, user);
    if market.status != Resolved then Some(MarketNotResolved)
    else if p.isSettled then Some(PositionAlreadySettled)
    else if !Matched(b, m, user) then Some(PositionTokenMismatch)
    else if Payout(p, market) < 0 then Some(InvalidQuantity)
    else None
  }

  predicate Eligible(b: Book, market: Market, m: u32, user: Address) {
    Key(m, user) in b.positions && Ineligible(b, market, m, user) == None
  }

  function BurnSide(o: Outcomes, m: u32, user: Address, kind: TokenKind, shares: int): Outcomes {
    if shares > 0 then Adjust(o, m, user, kind, -shares) else o
  }

  function BurnBoth(o: Option<Outcomes>, m: u32, user: Address, p: Position): Option<Outcomes> {
    match o
    case Some(l) => Some(BurnSide(BurnSide(l, m, user, Yes, p.yesShares), m, user, No, p.noShares))
    case None => None
  }

  function PayOut(l: Ledger, holder: Address, user: Address, payout: int): Ledger {
    if payout > 0 then Move(l, holder, user, payout) else l
  }

  /** A settled position: marked, its outcome tokens burned, its payout made and recorded. */
  function Apply(b: Book, market: Market, m: u32, user: Address): Book {
    var p, key := PositionOf(b, m, user), Key(m, user);
    Book(b.holder, b.positions[key := p.(isSettled := true)], BurnBoth(b.outcomes, m, user, p),
         PayOut(b.ledger, b.holder, user, Payout(p, market)),
         b.payments[key := PaymentsTo(b, key) + [Payout(p, market)]])
  }

  predicate Payable(b: Book, market: Market, m: u32, user: Address) {
    Payout(PositionOf(b, m, user), market) <= Balance(b.ledger, b.holder)
  }

  /** `settle_position` */
  function SettleOne(b: Book, market: Market, m: u32, user: Address): Result<Book, MarketError> {
    if Key(m, user) !in b.positions then Failure(NoPositionFound)
    else
      match Ineligible(b, market, m, user)
      case Some(e) => Failure(e)
      case None => if Payable(b, market, m, user) then Success(Apply(b, market, m, user)) else Failure(HostTrap)
  }

  // ---- Many positions ----

  /** One turn of the batch loop: skip who cannot be settled, trap when the contract cannot pay. */
  function SettleOrSkip(b: Book, market: Market, m: u32, user: Address): Result<Book, MarketError> {
    if !Eligible(b, market, m, user) then Success(b) else SettleOne(b, market, m, user)
  }

  function BatchFold(b: Book, market: Market, m: u32, users: seq<Address>): Result<Book, MarketError> {
    if users == [] then Success(b)
    else
      var t :- BatchFold(b, market, m, users[..|users| - 1]);
      SettleOrSkip(t, market, m, users[|users| - 1])
  }

  /** The same users settling one by one, each in a call of their own; a failed call changes nothing. */
  function SinglesFold(b: Book, market: Market, m: u32, users: seq<Address>): Book {
    if users == [] then b
    else
      var t := SinglesFold(b, market, m, users[..|users| - 1]);
      match SettleOne(t, market, m, users[|users| - 1])
      case Success(n) => n
      case Failure(_) => t
  }

  // ---- Settling a set of users, in no particular order ----

  ghost function PickUser(users: set<Address>): (u: Address)
    requires users != {}
    ensures u in users
  {
    var u :| u in users; u
  }

  ghost function SettleSet(b: Book, market: Market, m: u32, users: set<Address>): Book
    decreases |users|
  {
    if users == {} then b
    else var u := PickUser(users); Apply(SettleSet(b, market, m, users - {u}), market, m, u)
  }

  lemma MovesCommute(l: Ledger, h: Address, u: Address, x: int, v: Address, y: int)
    requires u != v
    ensures PayOut(PayOut(l, h, u, x), h, v, y) == PayOut(PayOut(l, h, v, y), h, u, x)
  {
    if x > 0 && y > 0 {
      var a, b := Move(Move(l, h, u, x), h, v, y), Move(Move(l, h, v, y), h, u, x);
      assert a.balances.Keys == b.balances.Keys;
      forall k | k in a.balances ensures a.balances[k] == b.balances[k] {
        assert Balance(a, k) == Balance(b, k);
      }
      assert a.balances == b.balances;
    }
  }

  lemma BurnsCommuteSide(o: Outcomes, m: u32, u: Address, k: TokenKind, x: int, v: Address, l: TokenKind, y: int)
    requires u != v
    ensures BurnSide(BurnSide(o, m, u, k, x), m, v, l, y) == BurnSide(BurnSide(o, m, v, l, y), m, u, k, x)
  {
    if x > 0 && y > 0 {
      AdjustCommutes(o, m, u, k, -x, v, l, -y);
    }
  }

  lemma BurnsCommute(o: Option<Outcomes>, m: u32, u: Address, p: Position, v: Address, q: Position)
    requires u != v
    ensures BurnBoth(BurnBoth(o, m, u, p), m, v, q) == BurnBoth(BurnBoth(o, m, v, q), m, u, p)
  {
    if o.Some? {
      var y := BurnSide(o.value, m, u, Yes, p.yesShares);
      var z := BurnSide(o.value, m, v, Yes, q.yesShares);
      BurnsCommuteSide(y, m, u, No, p.noShares, v, Yes, q.yesShares);
      BurnsCommuteSide(o.value, m, u, Yes, p.yesShares, v, Yes, q.yesShares);
      BurnsCommuteSide(BurnSide(z, m, u, Yes, p.yesShares), m, u, No, p.noShares, v, No, q.noShares);
      BurnsCommuteSide(z, m, u, Yes, p.yesShares, v, No, q.noShares);
    }
  }

  /** Settling two different users in either order gives the same book. */
  lemma AppliesCommute(b: Book, market: Market, m: u32, u: Address, v: Address)
    requires u != v
    ensures Apply(Apply(b, market, m, u), market, m, v) == Apply(Apply(b, market, m, v), market, m, u)
  {
    var p, q := PositionOf(b, m, u), PositionOf(b, m, v);
    var i, j := Key(m, u), Key(m, v);
    MovesCommute(b.ledger, b.holder, u, Payout(p, market), v, Payout(q, market));
    BurnsCommute(b.outcomes, m, u, p, v, q);
    UpdatesCommute(b.positions, i, p.(isSettled := true), j, q.(isSettled := true));
    UpdatesCommute(b.payments, i, PaymentsTo(b, i) + [Payout(p, market)], j, PaymentsTo(b, j) + [Payout(q, market)]);
    ApplyFrame(b, market, m, u, v);
    ApplyFrame(b, market, m, v, u);
  }

  lemma {:induction false} SettleSetHolder(b: Book, market: Market, m: u32, users: set<Address>)
    ensures SettleSet(b, market, m, users).holder == b.holder
    decreases |users|
  {
    if users != {} {
      SettleSetHolder(b, market, m, users - {PickUser(users)});
    }
  }

  lemma {:induction false} SettleSetRemove(b: Book, market: Market, m: u32, users: set<Address>, v: Address)
    requires v in users
    ensures SettleSet(b, market, m, users) == Apply(SettleSet(b, market, m, users - {v}), market, m, v)
    decreases |users|
  {
    var p := PickUser(users);
    if p != v {
      SettleSetRemove(b, market, m, users - {p}, v);
      SettleSetRemove(b, market, m, users - {v}, p);
      assert users - {p} - {v} == users - {v} - {p};
      SettleSetHolder(b, market, m, users - {p} - {v});
      AppliesCommute(SettleSet(b, market, m, users - {p} - {v}), market, m, v, p);
    }
  }

  function Payouts(b: Book, market: Market, m: u32, users: set<Address>): map<Address, int> {
    map u | u in users :: Payout(PositionOf(b, m, u), market)
  }

  /** What the users are owed together. */
  ghost function TotalPayout(b: Book, market: Market, m: u32, users: set<Address>): int {
    SumBy(Payouts(b, market, m, users), Amount)
  }

  lemma TotalPayoutAdd(b: Book, market: Market, m: u32, users: set<Address>, v: Address)
    requires v !in users
    ensures TotalPayout(b, market, m, users + {v})
            == TotalPayout(b, market, m, users) + Payout(PositionOf(b, m, v), market)
  {
    var all := Payouts(b, market, m, users + {v});
    SumByRemove(all, Amount, v);
    assert all - {v} == Payouts(b, market, m, users);
  }

  /** What settling the users costs the contract: what it pays to itself it keeps. */
  ghost function Cost(b: Book, market: Market, m: u32, users: set<Address>): int {
    TotalPayout(b, market, m, users - {b.holder})
  }

  lemma CostAdd(b: Book, market: Market, m: u32, users: set<Address>, v: Address)
    requires v !in users
    ensures Cost(b, market, m, users + {v})
            == Cost(b, market, m, users) + if v == b.holder then 0 else Payout(PositionOf(b, m, v), market)
  {
    if v == b.holder {
      assert users + {v} - {b.holder} == users - {b.holder};
    } else {
      assert users + {v} - {b.holder} == users - {b.holder} + {v};
      TotalPayoutAdd(b, market, m, users - {b.holder}, v);
    }
  }

  /** What settling `u` means for another user `v`: nothing. */
  lemma ApplyFrame(b: Book, market: Market, m: u32, u: Address, v: Address)
    requires u != v
    ensures var t := Apply(b, market, m, u);
            && (Key(m, v) in t.positions <==> Key(m, v) in b.positions)
            && PositionOf(t, m, v) == PositionOf(b, m, v)
            && TokensHeld(t, m, v, Yes) == TokensHeld(b, m, v, Yes)
            && TokensHeld(t, m, v, No) == TokensHeld(b, m, v, No)
            && PaymentsTo(t, Key(m, v)) == PaymentsTo(b, Key(m, v))
  {
  }

  /** The effect of settling a set, seen from any single user, and on the contract's balance. */
  lemma {:induction false} SettleSetEffect(b: Book, market: Market, m: u32, users: set<Address>, v: Address)
    requires forall u :: u in users ==> Payout(PositionOf(b, m, u), market) >= 0
    ensures var t := SettleSet(b, market, m, users);
            && t.holder == b.holder
            && Balance(t.ledger, b.holder) == Balance(b.ledger, b.holder) - Cost(b, market, m, users)
            && (v !in users ==>
                  (Key(m, v) in t.positions <==> Key(m, v) in b.positions)
                  && PositionOf(t, m, v) == PositionOf(b, m, v)
                  && TokensHeld(t, m, v, Yes) == TokensHeld(b, m, v, Yes)
                  && TokensHeld(t, m, v, No) == TokensHeld(b, m, v, No))
            && (v in users ==> Key(m, v) in t.positions
                               && PositionOf(t, m, v) == PositionOf(b, m, v).(isSettled := true))
    decreases |users|
  {
    if users != {} {
      var u := PickUser(users);
      var rest := users - {u};
      assert rest + {u} == users;
      CostAdd(b, market, m, rest, u);
      SettleSetEffect(b, market, m, rest, v);
      SettleSetEffect(b, market, m, rest, u);
      if v != u {
        ApplyFrame(SettleSet(b, market, m, rest), market, m, u, v);
      }
    }
  }

  // ---- The three routes agree ----

  ghost function EligibleAmong(b: Book, market: Market, m: u32, users: seq<Address>): set<Address> {
    set u | u in users && Eligible(b, market, m, u)
  }

  /** The users before the first mention of the contract itself. */
  function BeforeSelf(users: seq<Address>, holder: Address): seq<Address> {
    if users == [] then []
    else
      var init := users[..|users| - 1];
      if holder in init then BeforeSelf(init, holder)
      else if users[|users| - 1] == holder then init else users
  }

  ghost function CostOf(b: Book, market: Market, m: u32, users: seq<Address>): int {
    Cost(b, market, m, EligibleAmong(b, market, m, users))
  }

  /** The contract settles no position of its own along with its users'. */
  predicate HolderApart(b: Book, market: Market, m: u32, users: seq<Address>) {
    b.holder !in users || !Eligible(b, market, m, b.holder)
  }

  /**
   What the contract must hold: all it pays to others and, should it settle a position of its own, the payout of that
   position at the time.
   */
  ghost predicate Affordable(b: Book, market: Market, m: u32, users: seq<Address>) {
    var held := Balance(b.ledger, b.holder);
    && CostOf(b, market, m, users) <= held
    && (HolderApart(b, market, m, users)
        || CostOf(b, market, m, BeforeSelf(users, b.holder)) + Payout(PositionOf(b, m, b.holder), market) <= held)
  }

  lemma EligibleLast(b: Book, market: Market, m: u32, users: seq<Address>)
    requires users != []
    ensures var init, last := users[..|users| - 1], users[|users| - 1];
            && (Eligible(b, market, m, last) ==>
                  EligibleAmong(b, market, m, users) == EligibleAmong(b, market, m, init) + {last})
            && (!Eligible(b, market, m, last) || last in init ==>
                  EligibleAmong(b, market, m, users) == EligibleAmong(b, market, m, init))
  {
  }

  /** After settling a set, exactly the eligible users outside it are still eligible, at the same payout. */
  lemma EligibleAfter(b: Book, market: Market, m: u32, users: set<Address>, v: Address)
    requires forall u :: u in users ==> Eligible(b, market, m, u)
    ensures var t := SettleSet(b, market, m, users);
            && t.holder == b.holder
            && (Eligible(t, market, m, v) <==> Eligible(b, market, m, v) && v !in users)
            && Payout(PositionOf(t, m, v), market) == Payout(PositionOf(b, m, v), market)
            && Balance(t.ledger, b.holder) == Balance(b.ledger, b.holder) - Cost(b, market, m, users)
  {
    SettleSetEffect(b, market, m, users, v);
  }

  /** How the condition grows by one user: nothing new, or a payout out of what the others have left. */
  lemma AffordableLast(b: Book, market: Market, m: u32, users: seq<Address>)
    requires users != []
    ensures var init, last := users[..|users| - 1], users[|users| - 1];
            if Eligible(b, market, m, last) && last !in init then
              Affordable(b, market, m, users)
              <==> Affordable(b, market, m, init)
                   && Payout(PositionOf(b, m, last), market)
                      <= Balance(b.ledger, b.holder) - CostOf(b, market, m, init)
            else
              Affordable(b, market, m, users) <==> Affordable(b, market, m, init)
  {
    var init, last := users[..|users| - 1], users[|users| - 1];
    EligibleLast(b, market, m, users);
    if Eligible(b, market, m, last) && last !in init {
      CostAdd(b, market, m, EligibleAmong(b, market, m, init), last);
    }
  }

  /**
   A batch, whatever repetitions, strangers and settled users it lists, settles each eligible user once; it
   traps exactly when the contract cannot pay them all.
   */
  lemma {:induction false} BatchIsSet(b: Book, market: Market, m: u32, users: seq<Address>)
    requires Balance(b.ledger, b.holder) >= 0
    ensures BatchFold(b, market, m, users).Success? <==> Affordable(b, market, m, users)
    ensures BatchFold(b, market, m, users).Success? ==>
              BatchFold(b, market, m, users).value == SettleSet(b, market, m, EligibleAmong(b, market, m, users))
    ensures BatchFold(b, market, m, users).Failure? ==> BatchFold(b, market, m, users) == Failure(HostTrap)
  {
    var all := EligibleAmong(b, market, m, users);
    if users == [] {
      assert all == {} && all - {b.holder} == {};
      SumByZero(Payouts(b, market, m, all), Amount);
    } else {
      var init, last := users[..|users| - 1], users[|users| - 1];
      var before := EligibleAmong(b, market, m, init);
      BatchIsSet(b, market, m, init);
      EligibleLast(b, market, m, users);
      AffordableLast(b, market, m, users);
      if BatchFold(b, market, m, init).Success? {
        EligibleAfter(b, market, m, before, last);
        if Eligible(b, market, m, last) && last !in before {
          assert all - {last} == before;
          SettleSetRemove(b, market, m, all, last);
        } else {
          assert all == before;
        }
      }
    }
  }

  /** Whenever the batch goes through, the users settling one by one end in the very same book. */
  lemma {:induction false} SinglesAgree(b: Book, market: Market, m: u32, users: seq<Address>)
    requires BatchFold(b, market, m, users).Success?
    ensures SinglesFold(b, market, m, users) == BatchFold(b, market, m, users).value
  {
    if users != [] {
      SinglesAgree(b, market, m, users[..|users| - 1]);
    }
  }

  lemma {:induction false} BatchConcat(b: Book, market: Market, m: u32, us: seq<Address>, vs: seq<Address>)
    ensures BatchFold(b, market, m, us).Success? ==>
              BatchFold(b, market, m, us + vs) == BatchFold(BatchFold(b, market, m, us).value, market, m, vs)
    ensures BatchFold(b, market, m, us).Failure? ==>
              BatchFold(b, market, m, us + vs) == BatchFold(b, market, m, us)
    decreases |vs|
  {
    if vs == [] {
      assert us + vs == us;
    } else {
      assert (us + vs)[..|us + vs| - 1] == us + vs[..|vs| - 1];
      BatchConcat(b, market, m, us, vs[..|vs| - 1]);
    }
  }

  // ---- Pages ----

  /** The end of a page: 32-bit saturating addition, cut off at the number of participants. */
  function PageEnd(start: nat, limit: nat, total: nat): nat {
    Min(Min(start + limit, U32_MAX), total)
  }

  /** Repeats `settle_positions_page` from `start`, each time from the index returned, until it is complete. */
  function Iterate(b: Book, market: Market, m: u32, participants: seq<Address>, start: nat, limit: nat -> nat)
    : Result<Book, MarketError>
    requires |participants| <= U32_MAX && forall i :: limit(i) >= 1
    decreases |participants| - start
  {
    if start >= |participants| then Success(b)
    else
      var end := PageEnd(start, limit(start), |participants|);
      var t :- BatchFold(b, market, m, participants[start..end]);
      Iterate(t, market, m, participants, end, limit)
  }

  /** However the pages are cut, they add up to one pass over the participants. */
  lemma {:induction false} PagesAreOneBatch(b: Book, market: Market, m: u32, participants: seq<Address>, start: nat,
                                            limit: nat -> nat)
    requires start <= |participants| <= U32_MAX && forall i :: limit(i) >= 1
    ensures Iterate(b, market, m, participants, start, limit) == BatchFold(b, market, m, participants[start..])
    decreases |participants| - start
  {
    if start == |participants| {
      assert participants[start..] == [];
    } else {
      var end := PageEnd(start, limit(start), |participants|);
      assert participants[start..] == participants[start..end] + participants[end..];
      BatchConcat(b, market, m, participants[start..end], participants[end..]);
      if BatchFold(b, market, m, participants[start..end]).Success? {
        PagesAreOneBatch(BatchFold(b, market, m, participants[start..end]).value, market, m, participants, end, limit);
      }
    }
  }

  /**
   All routes agree: paging through the participants, a batch of any users, and single calls settle each eligible
   user they name once. Paging and a batch that name the same eligible users leave the same state; unless the contract
   settles a position of its own, they also trap together.
   */
  lemma RoutesAgree(b: Book, market: Market, m: u32, participants: seq<Address>, users: seq<Address>,
                    limit: nat -> nat)
    requires Balance(b.ledger, b.holder) >= 0
    requires |participants| <= U32_MAX && forall i :: limit(i) >= 1
    ensures var paged, batch := Iterate(b, market, m, participants, 0, limit), BatchFold(b, market, m, users);
            var listed, named := EligibleAmong(b, market, m, participants), EligibleAmong(b, market, m, users);
            && (paged.Success? ==> paged.value == SettleSet(b, market, m, listed))
            && (batch.Success? ==> batch.value == SettleSet(b, market, m, named)
                                   && SinglesFold(b, market, m, users) == batch.value)
            && (named == listed && HolderApart(b, market, m, users) ==> paged == batch)
  {
    PagesAreOneBatch(b, market, m, participants, 0, limit);
    assert participants[0..] == participants;
    BatchIsSet(b, market, m, participants);
    BatchIsSet(b, market, m, users);
    if BatchFold(b, market, m, users).Success? {
      SinglesAgree(b, market, m, users);
    }
    assert b.holder in EligibleAmong(b, market, m, users) <==> !HolderApart(b, market, m, users);
    assert b.holder in EligibleAmong(b, market, m, participants) <==> !HolderApart(b, market, m, participants);
  }

  /** Routes may be mixed in any order: settling some users and then others is settling the others first. */
  lemma RouteOrderIsIrrelevant(b: Book, market: Market, m: u32, us: seq<Address>, vs: seq<Address>)
    requires Balance(b.ledger, b.holder) >= 0
    requires BatchFold(b, market, m, us).Success? && BatchFold(b, market, m, vs).Success?
    ensures var usFirst := BatchFold(BatchFold(b, market, m, us).value, market, m, vs);
            var vsFirst := BatchFold(BatchFold(b, market, m, vs).value, market, m, us);
            && (usFirst.Success? && vsFirst.Success? ==> usFirst == vsFirst)
            && (HolderApart(b, market, m, us + vs) ==> usFirst == vsFirst)
  {
    BatchConcat(b, market, m, us, vs);
    BatchConcat(b, market, m, vs, us);
    assert EligibleAmong(b, market, m, us + vs) == EligibleAmong(b, market, m, vs + us);
    BatchIsSet(b, market, m, us + vs);
    BatchIsSet(b, market, m, vs + us);
  }

  // ---- What everybody ends up with ----

  /** Settling a set pays each of its users once, the payout owed before, and nobody else. */
  lemma {:induction false} SettleSetPays(b: Book, market: Market, m: u32, users: set<Address>, v: Address)
    requires forall u :: u in users ==> Payout(PositionOf(b, m, u), market) >= 0
    ensures var t := SettleSet(b, market, m, users);
            var payout := Payout(PositionOf(b, m, v), market);
            && PaymentsTo(t, Key(m, v)) == PaymentsTo(b, Key(m, v)) + (if v in users then [payout] else [])
            && (v != b.holder ==> Balance(t.ledger, v) == Balance(b.ledger, v) + (if v in users then payout else 0))
    decreases |users|
  {
    if users != {} {
      var u := PickUser(users);
      var rest := users - {u};
      SettleSetPays(b, market, m, rest, v);
      SettleSetHolder(b, market, m, rest);
      SettleSetEffect(b, market, m, rest, u);
      if v != u {
        ApplyFrame(SettleSet(b, market, m, rest), market, m, u, v);
      }
    }
  }

  /** A batch that goes through settles exactly those of its users who were eligible. */
  lemma BatchSettles(b: Book, market: Market, m: u32, users: seq<Address>, v: Address)
    requires Balance(b.ledger, b.holder) >= 0 && BatchFold(b, market, m, users).Success?
    ensures var p := PositionOf(b, m, v);
            PositionOf(BatchFold(b, market, m, users).value, m, v)
            == if v in users && Eligible(b, market, m, v) then p.(isSettled := true) else p
  {
    BatchIsSet(b, market, m, users);
    SettleSetEffect(b, market, m, EligibleAmong(b, market, m, users), v);
  }

  /** And it pays each of them the payout owed before, once, and nobody else anything. */
  lemma BatchEffect(b: Book, market: Market, m: u32, users: seq<Address>, v: Address)
    requires Balance(b.ledger, b.holder) >= 0 && BatchFold(b, market, m, users).Success?
    ensures var t := BatchFold(b, market, m, users).value;
            var p, paid := PositionOf(b, m, v), v in users && Eligible(b, market, m, v);
            && PositionOf(t, m, v) == (if paid then p.(isSettled := true) else p)
            && PaymentsTo(t, Key(m, v)) == PaymentsTo(b, Key(m, v)) + (if paid then [Payout(p, market)] else [])
            && (v != b.holder ==>
                  Balance(t.ledger, v) == Balance(b.ledger, v) + (if paid then Payout(p, market) else 0))
  {
    BatchSettles(b, market, m, users, v);
    BatchIsSet(b, market, m, users);
    SettleSetPays(b, market, m, EligibleAmong(b, market, m, users), v);
  }

  /** The running total a batch reports, added up with saturation. */
  function BatchTotal(b: Book, market: Market, m: u32, users: seq<Address>): int {
    if users == [] then 0
    else
      var sum := BatchTotal(b, market, m, users[..|users| - 1]);
      match BatchFold(b, market, m, users[..|users| - 1])
      case Failure(_) => sum
      case Success(t) =>
        var last := users[|users| - 1];
        if Eligible(t, market, m, last) then Saturate(sum + Payout(PositionOf(t, m, last), market)) else sum
  }

  /** The total is what the users settled were owed, cut off at the largest 128-bit number. */
  lemma {:induction false} BatchTotalIsOwed(b: Book, market: Market, m: u32, users: seq<Address>)
    requires Balance(b.ledger, b.holder) >= 0 && BatchFold(b, market, m, users).Success?
    ensures TotalPayout(b, market, m, EligibleAmong(b, market, m, users)) >= 0
    ensures BatchTotal(b, market, m, users)
            == Min(I128_MAX, TotalPayout(b, market, m, EligibleAmong(b, market, m, users)))
  {
    var all := EligibleAmong(b, market, m, users);
    if users == [] {
      assert all == {};
      SumByZero(Payouts(b, market, m, all), Amount);
    } else {
      var init, last := users[..|users| - 1], users[|users| - 1];
      var before := EligibleAmong(b, market, m, init);
      BatchTotalIsOwed(b, market, m, init);
      BatchIsSet(b, market, m, init);
      EligibleLast(b, market, m, users);
      EligibleAfter(b, market, m, before, last);
      if Eligible(b, market, m, last) && last !in before {
        TotalPayoutAdd(b, market, m, before, last);
      }
    }
  }

  lemma OwedIsCost(b: Book, market: Market, m: u32, users: set<Address>)
    ensures TotalPayout(b, market, m, users)
            == Cost(b, market, m, users)
               + if b.holder in users then Payout(PositionOf(b, m, b.holder), market) else 0
  {
    if b.holder in users {
      assert users - {b.holder} + {b.holder} == users;
      TotalPayoutAdd(b, market, m, users - {b.holder}, b.holder);
    } else {
      assert users - {b.holder} == users;
    }
  }

  /** It never saturates while it comes out of the contract's balance; only a payment to itself is counted on top. */
  lemma TotalNeverSaturates(b: Book, market: Market, m: u32, users: seq<Address>)
    requires 0 <= Balance(b.ledger, b.holder) && BatchFold(b, market, m, users).Success?
    ensures var owed := TotalPayout(b, market, m, EligibleAmong(b, market, m, users));
            && 0 <= owed <= 2 * Balance(b.ledger, b.holder)
            && (BatchTotal(b, market, m, users) == owed <==> owed <= I128_MAX)
            && (HolderApart(b, market, m, users) ==>
                  owed == Balance(b.ledger, b.holder) - Balance(BatchFold(b, market, m, users).value.ledger, b.holder)
                  && owed <= Balance(b.ledger, b.holder))
  {
    BatchTotalIsOwed(b, market, m, users);
    BatchIsSet(b, market, m, users);
    OwedIsCost(b, market, m, EligibleAmong(b, market, m, users));
    SettleSetEffect(b, market, m, EligibleAmong(b, market, m, users), b.holder);
    CostNonnegative(b, market, m, BeforeSelf(users, b.holder));
  }

  lemma CostNonnegative(b: Book, market: Market, m: u32, users: seq<Address>)
    ensures CostOf(b, market, m, users) >= 0
  {
    SumByNonnegative(Payouts(b, market, m, EligibleAmong(b, market, m, users) - {b.holder}), Amount);
  }

  // ---- The outcome-token side ----

  /** Settling retires exactly the user's shares from the supply and leaves the user none. */
  lemma SettleRetiresShares(b: Book, market: Market, m: u32, user: Address)
    requires Eligible(b, market, m, user) && b.outcomes.Some? && Backed(b.outcomes.value)
    ensures var p := PositionOf(b, m, user);
            var t := Apply(b, market, m, user).outcomes;
            && t.Some? && Backed(t.value)
            && p.yesShares >= 0 && p.noShares >= 0
            && BalanceOf(t.value, m, user, Yes) == 0 && BalanceOf(t.value, m, user, No) == 0
            && TotalSupply(t.value, m, Yes) == TotalSupply(b.outcomes.value, m, Yes) - p.yesShares
            && TotalSupply(t.value, m, No) == TotalSupply(b.outcomes.value, m, No) - p.noShares
  {
    BurnEmpties(b.outcomes.value, m, user, PositionOf(b, m, user));
  }

  lemma BurnEmpties(o: Outcomes, m: u32, user: Address, p: Position)
    requires Backed(o) && BalanceOf(o, m, user, Yes) == p.yesShares && BalanceOf(o, m, user, No) == p.noShares
    ensures var t := BurnBoth(Some(o), m, user, p).value;
            && Backed(t)
            && p.yesShares >= 0 && p.noShares >= 0
            && BalanceOf(t, m, user, Yes) == 0 && BalanceOf(t, m, user, No) == 0
            && TotalSupply(t, m, Yes) == TotalSupply(o, m, Yes) - p.yesShares
            && TotalSupply(t, m, No) == TotalSupply(o, m, No) - p.noShares
  {
    BurnSideExact(o, m, user, Yes);
    BurnSideExact(BurnSide(o, m, user, Yes, p.yesShares), m, user, No);
  }

  lemma BurnSideExact(o: Outcomes, m: u32, user: Address, kind: TokenKind)
    requires Backed(o)
    ensures var shares := BalanceOf(o, m, user, kind);
            var t := BurnSide(o, m, user, kind, shares);
            var opposite := if kind == Yes then No else Yes;
            && shares >= 0 && Backed(t)
            && BalanceOf(t, m, user, kind) == 0
            && TotalSupply(t, m, kind) == TotalSupply(o, m, kind) - shares
            && BalanceOf(t, m, user, opposite) == BalanceOf(o, m, user, opposite)
            && TotalSupply(t, m, opposite) == TotalSupply(o, m, opposite)
  {
    BalanceWithinSupply(o, m, user, kind);
    if BalanceOf(o, m, user, kind) > 0 {
      AdjustKeepsBacked(o, m, user, kind, -BalanceOf(o, m, user, kind));
    }
  }

  /** Settling disturbs no other user's tokens, and no other pair of ledgers that agreed or disagreed. */
  lemma SettleDisturbsNobody(b: Book, market: Market, m: u32, user: Address, n: u32, other: Address, kind: TokenKind)
    requires other != user || n != m
    ensures var t := Apply(b, market, m, user);
            && TokensHeld(t, n, other, kind) == TokensHeld(b, n, other, kind)
            && PositionOf(t, n, other) == PositionOf(b, n, other)
            && (Matched(t, n, other) <==> Matched(b, n, other))
  {
  }

  /** A settled position is never settled again, by any route. */
  lemma SettledStaysSettled(b: Book, market: Market, m: u32, user: Address)
    requires PositionOf(b, m, user).isSettled
    ensures SettleOne(b, market, m, user).Failure? && SettleOrSkip(b, market, m, user) == Success(b)
  {
  }
}
