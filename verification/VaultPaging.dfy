/** The participant list over whole runs, and whom paging through it reaches. */
module VaultPaging {
  import opened Base
  import opened TokenLedger
  import opened MarketTypes
  import opened Settlement
  import opened Vault
  import opened VaultInvariant
  import opened VaultRuns

  function ListOf(s: State, m: u32): seq<Address> {
    ParticipantsOf(s.accounts.participants, m)
  }

  // ---- Who is listed, and who has a position ----

  /** Calls that put a user on a market's list. */
  predicate Enlists(op: Op, key: Key) {
    match op
    case OpDeposit(user, m, _) => Key(m, user) == key
    case OpTrade(user, m, _, _, _) => Key(m, user) == key
    case _ => false
  }

  /** Calls that give a user a position: those, and transfers to the user. */
  predicate Stores(op: Op, key: Key) {
    Enlists(op, key) || (op.OpTransfer? && Key(op.m, op.to) == key)
  }

  lemma StepLists(s: State, e: Event, key: Key)
    requires Works(s, e)
    ensures key.user in ListOf(Next(s, e), key.marketId)
            <==> key.user in ListOf(s, key.marketId) || Enlists(e.op, key)
    ensures ListOf(s, key.marketId) <= ListOf(Next(s, e), key.marketId)
  {
  }

  lemma {:induction false} BatchStores(b: Book, market: Market, m: u32, users: seq<Address>)
    requires BatchFold(b, market, m, users).Success?
    ensures BatchFold(b, market, m, users).value.positions.Keys == b.positions.Keys
  {
    if users != [] {
      BatchStores(b, market, m, users[..|users| - 1]);
    }
  }

  lemma StepStores(s: State, e: Event, key: Key)
    requires Works(s, e)
    ensures key in Next(s, e).book.positions <==> key in s.book.positions || Stores(e.op, key)
  {
    match e.op
    case OpBatchSettle(m, users) => BatchStores(s.book, s.config.markets[m], m, users);
    case OpSettlePage(m, start, limit) =>
      BatchStores(s.book, s.config.markets[m], m, PageOf(ListOf(s, m), start, limit));
    case _ =>
  }

  /** The `i`-th event went through and lists the user, or stores the position. */
  predicate EnlistedAt(s: State, es: seq<Event>, key: Key, i: nat) {
    i < |es| && Enlists(es[i].op, key) && Succeeded(s, es, i)
  }

  predicate StoredAt(s: State, es: seq<Event>, key: Key, i: nat) {
    i < |es| && Stores(es[i].op, key) && Succeeded(s, es, i)
  }

  function Enlisting(s: State, es: seq<Event>, key: Key): nat -> bool {
    (i: nat) => EnlistedAt(s, es, key, i)
  }

  function Storing(s: State, es: seq<Event>, key: Key): nat -> bool {
    (i: nat) => StoredAt(s, es, key, i)
  }

  /** Some step below `n` has been made. */
  ghost predicate Made(step: nat -> bool, n: nat) {
    exists i :: 0 <= i < n && step(i)
  }

  /** What some step brings about and no step undoes holds exactly when such a step has been made. */
  lemma {:induction false} Accumulates(holds: nat -> bool, step: nat -> bool, n: nat)
    requires !holds(0) && forall i :: 0 <= i < n ==> (holds(i + 1) <==> holds(i) || step(i))
    ensures holds(n) <==> Made(step, n)
  {
    if n > 0 {
      Accumulates(holds, step, n - 1);
    }
  }

  lemma AtLists(s: State, es: seq<Event>, i: nat, key: Key)
    requires i < |es|
    ensures key.user in ListOf(At(s, es, i + 1), key.marketId)
            <==> key.user in ListOf(At(s, es, i), key.marketId) || (Succeeded(s, es, i) && Enlists(es[i].op, key))
    ensures ListOf(At(s, es, i), key.marketId) <= ListOf(At(s, es, i + 1), key.marketId)
  {
    AtNext(s, es, i);
    if Succeeded(s, es, i) {
      StepLists(At(s, es, i), es[i], key);
    }
  }

  lemma AtStores(s: State, es: seq<Event>, i: nat, key: Key)
    requires i < |es|
    ensures key in At(s, es, i + 1).book.positions
            <==> key in At(s, es, i).book.positions || (Succeeded(s, es, i) && Stores(es[i].op, key))
  {
    AtNext(s, es, i);
    if Succeeded(s, es, i) {
      StepStores(At(s, es, i), es[i], key);
    }
  }

  /** Over every run, exactly those are on a market's list who deposited or traded there. */
  lemma ListedExactly(s: State, es: seq<Event>, n: nat, key: Key)
    requires Initial(s) && n <= |es|
    ensures key.user in ListOf(At(s, es, n), key.marketId) <==> Made(Enlisting(s, es, key), n)
  {
    var holds := (i: nat) => i <= |es| && key.user in ListOf(At(s, es, i), key.marketId);
    forall i | 0 <= i < n ensures holds(i + 1) <==> holds(i) || EnlistedAt(s, es, key, i) {
      AtLists(s, es, i, key);
    }
    Accumulates(holds, Enlisting(s, es, key), n);
  }

  /** And exactly those have a position who did so or received a transfer. */
  lemma StoredExactly(s: State, es: seq<Event>, n: nat, key: Key)
    requires Initial(s) && n <= |es|
    ensures key in At(s, es, n).book.positions <==> Made(Storing(s, es, key), n)
  {
    var holds := (i: nat) => i <= |es| && key in At(s, es, i).book.positions;
    forall i | 0 <= i < n ensures holds(i + 1) <==> holds(i) || StoredAt(s, es, key, i) {
      AtStores(s, es, i, key);
    }
    Accumulates(holds, Storing(s, es, key), n);
  }

  lemma MadeAt(step: nat -> bool, n: nat) returns (i: nat)
    requires Made(step, n)
    ensures i < n && step(i)
  {
    i :| 0 <= i < n && step(i);
  }

  /** A position whose owner is not listed was received: a transfer to it went through, no deposit and no trade. */
  lemma UnlistedWasReceived(s: State, es: seq<Event>, key: Key) returns (i: nat)
    requires Initial(s)
    requires key in Run(s, es).book.positions && key.user !in ListOf(Run(s, es), key.marketId)
    ensures i < |es| && Succeeded(s, es, i) && es[i].op.OpTransfer? && Key(es[i].op.m, es[i].op.to) == key
    ensures !Made(Enlisting(s, es, key), |es|)
  {
    assert es[..|es|] == es;
    ListedExactly(s, es, |es|, key);
    StoredExactly(s, es, |es|, key);
    i := MadeAt(Storing(s, es, key), |es|);
    assert !Enlisting(s, es, key)(i);
  }

  // ---- Paging in one go ----

  /** Paging to the end settles an eligible user if and only if the user is on the list. */
  lemma PagingReachesExactlyTheListed(s: State, m: u32, user: Address, limit: nat -> nat)
    requires Inv(s) && m in s.config.markets && Eligible(s.book, s.config.markets[m], m, user)
    requires |ListOf(s, m)| <= U32_MAX && forall i :: limit(i) >= 1
    requires Iterate(s.book, s.config.markets[m], m, ListOf(s, m), 0, limit).Success?
    ensures var b := Iterate(s.book, s.config.markets[m], m, ListOf(s, m), 0, limit).value;
            var payout := Payout(PositionOf(s.book, m, user), s.config.markets[m]);
            && (PositionOf(b, m, user).isSettled <==> user in ListOf(s, m))
            && (user in ListOf(s, m) ==>
                  PaymentsTo(b, Key(m, user)) == [payout]
                  && Balance(b.ledger, user) == Balance(s.book.ledger, user) + payout)
  {
    var list := ListOf(s, m);
    assert list[0..] == list;
    PagesAreOneBatch(s.book, s.config.markets[m], m, list, 0, limit);
    BalanceWithinIssued(s.book.ledger, s.book.holder);
    BatchSettles(s.book, s.config.markets[m], m, list, user);
    if user in list {
      BatchEffect(s.book, s.config.markets[m], m, list, user);
      assert |PaymentsTo(s.book, Key(m, user))| == 0;
    }
  }

  /** Nothing but the state of the market stands in the way of its pages. */
  predicate Pageable(s: State, m: u32) {
    s.config.mode != GlobalFreeze && MarketUnsettleable(s.config, m) == None && |ListOf(s, m)| <= U32_MAX
  }

  function IterateFrom(s: State, m: u32, start: nat, limit: nat -> nat): Result<Book, MarketError>
    requires Pageable(s, m) && forall i :: limit(i) >= 1
  {
    Iterate(s.book, s.config.markets[m], m, ListOf(s, m), start, limit)
  }

  /** One page call is one turn of the iteration. */
  lemma PageIsTurn(s: State, now: nat, m: u32, start: nat, limit: nat -> nat)
    requires Pageable(s, m) && start < |ListOf(s, m)| && forall i :: 1 <= limit(i) <= U32_MAX
    requires IterateFrom(s, m, start, limit).Success?
    ensures var t := Next(s, Event(now, OpSettlePage(m, start, limit(start))));
            && t == s.(book := t.book)
            && IterateFrom(t, m, PageEnd(start, limit(start), |ListOf(s, m)|), limit) == IterateFrom(s, m, start, limit)
  {
    assert Step(s, now, OpSettlePage(m, start, limit(start))) == SettlePage(s, m, start, limit(start));
  }

  /** A client calls for page after page, each from the index the last call returned, until `total` is reached. */
  function PageLoop(s: State, now: nat, m: u32, start: nat, total: nat, limit: nat -> nat): State
    requires total <= U32_MAX && forall i :: 1 <= limit(i) <= U32_MAX
    decreases total - start
  {
    if start >= total then s
    else
      PageLoop(Next(s, Event(now, OpSettlePage(m, start, limit(start)))), now, m, PageEnd(start, limit(start), total),
               total, limit)
  }

  /** That loop makes up the iteration, and changes nothing else. */
  lemma {:induction false} LoopIsIteration(s: State, now: nat, m: u32, start: nat, limit: nat -> nat)
    requires Pageable(s, m) && forall i :: 1 <= limit(i) <= U32_MAX
    requires IterateFrom(s, m, start, limit).Success?
    ensures PageLoop(s, now, m, start, |ListOf(s, m)|, limit) == s.(book := IterateFrom(s, m, start, limit).value)
    decreases |ListOf(s, m)| - start
  {
    if start < |ListOf(s, m)| {
      PageIsTurn(s, now, m, start, limit);
      var t := Next(s, Event(now, OpSettlePage(m, start, limit(start))));
      LoopIsIteration(t, now, m, PageEnd(start, limit(start), |ListOf(s, m)|), limit);
    }
  }

  // ---- Paging with other calls in between ----

  /**
   How far paging has come after `n` events: page calls that start no later than the index reached so far carry it
   on to the index they return; whatever happens in between leaves it.
   */
  function Reached(s: State, es: seq<Event>, n: nat, m: u32): nat
    requires n <= |es|
  {
    if n == 0 then 0
    else
      var before, e := Reached(s, es, n - 1, m), es[n - 1];
      if e.op.OpSettlePage? && e.op.m == m && Succeeded(s, es, n - 1) && e.op.start <= before
      then Max(before, PageEnd(e.op.start, e.op.limit, |ListOf(At(s, es, n - 1), m)|))
      else before
  }

  /** The page of event `i` holds the user. */
  predicate PagedAt(s: State, es: seq<Event>, i: nat, m: u32, user: Address)
    requires i < |es|
  {
    && Succeeded(s, es, i) && es[i].op.OpSettlePage? && es[i].op.m == m
    && user in PageOf(ListOf(At(s, es, i), m), es[i].op.start, es[i].op.limit)
  }

  /** Lists only grow at the end. */
  lemma ListGrows(s: State, es: seq<Event>, i: nat, m: u32)
    requires i < |es|
    ensures ListOf(At(s, es, i), m) <= ListOf(At(s, es, i + 1), m)
  {
    AtLists(s, es, i, Key(m, At(s, es, i).book.holder));
  }

  lemma PageHolds(list: seq<Address>, start: u32, limit: u32, j: nat)
    requires start <= j < PageEnd(start, limit, |list|)
    ensures j < |list| && list[j] in PageOf(list, start, limit)
  {
    assert PageOf(list, start, limit)[j - start] == list[j];
  }

  /** Every index below the one reached has been in some page, whatever was appended to the list meanwhile. */
  lemma {:induction false} ReachedWasPaged(s: State, es: seq<Event>, n: nat, m: u32, j: nat) returns (i: nat)
    requires n <= |es| && j < Reached(s, es, n, m)
    ensures j < |ListOf(At(s, es, n), m)| && i < n && PagedAt(s, es, i, m, ListOf(At(s, es, n), m)[j])
    decreases n
  {
    var e, list := es[n - 1], ListOf(At(s, es, n - 1), m);
    ListGrows(s, es, n - 1, m);
    if j < Reached(s, es, n - 1, m) {
      i := ReachedWasPaged(s, es, n - 1, m, j);
    } else {
      PageHolds(list, e.op.start, e.op.limit, j);
      i := n - 1;
    }
  }

  lemma PageSettles(s: State, e: Event, user: Address)
    requires Inv(s) && Works(s, e) && e.op.OpSettlePage? && user in PageOf(ListOf(s, e.op.m), e.op.start, e.op.limit)
    requires Eligible(s.book, s.config.markets[e.op.m], e.op.m, user)
    ensures PositionOf(Next(s, e).book, e.op.m, user).isSettled
    ensures PaymentsTo(Next(s, e).book, Key(e.op.m, user))
            == [Payout(PositionOf(s.book, e.op.m, user), s.config.markets[e.op.m])]
  {
    var m, page := e.op.m, PageOf(ListOf(s, e.op.m), e.op.start, e.op.limit);
    BalanceWithinIssued(s.book.ledger, s.book.holder);
    BatchEffect(s.book, s.config.markets[m], m, page, user);
    assert |PaymentsTo(s.book, Key(m, user))| == 0;
  }

  /** Whoever is eligible when a page holding them is settled is paid the payout due then, and never again. */
  lemma PagedIsPaid(s: State, es: seq<Event>, i: nat, m: u32, user: Address)
    requires Initial(s) && i < |es| && PagedAt(s, es, i, m, user)
    requires Eligible(At(s, es, i).book, At(s, es, i).config.markets[m], m, user)
    ensures var b := Run(s, es).book;
            && PositionOf(b, m, user).isSettled
            && PaymentsTo(b, Key(m, user))
               == [Payout(PositionOf(At(s, es, i).book, m, user), At(s, es, i).config.markets[m])]
  {
    InitialInv(s);
    RunKeeps(s, es[..i]);
    PageSettles(At(s, es, i), es[i], user);
    AtNext(s, es, i);
    NeverPaidAgain(s, es, i + 1, |es|, Key(m, user));
    assert es[..|es|] == es;
  }

  /**
   Paging that has reached the end of the list leaves nobody out, with any calls in between: each listed user was in
   some page, and is settled and paid once if eligible when that page came.
   */
  lemma PagingIsComplete(s: State, es: seq<Event>, m: u32, user: Address) returns (i: nat)
    requires Initial(s) && user in ListOf(Run(s, es), m) && Reached(s, es, |es|, m) >= |ListOf(Run(s, es), m)|
    ensures i < |es| && PagedAt(s, es, i, m, user)
    ensures Eligible(At(s, es, i).book, At(s, es, i).config.markets[m], m, user) ==>
              PositionOf(Run(s, es).book, m, user).isSettled
              && PaymentsTo(Run(s, es).book, Key(m, user))
                 == [Payout(PositionOf(At(s, es, i).book, m, user), At(s, es, i).config.markets[m])]
  {
    i := PagedSometime(s, es, m, user);
    if Eligible(At(s, es, i).book, At(s, es, i).config.markets[m], m, user) {
      PagedIsPaid(s, es, i, m, user);
    }
  }

  lemma PagedSometime(s: State, es: seq<Event>, m: u32, user: Address) returns (i: nat)
    requires user in ListOf(Run(s, es), m) && Reached(s, es, |es|, m) >= |ListOf(Run(s, es), m)|
    ensures i < |es| && PagedAt(s, es, i, m, user)
  {
    assert es[..|es|] == es;
    var j :| 0 <= j < |ListOf(Run(s, es), m)| && ListOf(Run(s, es), m)[j] == user;
    i := ReachedWasPaged(s, es, |es|, m, j);
  }
}
