/** Runs from a fresh deployment that show where the market contract falls short of what one might expect. */
module VaultExamples {
  import opened Base
  import opened Sums
  import opened TokenLedger
  import opened MarketTypes
  import opened Positions
  import opened Settlement
  import opened Vault
  import opened VaultRuns
  import opened VaultWithdrawals
  import opened VaultPaging

  const SELF: Address := Address(0)
  const ALICE: Address := Address(1)
  const BOB: Address := Address(2)
  const CAROL: Address := Address(3)

  const OpenMarket: Market := Market(Active, None, 10, false)
  const YesWon: Market := Market(Resolved, Some(true), 10, false)

  function Markets(markets: map<u32, Market>): Config {
    Config(Normal, markets, 0, {}, None, {})
  }

  const BothOpen: Config := Markets(map[1 := OpenMarket, 2 := OpenMarket])

  /** A contract just deployed, with two open markets, in a world where Alice holds 100 tokens. */
  const DEPLOYED: State :=
    State(BothOpen, Book(SELF, map[], None, Ledger(map[ALICE := 100], 100, 0), map[]),
          Accounts(map[], map[], map[], false, [], 0), {}, map[])

  lemma DeployedInitial()
    ensures Initial(DEPLOYED)
  {
    MintKeepsSound(Ledger(map[], 0, 0), ALICE, 100);
    assert TokenLedger.Mint(Ledger(map[], 0, 0), ALICE, 100).value == DEPLOYED.book.ledger;
  }

  // ---- A withdrawal that meets every guard but cannot be paid ----

  /** Alice deposits in one market, Bob trades in another without locking anything, wins, and is paid first. */
  function PaidFirst(): seq<Event> {
    [Event(0, OpDeposit(ALICE, 1, 100)),
     Event(0, OpTrade(BOB, 2, 100, 0, 0)),
     Event(0, OpConfigure(Markets(map[1 := OpenMarket, 2 := YesWon]))),
     Event(0, OpSettle(BOB, 2))]
  }

  /** Alice has 100 deposited and nothing locked; the contract holds `held`, and Bob's position is `bobs`. */
  predicate Midway(s: State, held: int, bobs: Position) {
    && s.config.mode == Normal && s.config.feeRate == 0 && s.config.treasury == None
    && s.book.holder == SELF && s.book.outcomes == None && Balance(s.book.ledger, SELF) == held
    && PositionOf(s.book, 1, ALICE) == Position(0, 0, 0, 100, false)
    && PositionOf(s.book, 2, BOB) == bobs
    && Get(s.accounts.collateral, ALICE) == 100
    && s.accounts.lastDeposit == map[Key(1, ALICE) := 0]
  }

  /** The state right after Alice's deposit. */
  predicate AliceIn(s: State) {
    && Midway(s, 100, EmptyPosition) && s.config == BothOpen && s.consumed == {}
    && s.book.positions.Keys == {Key(1, ALICE)} && s.accounts.collateral == map[ALICE := 100]
  }

  /** Several examples start with it. */
  lemma AliceDeposits(es: seq<Event>)
    requires |es| >= 1 && es[0] == PaidFirst()[0]
    ensures AliceIn(At(DEPLOYED, es, 1))
  {
    AtNext(DEPLOYED, es, 0);
    assert es[..0] == [];
    AliceMayDeposit();
    DepositEffect(DEPLOYED, 0, ALICE, 1, 100, SELF);
    DepositConfig(DEPLOYED, 0, ALICE, 1, 100);
  }

  lemma AliceMayDeposit()
    ensures Deposit(DEPLOYED, 0, ALICE, 1, 100).Success?
    ensures Step(DEPLOYED, 0, PaidFirst()[0].op) == Deposit(DEPLOYED, 0, ALICE, 1, 100)
    ensures var t := Deposit(DEPLOYED, 0, ALICE, 1, 100).value;
            && t.accounts.lastDeposit == map[Key(1, ALICE) := 0] && t.book.positions.Keys == {Key(1, ALICE)}
            && t.consumed == {} && t.accounts.collateral == map[ALICE := 100]
  {
  }

  lemma BobTrades(s: State)
    requires Midway(s, 100, EmptyPosition)
    ensures Midway(Next(s, PaidFirst()[1]), 100, Position(100, 0, 0, 0, false))
    ensures Key(2, BOB) in Next(s, PaidFirst()[1]).book.positions
  {
    assert Step(s, 0, PaidFirst()[1].op) == Trade(s, BOB, 2, 100, 0, 0);
  }

  lemma BobIsPaid(s: State)
    requires Midway(s, 100, Position(100, 0, 0, 0, false)) && Key(2, BOB) in s.book.positions
    requires s.config.markets == map[1 := OpenMarket, 2 := YesWon]
    ensures Midway(Next(s, PaidFirst()[3]), 0, Position(100, 0, 0, 0, true))
    ensures Next(s, PaidFirst()[3]).config == s.config
  {
    assert Eligible(s.book, YesWon, 2, BOB) && Payable(s.book, YesWon, 2, BOB);
    assert Step(s, 0, PaidFirst()[3].op) == Success(s.(book := Apply(s.book, YesWon, 2, BOB)));
    assert Payout(PositionOf(s.book, 2, BOB), YesWon) == 100;
  }

  lemma BobTraded()
    ensures var s := At(DEPLOYED, PaidFirst(), 2);
            Midway(s, 100, Position(100, 0, 0, 0, false)) && Key(2, BOB) in s.book.positions
  {
    AliceDeposits(PaidFirst());
    AtNext(DEPLOYED, PaidFirst(), 1);
    BobTrades(At(DEPLOYED, PaidFirst(), 1));
  }

  lemma BobWins()
    ensures var s := At(DEPLOYED, PaidFirst(), 3);
            && Midway(s, 100, Position(100, 0, 0, 0, false)) && Key(2, BOB) in s.book.positions
            && s.config.markets == map[1 := OpenMarket, 2 := YesWon]
  {
    BobTraded();
    AtNext(DEPLOYED, PaidFirst(), 2);
    MarketTwoResolves(At(DEPLOYED, PaidFirst(), 2));
  }

  lemma MarketTwoResolves(s: State)
    ensures Next(s, PaidFirst()[2]) == s.(config := Markets(map[1 := OpenMarket, 2 := YesWon]))
  {
  }

  /**
   Settlement can take the tokens a deposit in another market stands for: from a fresh deployment, Alice meets every
   guard of the withdrawal of her own deposit and still cannot be paid.
   */
  lemma WithdrawalFallsShort()
    ensures Initial(DEPLOYED)
    ensures var s := Run(DEPLOYED, PaidFirst());
            && WithdrawRefusal(s, 4_000, ALICE, 1, 100) == None && FeeFor(s.config, ALICE, 100) == Success(0)
            && PositionCovers(s, 1, ALICE, 0, 100) && Get(s.accounts.collateral, ALICE) == 100
            && !PoolCovers(s, 0, 100)
            && Withdraw(s, 4_000, ALICE, 1, 100) == Failure(HostTrap)
  {
    DeployedInitial();
    BobWins();
    AtNext(DEPLOYED, PaidFirst(), 3);
    BobIsPaid(At(DEPLOYED, PaidFirst(), 3));
    assert PaidFirst()[..4] == PaidFirst();
    AliceIsRefused(At(DEPLOYED, PaidFirst(), 4));
  }

  lemma AliceIsRefused(s: State)
    requires Midway(s, 0, Position(100, 0, 0, 0, true)) && s.config.markets == map[1 := OpenMarket, 2 := YesWon]
    ensures WithdrawRefusal(s, 4_000, ALICE, 1, 100) == None && FeeFor(s.config, ALICE, 100) == Success(0)
    ensures PositionCovers(s, 1, ALICE, 0, 100) && !PoolCovers(s, 0, 100)
    ensures Withdraw(s, 4_000, ALICE, 1, 100) == Failure(HostTrap)
  {
    assert ReasonableAmount(100);
  }

  // ---- Merging a deposit into somebody else's position ----

  /** One of the two merges Alice's position into Bob's, in his or her own name. */
  function MergeBy(owner: Address): Event {
    Event(0, OpMerge(1, owner, BOB, ALICE, owner, 0, 0))
  }

  function MergedAway(owner: Address): seq<Event> {
    [PaidFirst()[0], Event(0, OpTrade(BOB, 1, 0, 0, 0)), MergeBy(owner)]
  }

  /** Both hold a position in market 1, Alice's with her deposit. */
  predicate Mergeable(s: State) {
    && Midway(s, 100, EmptyPosition) && s.config == BothOpen && s.consumed == {}
    && s.accounts.collateral == map[ALICE := 100]
    && Key(1, ALICE) in s.book.positions && Key(1, BOB) in s.book.positions
    && PositionOf(s.book, 1, BOB) == EmptyPosition
  }

  lemma BobJoins(s: State)
    requires AliceIn(s)
    ensures Mergeable(Next(s, Event(0, OpTrade(BOB, 1, 0, 0, 0))))
  {
    assert Step(s, 0, OpTrade(BOB, 1, 0, 0, 0)) == Trade(s, BOB, 1, 0, 0, 0);
  }

  lemma BothJoined(owner: Address)
    ensures Mergeable(At(DEPLOYED, MergedAway(owner), 2))
  {
    AliceDeposits(MergedAway(owner));
    AtNext(DEPLOYED, MergedAway(owner), 1);
    BobJoins(At(DEPLOYED, MergedAway(owner), 1));
  }

  /** Bob has Alice's deposit in his position, and she has it in her account. */
  predicate Merged(s: State) {
    && s.config == BothOpen && s.book.holder == SELF && Balance(s.book.ledger, SELF) == 100
    && PositionOf(s.book, 1, ALICE) == EmptyPosition
    && PositionOf(s.book, 1, BOB) == Position(0, 0, 0, 100, false)
    && s.accounts.collateral == map[ALICE := 100] && s.accounts.lastDeposit == map[Key(1, ALICE) := 0]
  }

  lemma MergeHappens(s: State, owner: Address)
    requires Mergeable(s)
    ensures Works(s, MergeBy(owner)) && Merged(Next(s, MergeBy(owner)))
  {
    assert Merge(s, 1, owner, BOB, ALICE, owner, 0, 0).Success?;
  }

  lemma MergedAtLast(owner: Address)
    ensures Merged(Run(DEPLOYED, MergedAway(owner)))
  {
    BothJoined(owner);
    MergeHappens(At(DEPLOYED, MergedAway(owner), 2), owner);
    AtNext(DEPLOYED, MergedAway(owner), 2);
    assert MergedAway(owner)[..3] == MergedAway(owner);
  }

  /** From a fresh deployment, a merge can leave an account with collateral that no deposit of its owner backs. */
  lemma MergeLeavesAccountWrong()
    ensures Initial(DEPLOYED) && !Accounted(Run(DEPLOYED, MergedAway(ALICE)), ALICE)
  {
    var s := At(DEPLOYED, MergedAway(ALICE), 2);
    DeployedInitial();
    BothJoined(ALICE);
    AccountedWithoutMerges(DEPLOYED, MergedAway(ALICE)[..2], ALICE);
    MergeHappens(s, ALICE);
    MergeUnbacks(s);
    AtNext(DEPLOYED, MergedAway(ALICE), 2);
    assert MergedAway(ALICE)[..3] == MergedAway(ALICE);
  }

  lemma MergeUnbacks(s: State)
    requires Mergeable(s) && Accounted(s, ALICE)
    ensures !Accounted(Next(s, MergeBy(ALICE)), ALICE)
  {
    assert Merge(s, 1, ALICE, BOB, ALICE, ALICE, 0, 0).Success?;
    MergeDeposits(s, 1, ALICE, BOB, ALICE, ALICE, 0, 0, ALICE);
  }

  lemma AccountedWithoutMerges(s: State, es: seq<Event>, user: Address)
    requires Initial(s) && forall i :: 0 <= i < |es| ==> !es[i].op.OpMerge?
    ensures Accounted(Run(s, es), user)
  {
    RunAccounts(s, es, user);
  }

  /**
   After such a merge the new holder of the deposit cannot withdraw it: Bob meets every guard and the contract can pay,
   but his account does not bear the debit.
   */
  lemma DebitFallsShort()
    ensures Initial(DEPLOYED)
    ensures var s := Run(DEPLOYED, MergedAway(ALICE));
            && WithdrawRefusal(s, 4_000, BOB, 1, 100) == None && FeeFor(s.config, BOB, 100) == Success(0)
            && PositionCovers(s, 1, BOB, 0, 100) && PoolCovers(s, 0, 100) && !AccountCovers(s, BOB, 0, 100)
            && Withdraw(s, 4_000, BOB, 1, 100) == Failure(HostTrap)
  {
    DeployedInitial();
    MergedAtLast(ALICE);
    BobIsRefused(Run(DEPLOYED, MergedAway(ALICE)));
  }

  lemma BobIsRefused(s: State)
    requires Merged(s)
    ensures WithdrawRefusal(s, 4_000, BOB, 1, 100) == None && FeeFor(s.config, BOB, 100) == Success(0)
    ensures PositionCovers(s, 1, BOB, 0, 100) && PoolCovers(s, 0, 100) && !AccountCovers(s, BOB, 0, 100)
    ensures Withdraw(s, 4_000, BOB, 1, 100) == Failure(HostTrap)
  {
    assert ReasonableAmount(100);
  }

  /** The positions a merge names need not belong to the owner who merges: Alice's is emptied without her consent. */
  lemma MergeNeedsNoConsent()
    ensures Initial(DEPLOYED)
    ensures var s := At(DEPLOYED, MergedAway(BOB), 2);
            && Works(s, MergeBy(BOB)) && s.config.operators == {}
            && Lowers(s.book, Next(s, MergeBy(BOB)).book, Key(1, ALICE))
            && !Consented(s.config, MergeBy(BOB).op, Key(1, ALICE))
            && EmptiedByAnother(MergeBy(BOB).op, Key(1, ALICE))
  {
    DeployedInitial();
    BothJoined(BOB);
    MergeHappens(At(DEPLOYED, MergedAway(BOB), 2), BOB);
  }

  // ---- A transfer from an account to itself ----

  function HandedToSelf(): seq<Event> {
    [HandedOn()[0], Event(0, OpTransfer(2, BOB, BOB, BOB, 100, 0, 0, 0))]
  }

  /** From a fresh deployment, Bob transfers his 100 shares to himself and holds 200. */
  lemma SelfTransferAddsShares()
    ensures Initial(DEPLOYED)
    ensures PositionOf(At(DEPLOYED, HandedToSelf(), 1).book, 2, BOB).yesShares == 100
    ensures PositionOf(Run(DEPLOYED, HandedToSelf()).book, 2, BOB).yesShares == 200
  {
    DeployedInitial();
    BobTradesFirst(HandedToSelf());
    AtNext(DEPLOYED, HandedToSelf(), 1);
    BobKeeps(At(DEPLOYED, HandedToSelf(), 1));
    assert HandedToSelf()[..2] == HandedToSelf();
  }

  lemma BobKeeps(s: State)
    requires BobHolds(s)
    ensures PositionOf(Next(s, HandedToSelf()[1]).book, 2, BOB).yesShares == 200
  {
    var shelf := TransferPosition(ShelfOf(s), s.config.operators, 2, BOB, BOB, BOB, 100, 0, 0, 0);
    assert shelf.Success?;
    assert Step(s, 0, HandedToSelf()[1].op) == Success(WithShelf(s, shelf.value));
  }

  // ---- A participant that paging never reaches ----

  /** Bob trades and hands everything to Carol; the market resolves and is paged to the end. */
  function HandedOn(): seq<Event> {
    [Event(0, OpTrade(BOB, 2, 100, 0, 0)),
     Event(0, OpTransfer(2, BOB, CAROL, BOB, 100, 0, 0, 0)),
     Event(0, OpConfigure(Markets(map[1 := OpenMarket, 2 := YesWon]))),
     Event(0, OpSettlePage(2, 0, 10))]
  }

  /** Bob is the only one listed in market 2, and Carol holds the shares. */
  predicate CarolHolds(s: State) {
    && s.config.mode == Normal && s.book.holder == SELF && s.book.outcomes == None && Balance(s.book.ledger, SELF) == 0
    && ListOf(s, 2) == [BOB]
    && Key(2, BOB) in s.book.positions && PositionOf(s.book, 2, BOB).yesShares == 0
    && Key(2, CAROL) in s.book.positions && PositionOf(s.book, 2, CAROL) == Position(100, 0, 0, 0, false)
  }

  predicate BobHolds(s: State) {
    && s.config.mode == Normal && s.book.holder == SELF && s.book.outcomes == None && Balance(s.book.ledger, SELF) == 0
    && ListOf(s, 2) == [BOB] && s.consumed == {}
    && s.book.positions == map[Key(2, BOB) := Position(100, 0, 0, 0, false)]
  }

  lemma BobTradesFirst(es: seq<Event>)
    requires |es| >= 1 && es[0] == HandedOn()[0]
    ensures BobHolds(At(DEPLOYED, es, 1))
  {
    var s := DEPLOYED;
    AtNext(s, es, 0);
    assert Step(s, 0, HandedOn()[0].op) == Trade(s, BOB, 2, 100, 0, 0);
  }

  lemma BobTransfers(s: State)
    requires BobHolds(s)
    ensures CarolHolds(Next(s, HandedOn()[1]))
  {
    var shelf := TransferPosition(ShelfOf(s), s.config.operators, 2, BOB, CAROL, BOB, 100, 0, 0, 0);
    assert shelf.Success?;
    assert Step(s, 0, HandedOn()[1].op) == Success(WithShelf(s, shelf.value));
  }

  lemma CarolReceives()
    ensures CarolHolds(At(DEPLOYED, HandedOn(), 2))
  {
    BobTradesFirst(HandedOn());
    AtNext(DEPLOYED, HandedOn(), 1);
    BobTransfers(At(DEPLOYED, HandedOn(), 1));
  }

  lemma MarketResolves()
    ensures var s := At(DEPLOYED, HandedOn(), 3);
            CarolHolds(s) && 2 in s.config.markets && s.config.markets[2] == YesWon
  {
    CarolReceives();
    AtNext(DEPLOYED, HandedOn(), 2);
  }

  lemma BobsPage(s: State)
    requires CarolHolds(s) && 2 in s.config.markets && s.config.markets[2] == YesWon
    ensures Works(s, HandedOn()[3])
    ensures CarolHolds(Next(s, HandedOn()[3])) && Next(s, HandedOn()[3]).config == s.config
  {
    assert PageOf([BOB], 0, 10) == [BOB];
    assert BatchFold(s.book, YesWon, 2, [BOB][..0]) == Success(s.book);
    assert Payout(PositionOf(s.book, 2, BOB), YesWon) == 0;
    assert BatchFold(s.book, YesWon, 2, [BOB]) == SettleOrSkip(s.book, YesWon, 2, BOB);
    assert SettleOrSkip(s.book, YesWon, 2, BOB).Success?;
  }

  /** From a fresh deployment, paging can be complete while a winner who only received shares is still unsettled. */
  lemma PagingMissesRecipients()
    ensures var s := Run(DEPLOYED, HandedOn());
            && Initial(DEPLOYED)
            && Reached(DEPLOYED, HandedOn(), 4, 2) == |ListOf(s, 2)|
            && 2 in s.config.markets && Eligible(s.book, s.config.markets[2], 2, CAROL)
            && Payout(PositionOf(s.book, 2, CAROL), s.config.markets[2]) == 100
            && CAROL !in ListOf(s, 2)
  {
    var s, es := DEPLOYED, HandedOn();
    DeployedInitial();
    MarketResolves();
    BobsPage(At(s, es, 3));
    AtNext(s, es, 3);
    NotYetPaged();
    assert es[..4] == es;
  }

  lemma NotYetPaged()
    ensures Reached(DEPLOYED, HandedOn(), 3, 2) == 0
  {
    assert Reached(DEPLOYED, HandedOn(), 0, 2) == 0;
    assert Reached(DEPLOYED, HandedOn(), 1, 2) == 0;
    assert Reached(DEPLOYED, HandedOn(), 2, 2) == 0;
  }
}
