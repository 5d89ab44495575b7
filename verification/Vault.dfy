/**
 The market contract's custody of collateral as a state machine: deposits, trades, withdrawals, the settlement
 routes, transfers, merges and repairs, between whatever the token's other users do. A `Failure` means the host
 rolls the call back.
 */
module Vault {
  import opened Base
  import opened Sums
  import opened TokenLedger
  import opened OutcomeTokens
  import opened MarketTypes
  import opened PositionMath
  import opened Positions
  import opened Settlement
  import opened Reconciliation

  const WITHDRAW_COOLDOWN_SECONDS: nat := 3_600

  /** What the admin sets. */
  datatype Config = Config(mode: EmergencyMode, markets: map<u32, Market>, feeRate: int, waived: set<Address>,
                           treasury: Option<Address>, operators: set<Approval>)

  /** A `collect_fee` call: a treasury is told of a fee it has been sent. */
  datatype FeeCall = FeeCall(treasury: Address, marketId: u32, fee: int)

  /**
   The storage beside the positions, and two histories: the fee calls made, and the surplus, tokens the contract holds
   that no deposit accounts for.
   */
  datatype Accounts = Accounts(collateral: map<Address, int>, lastDeposit: map<Key, nat>,
                               participants: map<u32, seq<Address>>, depositLocked: bool, feeCalls: seq<FeeCall>,
                               surplus: int)

  datatype State = State(config: Config, book: Book, accounts: Accounts, consumed: set<Request>, records: Records)

  type Outcome = Result<State, MarketError>

  function ParticipantsOf(participants: map<u32, seq<Address>>, m: u32): seq<Address> {
    if m in participants then participants[m] else []
  }

  function Enlist(participants: map<u32, seq<Address>>, m: u32, user: Address): map<u32, seq<Address>> {
    var list := ParticipantsOf(participants, m);
    if user in list then participants else participants[m := list + [user]]
  }

  predicate ReasonableAmount(amount: int) {
    0 < amount <= MAX_REASONABLE_AMOUNT
  }

  // ---- Deposits ----

  function DepositRefusal(market: Market, now: nat): Option<MarketError> {
    if market.status != Active then Some(MarketNotActive)
    else if market.closedToDeposits then Some(MarketClosedToDeposits)
    else if now >= market.endTime then Some(MarketExpired)
    else None
  }

  function WithDeposit(p: Position, amount: int): Position {
    p.(totalDeposited := p.totalDeposited + amount)
  }

  function DepositAccounts(a: Accounts, now: nat, user: Address, m: u32, amount: int): Accounts {
    a.(collateral := a.collateral[user := Get(a.collateral, user) + amount],
       lastDeposit := a.lastDeposit[Key(m, user) := now],
       participants := Enlist(a.participants, m, user))
  }

  function Deposit(s: State, now: nat, user: Address, m: u32, amount: i128): Outcome {
    if user == s.book.holder then Failure(HostTrap)
    else if s.config.mode != Normal then Failure(EmergencyModeActive)
    else if s.accounts.depositLocked then Failure(ReentrantCall)
    else DepositChecked(s, now, user, m, amount)
  }

  /** The part of a deposit that runs under the reentrancy guard. */
  function DepositChecked(s: State, now: nat, user: Address, m: u32, amount: i128): Outcome {
    if !ReasonableAmount(amount) then Failure(InvalidQuantity)
    else if m !in s.config.markets then Failure(MarketNotFound)
    else
      match DepositRefusal(s.config.markets[m], now)
      case Some(e) => Failure(e)
      case None => DepositNet(s, now, user, m, amount)
  }

  /** The deposit once its guards have passed. */
  function DepositNet(s: State, now: nat, user: Address, m: u32, amount: int): Outcome {
    var p := PositionOf(s.book, m, user);
    if Get(s.accounts.collateral, user) + amount > I128_MAX then Failure(ArithmeticOverflow)
    else if p.totalDeposited + amount > I128_MAX then Failure(ArithmeticOverflow)
    else
      match Transfer(s.book.ledger, user, s.book.holder, amount)
      case None => Failure(HostTrap)
      case Some(l) =>
        Success(s.(book := s.book.(positions := s.book.positions[Key(m, user) := WithDeposit(p, amount)], ledger := l),
                   accounts := DepositAccounts(s.accounts, now, user, m, amount)))
  }

  // ---- Withdrawals ----

  function FeeFor(c: Config, user: Address, amount: int): Result<int, MarketError> {
    if !ValidPrice(c.feeRate) then Failure(InvalidPrice)
    else if c.feeRate == 0 || user in c.waived then Success(0)
    else
      match CalculateFee(amount, c.feeRate)
      case Some(fee) => Success(fee)
      case None => Failure(ArithmeticOverflow)
  }

  predicate CoolingDown(a: Accounts, now: nat, key: Key) {
    key in a.lastDeposit && now - a.lastDeposit[key] < WITHDRAW_COOLDOWN_SECONDS
  }

  /** Everything checked before the fee is computed. */
  function WithdrawRefusal(s: State, now: nat, user: Address, m: u32, amount: int): Option<MarketError> {
    if user == s.book.holder then Some(HostTrap)
    else if s.config.mode == GlobalFreeze then Some(EmergencyModeActive)
    else if !ReasonableAmount(amount) then Some(InvalidQuantity)
    else if m !in s.config.markets then Some(MarketNotFound)
    else if s.config.markets[m].status != Active then Some(MarketNotActive)
    else if CoolingDown(s.accounts, now, Key(m, user)) then Some(WithdrawCooldownActive)
    else if PositionOf(s.book, m, user).totalDeposited == 0 then Some(InsufficientCollateral)
    else None
  }

  /** The fee goes to the treasury if there is one, the amount to the user. */
  function PayWithdrawal(l: Ledger, holder: Address, treasury: Option<Address>, user: Address, fee: int, amount: int)
    : Option<Ledger>
  {
    if fee > 0 && treasury.Some? then
      match Transfer(l, holder, treasury.value, fee)
      case Some(t) => Transfer(t, holder, user, amount)
      case None => None
    else Transfer(l, holder, user, amount)
  }

  function CollectFee(calls: seq<FeeCall>, treasury: Option<Address>, m: u32, fee: int): seq<FeeCall> {
    if fee > 0 && treasury.Some? then calls + [FeeCall(treasury.value, m, fee)] else calls
  }

  /** The part of the fee that stays in the contract. */
  function Retained(holder: Address, treasury: Option<Address>, fee: int): int {
    match treasury
    case None => fee
    case Some(t) => Credit(holder, t, fee)
  }

  function Withdraw(s: State, now: nat, user: Address, m: u32, amount: i128): Outcome {
    match WithdrawRefusal(s, now, user, m, amount)
    case Some(e) => Failure(e)
    case None =>
      match FeeFor(s.config, user, amount)
      case Failure(e) => Failure(e)
      case Success(fee) => WithdrawNet(s, user, m, amount, fee)
  }

  /** The withdrawal once its fee is known. */
  function WithdrawNet(s: State, user: Address, m: u32, amount: int, fee: int): Outcome {
    var p := PositionOf(s.book, m, user);
    if amount + fee > I128_MAX then Failure(ArithmeticOverflow)
    else if amount + fee > Saturate(p.totalDeposited - p.lockedCollateral) then Failure(InsufficientCollateral)
    else if p.totalDeposited - (amount + fee) < -I128_MAX - 1 then Failure(ArithmeticOverflow)
    else if Get(s.accounts.collateral, user) < amount + fee then Failure(HostTrap)
    else
      match PayWithdrawal(s.book.ledger, s.book.holder, s.config.treasury, user, fee, amount)
      case None => Failure(HostTrap)
      case Some(l) =>
        Success(Sent(Debited(s, user, m, amount + fee, Retained(s.book.holder, s.config.treasury, fee)), l,
                     CollectFee(s.accounts.feeCalls, s.config.treasury, m, fee)))
  }

  /** The position and the account go down together; what is kept of the fee is surplus. */
  function Debited(s: State, user: Address, m: u32, deducted: int, retained: int): State {
    s.(book := s.book.(positions :=
                         s.book.positions[Key(m, user) := WithDeposit(PositionOf(s.book, m, user), -deducted)]),
       accounts := s.accounts.(
         collateral := s.accounts.collateral[user := Get(s.accounts.collateral, user) - deducted],
         surplus := s.accounts.surplus + retained))
  }

  function Sent(s: State, l: Ledger, calls: seq<FeeCall>): State {
    s.(book := s.book.(ledger := l), accounts := s.accounts.(feeCalls := calls))
  }

  // ---- Trades ----

  /** The position update of a trade; whatever else a trade checks only makes fewer of them succeed. */
  function Trade(s: State, user: Address, m: u32, yes: i128, no: i128, price: int): Outcome {
    if user == s.book.holder then Failure(HostTrap)
    else
      match UpdatePosition(PositionOf(s.book, m, user), yes, no, price)
      case Failure(e) => Failure(e)
      case Success(p) =>
        Success(s.(book := s.book.(positions := s.book.positions[Key(m, user) := p]),
                   accounts := s.accounts.(participants := Enlist(s.accounts.participants, m, user))))
  }

  // ---- Settlement ----

  function WithBook(s: State, r: Result<Book, MarketError>): Outcome {
    match r
    case Success(b) => Success(s.(book := b))
    case Failure(e) => Failure(e)
  }

  function SettlePosition(s: State, user: Address, m: u32): Outcome {
    if user == s.book.holder then Failure(HostTrap)
    else if s.config.mode == GlobalFreeze then Failure(EmergencyModeActive)
    else if m !in s.config.markets then Failure(MarketNotFound)
    else WithBook(s, SettleOne(s.book, s.config.markets[m], m, user))
  }

  /** The checks batches and pages share. */
  function MarketUnsettleable(c: Config, m: u32): Option<MarketError> {
    if m !in c.markets then Some(MarketNotFound)
    else if c.markets[m].status != Resolved then Some(MarketNotResolved)
    else None
  }

  function BatchSettle(s: State, m: u32, users: seq<Address>): Outcome {
    if s.config.mode == GlobalFreeze then Failure(EmergencyModeActive)
    else if users == [] || |users| > MAX_BATCH_SETTLE_SIZE then Failure(BatchTooLarge)
    else
      match MarketUnsettleable(s.config, m)
      case Some(e) => Failure(e)
      case None => WithBook(s, BatchFold(s.book, s.config.markets[m], m, users))
  }

  /** The participants a page settles. */
  function PageOf(participants: seq<Address>, start: u32, limit: u32): seq<Address> {
    if start >= |participants| then [] else participants[start..PageEnd(start, limit, |participants|)]
  }

  function SettlePage(s: State, m: u32, start: u32, limit: u32): Outcome {
    if s.config.mode == GlobalFreeze then Failure(EmergencyModeActive)
    else
      match MarketUnsettleable(s.config, m)
      case Some(e) => Failure(e)
      case None =>
        if |ParticipantsOf(s.accounts.participants, m)| > U32_MAX then Failure(HostTrap)
        else
          WithBook(s, BatchFold(s.book, s.config.markets[m], m,
                                PageOf(ParticipantsOf(s.accounts.participants, m), start, limit)))
  }

  // ---- Transfers, merges and repairs ----

  function ShelfOf(s: State): Shelf {
    Shelf(s.book.positions, s.consumed)
  }

  function WithShelf(s: State, shelf: Shelf): State {
    s.(book := s.book.(positions := shelf.positions), consumed := shelf.consumed)
  }

  function TransferShares(s: State, m: u32, from: Address, to: Address, caller: Address, yes: i128, no: i128,
                          price: int, id: u64): Outcome
  {
    match TransferPosition(ShelfOf(s), s.config.operators, m, from, to, caller, yes, no, price, id)
    case Failure(e) => Failure(e)
    case Success(shelf) => Success(WithShelf(s, shelf))
  }

  /** A position merged into itself is emptied; its deposit is owed to nobody any more. */
  function Forgotten(b: Book, m: u32, primary: Address, other: Address): int {
    if primary == other then PositionOf(b, m, other).totalDeposited else 0
  }

  function Merge(s: State, m: u32, owner: Address, primary: Address, other: Address, caller: Address, price: int,
                 id: u64): Outcome
  {
    match MergePositions(ShelfOf(s), s.config.operators, m, owner, primary, other, caller, price, id)
    case Failure(e) => Failure(e)
    case Success(shelf) =>
      Success(WithShelf(s, shelf).(accounts :=
                s.accounts.(surplus := s.accounts.surplus + Forgotten(s.book, m, primary, other))))
  }

  function Repair(s: State, m: u32, user: Address, id: CorrelationId): Outcome {
    match Reconcile(Repairs(s.book, s.records), m, user, id)
    case Failure(e) => Failure(e)
    case Success(r) => Success(s.(book := r.book, records := r.records))
  }

  // ---- The state machine ----

  datatype Op =
    | OpDeposit(user: Address, m: u32, amount: i128)
    | OpWithdraw(user: Address, m: u32, amount: i128)
    | OpTrade(user: Address, m: u32, yes: i128, no: i128, price: int)
    | OpSettle(user: Address, m: u32)
    | OpBatchSettle(m: u32, users: seq<Address>)
    | OpSettlePage(m: u32, start: u32, limit: u32)
    | OpTransfer(m: u32, from: Address, to: Address, caller: Address, yes: i128, no: i128, price: int, id: u64)
    | OpMerge(m: u32, owner: Address, primary: Address, other: Address, caller: Address, price: int, id: u64)
    | OpReconcile(m: u32, user: Address, correlation: CorrelationId)
    // The admin may change any setting; market creation, resolution and cancellation are such changes.
    | OpConfigure(config: Config)
    // Anybody may move their own collateral tokens, the issuer may issue, and outcome tokens change hands elsewhere.
    | OpOutsideTransfer(from: Address, to: Address, amount: i128)
    | OpOutsideMint(to: Address, amount: i128)
    | OpOutcomeMint(m: u32, user: Address, kind: TokenKind, amount: i128)
    | OpOutcomeBurn(m: u32, user: Address, kind: TokenKind, amount: i128)

  function Step(s: State, now: nat, op: Op): Outcome {
    match op
    case OpDeposit(user, m, amount) => Deposit(s, now, user, m, amount)
    case OpWithdraw(user, m, amount) => Withdraw(s, now, user, m, amount)
    case OpTrade(user, m, yes, no, price) => Trade(s, user, m, yes, no, price)
    case OpSettle(user, m) => SettlePosition(s, user, m)
    case OpBatchSettle(m, users) => BatchSettle(s, m, users)
    case OpSettlePage(m, start, limit) => SettlePage(s, m, start, limit)
    case OpTransfer(m, from, to, caller, yes, no, price, id) =>
      TransferShares(s, m, from, to, caller, yes, no, price, id)
    case OpMerge(m, owner, primary, other, caller, price, id) => Merge(s, m, owner, primary, other, caller, price, id)
    case OpReconcile(m, user, id) => Repair(s, m, user, id)
    case OpConfigure(c) => Success(s.(config := c))
    case OpOutsideTransfer(from, to, amount) =>
      if from == s.book.holder then Failure(HostTrap)
      else Outside(s, Transfer(s.book.ledger, from, to, amount), to, amount)
    case OpOutsideMint(to, amount) => Outside(s, TokenLedger.Mint(s.book.ledger, to, amount), to, amount)
    case OpOutcomeMint(m, user, kind, amount) =>
      if s.book.outcomes.None? then Failure(HostTrap)
      else WithOutcomes(s, OutcomeTokens.Mint(s.book.outcomes.value, m, user, kind, amount))
    case OpOutcomeBurn(m, user, kind, amount) =>
      if s.book.outcomes.None? then Failure(HostTrap)
      else WithOutcomes(s, OutcomeTokens.Burn(s.book.outcomes.value, m, user, kind, amount))
  }

  /** A token call the contract takes no part in; what it receives this way is surplus. */
  function Outside(s: State, l: Option<Ledger>, to: Address, amount: int): Outcome {
    match l
    case Some(l) =>
      Success(s.(book := s.book.(ledger := l),
                 accounts := s.accounts.(surplus := s.accounts.surplus + Credit(s.book.holder, to, amount))))
    case None => Failure(HostTrap)
  }

  function WithOutcomes(s: State, o: Option<Outcomes>): Outcome {
    match o
    case Some(o) => Success(s.(book := s.book.(outcomes := Some(o))))
    case None => Failure(HostTrap)
  }

  datatype Event = Event(now: nat, op: Op)

  /** A failed call leaves no trace. */
  function Next(s: State, e: Event): State {
    match Step(s, e.now, e.op)
    case Success(t) => t
    case Failure(_) => s
  }

  function Run(s: State, es: seq<Event>): State {
    if es == [] then s else Next(Run(s, es[..|es| - 1]), es[|es| - 1])
  }

  predicate Works(s: State, e: Event) {
    Step(s, e.now, e.op).Success?
  }

  /** A freshly deployed contract; tokens somebody sent to its address before are surplus. */
  ghost predicate Initial(s: State) {
    && Sound(s.book.ledger)
    && s.book.positions == map[] && s.book.payments == map[]
    && (s.book.outcomes.Some? ==> s.book.outcomes.value == Outcomes(map[], map[]))
    && s.accounts == Accounts(map[], map[], map[], false, [], Balance(s.book.ledger, s.book.holder))
    && s.consumed == {} && s.records == map[]
  }
}
