/**
 The market contract as an object: entrypoints load entries, change them, store them, and make their token calls.
 Each is proved against the state machine of module `Vault`.
 */
module MarketContract {
  import opened Base
  import opened Sums
  import opened TokenLedger
  import opened OutcomeTokens
  import opened MarketTypes
  import opened PositionMath
  import opened Positions
  import opened Settlement
  import opened Reconciliation
  import opened Vault
  import opened VaultInvariant

  class Contract {
    const holder: Address
    var config: Config
    var positions: PositionMap
    var outcomes: Option<Outcomes>
    var ledger: Ledger
    var collateral: map<Address, int>
    var lastDeposit: map<Key, nat>
    var participants: map<u32, seq<Address>>
    var depositLocked: bool
    var consumed: set<Request>
    var records: Records
    var feeCalls: seq<FeeCall>
    var payments: map<Key, seq<int>>
    var surplus: int

    /** The states in which the token or a treasury has been called; what a call back from it would meet. */
    ghost var seen: seq<State>

    function TheBook(): Book
      reads this
    {
      Book(holder, positions, outcomes, ledger, payments)
    }

    function TheAccounts(): Accounts
      reads this
    {
      Accounts(collateral, lastDeposit, participants, depositLocked, feeCalls, surplus)
    }

    function Abstract(): State
      reads this
    {
      State(config, TheBook(), TheAccounts(), consumed, records)
    }

    /** The invariant of module `VaultInvariant`. */
    ghost predicate Valid()
      reads this
    {
      Inv(Abstract())
    }

    constructor (self: Address, config: Config, ledger: Ledger, registered: bool)
      requires Sound(ledger)
      ensures Valid() && Initial(Abstract()) && holder == self && this.config == config && this.ledger == ledger
    {
      holder, this.config, this.ledger := self, config, ledger;
      positions, payments, feeCalls := map[], map[], [];
      outcomes := if registered then Some(Outcomes(map[], map[])) else None;
      collateral, lastDeposit, participants, depositLocked := map[], map[], map[], false;
      consumed, records := {}, map[];
      surplus := Balance(ledger, self);
      seen := [];
      new;
      InitialInv(Abstract());
    }

    // ---- Storage accessors and token calls ----

    method StorePosition(m: u32, user: Address, p: Position)
      modifies this`positions
      ensures positions == old(positions)[Key(m, user) := p]
    {
      positions := positions[Key(m, user) := p];
    }

    /** `add_market_participant`: a linear search, then an append if the user is new. */
    method AddMarketParticipant(m: u32, user: Address)
      modifies this`participants
      ensures participants == Enlist(old(participants), m, user)
    {
      var list := if m in participants then participants[m] else [];
      var i := 0;
      while i < |list|
        invariant 0 <= i <= |list|
        invariant user !in list[..i]
      {
        if list[i] == user {
          return;
        }
        i := i + 1;
      }
      assert list[..i] == list;
      participants := participants[m := list + [user]];
    }

    /** `false` is a trap. */
    method TransferTokens(from: Address, to: Address, amount: int) returns (ok: bool)
      modifies this`ledger, this`seen
      ensures seen == old(seen) + [old(Abstract())]
      ensures ok <==> Transfer(old(ledger), from, to, amount).Some?
      ensures ledger == if ok then Transfer(old(ledger), from, to, amount).value else old(ledger)
    {
      seen := seen + [Abstract()];
      var l := Transfer(ledger, from, to, amount);
      if l.None? {
        return false;
      }
      ledger := l.value;
      return true;
    }

    // ---- Deposits ----

    method DepositCollateral(now: nat, user: Address, m: u32, amount: i128) returns (r: Result<(), MarketError>)
      modifies this
      ensures Agrees(Deposit(old(Abstract()), now, user, m, amount), r, Abstract())
      ensures r.Success? ==> CalledLast(old(seen), seen, Locked(Abstract()))
    {
      if user == holder {
        return Failure(HostTrap);
      }
      if config.mode != Normal {
        return Failure(EmergencyModeActive);
      }
      if depositLocked {
        return Failure(ReentrantCall);
      }
      depositLocked := true;
      r := DepositUnderGuard(now, user, m, amount);
      depositLocked := false;
    }

    method DepositUnderGuard(now: nat, user: Address, m: u32, amount: i128) returns (r: Result<(), MarketError>)
      requires depositLocked
      modifies this
      ensures Agrees(DepositChecked(old(Abstract()), now, user, m, amount), r, Abstract())
      ensures r.Success? ==> CalledLast(old(seen), seen, Abstract())
    {
      if amount <= 0 || amount > MAX_REASONABLE_AMOUNT {
        return Failure(InvalidQuantity);
      }
      if m !in config.markets {
        return Failure(MarketNotFound);
      }
      var market := config.markets[m];
      if market.status != Active {
        return Failure(MarketNotActive);
      }
      if market.closedToDeposits {
        return Failure(MarketClosedToDeposits);
      }
      if now >= market.endTime {
        return Failure(MarketExpired);
      }
      r := CreditAndCollect(now, user, m, amount);
    }

    /** State first; the token call is made last, while the guard is held, as `seen` records. */
    method CreditAndCollect(now: nat, user: Address, m: u32, amount: int) returns (r: Result<(), MarketError>)
      requires depositLocked
      modifies this
      ensures Agrees(DepositNet(old(Abstract()), now, user, m, amount), r, Abstract())
      ensures r.Success? ==> CalledLast(old(seen), seen, Abstract())
    {
      if Get(collateral, user) + amount > I128_MAX {
        return Failure(ArithmeticOverflow);
      }
      var position := PositionAt(positions, m, user);
      if position.totalDeposited + amount > I128_MAX {
        return Failure(ArithmeticOverflow);
      }
      StorePosition(m, user, position.(totalDeposited := position.totalDeposited + amount));
      RecordDeposit(now, user, m, amount);
      var ok := TransferTokens(user, holder, amount);
      if !ok {
        return Failure(HostTrap);
      }
      return Success(());
    }

    /** The user's new balance, the participant list, and the time from which the cooldown runs. */
    method RecordDeposit(now: nat, user: Address, m: u32, amount: int)
      modifies this`collateral, this`participants, this`lastDeposit
      ensures Abstract()
              == old(Abstract()).(accounts := DepositAccounts(old(Abstract()).accounts, now, user, m, amount))
    {
      collateral := collateral[user := Get(collateral, user) + amount];
      AddMarketParticipant(m, user);
      lastDeposit := lastDeposit[Key(m, user) := now];
    }

    // ---- Withdrawals ----

    method WithdrawUnusedCollateral(now: nat, user: Address, m: u32, amount: i128) returns (r: Result<(), MarketError>)
      modifies this
      ensures Agrees(Withdraw(old(Abstract()), now, user, m, amount), r, Abstract())
      ensures r.Success? ==> CalledLast(old(seen), seen, Abstract())
    {
      if user == holder {
        return Failure(HostTrap);
      }
      if config.mode == GlobalFreeze {
        return Failure(EmergencyModeActive);
      }
      if amount <= 0 || amount > MAX_REASONABLE_AMOUNT {
        return Failure(InvalidQuantity);
      }
      if m !in config.markets {
        return Failure(MarketNotFound);
      }
      if config.markets[m].status != Active {
        return Failure(MarketNotActive);
      }
      if Key(m, user) in lastDeposit {
        var elapsed := Max(0, now - lastDeposit[Key(m, user)]);
        if elapsed < WITHDRAW_COOLDOWN_SECONDS {
          return Failure(WithdrawCooldownActive);
        }
      }
      var position := PositionAt(positions, m, user);
      if position.totalDeposited == 0 {
        return Failure(InsufficientCollateral);
      }
      if !ValidPrice(config.feeRate) {
        return Failure(InvalidPrice);
      }
      var fee := 0;
      if config.feeRate > 0 && user !in config.waived {
        var computed := CalculateFee(amount, config.feeRate);
        if computed.None? {
          return Failure(ArithmeticOverflow);
        }
        fee := computed.value;
      }
      r := DebitAndPay(user, m, amount, fee);
    }

    /** State first, then the fee to the treasury, then the payout. */
    method DebitAndPay(user: Address, m: u32, amount: int, fee: int) returns (r: Result<(), MarketError>)
      modifies this
      ensures Agrees(WithdrawNet(old(Abstract()), user, m, amount, fee), r, Abstract())
      ensures r.Success? ==> CalledLast(old(seen), seen, Abstract())
    {
      var position := PositionAt(positions, m, user);
      var available := Saturate(position.totalDeposited - position.lockedCollateral);
      var deducted := amount + fee;
      if deducted > I128_MAX {
        return Failure(ArithmeticOverflow);
      }
      if deducted > available {
        return Failure(InsufficientCollateral);
      }
      if position.totalDeposited - deducted < -I128_MAX - 1 {
        return Failure(ArithmeticOverflow);
      }
      if Get(collateral, user) < deducted {
        return Failure(HostTrap);
      }
      Debit(user, m, deducted, Retained(holder, config.treasury, fee));
      var ok := SendWithdrawal(user, m, fee, amount);
      if !ok {
        return Failure(HostTrap);
      }
      return Success(());
    }

    /** The position and the account go down together; what is kept of the fee is surplus. */
    method Debit(user: Address, m: u32, deducted: int, retained: int)
      modifies this`positions, this`collateral, this`surplus
      ensures Abstract() == Debited(old(Abstract()), user, m, deducted, retained)
    {
      var position := PositionAt(positions, m, user);
      StorePosition(m, user, position.(totalDeposited := position.totalDeposited - deducted));
      collateral := collateral[user := Get(collateral, user) - deducted];
      surplus := surplus + retained;
    }

    method SendWithdrawal(user: Address, m: u32, fee: int, amount: int) returns (ok: bool)
      modifies this`ledger, this`feeCalls, this`seen
      ensures CalledLast(old(seen), seen, Abstract())
      ensures ok <==> PayWithdrawal(old(ledger), holder, config.treasury, user, fee, amount).Some?
      ensures ok ==>
                Abstract() == Sent(old(Abstract()),
                                   PayWithdrawal(old(ledger), holder, config.treasury, user, fee, amount).value,
                                   CollectFee(old(feeCalls), config.treasury, m, fee))
    {
      if fee > 0 && config.treasury.Some? {
        ok := TransferTokens(holder, config.treasury.value, fee);
        if !ok {
          return;
        }
        CallCollectFee(config.treasury.value, m, fee);
      }
      ok := TransferTokens(holder, user, amount);
    }

    /** Tells a treasury of the fee it has been sent. */
    method CallCollectFee(treasury: Address, m: u32, fee: int)
      modifies this`feeCalls, this`seen
      ensures feeCalls == old(feeCalls) + [FeeCall(treasury, m, fee)]
      ensures seen == old(seen) + [old(Abstract())]
    {
      seen := seen + [Abstract()];
      feeCalls := feeCalls + [FeeCall(treasury, m, fee)];
    }

    // ---- Positions ----

    method UpdatePosition(user: Address, m: u32, yesDelta: i128, noDelta: i128, price: int)
      returns (r: Result<Position, MarketError>)
      modifies this
      ensures Agrees(Trade(old(Abstract()), user, m, yesDelta, noDelta, price), r, Abstract())
      ensures r.Success? ==> r.value == PositionAt(positions, m, user)
    {
      if user == holder {
        return Failure(HostTrap);
      }
      if !ValidPrice(price) {
        return Failure(InvalidMarketPrice);
      }
      var position := PositionAt(positions, m, user);
      var newYes, newNo := position.yesShares + yesDelta, position.noShares + noDelta;
      if !FitsI128(newYes) || !FitsI128(newNo) {
        return Failure(HostTrap);
      }
      if newYes < 0 || newNo < 0 {
        return Failure(ShareBalanceBelowZero);
      }
      position := position.(yesShares := newYes, noShares := newNo);
      position := position.(lockedCollateral := CalculateLockedCollateral(newYes, newNo, price));
      StorePosition(m, user, position);
      AddMarketParticipant(m, user);
      return Success(position);
    }

    method ConsumeRequestId(owner: Address, id: u64) returns (first: bool)
      modifies this`consumed
      ensures first <==> Request(owner, id) !in old(consumed)
      ensures consumed == old(consumed) + {Request(owner, id)}
    {
      if Request(owner, id) in consumed {
        return false;
      }
      consumed := consumed + {Request(owner, id)};
      return true;
    }

    /** Price, authority and request id, in this order. */
    method Admit(owner: Address, caller: Address, price: int, id: u64) returns (e: Option<MarketError>)
      modifies this`consumed
      ensures e == Admission(Shelf(positions, old(consumed)), config.operators, Request(owner, id), caller, price)
      ensures e == None ==> consumed == old(consumed) + {Request(owner, id)}
    {
      if !ValidPrice(price) {
        return Some(InvalidMarketPrice);
      }
      if caller != owner && Approval(owner, caller) !in config.operators {
        return Some(Unauthorized);
      }
      var unused := ConsumeRequestId(owner, id);
      if !unused {
        return Some(DuplicateRequest);
      }
      return None;
    }

    /** The two positions of a transfer, computed before anything is stored. */
    method ComputeTransfer(m: u32, from: Address, to: Address, yes: i128, no: i128, price: int)
      returns (r: Result<(Position, Position), MarketError>)
      ensures r == MovedShares(positions, m, from, to, yes, no, price)
    {
      if yes < 0 || no < 0 {
        return Failure(ShareBalanceBelowZero);
      }
      if Key(m, from) !in positions {
        return Failure(InvalidPositionState);
      }
      var source := positions[Key(m, from)];
      if source.isSettled {
        return Failure(InvalidPositionState);
      }
      var invalid := ValidateChange(source, -yes, -no);
      if invalid.Some? {
        return Failure(invalid.value);
      }
      var dest := PositionAt(positions, m, to);
      if dest.isSettled {
        return Failure(InvalidPositionState);
      }
      source := source.(yesShares := source.yesShares - yes, noShares := source.noShares - no);
      if !FitsI128(dest.yesShares + yes) || !FitsI128(dest.noShares + no) {
        return Failure(HostTrap);
      }
      dest := dest.(yesShares := dest.yesShares + yes, noShares := dest.noShares + no);
      source := source.(lockedCollateral := CalculateLockedCollateral(source.yesShares, source.noShares, price));
      dest := dest.(lockedCollateral := CalculateLockedCollateral(dest.yesShares, dest.noShares, price));
      return Success((source, dest));
    }

    method TransferPosition(m: u32, from: Address, to: Address, caller: Address, yes: i128, no: i128, price: int,
                            id: u64)
      returns (r: Result<(), MarketError>)
      modifies this
      ensures Agrees(TransferShares(old(Abstract()), m, from, to, caller, yes, no, price, id), r, Abstract())
    {
      var refusal := Admit(from, caller, price, id);
      if refusal.Some? {
        return Failure(refusal.value);
      }
      var pair := ComputeTransfer(m, from, to, yes, no, price);
      if pair.Failure? {
        return Failure(pair.error);
      }
      StorePosition(m, from, pair.value.0);
      StorePosition(m, to, pair.value.1);
      return Success(());
    }

    /** The two positions of a merge, computed before anything is stored. */
    method ComputeMerge(m: u32, primary: Address, other: Address, price: int)
      returns (r: Result<(Position, Position), MarketError>)
      ensures r == MergedPair(positions, m, primary, other, price)
    {
      if Key(m, primary) !in positions || Key(m, other) !in positions {
        return Failure(InvalidPositionState);
      }
      var p, q := positions[Key(m, primary)], positions[Key(m, other)];
      if p.isSettled || q.isSettled {
        return Failure(InvalidPositionState);
      }
      if !FitsI128(p.yesShares + q.yesShares) || !FitsI128(p.noShares + q.noShares)
         || !FitsI128(p.totalDeposited + q.totalDeposited) {
        return Failure(HostTrap);
      }
      p := p.(yesShares := p.yesShares + q.yesShares, noShares := p.noShares + q.noShares,
              totalDeposited := p.totalDeposited + q.totalDeposited);
      p := p.(lockedCollateral := CalculateLockedCollateral(p.yesShares, p.noShares, price));
      q := q.(yesShares := 0, noShares := 0, lockedCollateral := 0, totalDeposited := 0);
      return Success((p, q));
    }

    method MergePositions(m: u32, owner: Address, primary: Address, other: Address, caller: Address, price: int,
                          id: u64)
      returns (r: Result<(), MarketError>)
      modifies this
      ensures Agrees(Merge(old(Abstract()), m, owner, primary, other, caller, price, id), r, Abstract())
    {
      var refusal := Admit(owner, caller, price, id);
      if refusal.Some? {
        return Failure(refusal.value);
      }
      var pair := ComputeMerge(m, primary, other, price);
      if pair.Failure? {
        return Failure(pair.error);
      }
      surplus := surplus + Forgotten(TheBook(), m, primary, other);
      StorePosition(m, primary, pair.value.0);
      StorePosition(m, other, pair.value.1);
      return Success(());
    }

    // ---- Parity ----

    method LoadTokenBalances(m: u32, user: Address) returns (yes: int, no: int)
      ensures yes == TokensHeld(TheBook(), m, user, Yes) && no == TokensHeld(TheBook(), m, user, No)
    {
      var position := PositionAt(positions, m, user);
      if outcomes.None? {
        return position.yesShares, position.noShares;
      }
      return BalanceOf(outcomes.value, m, user, Yes), BalanceOf(outcomes.value, m, user, No);
    }

    method IsMatched(m: u32, user: Address) returns (matched: bool)
      ensures matched <==> Matched(TheBook(), m, user)
    {
      var position := PositionAt(positions, m, user);
      var yes, no := LoadTokenBalances(m, user);
      return position.isSettled || (yes == position.yesShares && no == position.noShares);
    }

    /** Mints or burns `delta` outcome tokens; `false` is a trap. */
    method MintOrBurn(m: u32, user: Address, kind: TokenKind, delta: int) returns (ok: bool)
      requires outcomes.Some?
      modifies this`outcomes
      ensures ok <==> RepairSide(old(outcomes.value), m, user, kind,
                                 BalanceOf(old(outcomes.value), m, user, kind) + delta).Some?
      ensures ok ==>
                outcomes == RepairSide(old(outcomes.value), m, user, kind,
                                       BalanceOf(old(outcomes.value), m, user, kind) + delta)
    {
      if !(-I128_MAX <= delta <= I128_MAX) {
        return false;
      }
      var o := Some(outcomes.value);
      if delta > 0 {
        o := OutcomeTokens.Mint(outcomes.value, m, user, kind, delta);
      } else if delta < 0 {
        o := OutcomeTokens.Burn(outcomes.value, m, user, kind, -delta);
      }
      if o.None? {
        return false;
      }
      outcomes := o;
      return true;
    }

    /** Both differences, taken before either token call. */
    method MintOrBurnBoth(m: u32, user: Address, p: Position, yes: int, no: int) returns (ok: bool)
      requires outcomes.Some?
      requires yes == BalanceOf(outcomes.value, m, user, Yes) && no == BalanceOf(outcomes.value, m, user, No)
      modifies this`outcomes
      ensures ok <==> RepairBoth(old(outcomes.value), m, user, p).Some?
      ensures ok ==> outcomes == RepairBoth(old(outcomes.value), m, user, p)
    {
      var yesDelta, noDelta := p.yesShares - yes, p.noShares - no;
      ok := MintOrBurn(m, user, Yes, yesDelta);
      if ok {
        ok := MintOrBurn(m, user, No, noDelta);
      }
    }

    method ReconcilePositionTokens(m: u32, user: Address, id: CorrelationId) returns (r: Result<bool, MarketError>)
      modifies this
      ensures Agrees(Repair(old(Abstract()), m, user, id), r, Abstract())
      ensures r.Success? ==> (r.value <==> Matched(TheBook(), m, user))
    {
      var position := PositionAt(positions, m, user);
      var yes, no := LoadTokenBalances(m, user);
      var matched := IsMatched(m, user);
      if matched {
        return Success(true);
      }
      if id in records {
        return Failure(ReconciliationAlreadyApplied);
      }
      records := records[id := Key(m, user)];
      if outcomes.None? {
        return Failure(HostTrap);
      }
      var repaired := MintOrBurnBoth(m, user, position, yes, no);
      if !repaired {
        return Failure(HostTrap);
      }
      matched := IsMatched(m, user);
      return Success(matched);
    }

    // ---- Settlement ----

    /** `compute_settlement` for a stored position: its payout, or why there is none. */
    method ComputeSettlement(market: Market, m: u32, user: Address) returns (r: Result<int, MarketError>)
      ensures match Ineligible(TheBook(), market, m, user)
              case Some(e) => r == Failure(e)
              case None => r == Success(Payout(PositionOf(TheBook(), m, user), market))
    {
      var position := PositionAt(positions, m, user);
      if market.status != Resolved {
        return Failure(MarketNotResolved);
      }
      if position.isSettled {
        return Failure(PositionAlreadySettled);
      }
      var matched := IsMatched(m, user);
      if !matched {
        return Failure(PositionTokenMismatch);
      }
      var payout := match market.result
        case Some(outcome) => (if outcome then position.yesShares else position.noShares)
        case None => position.totalDeposited;
      if payout < 0 {
        return Failure(InvalidQuantity);
      }
      return Success(payout);
    }

    method BurnSettledOutcomeTokens(m: u32, user: Address, p: Position)
      modifies this`outcomes
      ensures outcomes == BurnBoth(old(outcomes), m, user, p)
    {
      if outcomes.Some? {
        if p.yesShares > 0 {
          outcomes := Some(Adjust(outcomes.value, m, user, Yes, -p.yesShares));
        }
        if p.noShares > 0 {
          outcomes := Some(Adjust(outcomes.value, m, user, No, -p.noShares));
        }
      }
    }

    /** Marks an eligible position settled, burns its tokens and pays it; `false` is a trap. */
    method MarkBurnAndPay(market: Market, m: u32, user: Address, payout: int) returns (ok: bool)
      requires Eligible(TheBook(), market, m, user) && payout == Payout(PositionOf(TheBook(), m, user), market)
      requires 0 <= Balance(ledger, holder)
      modifies this`positions, this`outcomes, this`ledger, this`payments, this`seen
      ensures ok <==> Payable(old(TheBook()), market, m, user)
      ensures ok ==> TheBook() == Apply(old(TheBook()), market, m, user)
      ensures CalledLast(old(seen), seen, Abstract())
    {
      var position := positions[Key(m, user)];
      StorePosition(m, user, position.(isSettled := true));
      BurnSettledOutcomeTokens(m, user, position);
      payments := payments[Key(m, user) := PaymentsTo(TheBook(), Key(m, user)) + [payout]];
      ok := true;
      if payout > 0 {
        ok := TransferTokens(holder, user, payout);
      }
    }

    method SettlePosition(user: Address, m: u32) returns (r: Result<int, MarketError>)
      requires 0 <= Balance(ledger, holder)
      modifies this
      ensures Agrees(Vault.SettlePosition(old(Abstract()), user, m), r, Abstract())
      ensures r.Success? ==> CalledLast(old(seen), seen, Abstract())
      ensures r.Success? ==> r.value == Payout(PositionOf(old(TheBook()), m, user), config.markets[m])
    {
      if user == holder {
        return Failure(HostTrap);
      }
      if config.mode == GlobalFreeze {
        return Failure(EmergencyModeActive);
      }
      if m !in config.markets {
        return Failure(MarketNotFound);
      }
      if Key(m, user) !in positions {
        return Failure(NoPositionFound);
      }
      var computed := ComputeSettlement(config.markets[m], m, user);
      if computed.Failure? {
        return Failure(computed.error);
      }
      var ok := MarkBurnAndPay(config.markets[m], m, user, computed.value);
      if !ok {
        return Failure(HostTrap);
      }
      return Success(computed.value);
    }

    /** One turn of the loops below: the payout of a settled user, nothing for one who is skipped, or a trap. */
    method SettleListed(market: Market, m: u32, user: Address) returns (r: Result<Option<int>, MarketError>)
      requires 0 <= Balance(ledger, holder)
      modifies this`positions, this`outcomes, this`ledger, this`payments, this`seen
      ensures r.Success? ==> SettleOrSkip(old(TheBook()), market, m, user) == Success(TheBook())
      ensures r.Failure? ==> SettleOrSkip(old(TheBook()), market, m, user) == Failure(r.error)
      ensures r.Success? ==>
                r.value == if Eligible(old(TheBook()), market, m, user)
                           then Some(Payout(PositionOf(old(TheBook()), m, user), market)) else None
    {
      if Key(m, user) !in positions {
        return Success(None);
      }
      var computed := ComputeSettlement(market, m, user);
      if computed.Failure? {
        return Success(None);
      }
      var ok := MarkBurnAndPay(market, m, user, computed.value);
      if !ok {
        return Failure(HostTrap);
      }
      return Success(Some(computed.value));
    }

    /** The loop of batches and pages over the users they name. */
    method SettleAll(market: Market, m: u32, users: seq<Address>) returns (r: Result<int, MarketError>)
      requires Sound(ledger)
      modifies this`positions, this`outcomes, this`ledger, this`payments, this`seen
      ensures r.Success? ==> BatchFold(old(TheBook()), market, m, users) == Success(TheBook())
      ensures r.Success? ==> r.value == BatchTotal(old(TheBook()), market, m, users)
      ensures r.Failure? ==> BatchFold(old(TheBook()), market, m, users) == Failure(r.error)
    {
      ghost var start := TheBook();
      var total := 0;
      var i := 0;
      while i < |users|
        invariant 0 <= i <= |users|
        invariant Sound(ledger)
        invariant BatchFold(start, market, m, users[..i]) == Success(TheBook())
        invariant total == BatchTotal(start, market, m, users[..i])
      {
        ghost var before := TheBook();
        BatchNext(start, before, market, m, users, i);
        var settled := SettleListed(market, m, users[i]);
        if settled.Failure? {
          BatchTraps(start, market, m, users, i + 1);
          return Failure(settled.error);
        }
        SettleOrSkipSound(before, market, m, users[i]);
        if settled.value.Some? {
          total := Saturate(total + settled.value.value);
        }
        i := i + 1;
      }
      assert users[..i] == users;
      return Success(total);
    }

    method BatchSettlePositions(m: u32, users: seq<Address>) returns (r: Result<int, MarketError>)
      requires Valid()
      modifies this
      ensures Agrees(BatchSettle(old(Abstract()), m, users), r, Abstract())
      ensures r.Success? ==> r.value == BatchTotal(old(TheBook()), config.markets[m], m, users)
    {
      if config.mode == GlobalFreeze {
        return Failure(EmergencyModeActive);
      }
      if |users| == 0 || |users| > MAX_BATCH_SETTLE_SIZE {
        return Failure(BatchTooLarge);
      }
      if m !in config.markets {
        return Failure(MarketNotFound);
      }
      if config.markets[m].status != Resolved {
        return Failure(MarketNotResolved);
      }
      r := SettleAll(config.markets[m], m, users);
    }

    /** Also returns where to go on, and whether the list is finished; a page of at least one always moves on. */
    method SettlePositionsPage(m: u32, start: u32, limit: u32) returns (r: Result<(int, u32, bool), MarketError>)
      requires Valid()
      modifies this
      ensures Agrees(SettlePage(old(Abstract()), m, start, limit), r, Abstract())
      ensures r.Success? ==>
                var list := ParticipantsOf(participants, m);
                && r.value.0 == BatchTotal(old(TheBook()), config.markets[m], m, PageOf(list, start, limit))
                && r.value.1 <= |list| && (r.value.2 <==> r.value.1 == |list|)
                && (limit >= 1 && !r.value.2 ==> start < r.value.1 < |list|)
                && (start < |list| ==> start <= r.value.1 && PageOf(list, start, limit) == list[start..r.value.1])
    {
      if config.mode == GlobalFreeze {
        return Failure(EmergencyModeActive);
      }
      if m !in config.markets {
        return Failure(MarketNotFound);
      }
      if config.markets[m].status != Resolved {
        return Failure(MarketNotResolved);
      }
      var list := if m in participants then participants[m] else [];
      if |list| > U32_MAX {
        return Failure(HostTrap);
      }
      if start >= |list| {
        return Success((0, |list|, true));
      }
      var end := Min(Min(start + limit, U32_MAX), |list|);
      var total := SettleAll(config.markets[m], m, list[start..end]);
      if total.Failure? {
        return Failure(total.error);
      }
      return Success((total.value, end, end >= |list|));
    }

    // ---- The host ----

    /** The kind of failure of a call, if any. */
    static function ErrorOf<T>(r: Result<T, MarketError>): Option<MarketError> {
      match r
      case Success(_) => None
      case Failure(e) => Some(e)
    }

    method Dispatch(now: nat, op: Op) returns (e: Option<MarketError>)
      requires Valid()
      modifies this
      ensures Reports(Step(old(Abstract()), now, op), e, Abstract())
    {
      match op {
        case OpDeposit(user, m, amount) => var r := DepositCollateral(now, user, m, amount); e := ErrorOf(r);
        case OpWithdraw(user, m, amount) => var r := WithdrawUnusedCollateral(now, user, m, amount); e := ErrorOf(r);
        case OpTrade(user, m, yes, no, price) => var r := UpdatePosition(user, m, yes, no, price); e := ErrorOf(r);
        case OpSettle(user, m) => var r := SettlePosition(user, m); e := ErrorOf(r);
        case OpBatchSettle(m, users) => var r := BatchSettlePositions(m, users); e := ErrorOf(r);
        case OpSettlePage(m, start, limit) => var r := SettlePositionsPage(m, start, limit); e := ErrorOf(r);
        case OpTransfer(m, from, to, caller, yes, no, price, id) =>
          var r := TransferPosition(m, from, to, caller, yes, no, price, id); e := ErrorOf(r);
        case OpMerge(m, owner, primary, other, caller, price, id) =>
          var r := MergePositions(m, owner, primary, other, caller, price, id); e := ErrorOf(r);
        case OpReconcile(m, user, id) => var r := ReconcilePositionTokens(m, user, id); e := ErrorOf(r);
        case _ => e := DispatchOutside(now, op);
      }
    }

    /** Settings, and what others do with their tokens. */
    method DispatchOutside(now: nat, op: Op) returns (e: Option<MarketError>)
      requires op.OpConfigure? || op.OpOutsideTransfer? || op.OpOutsideMint? || op.OpOutcomeMint? || op.OpOutcomeBurn?
      modifies this
      ensures Reports(Step(old(Abstract()), now, op), e, Abstract())
    {
      match op {
        case OpConfigure(c) =>
          config := c;
        case OpOutsideTransfer(from, to, amount) =>
          var l := Transfer(ledger, from, to, amount);
          if from == holder || l.None? {
            return Some(HostTrap);
          }
          ledger := l.value;
          surplus := surplus + Credit(holder, to, amount);
        case OpOutsideMint(to, amount) =>
          var l := TokenLedger.Mint(ledger, to, amount);
          if l.None? {
            return Some(HostTrap);
          }
          ledger := l.value;
          surplus := surplus + Credit(holder, to, amount);
        case OpOutcomeMint(m, user, kind, amount) =>
          if outcomes.None? || OutcomeTokens.Mint(outcomes.value, m, user, kind, amount).None? {
            return Some(HostTrap);
          }
          outcomes := OutcomeTokens.Mint(outcomes.value, m, user, kind, amount);
        case OpOutcomeBurn(m, user, kind, amount) =>
          if outcomes.None? || OutcomeTokens.Burn(outcomes.value, m, user, kind, amount).None? {
            return Some(HostTrap);
          }
          outcomes := OutcomeTokens.Burn(outcomes.value, m, user, kind, amount);
      }
      return None;
    }

    /** The host runs a call and, should it fail, puts everything back. */
    method Execute(now: nat, op: Op) returns (e: Option<MarketError>)
      requires Valid()
      modifies this
      ensures Valid()
      ensures Abstract() == Next(old(Abstract()), Event(now, op))
      ensures e == None <==> Step(old(Abstract()), now, op).Success?
    {
      var before := Abstract();
      NextKeeps(before, Event(now, op));
      e := Dispatch(now, op);
      if e.Some? {
        Restore(before);
      }
    }

    method Restore(s: State)
      requires s.book.holder == holder
      modifies this
      ensures Abstract() == s
    {
      config, consumed, records := s.config, s.consumed, s.records;
      RestoreBook(s.book);
      RestoreAccounts(s.accounts);
    }

    method RestoreBook(b: Book)
      requires b.holder == holder
      modifies this`positions, this`outcomes, this`ledger, this`payments
      ensures TheBook() == b
    {
      positions, outcomes, ledger, payments := b.positions, b.outcomes, b.ledger, b.payments;
    }

    method RestoreAccounts(a: Accounts)
      modifies this`collateral, this`lastDeposit, this`participants, this`depositLocked, this`feeCalls, this`surplus
      ensures TheAccounts() == a
    {
      collateral, lastDeposit, participants := a.collateral, a.lastDeposit, a.participants;
      depositLocked, feeCalls, surplus := a.depositLocked, a.feeCalls, a.surplus;
    }
  }

  /** What the host sees of a call: an error, or success and the state it leaves. */
  ghost predicate Reports(spec: Outcome, e: Option<MarketError>, after: State) {
    match spec
    case Success(t) => e == None && after == t
    case Failure(error) => e == Some(error)
  }

  /** The state while a deposit holds the reentrancy lock. */
  function Locked(s: State): State {
    s.(accounts := s.accounts.(depositLocked := true))
  }

  /** A call back into `deposit_collateral` that meets the lock is refused, whatever it asks for. */
  lemma LockRefusesDeposits(s: State, now: nat, user: Address, m: u32, amount: i128)
    ensures Deposit(Locked(s), now, user, m, amount).Failure?
    ensures user != s.book.holder && s.config.mode == Normal ==>
              Deposit(Locked(s), now, user, m, amount) == Failure(ReentrantCall)
  {
  }

  /** A state, with the token's ledger and the record of fee calls as they were in another. */
  function AsCalled(final: State, called: State): State {
    final.(book := final.book.(ledger := called.book.ledger),
           accounts := final.accounts.(feeCalls := called.accounts.feeCalls))
  }

  /** Since `before`, other contracts were called only in states final already, but for what those calls record. */
  ghost predicate CalledLast(before: seq<State>, seen: seq<State>, final: State) {
    before <= seen && forall i :: |before| <= i < |seen| ==> seen[i] == AsCalled(final, seen[i])
  }

  /** One more turn of the loop. */
  lemma BatchNext(b: Book, t: Book, market: Market, m: u32, users: seq<Address>, i: nat)
    requires i < |users| && BatchFold(b, market, m, users[..i]) == Success(t)
    ensures BatchFold(b, market, m, users[..i + 1]) == SettleOrSkip(t, market, m, users[i])
    ensures BatchTotal(b, market, m, users[..i + 1])
            == if Eligible(t, market, m, users[i])
               then Saturate(BatchTotal(b, market, m, users[..i]) + Payout(PositionOf(t, m, users[i]), market))
               else BatchTotal(b, market, m, users[..i])
  {
    assert users[..i + 1][..i] == users[..i];
  }

  /** A trap in one turn is a trap of the whole batch. */
  lemma BatchTraps(b: Book, market: Market, m: u32, users: seq<Address>, i: nat)
    requires i <= |users| && BatchFold(b, market, m, users[..i]).Failure?
    ensures BatchFold(b, market, m, users) == BatchFold(b, market, m, users[..i])
  {
    assert users == users[..i] + users[i..];
    BatchConcat(b, market, m, users[..i], users[i..]);
  }

  lemma SettleOrSkipSound(b: Book, market: Market, m: u32, user: Address)
    requires Sound(b.ledger) && SettleOrSkip(b, market, m, user).Success?
    ensures Sound(SettleOrSkip(b, market, m, user).value.ledger)
  {
    if Eligible(b, market, m, user) {
      PayOutSound(b.ledger, b.holder, user, Payout(PositionOf(b, m, user), market));
    }
  }
}
