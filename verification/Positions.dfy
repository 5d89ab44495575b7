/** Changing positions: trades, transfers between accounts, merges, and the request ids that guard them. */
module Positions {
  import opened Base
  import opened Sums
  import opened MarketTypes
  import opened PositionMath

  /** A transfer or merge request: ids are kept per owner. */
  datatype Request = Request(owner: Address, id: u64)

  datatype Approval = Approval(owner: Address, operator: Address)

  /** Stored positions, and the requests already used up. */
  datatype Shelf = Shelf(positions: PositionMap, consumed: set<Request>)

  predicate FitsI128(x: int) {
    -I128_MAX - 1 <= x <= I128_MAX
  }

  /** The position with its lock recomputed at a price. */
  function Relock(p: Position, price: int): Position {
    p.(lockedCollateral := CalculateLockedCollateral(p.yesShares, p.noShares, price))
  }

  function AddShares(p: Position, yes: int, no: int): Position {
    p.(yesShares := p.yesShares + yes, noShares := p.noShares + no)
  }

  /** `validate_position_change`, whose sums trap beyond 128 bits. */
  function ValidateChange(p: Position, yesDelta: int, noDelta: int): Option<MarketError> {
    if !FitsI128(p.yesShares + yesDelta) || !FitsI128(p.noShares + noDelta) then Some(HostTrap)
    else if p.yesShares + yesDelta < 0 || p.noShares + noDelta < 0 then Some(ShareBalanceBelowZero)
    else None
  }

  function UpdatePosition(p: Position, yesDelta: int, noDelta: int, price: int): Result<Position, MarketError> {
    if !ValidPrice(price) then Failure(InvalidMarketPrice)
    else
      match ValidateChange(p, yesDelta, noDelta)
      case Some(e) => Failure(e)
      case None => Success(Relock(AddShares(p, yesDelta, noDelta), price))
  }

  predicate MayAct(operators: set<Approval>, owner: Address, caller: Address) {
    caller == owner || Approval(owner, caller) in operators
  }

  /** The checks that transfers and merges make first. */
  function Admission(s: Shelf, operators: set<Approval>, request: Request, caller: Address, price: int)
    : Option<MarketError>
  {
    if !ValidPrice(price) then Some(InvalidMarketPrice)
    else if !MayAct(operators, request.owner, caller) then Some(Unauthorized)
    else if request in s.consumed then Some(DuplicateRequest)
    else None
  }

  /** Two positions are written back, the second last. */
  function WriteBoth(s: Shelf, request: Request, i: Key, p: Position, j: Key, q: Position): Shelf {
    Shelf(s.positions[i := p][j := q], s.consumed + {request})
  }

  /** The two positions a transfer writes back, or why there are none. */
  function MovedShares(positions: PositionMap, m: u32, from: Address, to: Address, yes: int, no: int, price: int)
    : Result<(Position, Position), MarketError>
  {
    var source, dest := PositionAt(positions, m, from), PositionAt(positions, m, to);
    if yes < 0 || no < 0 then Failure(ShareBalanceBelowZero)
    else if Key(m, from) !in positions || source.isSettled then Failure(InvalidPositionState)
    else
      match ValidateChange(source, -yes, -no)
      case Some(e) => Failure(e)
      case None =>
        if dest.isSettled then Failure(InvalidPositionState)
        else if !FitsI128(dest.yesShares + yes) || !FitsI128(dest.noShares + no) then Failure(HostTrap)
        else Success((Relock(AddShares(source, -yes, -no), price), Relock(AddShares(dest, yes, no), price)))
  }

  function TransferPosition(s: Shelf, operators: set<Approval>, m: u32, from: Address, to: Address, caller: Address,
                            yes: int, no: int, price: int, id: u64): Result<Shelf, MarketError>
  {
    match Admission(s, operators, Request(from, id), caller, price)
    case Some(e) => Failure(e)
    case None =>
      match MovedShares(s.positions, m, from, to, yes, no, price)
      case Failure(e) => Failure(e)
      case Success(pair) => Success(WriteBoth(s, Request(from, id), Key(m, from), pair.0, Key(m, to), pair.1))
  }

  function Combine(p: Position, q: Position, price: int): Position {
    Relock(AddShares(p, q.yesShares, q.noShares).(totalDeposited := p.totalDeposited + q.totalDeposited), price)
  }

  function Emptied(p: Position): Position {
    Position(0, 0, 0, 0, p.isSettled)
  }

  /** The two positions a merge writes back, or why there are none. */
  function MergedPair(positions: PositionMap, m: u32, primary: Address, other: Address, price: int)
    : Result<(Position, Position), MarketError>
  {
    var p, q := PositionAt(positions, m, primary), PositionAt(positions, m, other);
    if Key(m, primary) !in positions || Key(m, other) !in positions then Failure(InvalidPositionState)
    else if p.isSettled || q.isSettled then Failure(InvalidPositionState)
    else if !FitsI128(p.yesShares + q.yesShares) || !FitsI128(p.noShares + q.noShares)
            || !FitsI128(p.totalDeposited + q.totalDeposited) then Failure(HostTrap)
    else Success((Combine(p, q, price), Emptied(q)))
  }

  function MergePositions(s: Shelf, operators: set<Approval>, m: u32, owner: Address, primary: Address,
                          other: Address, caller: Address, price: int, id: u64): Result<Shelf, MarketError>
  {
    match Admission(s, operators, Request(owner, id), caller, price)
    case Some(e) => Failure(e)
    case None =>
      match MergedPair(s.positions, m, primary, other, price)
      case Failure(e) => Failure(e)
      case Success(pair) => Success(WriteBoth(s, Request(owner, id), Key(m, primary), pair.0, Key(m, other), pair.1))
  }

  // ---- What a market's positions add up to ----

  function YesIn(m: u32): (Key, Position) -> int {
    (k: Key, p: Position) => if k.marketId == m then p.yesShares else 0
  }

  function NoIn(m: u32): (Key, Position) -> int {
    (k: Key, p: Position) => if k.marketId == m then p.noShares else 0
  }

  function DepositIn(m: u32): (Key, Position) -> int {
    (k: Key, p: Position) => if k.marketId == m then p.totalDeposited else 0
  }

  /** Writing two positions changes any sum over all of them by what those two contribute. */
  lemma WriteBothSum(s: Shelf, request: Request, i: Key, p: Position, j: Key, q: Position, w: (Key, Position) -> int)
    ensures SumBy(WriteBoth(s, request, i, p, j, q).positions, w)
            == SumBy(s.positions, w) - Contribution(s.positions, w, i)
               + (if i == j then w(j, q) else w(i, p) - Contribution(s.positions, w, j) + w(j, q))
  {
    SumByUpdate(s.positions, w, i, p);
    SumByUpdate(s.positions[i := p], w, j, q);
  }

  /** A transfer to another account keeps the market's totals; one to the same account adds what it was to move. */
  lemma TransferTotals(s: Shelf, operators: set<Approval>, m: u32, from: Address, to: Address, caller: Address,
                       yes: int, no: int, price: int, id: u64, n: u32)
    requires TransferPosition(s, operators, m, from, to, caller, yes, no, price, id).Success?
    ensures var t := TransferPosition(s, operators, m, from, to, caller, yes, no, price, id).value;
            var same := from == to && n == m;
            && SumBy(t.positions, YesIn(n)) == SumBy(s.positions, YesIn(n)) + (if same then yes else 0)
            && SumBy(t.positions, NoIn(n)) == SumBy(s.positions, NoIn(n)) + (if same then no else 0)
            && SumBy(t.positions, DepositIn(n)) == SumBy(s.positions, DepositIn(n))
  {
    var source, dest := PositionAt(s.positions, m, from), PositionAt(s.positions, m, to);
    var p, q := Relock(AddShares(source, -yes, -no), price), Relock(AddShares(dest, yes, no), price);
    WriteBothSum(s, Request(from, id), Key(m, from), p, Key(m, to), q, YesIn(n));
    WriteBothSum(s, Request(from, id), Key(m, from), p, Key(m, to), q, NoIn(n));
    WriteBothSum(s, Request(from, id), Key(m, from), p, Key(m, to), q, DepositIn(n));
  }

  /** A merge keeps the market's totals; merging a position into itself loses it. */
  lemma MergeTotals(s: Shelf, operators: set<Approval>, m: u32, owner: Address, primary: Address, other: Address,
                    caller: Address, price: int, id: u64, n: u32)
    requires MergePositions(s, operators, m, owner, primary, other, caller, price, id).Success?
    ensures var t := MergePositions(s, operators, m, owner, primary, other, caller, price, id).value;
            var lost := if primary == other && n == m then PositionAt(s.positions, m, other) else EmptyPosition;
            && SumBy(t.positions, YesIn(n)) == SumBy(s.positions, YesIn(n)) - lost.yesShares
            && SumBy(t.positions, NoIn(n)) == SumBy(s.positions, NoIn(n)) - lost.noShares
            && SumBy(t.positions, DepositIn(n)) == SumBy(s.positions, DepositIn(n)) - lost.totalDeposited
  {
    var p, q := PositionAt(s.positions, m, primary), PositionAt(s.positions, m, other);
    WriteBothSum(s, Request(owner, id), Key(m, primary), Combine(p, q, price), Key(m, other), Emptied(q), YesIn(n));
    WriteBothSum(s, Request(owner, id), Key(m, primary), Combine(p, q, price), Key(m, other), Emptied(q), NoIn(n));
    WriteBothSum(s, Request(owner, id), Key(m, primary), Combine(p, q, price), Key(m, other), Emptied(q), DepositIn(n));
  }

  // ---- Shares, locks and authority ----

  /**
   Who may transfer, and what it leaves: the shares added to the recipient and, unless that is the same account, taken
   from the source; the locks recomputed; everything else untouched.
   */
  lemma TransferEffect(s: Shelf, operators: set<Approval>, m: u32, from: Address, to: Address, caller: Address,
                       yes: int, no: int, price: int, id: u64, key: Key)
    requires AllGood(s.positions)
    requires TransferPosition(s, operators, m, from, to, caller, yes, no, price, id).Success?
    ensures var t := TransferPosition(s, operators, m, from, to, caller, yes, no, price, id).value;
            var source, dest := PositionAt(t.positions, m, from), PositionAt(t.positions, m, to);
            && t.consumed == s.consumed + {Request(from, id)}
            && (from != to ==>
                  source.yesShares == PositionAt(s.positions, m, from).yesShares - yes
                  && source.noShares == PositionAt(s.positions, m, from).noShares - no)
            && dest.yesShares == PositionAt(s.positions, m, to).yesShares + yes
            && dest.noShares == PositionAt(s.positions, m, to).noShares + no
            && ProperLock(source.yesShares, source.noShares, source.lockedCollateral, price)
            && ProperLock(dest.yesShares, dest.noShares, dest.lockedCollateral, price)
            && Good(source) && Good(dest) && !source.isSettled && !dest.isSettled
            && source.totalDeposited == PositionAt(s.positions, m, from).totalDeposited
            && dest.totalDeposited == PositionAt(s.positions, m, to).totalDeposited
            && (key != Key(m, from) && key != Key(m, to) ==>
                  (key in t.positions <==> key in s.positions)
                  && (key in s.positions ==> t.positions[key] == s.positions[key]))
  {
    LockBounds(PositionAt(s.positions, m, from).yesShares - yes, PositionAt(s.positions, m, from).noShares - no, price);
    LockBounds(PositionAt(s.positions, m, to).yesShares + yes, PositionAt(s.positions, m, to).noShares + no, price);
  }

  /** Both positions are as before, up to the price their locks are taken at. */
  predicate Restored(s: Shelf, u: Shelf, m: u32, from: Address, to: Address, price: int) {
    && PositionAt(u.positions, m, from) == Relock(PositionAt(s.positions, m, from), price)
    && PositionAt(u.positions, m, to) == Relock(PositionAt(s.positions, m, to), price)
  }

  /** Transferring the same shares back undoes a transfer if and only if it was between two accounts, or of nothing. */
  lemma TransferBack(s: Shelf, operators: set<Approval>, m: u32, from: Address, to: Address, caller: Address,
                     yes: int, no: int, price: int, id: u64, back: u64)
    requires AllGood(s.positions)
    requires TransferPosition(s, operators, m, from, to, caller, yes, no, price, id).Success?
    requires Request(to, back)
             !in TransferPosition(s, operators, m, from, to, caller, yes, no, price, id).value.consumed
    requires FitsI128(PositionAt(s.positions, m, from).yesShares) && FitsI128(PositionAt(s.positions, m, from).noShares)
    ensures var t := TransferPosition(s, operators, m, from, to, caller, yes, no, price, id).value;
            var u := TransferPosition(t, operators, m, to, from, to, yes, no, price, back);
            (u.Success? && Restored(s, u.value, m, from, to, price)) <==> from != to || (yes == 0 && no == 0)
  {
    if from == to {
      TransferBackToSelf(s, operators, m, from, caller, yes, no, price, id, back);
    }
  }

  lemma TransferBackToSelf(s: Shelf, operators: set<Approval>, m: u32, from: Address, caller: Address, yes: int,
                           no: int, price: int, id: u64, back: u64)
    requires AllGood(s.positions)
    requires TransferPosition(s, operators, m, from, from, caller, yes, no, price, id).Success?
    requires Request(from, back)
             !in TransferPosition(s, operators, m, from, from, caller, yes, no, price, id).value.consumed
    ensures var t := TransferPosition(s, operators, m, from, from, caller, yes, no, price, id).value;
            var u := TransferPosition(t, operators, m, from, from, from, yes, no, price, back);
            (u.Success? && Restored(s, u.value, m, from, from, price)) <==> yes == 0 && no == 0
  {
  }

  /**
   A merge of two accounts adds up their positions, empties the second, and costs at most one stroop of lock. Whichever
   accounts it names, the second ends empty.
   */
  lemma MergeEffect(s: Shelf, operators: set<Approval>, m: u32, owner: Address, primary: Address, other: Address,
                    caller: Address, price: int, id: u64, key: Key)
    requires AllGood(s.positions)
    requires MergePositions(s, operators, m, owner, primary, other, caller, price, id).Success?
    ensures var t := MergePositions(s, operators, m, owner, primary, other, caller, price, id).value;
            var p, q := PositionAt(s.positions, m, primary), PositionAt(s.positions, m, other);
            var merged := PositionAt(t.positions, m, primary);
            && t.consumed == s.consumed + {Request(owner, id)}
            && PositionAt(t.positions, m, other) == Position(0, 0, 0, 0, false)
            && (primary != other ==>
                  && merged.yesShares == p.yesShares + q.yesShares && merged.noShares == p.noShares + q.noShares
                  && merged.totalDeposited == p.totalDeposited + q.totalDeposited
                  && ProperLock(merged.yesShares, merged.noShares, merged.lockedCollateral, price)
                  && Good(merged) && !merged.isSettled
                  && merged.lockedCollateral
                     <= CalculateLockedCollateral(p.yesShares, p.noShares, price)
                        + CalculateLockedCollateral(q.yesShares, q.noShares, price) + 1)
            && (key != Key(m, primary) && key != Key(m, other) ==>
                  (key in t.positions <==> key in s.positions)
                  && (key in s.positions ==> t.positions[key] == s.positions[key]))
  {
    var p, q := PositionAt(s.positions, m, primary), PositionAt(s.positions, m, other);
    LockBounds(p.yesShares + q.yesShares, p.noShares + q.noShares, price);
    MergedLock(p.yesShares, p.noShares, q.yesShares, q.noShares, price);
  }

  /** Who may transfer what, in full. */
  lemma TransferAccepts(s: Shelf, operators: set<Approval>, m: u32, from: Address, to: Address, caller: Address,
                        yes: int, no: int, price: int, id: u64)
    requires AllGood(s.positions)
    ensures var source, dest := PositionAt(s.positions, m, from), PositionAt(s.positions, m, to);
            TransferPosition(s, operators, m, from, to, caller, yes, no, price, id).Success?
            <==> && 0 <= price <= 10_000
                 && (caller == from || Approval(from, caller) in operators)
                 && Request(from, id) !in s.consumed
                 && Key(m, from) in s.positions && !source.isSettled && !dest.isSettled
                 && 0 <= yes <= source.yesShares && 0 <= no <= source.noShares
                 && FitsI128(source.yesShares - yes) && FitsI128(source.noShares - no)
                 && FitsI128(dest.yesShares + yes) && FitsI128(dest.noShares + no)
  {
  }

  /** Who may merge what, in full. */
  lemma MergeAccepts(s: Shelf, operators: set<Approval>, m: u32, owner: Address, primary: Address, other: Address,
                     caller: Address, price: int, id: u64)
    ensures var p, q := PositionAt(s.positions, m, primary), PositionAt(s.positions, m, other);
            MergePositions(s, operators, m, owner, primary, other, caller, price, id).Success?
            <==> && 0 <= price <= 10_000
                 && (caller == owner || Approval(owner, caller) in operators)
                 && Request(owner, id) !in s.consumed
                 && Key(m, primary) in s.positions && Key(m, other) in s.positions
                 && !p.isSettled && !q.isSettled
                 && FitsI128(p.yesShares + q.yesShares) && FitsI128(p.noShares + q.noShares)
                 && FitsI128(p.totalDeposited + q.totalDeposited)
  {
  }
}
