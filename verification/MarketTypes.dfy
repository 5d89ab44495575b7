/** The market contract's records, and the errors of its calls. */
module MarketTypes {
  import opened Base

  datatype MarketStatus = Active | Resolved | Canceled

  /** The part of a market that settlement and custody look at. */
  datatype Market = Market(status: MarketStatus, result: Option<bool>, endTime: nat, closedToDeposits: bool)

  datatype Position = Position(yesShares: int, noShares: int, lockedCollateral: int, totalDeposited: int,
                               isSettled: bool)

  const EmptyPosition: Position := Position(0, 0, 0, 0, false)

  datatype Key = Key(marketId: u32, user: Address)

  type PositionMap = map<Key, Position>

  /** The stored position, or the empty one callers start from. */
  function PositionAt(positions: PositionMap, m: u32, user: Address): Position {
    if Key(m, user) in positions then positions[Key(m, user)] else EmptyPosition
  }

  predicate Good(p: Position) {
    p.yesShares >= 0 && p.noShares >= 0 && p.lockedCollateral >= 0 && p.totalDeposited >= 0
  }

  ghost predicate AllGood(positions: PositionMap) {
    forall k :: k in positions ==> Good(positions[k])
  }

  /** The contract's own errors and those of its position functions. */
  datatype MarketError =
    | EmergencyModeActive | ReentrantCall | InvalidQuantity | MarketNotFound | MarketNotActive
    | MarketClosedToDeposits | MarketExpired | ArithmeticOverflow | WithdrawCooldownActive
    | InsufficientCollateral | InvalidPrice | BatchTooLarge | NoPositionFound | MarketNotResolved
    | PositionAlreadySettled | PositionTokenMismatch | ReconciliationAlreadyApplied
    | ShareBalanceBelowZero | InvalidMarketPrice | Unauthorized | DuplicateRequest | InvalidPositionState
    | HostTrap  // failed authorization, arithmetic overflow, or a token call the payer cannot cover
}
