/** Shared vocabulary: optional values, results, account addresses and machine-integer bounds. */
module Base {

  datatype Option<+T> = None | Some(value: T)

  /** The outcome of a contract call: a value, or the error that makes the host roll the call back. */
  datatype Result<+T, +E> = Success(value: T) | Failure(error: E) {

    predicate IsFailure() {
      Failure?
    }

    function PropagateFailure<U>(): Result<U, E>
      requires Failure?
    {
      Failure(error)
    }

    function Extract(): T
      requires Success?
    {
      value
    }
  }

  /** A method's result and final state agree with a state machine; after a failure the host restores the state. */
  ghost predicate Agrees<S, T, E>(spec: Result<S, E>, r: Result<T, E>, after: S) {
    match spec
    case Success(t) => r.Success? && after == t
    case Failure(e) => r == Failure(e)
  }

  const U32_MAX: int := 0xFFFF_FFFF
  const I128_MAX: int := 0x7FFF_FFFF_FFFF_FFFF_FFFF_FFFF_FFFF_FFFF
  const U128_MAX: int := 0xFFFF_FFFF_FFFF_FFFF_FFFF_FFFF_FFFF_FFFF

  const U64_MAX: int := 0xFFFF_FFFF_FFFF_FFFF

  type u32 = x: int | 0 <= x <= U32_MAX
  type u64 = x: int | 0 <= x <= U64_MAX
  type i128 = x: int | -I128_MAX - 1 <= x <= I128_MAX
  type byte = x: int | 0 <= x < 256

  /** An account or contract address. */
  datatype Address = Address(id: nat)

  /** The emergency modes of both contracts, from unrestricted to frozen. */
  datatype EmergencyMode = Normal | TradingHalted | SettleOnly | GlobalFreeze

  function Min(x: int, y: int): int {
    if x <= y then x else y
  }

  function Max(x: int, y: int): int {
    if x <= y then y else x
  }
}
