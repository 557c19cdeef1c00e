/** Failure types, the contract's error codes, and the machine arithmetic of the Rust source:
    checked and saturating operations over `u64` and `i128`, written out over unbounded integers. */
module Prelude {

  datatype Option<+T> = None | Some(value: T) {

    function UnwrapOr(default: T): T {
      match this
      case Some(v) => v
      case None => default
    }

    function OkOr(error: Error): Result<T> {
      match this
      case Some(v) => Ok(v)
      case None => Err(error)
    }
  }

  datatype Result<+T> = Ok(value: T) | Err(error: Error) {

    predicate IsFailure() {
      Err?
    }

    function PropagateFailure<U>(): Result<U>
      requires Err?
    {
      Err(error)
    }

    function Extract(): T
      requires Ok?
    {
      value
    }
  }

  datatype Check = Pass | Fail(error: Error) {

    predicate IsFailure() {
      Fail?
    }

    function PropagateFailure<U>(): Result<U>
      requires Fail?
    {
      Err(error)
    }
  }

  function Need(condition: bool, error: Error): Check {
    if condition then Pass else Fail(error)
  }

  /** An account or contract address. `Contract` is the stream contract's own address. */
  datatype Address = Contract | Account(key: nat)

  /** The contract's error codes, one constructor each, and the three ways the host traps. */
  datatype Error =
    | StreamNotFound | NotRecipient | NotSender | StreamNotActive | ZeroAmount
    | InvalidDuration | InvalidCliff | NotInitialized | DuplicateStream
    | InvalidPartialCancel | ContractPaused | Overflow | ZeroFlowRate
    | BatchLengthMismatch | TokenMismatch | StreamLocked | NotAuthorized
    | StreamNotPaused | StreamDurationTooShort | StreamIdConflict
    | SenderStreamLimitExceeded | InvalidNonce | StreamNotSettled
    | WithdrawalCooldownActive | RecipientNotWhitelisted | DuplicateStreamId
    | InvalidEndTime
    | TransferFailed(from: Address)  // the token contract traps
    | MissingAuth(address: Address)  // require_auth traps
    | Panic                          // expect, or an overflow check of the release profile
  {
    /** A trap aborts the whole invocation, even inside a batch entry. */
    predicate IsTrap() {
      TransferFailed? || MissingAuth? || Panic?
    }
  }

  const U32_MAX := 0xFFFF_FFFF
  const U64_MAX := 0xFFFF_FFFF_FFFF_FFFF
  const I128_MAX := 0x7FFF_FFFF_FFFF_FFFF_FFFF_FFFF_FFFF_FFFF
  const I128_MIN := -0x8000_0000_0000_0000_0000_0000_0000_0000

  type u32 = x: int | 0 <= x <= U32_MAX
  type u64 = x: int | 0 <= x <= U64_MAX
  type i128 = x: int | I128_MIN <= x <= I128_MAX

  function Min(x: int, y: int): int {
    if x < y then x else y
  }

  function Max(x: int, y: int): int {
    if x < y then y else x
  }

  /** `checked_add`, `checked_mul`: the exact value, or nothing when it does not fit. */
  function CheckedI128(exact: int): Option<int> {
    if I128_MIN <= exact <= I128_MAX then Some(exact) else None
  }

  function CheckedU64(exact: int): Option<int> {
    if 0 <= exact <= U64_MAX then Some(exact) else None
  }

  /** `saturating_sub`, `saturating_mul`: the exact value clipped to the type. */
  function SaturatingI128(exact: int): int {
    Max(I128_MIN, Min(exact, I128_MAX))
  }

  function SaturatingU64(exact: int): int {
    Max(0, Min(exact, U64_MAX))
  }

  lemma MulMono(rate: int, x: int, y: int)
    requires 0 <= rate && x <= y
    ensures rate * x <= rate * y
  {
    assert rate * (y - x) >= 0;
  }

  lemma MulSplit(rate: int, x: int, y: int)
    ensures rate * (x + y) == rate * x + rate * y
  {
  }

  lemma MulSign(rate: int, x: int)
    requires 0 <= rate && 0 <= x
    ensures 0 <= rate * x
  {
  }

  lemma DivFloor(amount: int, divisor: int)
    requires 0 < divisor
    ensures amount == divisor * (amount / divisor) + amount % divisor
    ensures 0 <= amount % divisor < divisor
    ensures 0 <= amount ==> 0 <= amount / divisor
  {
  }
}
