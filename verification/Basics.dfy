/** Option and Result types, the error codes of the program, and its fixed-width integers. */
module Basics {

  datatype Option<+T> = None | Some(value: T)

  datatype ErrorCode =
    | InvalidArgument
    | ParseError
    | UnsupportedSchema
    | UnknownEventType
    | MissingField
    | InvalidPayload
    | Conflict
    | NotFound
    | StorageFailure

  /** A value or an error code; usable with `:-`. */
  datatype Result<+T> = Ok(value: T) | Err(error: ErrorCode) {
    predicate IsFailure() {
      Err?
    }

    function PropagateFailure<U>(): Result<U>
      requires Err?
    {
      Err(error)
    }

    function Extract(): T
      requires Ok?
    {
      value
    }
  }

  /** A check without a value; `var _ :- Need(c, code);` leaves the enclosing function with `Err(code)`. */
  function Need(condition: bool, error: ErrorCode): Result<()> {
    if condition then Ok(()) else Err(error)
  }

  const TWO_31 := 0x8000_0000
  const TWO_32 := 0x1_0000_0000

  type Int32 = n: int | -TWO_31 <= n < TWO_31

  type UInt32 = n: int | 0 <= n < TWO_32

  /** Narrowing of an integer to 32 signed bits. */
  function Wrap32(n: int): (r: Int32)
    ensures (n - r) % TWO_32 == 0
    ensures -TWO_31 <= n < TWO_31 ==> r == n
  {
    (n + TWO_31) % TWO_32 - TWO_31
  }

  function Max(a: int, b: int): (m: int)
    ensures m >= a && m >= b && (m == a || m == b)
  {
    if a < b then b else a
  }
}
