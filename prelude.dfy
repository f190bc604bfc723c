/** Small wrappers shared by the model: Rust's Option and Result, and the
    outcome of a call that may panic (unwrap on None or Err, or an explicit panic!). */
module Prelude {

  datatype Option<+T> = None | Some(value: T)

  datatype Result<+T, +E> = Ok(value: T) | Err(error: E)

  /** Why a modelled Rust call panicked. */
  datatype Panic =
    | UnwrapNone             // `Option::unwrap()` on a `None` value
    | UnwrapErr              // `Result::unwrap()` on an `Err` value
    | BadMessageOp(op: string)
    | BadMessageType

  /** A call either returns a value or panics (and so never returns). */
  datatype Outcome<+T> = Returned(value: T) | Panicked(reason: Panic)

  function Min(a: int, b: int): (m: int)
    ensures m <= a && m <= b
    ensures m == a || m == b
  {
    if a <= b then a else b
  }

  /** `Vec::get`: the element at index i, or None when i is past the end. */
  function Get<T>(xs: seq<T>, i: nat): (r: Option<T>)
    ensures r.Some? <==> i < |xs|
    ensures r.Some? ==> r.value == xs[i]
  {
    if i < |xs| then Some(xs[i]) else None
  }
}
