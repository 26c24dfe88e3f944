/**
 * Failure wrappers shared by the model.
 *
 * The engine reports recoverable failures through `std::io::Result`; a Rust
 * `panic!`, a failed `unwrap`, an arithmetic underflow of a `usize` (debug
 * build) or an out-of-bounds array index aborts instead. The two are kept
 * apart so that a caller that catches only `Err` (as the FEN decoder does for
 * the en-passant square) is modelled exactly.
 */
module Wrappers {

  datatype Option<T> = None | Some(value: T)
  {
    /** `Option::unwrap_or` / `opt.or(Some(d)).unwrap()`. */
    function GetOr(default: T): (r: T)
      ensures Some? ==> r == value
      ensures None? ==> r == default
    {
      match this
      case Some(v) => v
      case None => default
    }
  }

  /** `Failed` is an `Err` value of the source; `Panicked` is an abort. */
  datatype Error = Failed(msg: string) | Panicked(msg: string)

  datatype Result<T> = Ok(value: T) | Err(error: Error)

  const UNWRAP_NONE := "called `Option::unwrap()` on a `None` value"
  const SUB_OVERFLOW := "attempt to subtract with overflow"
  const ADD_OVERFLOW := "attempt to add with overflow"
  const OUT_OF_BOUNDS := "index out of bounds"
}
