/** Value-or-nothing types and digests, shared by the models. */
module Prelude {

  datatype Option<+T> = None | Some(value: T)

  /** A computation that yields a value or raises; usable with `:-`. */
  datatype Result<+T> = Success(value: T) | Failure
  {
    predicate IsFailure() {
      Failure?
    }

    function PropagateFailure<U>(): Result<U>
      requires Failure?
    {
      Failure
    }

    function Extract(): T
      requires Success?
    {
      value
    }
  }

  predicate IsHex(c: char) {
    '0' <= c <= '9' || 'a' <= c <= 'f'
  }

  /** A SHA-256 digest as 64 lower-case hexadecimal digits. */
  predicate IsHash(s: string) {
    |s| == 64 && forall i | 0 <= i < 64 :: IsHex(s[i])
  }
}
