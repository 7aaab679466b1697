/**
 * Failure-carrying wrappers and the error values the package raises.
 *
 * The Python code signals failures with exceptions; the model returns them as
 * values so that every error path can be stated in a contract.
 */
module Common {

  /** An element of a Python `bytes` object. */
  type Byte = b: int | 0 <= b < 256

  /** A value that may be absent (Python's `None`). */
  datatype Option<+T> = None | Some(value: T)

  /** The exceptions the modelled code raises, one constructor per kind. */
  datatype Error =
    | TypeError(msg: string)          // wrong Problem subclass handed to a solver
    | RuntimeError(msg: string)       // missing entry point, backend mismatch
    | AttributeError(symbol: string)  // a missing main symbol, or a missing array attribute
    | LoadError(path: string)         // ctypes.CDLL on a file that is not there
    | ValueError                      // numpy rejecting an argument, or bytes that do not decode
    | IndexError                      // an index outside an array
    | ZeroDivisionError               // a division by zero

  /** Either a result or the exception that replaced it. */
  datatype Result<+T> = Ok(value: T) | Err(error: Error) {
    predicate IsFailure() { Err? }

    function PropagateFailure<U>(): Result<U>
      requires Err?
    {
      Err(error)
    }

    function Extract(): T
      requires Ok?
    {
      value
    }
  }

  /** An item that is present only when its condition holds: an optional script line or build step. */
  function When<T(==)>(cond: bool, x: T): (xs: seq<T>)
    ensures x in xs <==> cond
    ensures |xs| <= 1
  {
    if cond then [x] else []
  }

  /** Product of the entries of a shape (numpy's `prod` / `size`). */
  function Prod(s: seq<int>): int
  {
    if |s| == 0 then 1 else s[0] * Prod(s[1..])
  }

  /** The product distributes over concatenation of shapes. */
  lemma {:induction false} ProdAppend(a: seq<int>, b: seq<int>)
    ensures Prod(a + b) == Prod(a) * Prod(b)
  {
    if |a| == 0 {
      assert a + b == b;
    } else {
      assert (a + b)[1..] == a[1..] + b;
      ProdAppend(a[1..], b);
    }
  }

  /** A shape without negative entries has a non-negative element count. */
  lemma {:induction false} ProdNonNegative(s: seq<int>)
    requires forall i :: 0 <= i < |s| ==> s[i] >= 0
    ensures Prod(s) >= 0
  {
    if |s| > 0 {
      assert forall i :: 0 <= i < |s[1..]| ==> s[1..][i] == s[i + 1];
      ProdNonNegative(s[1..]);
    }
  }

  /** Python's `//` by a positive divisor rounds toward minus infinity, as Dafny's `/` does then. */
  function FloorDiv(a: int, b: int): (q: int)
    requires b > 0
    ensures q * b <= a < q * b + b
  {
    a / b
  }
}
