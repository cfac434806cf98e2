/**
 * Value shapes shared by every module: Go's nil-or-value, the outcome of an
 * SDK or activity call, and a Go function's (value, error) pair.
 */
module GoTypes {

  datatype Option<+T> = None | Some(value: T)

  /** What a Temporal/iWF call, an activity or a network call handed back:
      a value, or the text of the Go error it returned. */
  datatype Outcome<+T> = Ok(value: T) | Err(msg: string)

  /** A Go return pair `(value, error)`; `err == None` is a nil error.
      A `(*T, error)` return is `Ret<Option<T>>`, with `None` for a nil pointer. */
  datatype Ret<+T> = Ret(value: T, err: Option<string>)

  function Abs(x: int): nat
  {
    if x < 0 then -x else x
  }

  /** Go's integer division `a / b`, which truncates toward zero (Dafny's `/`
      is Euclidean and differs for negative operands). */
  function GoDiv(a: int, b: int): (q: int)
    requires b != 0
    ensures Abs(q) * Abs(b) <= Abs(a) < (Abs(q) + 1) * Abs(b)
    ensures q != 0 ==> (q > 0 <==> (a > 0) == (b > 0))
  {
    var m := Abs(a) / Abs(b);
    if (a >= 0) == (b > 0) then m else -m
  }

  /** On non-negative operands Go's division and Dafny's agree. */
  lemma GoDivNonNegative(a: int, b: int)
    requires a >= 0 && b > 0
    ensures GoDiv(a, b) == a / b
  {
  }

  /** Go truncates -7 / 2 to -3 where Dafny's Euclidean division gives -4. */
  lemma GoDivTruncates()
    ensures GoDiv(-7, 2) == -3 && -7 / 2 == -4
  {
  }
}
