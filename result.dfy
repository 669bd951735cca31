/** The success/failure container every fallible operation of the data layer returns
    (src/lib/api/result.ts), and the optional-value type used for TypeScript's `T | undefined`. */
module ApiResult {

  /** Exactly one of `{ ok: true, data }` or `{ ok: false, error }`. */
  datatype Result<+T, +E> = Ok(data: T) | Err(error: E)

  /** A value that may be absent (`undefined` in TypeScript). */
  datatype Option<+T> = None | Some(value: T) {
    function GetOr(default: T): (r: T)
      ensures Some? ==> r == value
      ensures None? ==> r == default
    {
      match this
      case Some(v) => v
      case None => default
    }
  }

  /** `ok(data)`: the success variant carrying exactly `data`. */
  function MakeOk<T, E>(data: T): (r: Result<T, E>)
    ensures r.Ok? && !r.Err?
    ensures r.data == data
  {
    Ok(data)
  }

  /** `err(error)`: the failure variant carrying exactly `error`. */
  function MakeErr<T, E>(error: E): (r: Result<T, E>)
    ensures r.Err? && !r.Ok?
    ensures r.error == error
  {
    Err(error)
  }

  /** Every Result has exactly one of the two shapes. */
  lemma ExactlyOneShape<T, E>(r: Result<T, E>)
    ensures r.Ok? != r.Err?
    ensures r.Ok? ==> r == MakeOk(r.data)
    ensures r.Err? ==> r == MakeErr(r.error)
  {
  }

  /** A success never equals a failure, and both constructors are injective. */
  lemma ConstructorsDistinctAndInjective<T, E>(a: T, b: T, x: E, y: E)
    ensures MakeOk<T, E>(a) != MakeErr<T, E>(x)
    ensures MakeOk<T, E>(a) == MakeOk<T, E>(b) ==> a == b
    ensures MakeErr<T, E>(x) == MakeErr<T, E>(y) ==> x == y
  {
  }
}
