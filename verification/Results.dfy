/**
  Failure-compatible result types shared by every module of the model.

  The training driver signals errors by raising Python exceptions; the model
  returns `Err(e)` instead, where `e` names the exception class that the
  corresponding Python code raises at that point.
 */
module Results {

  /** The Python exception raised on an error path. */
  datatype PyError =
    | AssertionError(check: string)   // an `assert` failed; `check` is our own label
    | ValueError                      // e.g. `max([])`, `int("x")`, a ragged tensor
    | IndexError                      // list index out of range
    | KeyError                        // missing dictionary key
    | TypeError                       // e.g. `len(None)`
    | ZeroDivisionError               // `x % 0` or `x // 0`
    | UnboundLocalError(name: string) // a local read before assignment
    | NotImplementedError
    | RuntimeError                    // a bare `raise Exception(...)`

  datatype Option<+T> = None | Some(value: T)

  datatype Result<+T> = Ok(value: T) | Err(error: PyError) {

    predicate IsFailure() {
      Err?
    }

    function PropagateFailure<U>(): Result<U>
      requires Err?
    {
      Err(error)
    }

    function Extract(): T
      requires Ok?
    {
      value
    }
  }

  /** Python truthiness of an optional integer argument (`None` and `0` are false). */
  predicate Truthy(x: Option<int>) {
    x.Some? && x.value != 0
  }

  type Pos = n: int | n > 0 witness 1
}
