/**
 * The Python values that flow through the harness: the arguments passed to the
 * function under test, what it returns, the expected value and the test name.
 * Python's dynamic `==` is replaced by structural equality on this datatype.
 */
module Values {
  datatype Value =
    | IntV(i: int)
    | StrV(s: string)
    | NoneV
    | ListV(items: seq<Value>)

  /** What calling the function under test does: it returns a value, or raises an `Exception`. */
  datatype Outcome = Returned(value: Value) | Raised(message: string)

  /** Python truthiness: `0`, `""`, `None` and `[]` are false, everything else true. */
  predicate Truthy(v: Value) {
    match v
    case IntV(i) => i != 0
    case StrV(s) => s != ""
    case NoneV => false
    case ListV(xs) => xs != []
  }
}
