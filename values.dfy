/** PHP values as the adapter meets them: option values, frame header values and message fields. */
module PhpValues {

  /** A loosely typed PHP scalar. `Bool(false)` is what a frame returns for a header it does not hold. */
  datatype Value = Null | Bool(b: bool) | Int(i: int) | Str(s: string)

  /** A PHP byte string: every character is one byte. */
  type Bytes = s: string | forall c :: c in s ==> c < 256 as char

  /** PHP truthiness: the values that `?:` and `!` treat as false. */
  predicate Falsy(v: Value) {
    match v
    case Null => true
    case Bool(b) => !b
    case Int(i) => i == 0
    case Str(s) => s == "" || s == "0"
  }
}
