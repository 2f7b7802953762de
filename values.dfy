/**
 * Values shared by the PHP and JavaScript parts of the model: optional
 * values, error results, and the string-keyed arrays that PHP code builds
 * and hands to the payment SDK or to the JSON serializer.
 */
module Values {

  datatype Option<+T> = None | Some(value: T)

  /** The outcome of an operation that either yields a value or fails with a message (an exception in the source). */
  datatype Result<+T> = Ok(value: T) | Err(message: string)

  /** The outcome of an operation that yields nothing or fails with a message. */
  datatype Outcome = Pass | Fail(message: string)

  /**
   * A PHP value as it appears in an array built for the payment SDK or for
   * JSON output. A nested array is a `Dict`. Key order is not modelled.
   */
  datatype Value =
    | Null
    | Bool(b: bool)
    | Int(i: int)
    | Str(s: string)
    | Dict(entries: map<string, Value>)

  /** A PHP array with string keys. */
  type PhpArray = map<string, Value>

  /** A PHP string or null, as a value in an array. */
  function StrOrNull(s: Option<string>): (v: Value)
    ensures s.None? <==> v == Null
    ensures s.Some? ==> v == Str(s.value)
  {
    match s
    case None => Null
    case Some(x) => Str(x)
  }

  /**
   * PHP's array union `$left + $right`: every key of either operand, and
   * where both have a key the LEFT operand's value is kept. (Dafny's map
   * `+` keeps the right operand's value, hence the swapped operands.)
   */
  function ArrayUnion(left: PhpArray, right: PhpArray): (r: PhpArray)
    ensures r.Keys == left.Keys + right.Keys
    ensures forall k :: k in left ==> r[k] == left[k]
    ensures forall k :: k in right && k !in left ==> r[k] == right[k]
  {
    right + left
  }
}
