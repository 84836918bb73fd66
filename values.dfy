/** Scalar values as the loader sees them: PHP strings and booleans, the loose
    comparison its coercion `switch` relies on, and the conversion to string
    that PHP's `.` operator and `sprintf('%s')` apply. Also the error kinds the
    loader raises. */
module Values {

  datatype Option<T> = None | Some(value: T)

  /** The exceptions `Loader` throws, as values. */
  datatype LoadError =
    | ParseError(message: string)       // ParseException, wrapping the parser's FormatException
    | PathError(message: string)        // PathException
    | MissingConstant(name: string)     // MissingConstantException
    | TypeError(builtin: string)        // a strict_types violation in a call to a built-in

  datatype Result<T> = Ok(value: T) | Err(error: LoadError)

  /** A configuration value. Everything read from a file or given as a path is
      a string; the coercion and the default table bring in booleans. */
  datatype Value = Bool(b: bool) | Str(s: string)

  /** PHP's conversion of a string to bool: only "" and "0" are false. */
  predicate Truthy(s: string)
  {
    s != "" && s != "0"
  }

  /** PHP's loose `==` between a value and a string literal that is not a
      numeric string (both case labels of the coercion are such literals):
      a boolean is compared with the literal converted to bool, a string is
      compared character by character. */
  predicate LooseEquals(v: Value, literal: string)
  {
    match v
    case Bool(b) => b == Truthy(literal)
    case Str(s) => s == literal
  }

  /** `Loader::stringToBoolean`: a `switch` whose first case label loosely
      equal to the value picks the result. Only the strings "true" and "false"
      change; booleans are fixed points because `false` equals neither label
      and `true` equals the first. */
  function Coerce(v: Value): (r: Value)
    ensures v == Str("true") ==> r == Bool(true)
    ensures v == Str("false") ==> r == Bool(false)
    ensures v != Str("true") && v != Str("false") ==> r == v
  {
    if LooseEquals(v, "true") then Bool(true)
    else if LooseEquals(v, "false") then Bool(false)
    else v
  }

  /** Coercing twice is coercing once. */
  lemma CoerceIdempotent(v: Value)
    ensures Coerce(Coerce(v)) == Coerce(v)
    ensures Coerce(v).Bool? <==> v.Bool? || v == Str("true") || v == Str("false")
  {
  }

  /** PHP's conversion of a value to string: `true` is "1", `false` is "". */
  function ToStr(v: Value): (r: string)
  {
    match v
    case Bool(b) => if b then "1" else ""
    case Str(s) => s
  }
}
