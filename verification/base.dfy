/** Shared vocabulary of the gate-flow model: optional values, results, the
    errors the library throws, JavaScript values, and the two array searches
    (`indexOf`, `findIndex`) the gate keeper relies on. */
module Base {

  datatype Option<+T> = None | Some(value: T) {
    function GetOr(default: T): T {
      match this
      case Some(v) => v
      case None => default
    }
  }

  /** A thrown error, one constructor per distinct message the core produces. */
  datatype Error =
    | KeyNotDefined       // "Key is not defined"
    | GateNotDefined      // "Gate was not defined"
    | InvalidKey          // "Invalid key" (the remapped "Invalid IV length")
    | EmptyValue          // "Value must be string with non-zero length."
    | CipherFailure       // any other decipher error, rethrown unchanged
    | Rejected(message: string)  // knock's validation errors joined with ", "
    | NotFound            // JSON.parse("") on a key with no stored record
    | NoActiveGate        // TypeError reading schema[i][0] for an index outside the schema

  /** A settled promise: a value or the error it was rejected with. */
  datatype Result<+T> = Ok(value: T) | Err(error: Error)

  /** The JavaScript values a caller may hand to the library.  Numbers are
      modelled as integers. */
  datatype Value =
    | Undefined
    | Null
    | Bool(b: bool)
    | Num(n: int)
    | Str(s: string)
    | Arr(items: seq<Value>)
    | Obj(fields: map<string, Value>)

  /** `typeof v === "string" && v.length !== 0` */
  predicate IsNonEmptyString(v: Value) {
    v.Str? && |v.s| > 0
  }

  /** `Array.prototype.indexOf`: the first position holding `x`, or -1. */
  function IndexOf<T(==)>(xs: seq<T>, x: T): (r: int)
    ensures -1 <= r < |xs|
    ensures r == -1 <==> x !in xs
    ensures 0 <= r ==> xs[r] == x && x !in xs[..r]
  {
    if |xs| == 0 then -1
    else if xs[0] == x then 0
    else
      var i := IndexOf(xs[1..], x);
      if i == -1 then -1
      else
        assert xs[..i + 1] == [xs[0]] + xs[1..][..i];
        i + 1
  }

  /** `Array.prototype.join`. */
  function Join(parts: seq<string>, sep: string): (r: string)
    ensures |parts| == 1 ==> r == parts[0]
    ensures |parts| == 0 ==> r == ""
  {
    if |parts| == 0 then ""
    else if |parts| == 1 then parts[0]
    else parts[0] + sep + Join(parts[1..], sep)
  }
}
