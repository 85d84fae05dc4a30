/** The PHP values that flow through a subscriber's record, and PHP's empty()/isset() tests on them. */
module PhpValues {
  import opened PhpText

  /** A PHP scalar as the helper meets it (floats never occur in the record). */
  datatype Scalar = Null | Bool(b: bool) | Int(i: int) | Str(s: string)

  /** A record entry: a scalar, or an array of scalars. */
  datatype Value = Scalar(scalar: Scalar) | List(items: seq<Scalar>)

  /** A PHP array with string keys, such as the assembled record or the mapped result. */
  type Record = map<string, Value>

  /** PHP's empty() on a scalar: null, false, 0, "" and "0". */
  predicate IsEmpty(v: Scalar): (e: bool)
    ensures e <==> v in {Null, Bool(false), Int(0), Str(""), Str("0")}
  {
    match v
    case Null => true
    case Bool(b) => !b
    case Int(i) => i == 0
    case Str(s) => s == "" || s == "0"
  }

  /** PHP's isset() on an array entry that exists: true unless the entry is null. An entry that is not
      set is empty. */
  predicate IsSet(v: Value): (isSet: bool)
    ensures !isSet ==> v.Scalar? && IsEmpty(v.scalar)
  {
    v != Scalar(Null)
  }

  /** The string PHP passes to trim() for a scalar (coercive typing: true is "1", an int its digits). */
  function ToText(v: Scalar): (t: string)
    ensures v.Str? ==> t == v.s
    ensures v == Bool(true) ==> t == "1"
    ensures v.Int? ==> NoEdgeSpace(t) && t != [] && ((t[0] == '-') <==> v.i < 0)
    ensures IsEmpty(v) <==> t == "" || t == "0"
  {
    match v
    case Null => ""
    case Bool(b) => if b then "1" else ""
    case Int(i) => IntToString(i)
    case Str(s) => s
  }
}
