/** JSON documents as the validators receive them, and the scalar field checks
    that every model in this project shares. */
module Json {

  /** Validation outcome: `None` stands for a raised ValidationError. */
  datatype Option<+T> = None | Some(value: T) {
    predicate IsFailure() {
      None?
    }

    function PropagateFailure<U>(): Option<U>
      requires None?
    {
      None
    }

    function Extract(): T
      requires Some?
    {
      value
    }
  }

  /** A decoded JSON value. Numbers keep the integer / floating distinction that
      the JSON decoder makes; a floating number is an opaque real. */
  datatype Value =
    | Null
    | Str(s: string)
    | Int(i: int)
    | Num(r: real)
    | Obj(fields: map<string, Value>)

  /** A float whose fractional part is zero. */
  predicate IsIntegral(r: real) {
    r.Floor as real == r
  }

  /** 2^63: the bound, exclusive on both sides, of a 64-bit signed integer
      taken as a float. */
  const INT64_LIMIT: real := 9223372036854775808.0

  /** A float that an `int` field accepts: its fractional part is zero and it
      lies strictly between -2^63 and 2^63 (a larger one is too large to parse). */
  predicate IntFromFloat(r: real) {
    IsIntegral(r) && -INT64_LIMIT < r < INT64_LIMIT
  }

  /** A `str` field: only a string is accepted (no number is turned into text). */
  function AsText(v: Value): (r: Option<string>)
    ensures r.Some? <==> v.Str?
    ensures r.Some? ==> v == Str(r.value)
  {
    match v
    case Str(s) => Some(s)
    case _ => None
  }

  /** A `float` field: a float is kept, an integer is widened. */
  function AsFloat(v: Value): (r: Option<real>)
    ensures r.Some? <==> v.Int? || v.Num?
    ensures v.Num? ==> r == Some(v.r)
    ensures v.Int? ==> r == Some(v.i as real)
  {
    match v
    case Int(i) => Some(i as real)
    case Num(x) => Some(x)
    case _ => None
  }

  /** An `int` field: an integer is kept, a float is accepted only when it has no
      fractional part and is within the 64-bit signed range. */
  function AsInteger(v: Value): (r: Option<int>)
    ensures r.Some? <==> v.Int? || (v.Num? && IntFromFloat(v.r))
    ensures v.Int? ==> r == Some(v.i)
    ensures r.Some? && v.Num? ==> r.value as real == v.r
  {
    match v
    case Int(i) => Some(i)
    case Num(x) => if IntFromFloat(x) then Some(x.Floor) else None
    case _ => None
  }

  /** A float past 2^63 is refused by an `int` field even when it is whole,
      while the largest whole floats below it and integers of any size pass. */
  lemma IntegerRange()
    ensures AsInteger(Num(1e22)) == None
    ensures AsInteger(Num(INT64_LIMIT)) == None
    ensures AsInteger(Num(-INT64_LIMIT)) == None
    ensures AsInteger(Num(4611686018427387904.0)) == Some(4611686018427387904)
    ensures AsInteger(Int(10000000000000000000000)) == Some(10000000000000000000000)
  {
  }

  /** Looks a required field up and checks it with one of the scalar checks;
      a missing field fails. */
  function TextField(doc: map<string, Value>, key: string): Option<string> {
    if key in doc then AsText(doc[key]) else None
  }

  function FloatField(doc: map<string, Value>, key: string): Option<real> {
    if key in doc then AsFloat(doc[key]) else None
  }

  function IntegerField(doc: map<string, Value>, key: string): Option<int> {
    if key in doc then AsInteger(doc[key]) else None
  }
}
