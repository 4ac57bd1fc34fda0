/** The column dtype literal `"float64" | "int64" | "string"` that both parameter
    column models declare. */
module ColumnDtype {
  import opened Json

  datatype Dtype = Float64 | Int64 | String

  function DtypeName(t: Dtype): string {
    match t
    case Float64 => "float64"
    case Int64 => "int64"
    case String => "string"
  }

  /** The literal check: exactly the three names are accepted, each as its own dtype. */
  function ParseDtype(v: Value): (r: Option<Dtype>)
    ensures r.Some? <==> v in {Str("float64"), Str("int64"), Str("string")}
    ensures r.Some? ==> v == Str(DtypeName(r.value))
  {
    match v
    case Str(s) =>
      if s == "float64" then Some(Float64)
      else if s == "int64" then Some(Int64)
      else if s == "string" then Some(String)
      else None
    case _ => None
  }

  /** Every dtype's name is accepted and gives that dtype back. */
  lemma ParseDtypeName(t: Dtype)
    ensures ParseDtype(Str(DtypeName(t))) == Some(t)
  {
  }
}
