/** The simulator fipregions mapping: a list of rows, each tying a FIPNUM to a
    zone and a region, validated row by row. */
module SimulatorFipregionsMapping {
  import opened Json
  import SchemaBase
  import ErtParameters

  /** One validated row: FIPNUM is a non-negative integer. */
  datatype SimulatorFipregionsMappingResultRow = Row(fipnum: nat, zone: string, region: string)

  /** The declarative row rule: the three fields are present, FIPNUM is an
      integer (or an integral float below 2^63) that is at least zero, ZONE and REGION are
      text. Other keys are not looked at. */
  predicate RowAdmits(doc: map<string, Value>) {
    && "FIPNUM" in doc && "ZONE" in doc && "REGION" in doc
    && (match doc["FIPNUM"]
        case Int(i) => i >= 0
        case Num(x) => IntFromFloat(x) && x >= 0.0
        case _ => false)
    && doc["ZONE"].Str? && doc["REGION"].Str?
  }

  /** Validation of one row given as a JSON value. */
  function ValidateRow(v: Value): (r: Option<SimulatorFipregionsMappingResultRow>)
    ensures r.Some? <==> v.Obj? && RowAdmits(v.fields)
    ensures r.Some? ==>
      && v.fields["ZONE"] == Str(r.value.zone) && v.fields["REGION"] == Str(r.value.region)
      && (r.value.fipnum as real == if v.fields["FIPNUM"].Int? then v.fields["FIPNUM"].i as real else v.fields["FIPNUM"].r)
  {
    match v
    case Obj(fields) =>
      var fipnum :- IntegerField(fields, "FIPNUM");
      var zone :- TextField(fields, "ZONE");
      var region :- TextField(fields, "REGION");
      if fipnum >= 0 then Some(Row(fipnum, zone, region)) else None
    case _ => None
  }

  /** Validation of the whole mapping: it succeeds exactly when every row does,
      and then keeps the rows' number and order. */
  function ValidateMapping(rows: seq<Value>): (r: Option<seq<SimulatorFipregionsMappingResultRow>>)
    ensures r.Some? <==> forall i :: 0 <= i < |rows| ==> ValidateRow(rows[i]).Some?
    ensures r.Some? ==> |r.value| == |rows|
    ensures r.Some? ==> forall i :: 0 <= i < |rows| ==> ValidateRow(rows[i]) == Some(r.value[i])
  {
    if rows == [] then Some([])
    else
      var first :- ValidateRow(rows[0]);
      var rest :- ValidateMapping(rows[1..]);
      Some([first] + rest)
  }

  /** A negative FIPNUM is rejected; zero is accepted. */
  lemma FipnumLowerBound()
    ensures ValidateRow(Obj(map["FIPNUM" := Int(-1), "ZONE" := Str("A"), "REGION" := Str("B")])) == None
    ensures ValidateRow(Obj(map["FIPNUM" := Int(0), "ZONE" := Str("A"), "REGION" := Str("B")])) == Some(Row(0, "A", "B"))
  {
  }

  /** A row missing any of the three fields is rejected. */
  lemma MissingFieldRejected(fields: map<string, Value>, k: string)
    requires k in {"FIPNUM", "ZONE", "REGION"} && k !in fields
    ensures ValidateRow(Obj(fields)) == None
  {
  }

  /** One bad row rejects the whole mapping. */
  lemma BadRowRejectsMapping(rows: seq<Value>, i: nat)
    requires i < |rows| && ValidateRow(rows[i]).None?
    ensures ValidateMapping(rows) == None
  {
  }

  /** No cross-row rule: any two valid rows that share a FIPNUM are both
      accepted, in order. */
  lemma DuplicateFipnumAccepted(a: Value, b: Value)
    requires ValidateRow(a).Some? && ValidateRow(b).Some?
    requires ValidateRow(a).value.fipnum == ValidateRow(b).value.fipnum
    ensures ValidateMapping([a, b]) == Some([ValidateRow(a).value, ValidateRow(b).value])
  {
    var r := ValidateMapping([a, b]);
    assert r.Some?;
    assert r.value == [ValidateRow(a).value, ValidateRow(b).value];
  }

  // ---------------------------------------------------------------------------
  // Schema location

  const VERSION: string := "0.1.0"
  const FILENAME: string := "simulator_fipregions_mapping.json"

  /** `PATH`: the schema file under the schemas root. */
  function SchemaPath(root: SchemaBase.Path): (p: SchemaBase.Path)
    ensures |p| == |root| + 3 && p[..|root|] == root
    ensures p[|root|..] == ["file_formats", VERSION, FILENAME]
  {
    SchemaBase.SchemaPath(root, VERSION, FILENAME)
  }

  /** The mapping schema and the Ert parameters schema, derived the same way
      under the same root and at the same version, never share a path. */
  lemma PathDiffersFromErtParameters(root: SchemaBase.Path)
    ensures SchemaPath(root) != ErtParameters.SchemaPath(root)
  {
    assert SchemaPath(root)[|root| + 2] != ErtParameters.SchemaPath(root)[|root| + 2];
  }
}
