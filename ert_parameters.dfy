/** Ert parameter metadata: one closed record per distribution, the union of
    them discriminated by `distribution`, the flat column-metadata encoding, the
    parameter column and the parameters result table. */
module ErtParameters {
  import opened Json
  import opened ColumnDtype
  import SchemaBase

  // ---------------------------------------------------------------------------
  // Tags

  /** All currently known Ert distributions. */
  datatype ErtDistribution =
    | Uniform | LogUnif | Normal | LogNormal | TruncatedNormal | Raw
    | Const | DUnif | Triangular | Errf | Derrf

  /** The `distribution` literal of each record class; the discriminator lookup
      recognises it as that distribution. */
  function Tag(d: ErtDistribution): (r: string)
    ensures ParseDistribution(r) == Some(d)
  {
    match d
    case Uniform => "uniform"
    case LogUnif => "logunif"
    case Normal => "normal"
    case LogNormal => "lognormal"
    case TruncatedNormal => "truncated_normal"
    case Raw => "raw"
    case Const => "const"
    case DUnif => "dunif"
    case Triangular => "triangular"
    case Errf => "errf"
    case Derrf => "derrf"
  }

  /** The distribution whose tag is `s`, if any. */
  function ParseDistribution(s: string): Option<ErtDistribution> {
    if s == "uniform" then Some(Uniform)
    else if s == "logunif" then Some(LogUnif)
    else if s == "normal" then Some(Normal)
    else if s == "lognormal" then Some(LogNormal)
    else if s == "truncated_normal" then Some(TruncatedNormal)
    else if s == "raw" then Some(Raw)
    else if s == "const" then Some(Const)
    else if s == "dunif" then Some(DUnif)
    else if s == "triangular" then Some(Triangular)
    else if s == "errf" then Some(Errf)
    else if s == "derrf" then Some(Derrf)
    else None
  }

  /** The lookup recognises exactly the eleven tags: a string it accepts is the
      tag of the distribution it gives, and a string it refuses is no tag. */
  lemma ParsedTag(s: string)
    ensures ParseDistribution(s).Some? ==> Tag(ParseDistribution(s).value) == s
    ensures ParseDistribution(s).None? ==> forall d :: Tag(d) != s
  {
    if ParseDistribution(s).None? {
      forall d ensures Tag(d) != s {
        assert ParseDistribution(Tag(d)) == Some(d);
      }
    }
  }

  /** The tags are pairwise distinct. */
  lemma TagInjective(d1: ErtDistribution, d2: ErtDistribution)
    requires Tag(d1) == Tag(d2)
    ensures d1 == d2
  {
    assert ParseDistribution(Tag(d1)) == Some(d1);
  }

  datatype InputSource = Sampled | DesignMatrix

  function SourceTag(s: InputSource): string {
    match s
    case Sampled => "sampled"
    case DesignMatrix => "design_matrix"
  }

  /** The `input_source` literal: only "sampled" and "design_matrix". */
  function ParseInputSource(v: Value): (r: Option<InputSource>)
    ensures r.Some? <==> v == Str("sampled") || v == Str("design_matrix")
    ensures r.Some? ==> v == Str(SourceTag(r.value))
  {
    if v == Str("sampled") then Some(Sampled)
    else if v == Str("design_matrix") then Some(DesignMatrix)
    else None
  }

  // ---------------------------------------------------------------------------
  // Records

  /** The distribution-specific fields of each record. `steps` is an integer for
      dunif but a float for derrf; the derrf field is named `derrfSteps` here
      only because one destructor name cannot carry two types. */
  datatype DistributionParams =
    | UniformParams(min: real, max: real)
    | LogUnifParams(min: real, max: real)
    | NormalParams(mean: real, std: real)
    | LogNormalParams(mean: real, std: real)
    | TruncatedNormalParams(min: real, max: real, mean: real, std: real)
    | RawParams
    | ConstParams(value: real)
    | DUnifParams(min: real, max: real, steps: int)
    | TriangularParams(min: real, max: real, mode: real)
    | ErrfParams(min: real, max: real, skewness: real, width: real)
    | DerrfParams(min: real, max: real, skewness: real, width: real, derrfSteps: real)
  {
    function Distribution(): ErtDistribution {
      match this
      case UniformParams(_, _) => Uniform
      case LogUnifParams(_, _) => LogUnif
      case NormalParams(_, _) => Normal
      case LogNormalParams(_, _) => LogNormal
      case TruncatedNormalParams(_, _, _, _) => TruncatedNormal
      case RawParams => Raw
      case ConstParams(_) => Const
      case DUnifParams(_, _, _) => DUnif
      case TriangularParams(_, _, _) => Triangular
      case ErrfParams(_, _, _, _) => Errf
      case DerrfParams(_, _, _, _, _) => Derrf
    }
  }

  /** A validated parameter metadata record: the fields every record has, and
      the fields of its distribution. */
  datatype ErtParameterMetadata =
    ErtParameterMetadata(group: string, inputSource: InputSource, params: DistributionParams)
  {
    function Distribution(): ErtDistribution {
      params.Distribution()
    }
  }

  // ---------------------------------------------------------------------------
  // The declared field table

  const CommonFields: set<string> := {"group", "input_source", "distribution"}

  /** The fields a record declares beyond the common ones; none of them clashes
      with a common field, and `steps` belongs to the two discrete distributions. */
  function DistributionFields(d: ErtDistribution): (r: set<string>)
    ensures r !! CommonFields
    ensures "steps" in r <==> d == DUnif || d == Derrf
    ensures d == Raw <==> |r| == 0
  {
    match d
    case Uniform => {"min", "max"}
    case LogUnif => {"min", "max"}
    case Normal => {"mean", "std"}
    case LogNormal => {"mean", "std"}
    case TruncatedNormal => {"min", "max", "mean", "std"}
    case Raw => {}
    case Const => {"value"}
    case DUnif => {"min", "max", "steps"}
    case Triangular => {"min", "max", "mode"}
    case Errf => {"min", "max", "skewness", "width"}
    case Derrf => {"min", "max", "skewness", "width", "steps"}
  }

  /** All fields a record of distribution `d` declares; all of them are required. */
  function FieldNames(d: ErtDistribution): (r: set<string>)
    ensures CommonFields <= r
    ensures r - CommonFields == DistributionFields(d)
  {
    CommonFields + DistributionFields(d)
  }

  /** What a declared field accepts. */
  datatype Kind = KText | KSource | KTag(d: ErtDistribution) | KFloat | KInt

  /** The kind of each field name under distribution `d`. Only dunif's `steps`
      is an integer; `distribution` must carry `d`'s own tag. */
  function FieldKind(d: ErtDistribution, field: string): Kind {
    if field == "group" then KText
    else if field == "input_source" then KSource
    else if field == "distribution" then KTag(d)
    else if field == "steps" && d == DUnif then KInt
    else KFloat
  }

  /** The shape of the kind table: only dunif's `steps` is an integer field,
      only `distribution` carries a tag, and the distribution-specific fields
      are all numbers. */
  lemma FieldKindTable(d: ErtDistribution, field: string)
    ensures FieldKind(d, field) == KInt <==> d == DUnif && field == "steps"
    ensures FieldKind(d, field) == KTag(d) <==> field == "distribution"
    ensures field in DistributionFields(d) ==> FieldKind(d, field) in {KFloat, KInt}
    ensures field in CommonFields ==> FieldKind(d, field) !in {KFloat, KInt}
  {
  }

  predicate KindAccepts(k: Kind, v: Value) {
    match k
    case KText => v.Str?
    case KSource => v == Str("sampled") || v == Str("design_matrix")
    case KTag(d) => v == Str(Tag(d))
    case KFloat => v.Int? || v.Num?
    case KInt => v.Int? || (v.Num? && IntFromFloat(v.r))
  }

  /** The declarative statement of what the record class for `d` accepts:
      exactly its declared fields (none extra, none missing), each of its kind. */
  predicate Admits(d: ErtDistribution, doc: map<string, Value>) {
    && doc.Keys == FieldNames(d)
    && forall k :: k in doc ==> KindAccepts(FieldKind(d, k), doc[k])
  }

  // ---------------------------------------------------------------------------
  // Validation

  /** The distribution-specific fields of `doc`, each checked for its kind. */
  function ParseParams(d: ErtDistribution, doc: map<string, Value>): (r: Option<DistributionParams>)
    ensures r.Some? ==> r.value.Distribution() == d
  {
    match d
    case Uniform =>
      var lo :- FloatField(doc, "min"); var hi :- FloatField(doc, "max");
      Some(UniformParams(lo, hi))
    case LogUnif =>
      var lo :- FloatField(doc, "min"); var hi :- FloatField(doc, "max");
      Some(LogUnifParams(lo, hi))
    case Normal =>
      var mean :- FloatField(doc, "mean"); var std :- FloatField(doc, "std");
      Some(NormalParams(mean, std))
    case LogNormal =>
      var mean :- FloatField(doc, "mean"); var std :- FloatField(doc, "std");
      Some(LogNormalParams(mean, std))
    case TruncatedNormal =>
      var lo :- FloatField(doc, "min"); var hi :- FloatField(doc, "max");
      var mean :- FloatField(doc, "mean"); var std :- FloatField(doc, "std");
      Some(TruncatedNormalParams(lo, hi, mean, std))
    case Raw =>
      Some(RawParams)
    case Const =>
      var value :- FloatField(doc, "value");
      Some(ConstParams(value))
    case DUnif =>
      var lo :- FloatField(doc, "min"); var hi :- FloatField(doc, "max");
      var steps :- IntegerField(doc, "steps");
      Some(DUnifParams(lo, hi, steps))
    case Triangular =>
      var lo :- FloatField(doc, "min"); var hi :- FloatField(doc, "max");
      var mode :- FloatField(doc, "mode");
      Some(TriangularParams(lo, hi, mode))
    case Errf =>
      var lo :- FloatField(doc, "min"); var hi :- FloatField(doc, "max");
      var skew :- FloatField(doc, "skewness"); var width :- FloatField(doc, "width");
      Some(ErrfParams(lo, hi, skew, width))
    case Derrf =>
      var lo :- FloatField(doc, "min"); var hi :- FloatField(doc, "max");
      var skew :- FloatField(doc, "skewness"); var width :- FloatField(doc, "width");
      var steps :- FloatField(doc, "steps");
      Some(DerrfParams(lo, hi, skew, width, steps))
  }

  /** Validation of `doc` against the record class of distribution `d`
      (`model_validate` of that class, and so also `from_pa_metadata`). It
      succeeds exactly when the declarative field table admits the document, and
      then gives a record of that distribution. */
  function ValidateAs(d: ErtDistribution, doc: map<string, Value>): (r: Option<ErtParameterMetadata>)
    ensures r.Some? ==> r.value.Distribution() == d && doc.Keys == FieldNames(d)
    ensures r.Some? ==> doc["group"] == Str(r.value.group)
    ensures r.Some? ==> doc["input_source"] == Str(SourceTag(r.value.inputSource))
    ensures r.Some? ==> doc["distribution"] == Str(Tag(d))
    ensures r.Some? ==> ParseParams(d, doc) == Some(r.value.params)
  {
    if doc.Keys != FieldNames(d) then None
    else
      var group :- TextField(doc, "group");
      var source :- ParseInputSource(doc["input_source"]);
      if doc["distribution"] != Str(Tag(d)) then None
      else
        var params :- ParseParams(d, doc);
        Some(ErtParameterMetadata(group, source, params))
  }

  /** The distribution-specific fields parse exactly when each declared one is
      present with its kind. The distributions are taken in groups, one lemma
      each, so that every proof obligation stays small. */
  lemma ParamsAdmit(d: ErtDistribution, doc: map<string, Value>)
    ensures ParseParams(d, doc).Some? <==>
      forall k :: k in DistributionFields(d) ==> k in doc && KindAccepts(FieldKind(d, k), doc[k])
  {
    if d == Uniform || d == LogUnif || d == Normal || d == LogNormal {
      ParamsAdmitUniformNormal(d, doc);
    } else if d == TruncatedNormal || d == Raw || d == Const || d == DUnif {
      ParamsAdmitTruncatedRawConstDUnif(d, doc);
    } else if d == Triangular || d == Errf {
      ParamsAdmitTriangularErrf(d, doc);
    } else {
      ParamsAdmitDerrf(d, doc);
    }
  }

  lemma ParamsAdmitUniformNormal(d: ErtDistribution, doc: map<string, Value>)
    requires d == Uniform || d == LogUnif || d == Normal || d == LogNormal
    ensures ParseParams(d, doc).Some? <==>
      forall k :: k in DistributionFields(d) ==> k in doc && KindAccepts(FieldKind(d, k), doc[k])
  {
  }

  lemma ParamsAdmitTruncatedRawConstDUnif(d: ErtDistribution, doc: map<string, Value>)
    requires d == TruncatedNormal || d == Raw || d == Const || d == DUnif
    ensures ParseParams(d, doc).Some? <==>
      forall k :: k in DistributionFields(d) ==> k in doc && KindAccepts(FieldKind(d, k), doc[k])
  {
  }

  lemma ParamsAdmitTriangularErrf(d: ErtDistribution, doc: map<string, Value>)
    requires d == Triangular || d == Errf
    ensures ParseParams(d, doc).Some? <==>
      forall k :: k in DistributionFields(d) ==> k in doc && KindAccepts(FieldKind(d, k), doc[k])
  {
  }

  lemma ParamsAdmitDerrf(d: ErtDistribution, doc: map<string, Value>)
    requires d == Derrf
    ensures ParseParams(d, doc).Some? <==>
      forall k :: k in DistributionFields(d) ==> k in doc && KindAccepts(FieldKind(d, k), doc[k])
  {
  }

  /** A document with exactly the declared keys, text common fields and
      parsable distribution-specific fields validates to the record of those
      values. */
  lemma ValidateAsParts(d: ErtDistribution, doc: map<string, Value>, group: string, source: InputSource, p: DistributionParams)
    requires doc.Keys == FieldNames(d)
    requires doc["group"] == Str(group) && doc["input_source"] == Str(SourceTag(source))
    requires doc["distribution"] == Str(Tag(d))
    requires ParseParams(d, doc) == Some(p)
    ensures ValidateAs(d, doc) == Some(ErtParameterMetadata(group, source, p))
  {
  }

  /** Validation against a record class succeeds exactly when the declared field
      table admits the document: no field missing, none extra, each of its kind. */
  lemma ValidateAsAdmits(d: ErtDistribution, doc: map<string, Value>)
    ensures ValidateAs(d, doc).Some? <==> Admits(d, doc)
  {
    ParamsAdmit(d, doc);
    if ValidateAs(d, doc).Some? {
      forall k | k in doc ensures KindAccepts(FieldKind(d, k), doc[k]) {
        if k !in CommonFields {
          assert k in DistributionFields(d);
        }
      }
    }
    if Admits(d, doc) {
      assert KindAccepts(FieldKind(d, "group"), doc["group"]);
      assert KindAccepts(FieldKind(d, "input_source"), doc["input_source"]);
      assert KindAccepts(FieldKind(d, "distribution"), doc["distribution"]);
      ValidateAsParts(d, doc, doc["group"].s, ParseInputSource(doc["input_source"]).value, ParseParams(d, doc).value);
    }
  }

  /** Validation against the discriminated union: the `distribution` value picks
      the record class; a missing or unknown tag fails. */
  function ValidateMetadata(doc: map<string, Value>): (r: Option<ErtParameterMetadata>)
    ensures r.Some? ==> "distribution" in doc && doc["distribution"] == Str(Tag(r.value.Distribution()))
    ensures r.Some? ==> ValidateAs(r.value.Distribution(), doc) == r
  {
    if "distribution" !in doc then None
    else
      match doc["distribution"]
      case Str(s) =>
        (match ParseDistribution(s)
         case Some(d) => ValidateAs(d, doc)
         case None => None)
      case _ => None
  }

  /** The variant chosen is the one whose tag the document carries. */
  lemma DispatchByTag(d: ErtDistribution, doc: map<string, Value>)
    requires "distribution" in doc && doc["distribution"] == Str(Tag(d))
    ensures ValidateMetadata(doc) == ValidateAs(d, doc)
  {
  }

  /** A field outside the class's declared set is rejected (`extra="forbid"`):
      e.g. a uniform record carrying `mode`. */
  lemma ExtraFieldRejected(d: ErtDistribution, doc: map<string, Value>, k: string)
    requires k in doc && k !in FieldNames(d)
    ensures ValidateAs(d, doc) == None
    ensures "distribution" in doc && doc["distribution"] == Str(Tag(d)) ==> ValidateMetadata(doc) == None
  {
    if "distribution" in doc && doc["distribution"] == Str(Tag(d)) {
      DispatchByTag(d, doc);
    }
  }

  /** A declared field that is absent is rejected. */
  lemma MissingFieldRejected(d: ErtDistribution, doc: map<string, Value>, k: string)
    requires k in FieldNames(d) && k !in doc
    ensures ValidateAs(d, doc) == None
  {
  }

  /** `steps` of a dunif record must be integral: in a valid dunif document,
      putting a float in `steps` keeps it valid exactly when the float has no
      fractional part and lies strictly between -2^63 and 2^63, and the record
      then holds that whole number. */
  lemma DUnifSteps(doc: map<string, Value>, x: real)
    requires ValidateAs(DUnif, doc).Some?
    ensures ValidateAs(DUnif, doc["steps" := Num(x)]).Some? <==> IntFromFloat(x)
    ensures ValidateAs(DUnif, doc["steps" := Num(x)]).Some? ==>
      ValidateAs(DUnif, doc["steps" := Num(x)]).value.params.steps as real == x
  {
    var r := ValidateAs(DUnif, doc).value;
    var doc' := doc["steps" := Num(x)];
    assert doc'.Keys == doc.Keys;
    if IntFromFloat(x) {
      var p' := DUnifParams(r.params.min, r.params.max, x.Floor);
      assert ParseParams(DUnif, doc') == Some(p');
      ValidateAsParts(DUnif, doc', r.group, r.inputSource, p');
    } else {
      assert IntegerField(doc', "steps") == None;
    }
  }

  /** A derrf record takes any float as `steps`: in a valid derrf document,
      putting a float in `steps` keeps it valid, and the record holds that float. */
  lemma DerrfSteps(doc: map<string, Value>, x: real)
    requires ValidateAs(Derrf, doc).Some?
    ensures ValidateAs(Derrf, doc["steps" := Num(x)]).Some?
    ensures ValidateAs(Derrf, doc["steps" := Num(x)]).value.params.derrfSteps == x
  {
    var r := ValidateAs(Derrf, doc).value;
    var doc' := doc["steps" := Num(x)];
    assert doc'.Keys == doc.Keys;
    var p' := DerrfParams(r.params.min, r.params.max, r.params.skewness, r.params.width, x);
    assert ParseParams(Derrf, doc') == Some(p');
    ValidateAsParts(Derrf, doc', r.group, r.inputSource, p');
  }

  /** `input_source` and `distribution` are checked independently: a record
      from a design matrix may carry any distribution, not only `raw`. */
  lemma DesignMatrixAnyDistribution(lo: real, hi: real)
    ensures ValidateAs(Uniform, map["group" := Str("g"), "input_source" := Str("design_matrix"),
                                    "distribution" := Str("uniform"), "min" := Num(lo), "max" := Num(hi)])
      == Some(ErtParameterMetadata("g", DesignMatrix, UniformParams(lo, hi)))
  {
  }

  // ---------------------------------------------------------------------------
  // Column metadata encoding

  /** The entries of the distribution-specific fields, each under its name. */
  function ParamEntries(p: DistributionParams): (m: map<string, Value>)
    ensures m.Keys == DistributionFields(p.Distribution())
  {
    match p
    case UniformParams(lo, hi) => map["min" := Num(lo), "max" := Num(hi)]
    case LogUnifParams(lo, hi) => map["min" := Num(lo), "max" := Num(hi)]
    case NormalParams(mean, std) => map["mean" := Num(mean), "std" := Num(std)]
    case LogNormalParams(mean, std) => map["mean" := Num(mean), "std" := Num(std)]
    case TruncatedNormalParams(lo, hi, mean, std) =>
      map["min" := Num(lo), "max" := Num(hi), "mean" := Num(mean), "std" := Num(std)]
    case RawParams => map[]
    case ConstParams(value) => map["value" := Num(value)]
    case DUnifParams(lo, hi, steps) => map["min" := Num(lo), "max" := Num(hi), "steps" := Int(steps)]
    case TriangularParams(lo, hi, mode) => map["min" := Num(lo), "max" := Num(hi), "mode" := Num(mode)]
    case ErrfParams(lo, hi, skew, width) =>
      map["min" := Num(lo), "max" := Num(hi), "skewness" := Num(skew), "width" := Num(width)]
    case DerrfParams(lo, hi, skew, width, steps) =>
      map["min" := Num(lo), "max" := Num(hi), "skewness" := Num(skew), "width" := Num(width), "steps" := Num(steps)]
  }

  /** `to_pa_metadata`: one entry per declared field, keyed by the field's name,
      holding its JSON-encoded value (the byte-level UTF-8 and JSON text are
      abstracted to the decoded value). */
  function ToPaMetadata(x: ErtParameterMetadata): (m: map<string, Value>)
    ensures m.Keys == FieldNames(x.Distribution())
  {
    map["group" := Str(x.group),
        "input_source" := Str(SourceTag(x.inputSource)),
        "distribution" := Str(Tag(x.Distribution()))]
    + ParamEntries(x.params)
  }

  /** The distribution-specific fields parse from any document that holds their
      encoding. The distributions are taken in groups, one lemma each, so that
      every proof obligation stays small. */
  lemma ParamsRoundTrip(p: DistributionParams, doc: map<string, Value>)
    requires forall k :: k in ParamEntries(p) ==> k in doc && doc[k] == ParamEntries(p)[k]
    ensures ParseParams(p.Distribution(), doc) == Some(p)
  {
    var d := p.Distribution();
    if d == Uniform || d == LogUnif || d == Normal || d == LogNormal {
      ParamsRoundTripUniformNormal(p, doc);
    } else if d == TruncatedNormal || d == Raw || d == Const || d == DUnif {
      ParamsRoundTripTruncatedRawConstDUnif(p, doc);
    } else if d == Triangular || d == Errf {
      ParamsRoundTripTriangularErrf(p, doc);
    } else {
      ParamsRoundTripDerrf(p, doc);
    }
  }

  lemma ParamsRoundTripUniformNormal(p: DistributionParams, doc: map<string, Value>)
    requires p.Distribution() == Uniform || p.Distribution() == LogUnif || p.Distribution() == Normal || p.Distribution() == LogNormal
    requires forall k :: k in ParamEntries(p) ==> k in doc && doc[k] == ParamEntries(p)[k]
    ensures ParseParams(p.Distribution(), doc) == Some(p)
  {
  }

  lemma ParamsRoundTripTruncatedRawConstDUnif(p: DistributionParams, doc: map<string, Value>)
    requires p.Distribution() == TruncatedNormal || p.Distribution() == Raw || p.Distribution() == Const || p.Distribution() == DUnif
    requires forall k :: k in ParamEntries(p) ==> k in doc && doc[k] == ParamEntries(p)[k]
    ensures ParseParams(p.Distribution(), doc) == Some(p)
  {
  }

  lemma ParamsRoundTripTriangularErrf(p: DistributionParams, doc: map<string, Value>)
    requires p.Distribution() == Triangular || p.Distribution() == Errf
    requires forall k :: k in ParamEntries(p) ==> k in doc && doc[k] == ParamEntries(p)[k]
    ensures ParseParams(p.Distribution(), doc) == Some(p)
  {
  }

  lemma ParamsRoundTripDerrf(p: DistributionParams, doc: map<string, Value>)
    requires p.Distribution() == Derrf
    requires forall k :: k in ParamEntries(p) ==> k in doc && doc[k] == ParamEntries(p)[k]
    ensures ParseParams(p.Distribution(), doc) == Some(p)
  {
  }

  /** The encoding holds the record's common fields as text and each
      distribution-specific field under its own name. */
  lemma EncodingEntries(x: ErtParameterMetadata)
    ensures var m := ToPaMetadata(x);
      && m["group"] == Str(x.group)
      && m["input_source"] == Str(SourceTag(x.inputSource))
      && m["distribution"] == Str(Tag(x.Distribution()))
    ensures forall k :: k in ParamEntries(x.params) ==>
      k in ToPaMetadata(x) && ToPaMetadata(x)[k] == ParamEntries(x.params)[k]
  {
  }

  /** `from_pa_metadata` on the record's own class gives back an equal record. */
  lemma RoundTrip(x: ErtParameterMetadata)
    ensures ValidateAs(x.Distribution(), ToPaMetadata(x)) == Some(x)
  {
    var m := ToPaMetadata(x);
    EncodingEntries(x);
    ParamsRoundTrip(x.params, m);
    ValidateAsParts(x.Distribution(), m, x.group, x.inputSource, x.params);
  }

  /** The encoding also validates against the union, to the same record. */
  lemma RoundTripUnion(x: ErtParameterMetadata)
    ensures ValidateMetadata(ToPaMetadata(x)) == Some(x)
  {
    RoundTrip(x);
    DispatchByTag(x.Distribution(), ToPaMetadata(x));
  }

  /** A document whose numbers already have the kinds the encoder writes
      (floats for float fields, integers for integer fields). */
  predicate Canonical(d: ErtDistribution, doc: map<string, Value>) {
    forall k :: k in doc ==>
      (FieldKind(d, k) == KFloat ==> doc[k].Num?) && (FieldKind(d, k) == KInt ==> doc[k].Int?)
  }

  /** The value a field of kind `k` holds once the record has coerced it: an
      integer in a float field becomes a float, an accepted integral float in an
      integer field becomes an integer, anything else is kept. */
  function Coerce(k: Kind, v: Value): (r: Value)
    ensures KindAccepts(k, v) ==> KindAccepts(k, r)
    ensures k == KFloat && KindAccepts(k, v) ==> r.Num? && r.r == (if v.Int? then v.i as real else v.r)
    ensures k == KInt && KindAccepts(k, v) ==> r.Int? && r.i as real == (if v.Int? then v.i as real else v.r)
    ensures k != KFloat && k != KInt ==> r == v
  {
    match k
    case KFloat => if v.Int? then Num(v.i as real) else v
    case KInt => if v.Num? then Int(v.r.Floor) else v
    case _ => v
  }

  /** `doc` with every field coerced to the kind `d` declares for it. */
  function Normalise(d: ErtDistribution, doc: map<string, Value>): (m: map<string, Value>)
    ensures m.Keys == doc.Keys
    ensures forall k :: k in doc ==> m[k] == Coerce(FieldKind(d, k), doc[k])
  {
    map k | k in doc :: Coerce(FieldKind(d, k), doc[k])
  }

  /** A canonical document is its own normal form. */
  lemma CanonicalNormal(d: ErtDistribution, doc: map<string, Value>)
    requires Canonical(d, doc)
    ensures Normalise(d, doc) == doc
  {
    var m := Normalise(d, doc);
    forall k | k in doc ensures m[k] == doc[k] {
      assert FieldKind(d, k) == KFloat ==> doc[k].Num?;
      assert FieldKind(d, k) == KInt ==> doc[k].Int?;
    }
  }

  /** One distribution-specific field of a parsed record, encoded, is that
      field of the document coerced to its kind. As for the round trip, the
      distributions are taken in groups. */
  lemma ParamsEncodeAt(d: ErtDistribution, doc: map<string, Value>, p: DistributionParams, k: string)
    requires ParseParams(d, doc) == Some(p) && k in ParamEntries(p)
    ensures k in doc && ParamEntries(p)[k] == Coerce(FieldKind(d, k), doc[k])
  {
    if d == Uniform || d == LogUnif || d == Normal || d == LogNormal {
      ParamsEncodeUniformNormal(d, doc, p, k);
    } else if d == TruncatedNormal || d == Raw || d == Const || d == DUnif {
      ParamsEncodeTruncatedRawConstDUnif(d, doc, p, k);
    } else if d == Triangular || d == Errf {
      ParamsEncodeTriangularErrf(d, doc, p, k);
    } else {
      ParamsEncodeDerrf(doc, p, k);
    }
  }

  lemma ParamsEncodeUniformNormal(d: ErtDistribution, doc: map<string, Value>, p: DistributionParams, k: string)
    requires d == Uniform || d == LogUnif || d == Normal || d == LogNormal
    requires ParseParams(d, doc) == Some(p) && k in ParamEntries(p)
    ensures k in doc && ParamEntries(p)[k] == Coerce(FieldKind(d, k), doc[k])
  {
    match d
    case Uniform =>
    case LogUnif =>
    case Normal =>
    case LogNormal =>
  }

  lemma ParamsEncodeTruncatedRawConstDUnif(d: ErtDistribution, doc: map<string, Value>, p: DistributionParams, k: string)
    requires d == TruncatedNormal || d == Raw || d == Const || d == DUnif
    requires ParseParams(d, doc) == Some(p) && k in ParamEntries(p)
    ensures k in doc && ParamEntries(p)[k] == Coerce(FieldKind(d, k), doc[k])
  {
    match d
    case TruncatedNormal =>
    case Raw =>
    case Const =>
    case DUnif =>
  }

  lemma ParamsEncodeTriangularErrf(d: ErtDistribution, doc: map<string, Value>, p: DistributionParams, k: string)
    requires d == Triangular || d == Errf
    requires ParseParams(d, doc) == Some(p) && k in ParamEntries(p)
    ensures k in doc && ParamEntries(p)[k] == Coerce(FieldKind(d, k), doc[k])
  {
    match d
    case Triangular =>
    case Errf =>
  }

  lemma ParamsEncodeDerrf(doc: map<string, Value>, p: DistributionParams, k: string)
    requires ParseParams(Derrf, doc) == Some(p) && k in ParamEntries(p)
    ensures k in doc && ParamEntries(p)[k] == Coerce(FieldKind(Derrf, k), doc[k])
  {
  }

  /** Encoding the distribution-specific fields parsed from a document gives
      the document's fields back, each coerced to its kind. */
  lemma ParamsEncode(d: ErtDistribution, doc: map<string, Value>, p: DistributionParams)
    requires ParseParams(d, doc) == Some(p)
    ensures forall k :: k in ParamEntries(p) ==> k in doc && ParamEntries(p)[k] == Coerce(FieldKind(d, k), doc[k])
  {
    forall k | k in ParamEntries(p)
      ensures k in doc && ParamEntries(p)[k] == Coerce(FieldKind(d, k), doc[k])
    {
      ParamsEncodeAt(d, doc, p, k);
    }
  }

  /** One field of the encoding of a validated record is that field of the
      document coerced to its kind. */
  lemma EncodeValidatedAt(d: ErtDistribution, doc: map<string, Value>, k: string)
    requires ValidateAs(d, doc).Some? && k in doc
    ensures k in ToPaMetadata(ValidateAs(d, doc).value)
    ensures ToPaMetadata(ValidateAs(d, doc).value)[k] == Coerce(FieldKind(d, k), doc[k])
  {
    var x := ValidateAs(d, doc).value;
    if k !in CommonFields {
      ParamsEncodeAt(d, doc, x.params, k);
    }
  }

  /** The record a document validates to holds the document's values, coerced
      to their kinds: encoding it gives the normal form of the document. */
  lemma EncodeValidated(d: ErtDistribution, doc: map<string, Value>)
    requires ValidateAs(d, doc).Some?
    ensures ToPaMetadata(ValidateAs(d, doc).value) == Normalise(d, doc)
  {
    var x := ValidateAs(d, doc).value;
    var m, n := ToPaMetadata(x), Normalise(d, doc);
    assert m.Keys == FieldNames(x.Distribution()) == doc.Keys == n.Keys;
    forall k | k in n ensures m[k] == n[k] {
      EncodeValidatedAt(d, doc, k);
    }
    SameEntries(m, n);
  }

  /** Two documents with the same keys and the same value under each are equal. */
  lemma SameEntries(m: map<string, Value>, n: map<string, Value>)
    requires m.Keys == n.Keys && forall k :: k in n ==> m[k] == n[k]
    ensures m == n
  {
  }

  /** The other direction of the round trip: encoding a record validated from a
      canonical document gives that document back. */
  lemma DecodeEncode(d: ErtDistribution, doc: map<string, Value>)
    requires ValidateAs(d, doc).Some? && Canonical(d, doc)
    ensures ToPaMetadata(ValidateAs(d, doc).value) == doc
  {
    EncodeValidated(d, doc);
    CanonicalNormal(d, doc);
  }

  /** The scalar checks the records use are the kind rules of the field table. */
  lemma ScalarChecksAreKinds(v: Value)
    ensures AsText(v).Some? <==> KindAccepts(KText, v)
    ensures AsFloat(v).Some? <==> KindAccepts(KFloat, v)
    ensures AsInteger(v).Some? <==> KindAccepts(KInt, v)
    ensures AsFloat(v).Some? ==> Coerce(KFloat, v) == Num(AsFloat(v).value)
    ensures AsInteger(v).Some? ==> Coerce(KInt, v) == Int(AsInteger(v).value)
  {
  }

  // ---------------------------------------------------------------------------
  // Columns and the result table

  /** A parameter column: its dtype and its distribution metadata. */
  datatype ErtParameterColumn = ErtParameterColumn(dtype: Dtype, metadata: ErtParameterMetadata)

  /** Validation of a column; keys other than `type` and `metadata` are ignored
      (the column model does not forbid extras). */
  function ValidateColumn(v: Value): (r: Option<ErtParameterColumn>)
    ensures r.Some? <==>
      && v.Obj? && "type" in v.fields && "metadata" in v.fields
      && v.fields["type"] in {Str("float64"), Str("int64"), Str("string")}
      && v.fields["metadata"].Obj? && ValidateMetadata(v.fields["metadata"].fields).Some?
    ensures r.Some? ==> v.fields["type"] == Str(DtypeName(r.value.dtype))
    ensures r.Some? ==> ValidateMetadata(v.fields["metadata"].fields) == Some(r.value.metadata)
  {
    match v
    case Obj(fields) =>
      if "type" !in fields || "metadata" !in fields then None
      else
        var dtype :- ParseDtype(fields["type"]);
        (match fields["metadata"]
         case Obj(meta) =>
           var metadata :- ValidateMetadata(meta);
           Some(ErtParameterColumn(dtype, metadata))
         case _ => None)
    case _ => None
  }

  /** Extra keys on a column do not change its validation. */
  lemma ColumnIgnoresExtraKeys(fields: map<string, Value>, k: string, extra: Value)
    requires k != "type" && k != "metadata"
    ensures ValidateColumn(Obj(fields[k := extra])) == ValidateColumn(Obj(fields))
  {
    var g := fields[k := extra];
    assert ("type" in g <==> "type" in fields) && ("metadata" in g <==> "metadata" in fields);
    if "type" in fields && "metadata" in fields {
      assert g["type"] == fields["type"] && g["metadata"] == fields["metadata"];
    }
  }

  /** The parameters table: column name to column, in the dict's order. The
      implied leading `realization` column is not stored. */
  datatype ErtParametersResult = ErtParametersResult(root: seq<(string, ErtParameterColumn)>)

  /** All-or-nothing validation of ordered (name, value) entries with `check`,
      keeping the names and their order. */
  function ValidateEntries<C>(entries: seq<(string, Value)>, check: Value -> Option<C>): (r: Option<seq<(string, C)>>)
    ensures r.Some? <==> forall i :: 0 <= i < |entries| ==> check(entries[i].1).Some?
    ensures r.Some? ==> |r.value| == |entries|
    ensures r.Some? ==> forall i :: 0 <= i < |entries| ==>
      r.value[i].0 == entries[i].0 && check(entries[i].1) == Some(r.value[i].1)
  {
    if entries == [] then Some([])
    else
      var first :- check(entries[0].1);
      var rest :- ValidateEntries(entries[1..], check);
      Some([(entries[0].0, first)] + rest)
  }

  /** Validation of the table (a JSON object given as its ordered entries):
      all-or-nothing over the columns, keeping names and order. */
  function ValidateResult(entries: seq<(string, Value)>): (r: Option<ErtParametersResult>)
    ensures r.Some? <==> forall i :: 0 <= i < |entries| ==> ValidateColumn(entries[i].1).Some?
    ensures r.Some? ==> |r.value.root| == |entries|
    ensures r.Some? ==> forall i :: 0 <= i < |entries| ==>
      r.value.root[i].0 == entries[i].0 && ValidateColumn(entries[i].1) == Some(r.value.root[i].1)
  {
    var root :- ValidateEntries(entries, ValidateColumn);
    Some(ErtParametersResult(root))
  }

  /** The names of the columns, in order. */
  function ColumnNames(root: seq<(string, ErtParameterColumn)>): (names: seq<string>)
    ensures |names| == |root|
    ensures forall i :: 0 <= i < |root| ==> names[i] == root[i].0
  {
    if root == [] then [] else [root[0].0] + ColumnNames(root[1..])
  }

  /** `all_column_names`: `realization` first, then every parameter column in order. */
  function AllColumnNames(result: ErtParametersResult): (names: seq<string>)
    ensures |names| == 1 + |result.root|
    ensures names[0] == "realization"
    ensures forall i :: 0 <= i < |result.root| ==> names[i + 1] == result.root[i].0
    ensures result.root == [] ==> names == ["realization"]
  {
    ["realization"] + ColumnNames(result.root)
  }

  // ---------------------------------------------------------------------------
  // Schema location

  const VERSION: string := "0.1.0"
  const FILENAME: string := "ert_parameters.json"

  /** `PATH`: the schema file under the schemas root. */
  function SchemaPath(root: SchemaBase.Path): (p: SchemaBase.Path)
    ensures |p| == |root| + 3 && p[..|root|] == root
    ensures p[|root|..] == ["file_formats", VERSION, FILENAME]
  {
    SchemaBase.SchemaPath(root, VERSION, FILENAME)
  }
}
