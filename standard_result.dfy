/** Standard-result identity: the closed set of standard result names, the file
    schema reference, and the union of the 18 standard result records
    discriminated by `name`. */
module StandardResults {
  import opened Json
  import ErtParameters

  // ---------------------------------------------------------------------------
  // Names

  /** The standard result kinds of the union. */
  datatype StandardResultName =
    | Parameters | InplaceVolumes | StructureDepthSurface | StructureDepthFaultSurface
    | StructureTimeSurface | StructureDepthIsochore | StructureDepthFaultLines
    | FieldOutline | FluidContactSurface | FluidContactOutline | LiftCurves
    | ProductionNetwork | Pvt | Relperm | Rft | SimulationTimeseries
    | Transmissibilities | WellCompletions

  /** The `name` literal of each kind; the discriminator lookup recognises it
      as that kind. */
  function NameOf(n: StandardResultName): (r: string)
    ensures ParseName(r) == Some(n)
  {
    match n
    case Parameters => "parameters"
    case InplaceVolumes => "inplace_volumes"
    case StructureDepthSurface => "structure_depth_surface"
    case StructureDepthFaultSurface => "structure_depth_fault_surface"
    case StructureTimeSurface => "structure_time_surface"
    case StructureDepthIsochore => "structure_depth_isochore"
    case StructureDepthFaultLines => "structure_depth_fault_lines"
    case FieldOutline => "field_outline"
    case FluidContactSurface => "fluid_contact_surface"
    case FluidContactOutline => "fluid_contact_outline"
    case LiftCurves => "lift_curves"
    case ProductionNetwork => "production_network"
    case Pvt => "pvt"
    case Relperm => "relperm"
    case Rft => "rft"
    case SimulationTimeseries => "simulationtimeseries"
    case Transmissibilities => "transmissibilities"
    case WellCompletions => "well_completions"
  }

  /** The discriminator lookup: the kind whose literal is `s`, if any. */
  function ParseName(s: string): Option<StandardResultName> {
    if s == "parameters" then Some(Parameters)
    else if s == "inplace_volumes" then Some(InplaceVolumes)
    else if s == "structure_depth_surface" then Some(StructureDepthSurface)
    else if s == "structure_depth_fault_surface" then Some(StructureDepthFaultSurface)
    else if s == "structure_time_surface" then Some(StructureTimeSurface)
    else if s == "structure_depth_isochore" then Some(StructureDepthIsochore)
    else if s == "structure_depth_fault_lines" then Some(StructureDepthFaultLines)
    else if s == "field_outline" then Some(FieldOutline)
    else if s == "fluid_contact_surface" then Some(FluidContactSurface)
    else if s == "fluid_contact_outline" then Some(FluidContactOutline)
    else if s == "lift_curves" then Some(LiftCurves)
    else if s == "production_network" then Some(ProductionNetwork)
    else if s == "pvt" then Some(Pvt)
    else if s == "relperm" then Some(Relperm)
    else if s == "rft" then Some(Rft)
    else if s == "simulationtimeseries" then Some(SimulationTimeseries)
    else if s == "transmissibilities" then Some(Transmissibilities)
    else if s == "well_completions" then Some(WellCompletions)
    else None
  }

  /** The lookup recognises exactly the 18 literals: a string it accepts is the
      literal of the kind it gives, and a string it refuses is no kind's literal. */
  lemma ParsedName(s: string)
    ensures ParseName(s).Some? ==> NameOf(ParseName(s).value) == s
    ensures ParseName(s).None? ==> forall n :: NameOf(n) != s
  {
    if ParseName(s).None? {
      forall n ensures NameOf(n) != s {
        assert ParseName(NameOf(n)) == Some(n);
      }
    } else {
      if s == "parameters" {
        assert NameOf(Parameters) == s;
      } else if s == "inplace_volumes" {
        assert NameOf(InplaceVolumes) == s;
      } else if s == "structure_depth_surface" {
        assert NameOf(StructureDepthSurface) == s;
      } else if s == "structure_depth_fault_surface" {
        assert NameOf(StructureDepthFaultSurface) == s;
      } else if s == "structure_time_surface" {
        assert NameOf(StructureTimeSurface) == s;
      } else if s == "structure_depth_isochore" {
        assert NameOf(StructureDepthIsochore) == s;
      } else if s == "structure_depth_fault_lines" {
        assert NameOf(StructureDepthFaultLines) == s;
      } else if s == "field_outline" {
        assert NameOf(FieldOutline) == s;
      } else if s == "fluid_contact_surface" {
        assert NameOf(FluidContactSurface) == s;
      } else if s == "fluid_contact_outline" {
        assert NameOf(FluidContactOutline) == s;
      } else if s == "lift_curves" {
        assert NameOf(LiftCurves) == s;
      } else if s == "production_network" {
        assert NameOf(ProductionNetwork) == s;
      } else if s == "pvt" {
        assert NameOf(Pvt) == s;
      } else if s == "relperm" {
        assert NameOf(Relperm) == s;
      } else if s == "rft" {
        assert NameOf(Rft) == s;
      } else if s == "simulationtimeseries" {
        assert NameOf(SimulationTimeseries) == s;
      } else if s == "transmissibilities" {
        assert NameOf(Transmissibilities) == s;
      } else if s == "well_completions" {
        assert NameOf(WellCompletions) == s;
      }
    }
  }

  /** The 18 literals are pairwise distinct: the discriminator is injective. */
  lemma NameInjective(a: StandardResultName, b: StandardResultName)
    requires NameOf(a) == NameOf(b)
    ensures a == b
  {
    assert ParseName(NameOf(a)) == Some(a);
  }

  // ---------------------------------------------------------------------------
  // File schema reference

  /** The published schema that validates a standard result's file. */
  datatype FileSchema = FileSchema(version: string, url: string)

  predicate IsDigits(s: string) {
    |s| > 0 && forall i :: 0 <= i < |s| ==> '0' <= s[i] <= '9'
  }

  /** A version string: major.minor.patch, each a run of digits. */
  predicate IsVersionStr(s: string) {
    exists i, j | 0 <= i < j < |s| ::
      s[i] == '.' && s[j] == '.' && IsDigits(s[..i]) && IsDigits(s[i + 1..j]) && IsDigits(s[j + 1..])
  }

  /** An http(s) URL with a host. */
  predicate IsHttpUrl(s: string) {
    var rest :=
      if |s| >= 7 && s[..7] == "http://" then s[7..]
      else if |s| >= 8 && s[..8] == "https://" then s[8..]
      else "";
    |rest| > 0 && rest[0] != '/'
  }

  /** Validation of a `file_schema` object: both fields are required, `version`
      must be a version string and `url` an http(s) URL; other keys are ignored. */
  function ValidateFileSchema(v: Value): (r: Option<FileSchema>)
    ensures r.Some? <==>
      && v.Obj? && "version" in v.fields && "url" in v.fields
      && v.fields["version"].Str? && IsVersionStr(v.fields["version"].s)
      && v.fields["url"].Str? && IsHttpUrl(v.fields["url"].s)
    ensures r.Some? ==> v.fields["version"] == Str(r.value.version) && v.fields["url"] == Str(r.value.url)
  {
    match v
    case Obj(fields) =>
      var version :- TextField(fields, "version");
      var url :- TextField(fields, "url");
      if IsVersionStr(version) && IsHttpUrl(url) then Some(FileSchema(version, url)) else None
    case _ => None
  }

  /** A `file_schema` without a version, or without a url, is rejected. */
  lemma FileSchemaFieldsRequired(fields: map<string, Value>)
    requires "version" !in fields || "url" !in fields
    ensures ValidateFileSchema(Obj(fields)) == None
  {
  }

  // ---------------------------------------------------------------------------
  // Fixed schema defaults

  /** The schema classes whose identity some standard results carry by default. */
  datatype SchemaKind =
    | ErtParametersSchema | InplaceVolumesSchema | StructureDepthFaultLinesSchema
    | FieldOutlineSchema | FluidContactOutlineSchema

  /** The kinds that declare a non-optional `file_schema` with a default, and the
      schema class that default comes from. */
  function FixedSchema(n: StandardResultName): (r: Option<SchemaKind>)
    ensures r.Some? <==> n in {Parameters, InplaceVolumes, StructureDepthFaultLines, FieldOutline, FluidContactOutline}
    ensures r == Some(ErtParametersSchema) <==> n == Parameters
  {
    match n
    case Parameters => Some(ErtParametersSchema)
    case InplaceVolumes => Some(InplaceVolumesSchema)
    case StructureDepthFaultLines => Some(StructureDepthFaultLinesSchema)
    case FieldOutline => Some(FieldOutlineSchema)
    case FluidContactOutline => Some(FluidContactOutlineSchema)
    case _ => None
  }

  /** The `file_schema` a kind gets when the document has none: the fixed
      schema's `FileSchema(VERSION, url())`, where `schemas` gives each schema
      class's version and url; `None` for the other kinds. */
  function DefaultFileSchema(n: StandardResultName, schemas: SchemaKind -> FileSchema): (r: Option<FileSchema>)
    ensures r.Some? <==> FixedSchema(n).Some?
    ensures r.Some? ==> r.value == schemas(FixedSchema(n).value)
  {
    match FixedSchema(n)
    case Some(k) => Some(schemas(k))
    case None => None
  }

  /** Each fixed schema class is the default of one kind only. */
  lemma FixedSchemaInjective(a: StandardResultName, b: StandardResultName)
    requires FixedSchema(a).Some? && FixedSchema(a) == FixedSchema(b)
    ensures a == b
  {
  }

  /** The schema descriptions agree with the schema classes this model holds:
      the Ert parameters schema is at its `VERSION`. The other classes are not
      part of this model. */
  predicate SchemasAgree(schemas: SchemaKind -> FileSchema) {
    schemas(ErtParametersSchema).version == ErtParameters.VERSION
  }

  // ---------------------------------------------------------------------------
  // The records and the union

  /** A validated standard result; its kind is its `name`. */
  datatype StandardResult = StandardResult(name: StandardResultName, fileSchema: Option<FileSchema>)

  /** Validation against the record of kind `n`. `name` must be that kind's
      literal. An absent `file_schema` takes the kind's default. An explicit
      `null` is accepted only where the field is optional. An explicit object is
      validated and kept as given, also for the kinds with a fixed default.
      Other keys are ignored. */
  function ValidateVariant(n: StandardResultName, doc: map<string, Value>, schemas: SchemaKind -> FileSchema): (r: Option<StandardResult>)
    ensures r.Some? ==> "name" in doc && doc["name"] == Str(NameOf(n)) && r.value.name == n
    ensures r.Some? && FixedSchema(n).Some? ==> r.value.fileSchema.Some?
    ensures r.Some? && "file_schema" !in doc ==> r.value.fileSchema == DefaultFileSchema(n, schemas)
  {
    if "name" !in doc || doc["name"] != Str(NameOf(n)) then None
    else if "file_schema" !in doc then Some(StandardResult(n, DefaultFileSchema(n, schemas)))
    else if doc["file_schema"] == Null then
      if FixedSchema(n).Some? then None else Some(StandardResult(n, None))
    else
      var fs :- ValidateFileSchema(doc["file_schema"]);
      Some(StandardResult(n, Some(fs)))
  }

  /** `AnyStandardResult`: the `name` value picks the record; a missing name, a
      name that is not text or a name outside the union is rejected. */
  function ValidateAny(doc: map<string, Value>, schemas: SchemaKind -> FileSchema): (r: Option<StandardResult>)
    ensures r.Some? ==> "name" in doc && doc["name"] == Str(NameOf(r.value.name))
    ensures r.Some? ==> ValidateVariant(r.value.name, doc, schemas) == r
  {
    if "name" !in doc then None
    else
      match doc["name"]
      case Str(s) =>
        (match ParseName(s)
         case Some(n) => ValidateVariant(n, doc, schemas)
         case None => None)
      case _ => None
  }

  /** The record chosen is the one whose literal the document's `name` holds. */
  lemma DispatchByName(n: StandardResultName, doc: map<string, Value>, schemas: SchemaKind -> FileSchema)
    requires "name" in doc && doc["name"] == Str(NameOf(n))
    ensures ValidateAny(doc, schemas) == ValidateVariant(n, doc, schemas)
  {
    assert ParseName(NameOf(n)) == Some(n);
  }

  /** Every name alone validates, to the record of that name with its default
      file schema. */
  lemma Exhaustive(n: StandardResultName, schemas: SchemaKind -> FileSchema)
    ensures ValidateAny(map["name" := Str(NameOf(n))], schemas) == Some(StandardResult(n, DefaultFileSchema(n, schemas)))
  {
    DispatchByName(n, map["name" := Str(NameOf(n))], schemas);
  }

  /** A string that is none of the literals is rejected as a name. */
  lemma UnknownNameRejected(doc: map<string, Value>, schemas: SchemaKind -> FileSchema)
    requires "name" in doc && doc["name"].Str? && ParseName(doc["name"].s).None?
    ensures ValidateAny(doc, schemas) == None
  {
  }

  /** The kinds with a fixed schema get it when `file_schema` is absent. */
  lemma FixedSchemaDefault(n: StandardResultName, doc: map<string, Value>, schemas: SchemaKind -> FileSchema)
    requires FixedSchema(n).Some?
    requires "name" in doc && doc["name"] == Str(NameOf(n)) && "file_schema" !in doc
    ensures ValidateAny(doc, schemas) == Some(StandardResult(n, Some(schemas(FixedSchema(n).value))))
  {
    DispatchByName(n, doc, schemas);
  }

  /** A `parameters` result without a file schema gets the Ert parameters
      schema, at version 0.1.0. */
  lemma ParametersDefaultVersion(schemas: SchemaKind -> FileSchema)
    requires SchemasAgree(schemas)
    ensures var r := ValidateAny(map["name" := Str("parameters")], schemas);
      r.Some? && r.value.name == Parameters && r.value.fileSchema.Some?
      && r.value.fileSchema.value.version == "0.1.0"
      && r.value.fileSchema.value.url == schemas(ErtParametersSchema).url
  {
    FixedSchemaDefault(Parameters, map["name" := Str("parameters")], schemas);
  }

  /** An explicit `null` file schema is rejected exactly for the kinds with a
      fixed schema, and gives no file schema for the others. */
  lemma NullFileSchema(n: StandardResultName, doc: map<string, Value>, schemas: SchemaKind -> FileSchema)
    requires "name" in doc && doc["name"] == Str(NameOf(n))
    requires "file_schema" in doc && doc["file_schema"] == Null
    ensures FixedSchema(n).Some? ==> ValidateAny(doc, schemas) == None
    ensures FixedSchema(n).None? ==> ValidateAny(doc, schemas) == Some(StandardResult(n, None))
  {
    DispatchByName(n, doc, schemas);
  }

  /** An explicit, valid file schema is kept as given for every kind (it is not
      replaced by the fixed default); an invalid one is rejected. */
  lemma ExplicitFileSchema(n: StandardResultName, doc: map<string, Value>, schemas: SchemaKind -> FileSchema)
    requires "name" in doc && doc["name"] == Str(NameOf(n))
    requires "file_schema" in doc && doc["file_schema"] != Null
    ensures ValidateAny(doc, schemas) ==
      match ValidateFileSchema(doc["file_schema"])
      case Some(fs) => Some(StandardResult(n, Some(fs)))
      case None => None
  {
    DispatchByName(n, doc, schemas);
  }

  /** Keys other than `name` and `file_schema` do not affect validation. */
  lemma ExtraKeysIgnored(doc: map<string, Value>, k: string, v: Value, schemas: SchemaKind -> FileSchema)
    requires k != "name" && k != "file_schema"
    ensures ValidateAny(doc[k := v], schemas) == ValidateAny(doc, schemas)
  {
    var g := doc[k := v];
    assert ("name" in g <==> "name" in doc) && ("file_schema" in g <==> "file_schema" in doc);
    if "name" in doc {
      assert g["name"] == doc["name"];
    }
    if "file_schema" in doc {
      assert g["file_schema"] == doc["file_schema"];
    }
  }
}
