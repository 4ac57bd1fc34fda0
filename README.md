# fmu-datamodels validation core in Dafny

This project models the validation and encoding rules of four parts of the
fmu-datamodels package:

- **Ert parameter metadata**: eleven closed records, one per Ert distribution (`uniform`, `logunif`, `normal`, `lognormal`, `truncated_normal`, `raw`, `const`, `dunif`, `triangular`, `errf`, `derrf`).
  - The `distribution` field discriminates the union of the eleven records.
  - The records encode to and decode from flat Parquet column metadata (`to_pa_metadata` / `from_pa_metadata`).
  - The module also holds the parameter column (dtype plus metadata) and the parameters result table, whose `all_column_names` puts the implied `realization` column first.
- **Standard results**: the union of the 18 standard result records discriminated by `name`.
  - The `FileSchema` reference has two required fields, a version and an http(s) URL.
  - Five kinds give `file_schema` a non-optional default.
- **Simulator fipregions mapping**: a row check (`FIPNUM >= 0`, with `ZONE` and `REGION` required) lifted all-or-nothing over a list of rows.
- **Parameter table schema**: a column check (a dtype literal plus a metadata check) lifted all-or-nothing over a map of columns.
- **Schema paths**: each versioned schema is stored at `<root>/file_formats/<VERSION>/<FILENAME>`.

The model does not hold a class. Each pydantic model becomes a Dafny datatype, and each `model_validate` becomes a function.
- The input document is a `Json.Value`: text, integer, float, null or an object (a `map<string, Value>`).
- A validator returns `Some(record)` on success. `None` stands for a raised `ValidationError`.
- pydantic's lax numeric coercions are modelled. A `float` field also accepts an integer. An `int` field also accepts a float with no fractional part that lies strictly between -2^63 and 2^63; a whole float outside that range is too large for pydantic's integer parsing and is refused.
- `extra="forbid"` appears only on the Ert parameter records. Every other model ignores unknown keys. Lemmas state both behaviours.

Files: `json.dfy` (values, scalar field checks), `schema_base.dfy` (paths),
`column_dtype.dfy` (the dtype literal shared by both column models),
`ert_parameters.dfy`, `standard_result.dfy`,
`simulator_fipregions_mapping.dfy`, `table_schema.dfy`.

Two behaviours of the code are worth stating outright:
- The five kinds with a fixed schema only *default* `file_schema`. An explicit valid `file_schema` is accepted and kept as given, and an explicit `null` is rejected (`StandardResults.ExplicitFileSchema`, `StandardResults.NullFileSchema`).
- The docstring of the raw record (src/fmu/datamodels/standard_results/ert_parameters.py:118) says it is used for design matrix parameters, but the code does not tie `input_source` to `distribution`: a design-matrix record may carry any distribution (`ErtParameters.DesignMatrixAnyDistribution`).

## Model

| member | source | states |
|---|---|---|
| `SchemaBase.SchemaPathInjective` | src/fmu/datamodels/standard_results/ert_parameters.py:215-228 | under one root, a schema path whose version and filename are plain segments (non-empty, not `.`, no `/`) determines both, so two different versions never share a path |
| `SchemaBase.SchemaPath` | src/fmu/datamodels/standard_results/simulator_fipregions_mapping.py:60 | a schema path is the root followed by exactly `file_formats`, the version and the filename |
| `SimulatorFipregionsMapping.SchemaPath` | src/fmu/datamodels/standard_results/simulator_fipregions_mapping.py:49-60 | `PATH` is the schemas root followed by `file_formats`, `0.1.0` and `simulator_fipregions_mapping.json` |
| `SimulatorFipregionsMapping.PathDiffersFromErtParameters` | src/fmu/datamodels/standard_results/simulator_fipregions_mapping.py:57-60 | the fipregions mapping schema and the Ert parameters schema (both version 0.1.0) never share a path |
| `ColumnDtype.ParseDtype` | src/fmu/datamodels/standard_results/ert_parameters.py:191 | the dtype is accepted iff it is one of `float64`, `int64`, `string`, and the accepted dtype is the one named |
| `ColumnDtype.ParseDtypeName` | src/fmu/datamodels/parameters/table_schema.py:13 | every dtype's name is accepted as that dtype |
| `ErtParameters.Tag` | src/fmu/datamodels/standard_results/ert_parameters.py:16-29 | each distribution's `distribution` literal is recognised by the discriminator lookup as that distribution |
| `ErtParameters.ParsedTag` | src/fmu/datamodels/standard_results/ert_parameters.py:42-54 | the lookup accepts exactly the 11 tags: an accepted string is the tag of the distribution returned, and a refused string is no distribution's tag |
| `ErtParameters.TagInjective` | src/fmu/datamodels/standard_results/ert_parameters.py:170-183 | the 11 tags are pairwise distinct, so the discriminator picks at most one record class |
| `ErtParameters.ParseInputSource` | src/fmu/datamodels/standard_results/ert_parameters.py:41 | `input_source` is accepted iff it is `"sampled"` or `"design_matrix"`, and the result names it |
| `ErtParameters.DistributionFields` | src/fmu/datamodels/standard_results/ert_parameters.py:73-167 | the distribution-specific fields never clash with `group`, `input_source` or `distribution`; `steps` is declared only by dunif and derrf; raw declares none |
| `ErtParameters.FieldNames` | src/fmu/datamodels/standard_results/ert_parameters.py:40-54 | every record declares the three common fields, and its other declared fields are exactly its distribution-specific ones |
| `ErtParameters.FieldKindTable` | src/fmu/datamodels/standard_results/ert_parameters.py:40-167 | in the field table, only dunif's `steps` is an integer, only `distribution` carries a tag, distribution-specific fields are numbers and common fields are not |
| `Json.IntegerRange` | src/fmu/datamodels/standard_results/ert_parameters.py:137 | an `int` field refuses a whole float at or beyond 2^63 in magnitude (1e22, 2^63, -2^63), accepts a whole float below it, and accepts an integer of any size |
| `ErtParameters.ScalarChecksAreKinds` | src/fmu/datamodels/standard_results/ert_parameters.py:40-167 | the scalar `str`, `float` and `int` checks accept exactly what the field table's kinds accept, and yield the coerced value |
| `ErtParameters.ParseParams` | src/fmu/datamodels/standard_results/ert_parameters.py:73-167 | parsed distribution fields belong to the requested distribution (their values are stated by `ErtParameters.ParamsEncode`) |
| `ErtParameters.ParamsAdmit` | src/fmu/datamodels/standard_results/ert_parameters.py:73-167 | the distribution fields parse iff each field declared for that distribution is present with its kind; `steps` is an integer only for dunif |
| `ErtParameters.ValidateAs` | src/fmu/datamodels/standard_results/ert_parameters.py:32-54 | a validated record has the class's distribution, came from a document with exactly the class's fields, and holds the document's `group`, `input_source` and parsed distribution fields; `distribution` held the class's tag |
| `ErtParameters.ValidateAsParts` | src/fmu/datamodels/standard_results/ert_parameters.py:32-54 | a document with exactly the declared fields, text `group`, a valid `input_source`, the class's tag and parsable distribution fields validates to the record of exactly those values |
| `ErtParameters.ValidateAsAdmits` | src/fmu/datamodels/standard_results/ert_parameters.py:38-54 | validation against a record class succeeds iff the document has exactly the declared fields, with none missing and none extra, each of its declared kind |
| `ErtParameters.ValidateMetadata` | src/fmu/datamodels/standard_results/ert_parameters.py:170-183 | a union-validated record came from a document whose `distribution` holds that record's tag, and equals the validation against that tag's class; a missing tag fails |
| `ErtParameters.DispatchByTag` | src/fmu/datamodels/standard_results/ert_parameters.py:182 | when `distribution` holds a tag, union validation is exactly validation against that tag's class |
| `ErtParameters.ExtraFieldRejected` | src/fmu/datamodels/standard_results/ert_parameters.py:38 | any key outside a class's declared fields is rejected, by the class and by the union (e.g. `mode` on a uniform record) |
| `ErtParameters.MissingFieldRejected` | src/fmu/datamodels/standard_results/ert_parameters.py:40-54 | a record missing any declared field is rejected |
| `ErtParameters.DUnifSteps` | src/fmu/datamodels/standard_results/ert_parameters.py:131-137 | in a valid dunif document, a float `steps` is accepted iff it has no fractional part and lies strictly between -2^63 and 2^63, and the record then holds that whole number |
| `ErtParameters.DerrfSteps` | src/fmu/datamodels/standard_results/ert_parameters.py:159-167 | in a valid derrf document, any float `steps` is accepted and the record holds it |
| `ErtParameters.DesignMatrixAnyDistribution` | src/fmu/datamodels/standard_results/ert_parameters.py:41-54 | a design-matrix record with a non-raw distribution validates |
| `ErtParameters.ParamEntries` | src/fmu/datamodels/standard_results/ert_parameters.py:58-61 | the encoded distribution fields are keyed by exactly that distribution's declared field names |
| `ErtParameters.ToPaMetadata` | src/fmu/datamodels/standard_results/ert_parameters.py:56-61 | the encoding has exactly one entry per declared field of the record's class, keyed by field name |
| `ErtParameters.ParamsRoundTrip` | src/fmu/datamodels/standard_results/ert_parameters.py:64-70 | the distribution fields parse back from any document holding their encoding |
| `ErtParameters.EncodingEntries` | src/fmu/datamodels/standard_results/ert_parameters.py:56-61 | the encoding holds `group`, `input_source` and the tag as text, and each distribution-specific field under its own name |
| `ErtParameters.RoundTrip` | src/fmu/datamodels/standard_results/ert_parameters.py:56-70 | `from_pa_metadata` on the record's own class after `to_pa_metadata` gives back an equal record |
| `ErtParameters.RoundTripUnion` | src/fmu/datamodels/standard_results/ert_parameters.py:170-183 | the encoding also validates against the discriminated union, to the same record |
| `ErtParameters.Coerce` | src/fmu/datamodels/standard_results/ert_parameters.py:73-167 | a value a field accepts is still accepted after coercion; an integer in a float field becomes the same number as a float, an integral float in an int field the same number as an integer; other kinds are untouched |
| `ErtParameters.Normalise` | src/fmu/datamodels/standard_results/ert_parameters.py:73-167 | the normal form keeps the document's keys and coerces each value to its declared kind |
| `ErtParameters.CanonicalNormal` | src/fmu/datamodels/standard_results/ert_parameters.py:56-70 | a canonical document (floats as floats, integers as integers) is its own normal form |
| `ErtParameters.ParamsEncodeAt` | src/fmu/datamodels/standard_results/ert_parameters.py:58-61 | each encoded distribution field of a parsed record is that field of the document, coerced to its kind |
| `ErtParameters.ParamsEncode` | src/fmu/datamodels/standard_results/ert_parameters.py:58-61 | all encoded distribution fields of a parsed record are the document's fields, coerced to their kinds |
| `ErtParameters.EncodeValidatedAt` | src/fmu/datamodels/standard_results/ert_parameters.py:56-70 | each field of the encoding of a validated record is that field of the document, coerced to its kind |
| `ErtParameters.EncodeValidated` | src/fmu/datamodels/standard_results/ert_parameters.py:56-70 | `to_pa_metadata` of the record any document validates to is the document's normal form: the validated record holds the document's values after pydantic's lax coercion |
| `ErtParameters.DecodeEncode` | src/fmu/datamodels/standard_results/ert_parameters.py:56-70 | encoding the record validated from a canonical document (floats as floats, integers as integers) gives that document back |
| `ErtParameters.ValidateColumn` | src/fmu/datamodels/standard_results/ert_parameters.py:186-192 | a column validates iff its `type` is one of the three dtypes and its `metadata` validates against the distribution union; the result carries both |
| `ErtParameters.ColumnIgnoresExtraKeys` | src/fmu/datamodels/standard_results/ert_parameters.py:186-192 | keys other than `type` and `metadata` do not change a column's validation |
| `ErtParameters.ValidateResult` | src/fmu/datamodels/standard_results/ert_parameters.py:195 | the table validates iff every column does; it keeps the number, names and order of the columns |
| `ErtParameters.ColumnNames` | src/fmu/datamodels/standard_results/ert_parameters.py:206 | the column names are the table's keys in order |
| `ErtParameters.AllColumnNames` | src/fmu/datamodels/standard_results/ert_parameters.py:205-206 | `realization` followed by the table's keys in order; length is one more than the number of columns; an empty table gives exactly `["realization"]` |
| `ErtParameters.SchemaPath` | src/fmu/datamodels/standard_results/ert_parameters.py:215-227 | `PATH` is the schemas root followed by `file_formats`, `0.1.0` and `ert_parameters.json` |
| `StandardResults.NameOf` | src/fmu/datamodels/fmu_results/standard_result.py:263-281 | each kind's `name` literal is recognised by the discriminator lookup as that kind |
| `StandardResults.ParsedName` | src/fmu/datamodels/fmu_results/standard_result.py:39 | the lookup accepts exactly the 18 literals: an accepted string is the literal of the kind returned, and a refused string is no kind's literal |
| `StandardResults.NameInjective` | src/fmu/datamodels/fmu_results/standard_result.py:263-282 | the 18 `name` literals are pairwise distinct |
| `StandardResults.ValidateFileSchema` | src/fmu/datamodels/fmu_results/standard_result.py:23-30 | a file schema validates iff both `version` (a version string) and `url` (an http(s) URL) are present and well formed; the result holds them |
| `StandardResults.FileSchemaFieldsRequired` | src/fmu/datamodels/fmu_results/standard_result.py:26-29 | a file schema missing `version` or `url` is rejected |
| `StandardResults.FixedSchema` | src/fmu/datamodels/fmu_results/standard_result.py:57-190 | exactly `parameters`, `inplace_volumes`, `structure_depth_fault_lines`, `field_outline` and `fluid_contact_outline` have a fixed schema, and the Ert parameters schema is the one of `parameters` |
| `StandardResults.FixedSchemaInjective` | src/fmu/datamodels/fmu_results/standard_result.py:57-190 | each schema class is the fixed default of one kind only |
| `StandardResults.DefaultFileSchema` | src/fmu/datamodels/fmu_results/standard_result.py:57-190 | a kind has a default file schema iff it has a fixed schema class, and the default is that class's `FileSchema(VERSION, url())` |
| `StandardResults.ValidateVariant` | src/fmu/datamodels/fmu_results/standard_result.py:33-43 | a validated record has the requested kind and came from that kind's literal; fixed kinds always carry a file schema; an absent file schema becomes the kind's default |
| `StandardResults.ValidateAny` | src/fmu/datamodels/fmu_results/standard_result.py:252-283 | a union-validated record came from a document whose `name` is that record's literal, and equals the validation against that kind |
| `StandardResults.DispatchByName` | src/fmu/datamodels/fmu_results/standard_result.py:282 | when `name` holds a literal, union validation is exactly validation against that kind |
| `StandardResults.Exhaustive` | src/fmu/datamodels/fmu_results/standard_result.py:263-281 | `{"name": n}` validates for every one of the 18 names, to the record of kind `n` with its default file schema |
| `StandardResults.UnknownNameRejected` | src/fmu/datamodels/fmu_results/standard_result.py:39 | a name that is none of the 18 literals is rejected |
| `StandardResults.FixedSchemaDefault` | src/fmu/datamodels/fmu_results/standard_result.py:57-60 | for `parameters`, `inplace_volumes`, `structure_depth_fault_lines`, `field_outline` and `fluid_contact_outline`, an absent file schema becomes that kind's schema class's `FileSchema(VERSION, url())` |
| `StandardResults.ParametersDefaultVersion` | src/fmu/datamodels/fmu_results/standard_result.py:57-60 | `{"name": "parameters"}` validates to a `parameters` record whose file schema is at the Ert parameters schema's version, 0.1.0, and its url |
| `StandardResults.NullFileSchema` | src/fmu/datamodels/fmu_results/standard_result.py:42 | an explicit null file schema is rejected for the five fixed kinds and gives no file schema for the other 13 |
| `StandardResults.ExplicitFileSchema` | src/fmu/datamodels/fmu_results/standard_result.py:42-60 | an explicit file schema is validated and kept as given for every kind, including the fixed ones |
| `StandardResults.ExtraKeysIgnored` | src/fmu/datamodels/fmu_results/standard_result.py:33-43 | keys other than `name` and `file_schema` do not change validation |
| `SimulatorFipregionsMapping.ValidateRow` | src/fmu/datamodels/standard_results/simulator_fipregions_mapping.py:15-30 | a row validates iff `FIPNUM` is a non-negative integer (or a whole float below 2^63 that is at least zero) and `ZONE` and `REGION` are text; the row holds those values |
| `SimulatorFipregionsMapping.ValidateMapping` | src/fmu/datamodels/standard_results/simulator_fipregions_mapping.py:33-40 | the mapping validates iff every row does; it keeps the number and order of rows |
| `SimulatorFipregionsMapping.FipnumLowerBound` | src/fmu/datamodels/standard_results/simulator_fipregions_mapping.py:23 | `FIPNUM = -1` is rejected and `FIPNUM = 0` is accepted |
| `SimulatorFipregionsMapping.MissingFieldRejected` | src/fmu/datamodels/standard_results/simulator_fipregions_mapping.py:23-30 | a row missing any of `FIPNUM`, `ZONE` or `REGION` is rejected |
| `SimulatorFipregionsMapping.BadRowRejectsMapping` | src/fmu/datamodels/standard_results/simulator_fipregions_mapping.py:40 | one invalid row rejects the whole mapping |
| `SimulatorFipregionsMapping.DuplicateFipnumAccepted` | src/fmu/datamodels/standard_results/simulator_fipregions_mapping.py:36-40 | any two valid rows that share a FIPNUM are both accepted, in order: there is no cross-row rule |
| `TableSchema.ValidateColumn` | src/fmu/datamodels/parameters/table_schema.py:8-14 | a column validates iff `type` is one of the three dtypes and `metadata` passes the metadata check; the result carries both |
| `TableSchema.ValidateTable` | src/fmu/datamodels/parameters/table_schema.py:17-24 | the table validates iff `parameters` is present, is an object, and every column in it validates; the validated map has the same keys as the input |
| `TableSchema.BadDtypeRejected` | src/fmu/datamodels/parameters/table_schema.py:13 | a column with an unknown dtype rejects the table |
| `TableSchema.BadMetadataRejected` | src/fmu/datamodels/parameters/table_schema.py:14 | a column whose metadata fails its check rejects the table |

## Left out

- Several pieces the core uses are defined in files that are not part of this model.
  - `StandardResultName` (fmu/datamodels/standard_results/enums.py): each member's value is taken to be its own name.
  - `VersionStr` (fmu/datamodels/types.py): modelled as major.minor.patch, each part a run of digits.
  - `FMU_SCHEMAS_PATH` and `SchemaBase.url()` (fmu/datamodels/_schema_base.py): the schemas root is a parameter of the path functions. The `VERSION` and `url()` of the five schema classes behind the fixed defaults are a parameter `schemas` of the standard-result validators.
  - `ParameterMetadata` (fmu/datamodels/parameters/metadata.py): its check is a parameter `parseMetadata` of the table validators.
- `AnyHttpUrl` is modelled as `http://` or `https://` followed by a host. pydantic's full URL grammar and normalisation (such as adding a trailing `/`) are left out.
- `dump()`, `model_json_schema` and `default_generator` are left out. JSON Schema generation is library behaviour.
- The `VERSION_CHANGELOG` strings, the package re-exports and the static `schemas` registry list are left out. They have no behaviour to verify.
- Encoding to bytes is left out. This covers UTF-8 and the JSON text that `json.dumps`/`json.loads` produce. The column metadata is modelled as field name to decoded value, on the assumption that the JSON codec round-trips scalars.
- Floating point is left out. Float fields are `real`, only stored and checked for kind. NaN and infinities are not represented.
- Some pydantic lax-mode coercions are left out. These are numeric strings accepted by numeric fields and booleans accepted as numbers. The model has no boolean or list values, and it rejects text in numeric fields.
- Validation failures carry no error detail. pydantic's list of all failing fields is reduced to a single `None`.
- The base class `GenKwParameterMetadata` is not validated on its own. Only its 11 concrete classes and their union are modelled.
- Inputs that are already model instances are left out. Only dictionaries are modelled.
- The source order of keys inside a record is not modelled, because records are maps. The parameters result table keeps its column order, because `all_column_names` depends on it.
- `ErtParameters.ValidateResult`: the table is given as an ordered list of (name, value) pairs and duplicate names are not ruled out. A parsed JSON object cannot hold a name twice, so this case does not arise in the source.
- `StandardResults.ParametersDefaultVersion`: only the Ert parameters schema's `VERSION` is part of this model, so the default's version is fixed for `parameters` alone. The versions of the other four fixed schemas come from the `schemas` parameter.
