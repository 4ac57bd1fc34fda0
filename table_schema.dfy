/** The parameter table schema: a map from parameter name to a column whose
    dtype is one of three literals and whose metadata passes the parameter
    metadata check. That check is defined outside this model, so it is the
    parameter `parseMetadata`. */
module TableSchema {
  import opened Json
  import opened ColumnDtype

  datatype ParameterColumn<M> = ParameterColumn(dtype: Dtype, metadata: M)

  datatype ParameterTableSchema<M> = ParameterTableSchema(parameters: map<string, ParameterColumn<M>>)

  /** Validation of one column: `type` is one of the three dtype names and
      `metadata` passes the metadata check; other keys are ignored. */
  function ValidateColumn<M>(v: Value, parseMetadata: Value -> Option<M>): (r: Option<ParameterColumn<M>>)
    ensures r.Some? <==>
      && v.Obj? && "type" in v.fields && "metadata" in v.fields
      && v.fields["type"] in {Str("float64"), Str("int64"), Str("string")}
      && parseMetadata(v.fields["metadata"]).Some?
    ensures r.Some? ==> v.fields["type"] == Str(DtypeName(r.value.dtype))
    ensures r.Some? ==> parseMetadata(v.fields["metadata"]) == Some(r.value.metadata)
  {
    match v
    case Obj(fields) =>
      if "type" !in fields || "metadata" !in fields then None
      else
        var dtype :- ParseDtype(fields["type"]);
        var metadata :- parseMetadata(fields["metadata"]);
        Some(ParameterColumn(dtype, metadata))
    case _ => None
  }

  /** Validation of the table: `parameters` is required and must be an object;
      every column is validated, all or nothing. */
  function ValidateTable<M>(doc: map<string, Value>, parseMetadata: Value -> Option<M>): (r: Option<ParameterTableSchema<M>>)
    ensures r.Some? <==>
      && "parameters" in doc && doc["parameters"].Obj?
      && forall k :: k in doc["parameters"].fields ==> ValidateColumn(doc["parameters"].fields[k], parseMetadata).Some?
    ensures r.Some? ==> r.value.parameters.Keys == doc["parameters"].fields.Keys
    ensures r.Some? ==> forall k :: k in r.value.parameters ==>
      ValidateColumn(doc["parameters"].fields[k], parseMetadata) == Some(r.value.parameters[k])
  {
    if "parameters" !in doc then None
    else
      match doc["parameters"]
      case Obj(columns) =>
        if forall k :: k in columns ==> ValidateColumn(columns[k], parseMetadata).Some? then
          Some(ParameterTableSchema(map k | k in columns :: ValidateColumn(columns[k], parseMetadata).value))
        else None
      case _ => None
  }

  /** A column with a dtype outside the three names is rejected, and so is the
      table holding it. */
  lemma BadDtypeRejected<M>(doc: map<string, Value>, name: string, parseMetadata: Value -> Option<M>)
    requires "parameters" in doc && doc["parameters"].Obj? && name in doc["parameters"].fields
    requires var column := doc["parameters"].fields[name];
      column.Obj? && "type" in column.fields && ParseDtype(column.fields["type"]).None?
    ensures ValidateTable(doc, parseMetadata) == None
  {
    assert ValidateColumn(doc["parameters"].fields[name], parseMetadata).None?;
  }

  /** A column whose metadata fails its check is rejected, and so is the table
      holding it. */
  lemma BadMetadataRejected<M>(doc: map<string, Value>, name: string, parseMetadata: Value -> Option<M>)
    requires "parameters" in doc && doc["parameters"].Obj? && name in doc["parameters"].fields
    requires var column := doc["parameters"].fields[name];
      column.Obj? && "metadata" in column.fields && parseMetadata(column.fields["metadata"]).None?
    ensures ValidateTable(doc, parseMetadata) == None
  {
    assert ValidateColumn(doc["parameters"].fields[name], parseMetadata).None?;
  }
}
