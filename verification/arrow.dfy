/** The part of the columnar library's contract that the EXPLAIN operator
    relies on: a schema of typed fields, string columns, and the validating
    record-batch constructor.

    Columns are modelled only as the string arrays the operator builds; a
    column's data type is therefore always `Utf8`.
 */
module Arrow {
  import opened Results

  /** Column data types; only `Utf8` matters here, every other type is kept
      by name so that a schema can disagree with a string column. */
  datatype DataType = Utf8 | Other(name: string)

  datatype Field = Field(name: string, dataType: DataType, nullable: bool)

  datatype Schema = Schema(fields: seq<Field>)

  /** A non-null string array, one entry per row */
  type Column = seq<string>

  /** An immutable batch: a schema and one column per field */
  datatype RecordBatch = RecordBatch(schema: Schema, columns: seq<Column>)

  /** Row count of a batch: the length of its first column, 0 when it has none */
  function NumRows(b: RecordBatch): nat {
    if |b.columns| == 0 then 0 else |b.columns[0]|
  }

  /** What the validating constructor demands: at least one column, one column
      per field, all columns of one length, every field typed as a string */
  predicate Conforms(schema: Schema, columns: seq<Column>) {
    && |columns| > 0
    && |columns| == |schema.fields|
    && (forall i :: 0 <= i < |columns| ==> |columns[i]| == |columns[0]|)
    && (forall i :: 0 <= i < |schema.fields| ==> schema.fields[i].dataType == Utf8)
  }

  /** The schema has exactly two string-typed fields */
  predicate TwoStringColumns(schema: Schema) {
    |schema.fields| == 2 && schema.fields[0].dataType == Utf8 && schema.fields[1].dataType == Utf8
  }

  /** Builds a batch, or fails the way the library's `try_new` does when
      there are no columns, the column count differs from the field count,
      the columns differ in length or a field is not a string type. */
  function TryNewRecordBatch(schema: Schema, columns: seq<Column>): (r: Result<RecordBatch>)
    ensures r.Ok? <==> Conforms(schema, columns)
    ensures r.Ok? ==> r.value.schema == schema && r.value.columns == columns
    ensures r.Ok? ==> forall i :: 0 <= i < |columns| ==> |r.value.columns[i]| == NumRows(r.value)
    ensures r.Err? ==> r.error == ArrowError
  {
    if |columns| == 0 then Err(ArrowError)
    else if |columns| != |schema.fields| then Err(ArrowError)
    else if exists i :: 0 <= i < |columns| && |columns[i]| != |columns[0]| then Err(ArrowError)
    else if exists i :: 0 <= i < |schema.fields| && schema.fields[i].dataType != Utf8 then Err(ArrowError)
    else Ok(RecordBatch(schema, columns))
  }

  /** Two equal-length string columns conform to a schema exactly when that
      schema has two string fields */
  lemma TwoColumnsConform(schema: Schema, a: Column, b: Column)
    requires |a| == |b|
    ensures Conforms(schema, [a, b]) <==> TwoStringColumns(schema)
  {
  }
}
