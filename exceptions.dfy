/**
 * The exceptions the schema layer and the dbDelta engine raise
 * (src/Exception/...). Each is a write-once record: the schema it concerns,
 * a message and a numeric code, built by a static factory.
 */
module Exceptions {
  import opened Wrappers
  import opened PhpStrings
  import opened SchemaModel

  /** `WPDB_Validator_Exception`: a schema, the validation errors, a message and a code. */
  datatype ValidatorException = ValidatorException(
    schema: Schema,
    validationErrors: seq<string>,
    message: string,
    code: int)

  /** `WPDB_Validator_Exception::failed_validation( $schema, $errors )`. */
  function FailedValidation(schema: Schema, errors: seq<string>): (e: ValidatorException)
    ensures e.code == 201
    ensures e.schema == schema && e.validationErrors == errors
    ensures e.message == schema.tableName + " failed with " + IntToString(|errors|) + " errors"
  {
    ValidatorException(schema, errors, schema.tableName + " failed with " + IntToString(|errors|) + " errors", 201)
  }

  /** For one schema, the message of `failed_validation` tells how many errors there were. */
  lemma FailedValidationCountsErrors(schema: Schema, a: seq<string>, b: seq<string>)
    requires FailedValidation(schema, a).message == FailedValidation(schema, b).message
    ensures |a| == |b|
  {
    var head := schema.tableName + " failed with ";
    var ma, mb := FailedValidation(schema, a).message, FailedValidation(schema, b).message;
    var na, nb := NatToString(|a|), NatToString(|b|);
    assert ma == head + na + " errors" && mb == head + nb + " errors";
    assert |na| == |nb|;
    assert na == ma[|head|..|head| + |na|];
    assert nb == mb[|head|..|head| + |nb|];
    NatToStringInjective(|a|, |b|);
  }

  /** `Schema_Exception`: an optional schema, a message and a code. */
  datatype SchemaException = SchemaException(schema: Option<Schema>, message: string, code: int)

  /** `new Schema_Exception()` with every argument left at its default. */
  function DefaultSchemaException(): (e: SchemaException)
    ensures e.schema.None? && e.message == "" && e.code == 0
  {
    SchemaException(None, "", 0)
  }

  function ColumnNotExistMessage(column: string): string
  {
    "column with name " + column + " is not currently defined"
  }

  /** `Schema_Exception::column_not_exist( $schema, $column )`. */
  function ColumnNotExist(schema: Schema, column: string): (e: SchemaException)
    ensures e.code == 301 && e.schema == Some(schema)
    ensures e.message == ColumnNotExistMessage(column)
  {
    SchemaException(Some(schema), ColumnNotExistMessage(column), 301)
  }

  /** The message of `column_not_exist` names exactly one column. */
  lemma ColumnNotExistNamesColumn(schema: Schema, a: string, b: string)
    requires ColumnNotExist(schema, a).message == ColumnNotExist(schema, b).message
    ensures a == b
  {
    var head := "column with name ";
    var ma, mb := ColumnNotExistMessage(a), ColumnNotExistMessage(b);
    assert |a| == |b|;
    assert a == ma[|head|..|head| + |a|];
    assert b == mb[|head|..|head| + |b|];
  }

  /** `Exception\Engine_Exception`: an optional schema, a message and a code. */
  datatype EngineException = EngineException(schema: Option<Schema>, message: string, code: int)

  /** `new Engine_Exception()` with every argument left at its default. */
  function DefaultEngineException(): (e: EngineException)
    ensures e.schema.None? && e.message == "" && e.code == 0
  {
    EngineException(None, "", 0)
  }

  /** `Engine_Exception::create_table( $schema, $error )`: the error is the message; the code stays 0. */
  function CreateTableException(schema: Schema, error: string): (e: EngineException)
    ensures e.schema == Some(schema) && e.message == error && e.code == 0
  {
    EngineException(Some(schema), error, 0)
  }

  /** `Engine_Exception::drop_table( $schema, $error )`: the error is the message; the code stays 0. */
  function DropTableException(schema: Schema, error: string): (e: EngineException)
    ensures e.schema == Some(schema) && e.message == error && e.code == 0
  {
    EngineException(Some(schema), error, 0)
  }

  /** As written, a failed create and a failed drop raise the very same exception. */
  lemma CreateAndDropIndistinguishable(schema: Schema, error: string)
    ensures CreateTableException(schema, error) == DropTableException(schema, error)
  {
  }

  /** The factories with the codes the engine's own doc comments and the tests announce (101, 102). */
  function IntendedCreateTableException(schema: Schema, error: string): (e: EngineException)
    ensures e.schema == Some(schema) && e.message == error && e.code == 101
  {
    EngineException(Some(schema), error, 101)
  }

  function IntendedDropTableException(schema: Schema, error: string): (e: EngineException)
    ensures e.schema == Some(schema) && e.message == error && e.code == 102
  {
    EngineException(Some(schema), error, 102)
  }

  /** With those codes a caller can tell a failed create from a failed drop, whatever the message. */
  lemma IntendedCodesDistinguish(schema: Schema, a: string, b: string)
    ensures IntendedCreateTableException(schema, a) != IntendedDropTableException(schema, b)
    ensures IntendedCreateTableException(schema, a).message == a
  {
  }
}
