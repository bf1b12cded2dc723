/**
 * The dbDelta engine (src/Engines/WPDB_DB_Delta/DB_Delta_Engine.php). It
 * stores the schema it is given, asks its validator whether to go on, and
 * composes `CREATE TABLE` / `DROP TABLE` text from the translator's
 * fragments. Running that text goes through WordPress (`dbDelta`, `wpdb`),
 * which is modelled as a store that answers a query with the output it
 * printed and its `last_error`.
 */
module Engine {
  import opened Wrappers
  import opened PhpStrings
  import opened PhpArrays
  import opened ColumnModel
  import opened SchemaModel
  import opened Translator
  import opened Validator
  import opened Exceptions

  /** The `",\n"` between clauses and the `", \n"` between validation errors. */
  const ClauseSep: string := "," + EOL
  const ErrorSep: string := ", " + EOL

  /** `compile_create_sql_query()`: the heredoc with the table, the joined clauses and the collation. */
  function CreateSql(s: SchemaState, collate: string): string
  {
    CreateText(s.tableName, Join(ClauseSep, Values(ArrayMerge(TranslateColumns(s), TranslateIndexes(s)))), collate)
  }

  /** The heredoc around the clause list. */
  function CreateText(table: string, body: string, collate: string): string
  {
    "CREATE TABLE " + table + " (" + EOL + body + " ) COLLATE " + collate + " "
  }

  /** `drop_table_query()`'s text. */
  function DropSql(table: string): string
  {
    "DROP TABLE IF EXISTS " + table + ";"
  }

  /** `'Failed to %s table %s as failed validation: %s'`, the errors joined by ", " and a newline. */
  function GateMessage(verb: string, table: string, errors: seq<string>): string
  {
    "Failed to " + verb + " table " + table + " as failed validation: " + Join(ErrorSep, errors)
  }

  /** What asking for a query ends in: the SQL, the gate's exception, or the validator's TypeError. */
  datatype QueryOutcome = Query(sql: string) | GateFailure(code: int, message: string) | ValidatorCrash

  /** `create_table_query( $schema )` as written: it throws when `validate()` returns false. */
  function CreateQueryOutcome(s: SchemaState, collate: string): (r: QueryOutcome)
    ensures r.ValidatorCrash? <==> |s.indexes| != 0
    ensures r.Query? ==> r.sql == CreateSql(s, collate)
    ensures r.GateFailure? ==> r.code == 1 && r.message == GateMessage("create", s.tableName, MissingTypeErrors(s.columns))
  {
    match ValidationOf(s)
    case ReducerTypeError => ValidatorCrash
    case Verdict(hasErrors) =>
      if !hasErrors then GateFailure(1, GateMessage("create", s.tableName, MissingTypeErrors(s.columns)))
      else Query(CreateSql(s, collate))
  }

  /** `drop_table_query( $schema )` as written, with code 2. */
  function DropQueryOutcome(s: SchemaState): (r: QueryOutcome)
    ensures r.ValidatorCrash? <==> |s.indexes| != 0
    ensures r.Query? ==> r.sql == DropSql(s.tableName)
    ensures r.GateFailure? ==> r.code == 2 && r.message == GateMessage("drop", s.tableName, MissingTypeErrors(s.columns))
  {
    match ValidationOf(s)
    case ReducerTypeError => ValidatorCrash
    case Verdict(hasErrors) =>
      if !hasErrors then GateFailure(2, GateMessage("drop", s.tableName, MissingTypeErrors(s.columns)))
      else Query(DropSql(s.tableName))
  }

  /**
   * The gate is inverted: on a schema without indexes (with one, the
   * validator fails first) the create query is produced exactly when some
   * column has no type, and a schema whose columns are all typed is rejected
   * with an error list that is always empty.
   */
  lemma InvertedCreateGate(s: SchemaState, collate: string)
    requires |s.indexes| == 0
    ensures CreateQueryOutcome(s, collate).Query? <==> exists i :: 0 <= i < |s.columns| && Untyped(s.columns[i].1)
    ensures CreateQueryOutcome(s, collate).GateFailure? <==> forall i :: 0 <= i < |s.columns| ==> !Untyped(s.columns[i].1)
    ensures CreateQueryOutcome(s, collate).GateFailure? ==>
      CreateQueryOutcome(s, collate) == GateFailure(1, GateMessage("create", s.tableName, []))
  {
    MissingTypeErrorsSpec(s.columns);
  }

  /** The drop query has the same inverted gate. */
  lemma InvertedDropGate(s: SchemaState)
    requires |s.indexes| == 0
    ensures DropQueryOutcome(s).Query? <==> exists i :: 0 <= i < |s.columns| && Untyped(s.columns[i].1)
    ensures DropQueryOutcome(s).Query? ==> DropQueryOutcome(s).sql == "DROP TABLE IF EXISTS " + s.tableName + ";"
    ensures DropQueryOutcome(s).GateFailure? ==>
      DropQueryOutcome(s) == GateFailure(2, GateMessage("drop", s.tableName, []))
  {
    MissingTypeErrorsSpec(s.columns);
  }

  /** Any index at all makes the validator fail before the gate is reached. */
  lemma IndexesCrashValidation(s: SchemaState, collate: string)
    requires |s.indexes| != 0
    ensures CreateQueryOutcome(s, collate) == ValidatorCrash
    ensures DropQueryOutcome(s) == ValidatorCrash
  {
  }

  /** A one-column table whose column has a type: `CREATE TABLE` refuses it. */
  lemma TypedTableRefused(collate: string)
    ensures CreateQueryOutcome(SchemaState("t", [("id", Blank("id").(dataType := Some("int")))], [], []), collate).GateFailure?
  {
    var s := SchemaState("t", [("id", Blank("id").(dataType := Some("int")))], [], []);
    assert !Untyped(s.columns[0].1);
    InvertedCreateGate(s, collate);
  }

  /** The gate as evidently intended: it goes on when `validate()` finds no errors, and the index check records nothing. */
  function IntendedCreateQueryOutcome(s: SchemaState, collate: string): QueryOutcome
  {
    if IntendedValidationOf(s).hasErrors then GateFailure(1, GateMessage("create", s.tableName, MissingTypeErrors(s.columns)))
    else Query(CreateSql(s, collate))
  }

  /** The drop gate as evidently intended, with code 2. */
  function IntendedDropQueryOutcome(s: SchemaState): QueryOutcome
  {
    if IntendedValidationOf(s).hasErrors then GateFailure(2, GateMessage("drop", s.tableName, MissingTypeErrors(s.columns)))
    else Query(DropSql(s.tableName))
  }

  /**
   * With the intended gate a schema is compiled exactly when every column
   * has a type, and a refusal lists the message of every untyped column.
   */
  lemma IntendedCreateGate(s: SchemaState, collate: string)
    ensures IntendedCreateQueryOutcome(s, collate).Query? <==> forall i :: 0 <= i < |s.columns| ==> !Untyped(s.columns[i].1)
    ensures IntendedCreateQueryOutcome(s, collate).Query? ==> IntendedCreateQueryOutcome(s, collate).sql == CreateSql(s, collate)
    ensures IntendedCreateQueryOutcome(s, collate).GateFailure? ==>
      && IntendedCreateQueryOutcome(s, collate).code == 1
      && IntendedCreateQueryOutcome(s, collate).message == GateMessage("create", s.tableName, MissingTypeErrors(s.columns))
      && MissingTypeErrors(s.columns) != []
  {
    MissingTypeErrorsSpec(s.columns);
  }

  /**
   * With the intended gate a table is dropped exactly when every column has
   * a type, and a refusal lists the message of every untyped column.
   */
  lemma IntendedDropGate(s: SchemaState)
    ensures IntendedDropQueryOutcome(s).Query? <==> forall i :: 0 <= i < |s.columns| ==> !Untyped(s.columns[i].1)
    ensures IntendedDropQueryOutcome(s).Query? ==> IntendedDropQueryOutcome(s).sql == "DROP TABLE IF EXISTS " + s.tableName + ";"
    ensures IntendedDropQueryOutcome(s).GateFailure? ==>
      && IntendedDropQueryOutcome(s).code == 2
      && IntendedDropQueryOutcome(s).message == GateMessage("drop", s.tableName, MissingTypeErrors(s.columns))
      && MissingTypeErrors(s.columns) != []
  {
    MissingTypeErrorsSpec(s.columns);
  }

  /**
   * The create text lists every column definition and then every index
   * clause (primary keys, index groups, foreign keys), provided column names
   * are distinct and none equals an index group's key.
   */
  lemma CreateSqlLists(s: SchemaState, collate: string)
    requires DistinctKeys(s.columns)
    requires forall i :: 0 <= i < |s.columns| ==> Name(s.columns[i].0) !in Keys(TransformIndexes(s.indexes))
    ensures CreateSql(s, collate) == CreateText(s.tableName,
      Join(ClauseSep, Values(TranslateColumns(s)) + Values(TransformPrimary(s.indexes))
                      + Values(TransformIndexes(s.indexes)) + Values(TransformForeignKeys(s.foreignKeys))),
      collate)
  {
    CreateBodyValues(s);
    TranslateIndexesOrder(s);
    ConcatRegroup(Values(TranslateColumns(s)), Values(TransformPrimary(s.indexes)),
      Values(TransformIndexes(s.indexes)), Values(TransformForeignKeys(s.foreignKeys)));
  }

  /** Under the same conditions, merging column and index clauses keeps all of them, columns first. */
  lemma CreateBodyValues(s: SchemaState)
    requires DistinctKeys(s.columns)
    requires forall i :: 0 <= i < |s.columns| ==> Name(s.columns[i].0) !in Keys(TransformIndexes(s.indexes))
    ensures Values(ArrayMerge(TranslateColumns(s), TranslateIndexes(s))) == Values(TranslateColumns(s)) + Values(TranslateIndexes(s))
  {
    ColumnKeysFresh(s);
    IndexKeysFresh(s);
    ArrayMergeValues(TranslateColumns(s), TranslateIndexes(s));
  }

  /** Distinct column names give distinct string keys. */
  lemma ColumnKeysFresh(s: SchemaState)
    requires DistinctKeys(s.columns)
    ensures NamesFresh([], TranslateColumns(s))
  {
    var tc := TranslateColumns(s);
    forall i, j | 0 <= i < j < |tc| && tc[j].0.Name? ensures tc[i].0 != tc[j].0 {
      assert s.columns[i].0 != s.columns[j].0;
    }
  }

  /** No index clause's string key is a column name already merged. */
  lemma IndexKeysFresh(s: SchemaState)
    requires forall i :: 0 <= i < |s.columns| ==> Name(s.columns[i].0) !in Keys(TransformIndexes(s.indexes))
    ensures NamesFresh(MergeAll([], TranslateColumns(s)), TranslateIndexes(s))
  {
    var tc := TranslateColumns(s);
    var ti := TranslateIndexes(s);
    TranslateIndexesOrder(s);
    forall j | 0 <= j < |ti| && ti[j].0.Name? ensures ti[j].0 !in Keys(tc) {
      assert Keys(ti)[j] == ti[j].0;
      NotAColumnKey(s, ti[j].0);
    }
    MergedNamesAvoid(tc, ti);
  }

  /** A group key no column is named after is not among the column clauses' keys. */
  lemma NotAColumnKey(s: SchemaState, k: Key)
    requires forall i :: 0 <= i < |s.columns| ==> Name(s.columns[i].0) !in Keys(TransformIndexes(s.indexes))
    requires k in Keys(TransformIndexes(s.indexes))
    ensures k !in Keys(TranslateColumns(s))
  {
    var tc := TranslateColumns(s);
    forall i | 0 <= i < |tc| ensures Keys(tc)[i] != k {
      assert Keys(tc)[i] == Name(s.columns[i].0);
    }
  }

  /**
   * A column named like an index group's key (`<keyname>_<type>`) is
   * overwritten by that group's clause, so the create text has fewer
   * clauses than there are columns and index entries.
   */
  lemma ColumnIndexKeyClash(s: SchemaState, i: nat)
    requires i < |s.columns|
    requires Name(s.columns[i].0) in Keys(TransformIndexes(s.indexes))
    ensures |ArrayMerge(TranslateColumns(s), TranslateIndexes(s))| < |TranslateColumns(s)| + |TranslateIndexes(s)|
  {
    var tc := TranslateColumns(s);
    var ti := TranslateIndexes(s);
    var k := Name(s.columns[i].0);
    var none: seq<(Key, string)> := [];
    assert Keys(tc)[i] == k;
    MergeAllKeepsNames(none, tc, k);
    assert k in Keys(ti) by {
      var pg := ArrayMerge(TransformPrimary(s.indexes), TransformIndexes(s.indexes));
      MergeAllKeepsNames(MergeAll(none, TransformPrimary(s.indexes)), TransformIndexes(s.indexes), k);
      MergeAllKeepsNames(none, pg, k);
      MergeAllKeepsNames(MergeAll(none, pg), TransformForeignKeys(s.foreignKeys), k);
    }
    var j :| 0 <= j < |ti| && Keys(ti)[j] == k;
    MergeAllLength(MergeAll(none, tc), ti);
    MergeAllLength(none, tc);
  }

  /** What the store answered: the output `dbDelta` printed and `wpdb->last_error`. */
  datatype StoreReply = StoreReply(output: string, lastError: string)

  /**
   * The error-interpretation branch of `create_table` / `drop_table`: a
   * non-empty output is the error (as `$output ?: ''`, so "0" becomes ""),
   * otherwise a non-empty `last_error`, otherwise none.
   */
  function StoreError(reply: StoreReply): (e: Option<string>)
    ensures e.None? <==> reply.output == "" && reply.lastError == ""
    ensures reply.output != "" ==> e == Some(if reply.output == "0" then "" else reply.output)
    ensures reply.output == "" && reply.lastError != "" ==> e == Some(reply.lastError)
  {
    if reply.output != "" then Some(if IsEmpty(reply.output) then "" else reply.output)
    else if reply.lastError != "" then Some(reply.lastError)
    else None
  }

  /** How running a query ends: success, a failure asking for it, or the store's error. */
  datatype RunOutcome = Done | QueryFailed(failure: QueryOutcome) | StoreFailed(error: EngineException)

  /** `create_table( $schema )`, with `store` answering `dbDelta( $query )`. */
  function CreateTableRun(schema: Schema, s: SchemaState, collate: string, store: string -> StoreReply): (r: RunOutcome)
    ensures r.QueryFailed? <==> !CreateQueryOutcome(s, collate).Query?
    ensures r.QueryFailed? ==> r.failure == CreateQueryOutcome(s, collate)
    ensures r.StoreFailed? ==> r.error.schema == Some(schema) && Some(r.error.message) == StoreError(store(CreateSql(s, collate)))
  {
    match CreateQueryOutcome(s, collate)
    case Query(sql) =>
      (match StoreError(store(sql))
       case Some(err) => StoreFailed(CreateTableException(schema, err))
       case None => Done)
    case failure => QueryFailed(failure)
  }

  /** `drop_table( $schema )`, with `store` answering `$wpdb->get_results( $query )`. */
  function DropTableRun(schema: Schema, s: SchemaState, store: string -> StoreReply): (r: RunOutcome)
    ensures r.QueryFailed? <==> !DropQueryOutcome(s).Query?
    ensures r.QueryFailed? ==> r.failure == DropQueryOutcome(s)
    ensures r.StoreFailed? ==> r.error.schema == Some(schema) && Some(r.error.message) == StoreError(store(DropSql(s.tableName)))
  {
    match DropQueryOutcome(s)
    case Query(sql) =>
      (match StoreError(store(sql))
       case Some(err) => StoreFailed(DropTableException(schema, err))
       case None => Done)
    case failure => QueryFailed(failure)
  }

  /** `create_table` returns true exactly when the query was produced and the store reported nothing. */
  lemma CreateTableSucceeds(schema: Schema, s: SchemaState, collate: string, store: string -> StoreReply)
    ensures CreateTableRun(schema, s, collate, store) == Done <==>
      && CreateQueryOutcome(s, collate).Query?
      && store(CreateQueryOutcome(s, collate).sql) == StoreReply("", "")
    ensures CreateTableRun(schema, s, collate, store).StoreFailed? ==>
      CreateTableRun(schema, s, collate, store).error.schema == Some(schema)
  {
  }

  /** `drop_table` returns true exactly when the query was produced and the store reported nothing. */
  lemma DropTableSucceeds(schema: Schema, s: SchemaState, store: string -> StoreReply)
    ensures DropTableRun(schema, s, store) == Done <==>
      && DropQueryOutcome(s).Query?
      && store(DropSql(s.tableName)) == StoreReply("", "")
  {
  }

  class DbDeltaEngine {
    const validator: DbDeltaValidator
    /** `$wpdb->collate`. */
    const collate: string
    var schema: Schema?

    constructor(collate: string)
      ensures fresh(validator) && validator.errors == []
      ensures this.collate == collate && schema == null
    {
      validator := new DbDeltaValidator();
      this.collate := collate;
      schema := null;
    }

    /** `set_query_for_create( $schema )`: stores the schema, then gates on `validate()`. */
    method SetQueryForCreate(schema: Schema) returns (failure: Option<QueryOutcome>)
      modifies this, validator
      ensures this.schema == schema
      ensures validator.errors == MissingTypeErrors(schema.State().columns)
      ensures failure.None? <==> ValidationOf(schema.State()) == Verdict(true)
      ensures failure.Some? ==> failure.value == CreateQueryOutcome(schema.State(), collate)
    {
      this.schema := schema;
      var v := validator.Validate(schema);
      if v.ReducerTypeError? {
        return Some(ValidatorCrash);
      }
      if !v.hasErrors {
        var errors := validator.GetErrors();
        return Some(GateFailure(1, GateMessage("create", schema.GetTableName(), errors)));
      }
      return None;
    }

    /** `set_query_for_drop( $schema )`: the same, with code 2. */
    method SetQueryForDrop(schema: Schema) returns (failure: Option<QueryOutcome>)
      modifies this, validator
      ensures this.schema == schema
      ensures validator.errors == MissingTypeErrors(schema.State().columns)
      ensures failure.None? <==> ValidationOf(schema.State()) == Verdict(true)
      ensures failure.Some? ==> failure.value == DropQueryOutcome(schema.State())
    {
      this.schema := schema;
      var v := validator.Validate(schema);
      if v.ReducerTypeError? {
        return Some(ValidatorCrash);
      }
      if !v.hasErrors {
        var errors := validator.GetErrors();
        return Some(GateFailure(2, GateMessage("drop", schema.GetTableName(), errors)));
      }
      return None;
    }

    /** `compile_create_sql_query()`: reads the stored schema. */
    method CompileCreateSqlQuery() returns (sql: string)
      requires schema != null
      ensures sql == CreateSql(schema.State(), collate)
      ensures schema.State() == old(schema.State())
    {
      var s := schema.State();
      var body := Join(ClauseSep, Values(ArrayMerge(TranslateColumns(s), TranslateIndexes(s))));
      sql := CreateText(schema.GetTableName(), body, collate);
    }

    /** `create_table_query( $schema )`. */
    method CreateTableQuery(schema: Schema) returns (r: QueryOutcome)
      modifies this, validator
      ensures this.schema == schema
      ensures validator.errors == MissingTypeErrors(schema.State().columns)
      ensures r == CreateQueryOutcome(schema.State(), collate)
    {
      var failure := SetQueryForCreate(schema);
      if failure.Some? {
        r := failure.value;
      } else {
        var sql := CompileCreateSqlQuery();
        r := Query(sql);
      }
    }

    /** `drop_table_query( $schema )`: the table name is read back from the stored schema. */
    method DropTableQuery(schema: Schema) returns (r: QueryOutcome)
      modifies this, validator
      ensures this.schema == schema
      ensures validator.errors == MissingTypeErrors(schema.State().columns)
      ensures r == DropQueryOutcome(schema.State())
    {
      var failure := SetQueryForDrop(schema);
      if failure.Some? {
        return failure.value;
      }
      return Query(DropSql(this.schema.GetTableName()));
    }

    /** `create_table( $schema )`: the query, run through the store, then its error branch. */
    method CreateTable(schema: Schema, store: string -> StoreReply) returns (r: RunOutcome)
      modifies this, validator
      ensures this.schema == schema
      ensures r == CreateTableRun(schema, schema.State(), collate, store)
    {
      var q := CreateTableQuery(schema);
      if !q.Query? {
        return QueryFailed(q);
      }
      var reply := store(q.sql);
      if reply.output != "" {
        return StoreFailed(CreateTableException(schema, if IsEmpty(reply.output) then "" else reply.output));
      }
      if reply.lastError != "" {
        return StoreFailed(CreateTableException(schema, reply.lastError));
      }
      return Done;
    }

    /** `drop_table( $schema )`. */
    method DropTable(schema: Schema, store: string -> StoreReply) returns (r: RunOutcome)
      modifies this, validator
      ensures this.schema == schema
      ensures r == DropTableRun(schema, schema.State(), store)
    {
      var q := DropTableQuery(schema);
      if !q.Query? {
        return QueryFailed(q);
      }
      var reply := store(q.sql);
      if reply.output != "" {
        return StoreFailed(DropTableException(schema, if IsEmpty(reply.output) then "" else reply.output));
      }
      if reply.lastError != "" {
        return StoreFailed(DropTableException(schema, reply.lastError));
      }
      return Done;
    }
  }
}
