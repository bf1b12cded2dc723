/**
 * The legacy dbDelta builder (__DB_Delta.php): the same column and index
 * rendering as the v0.2 builder, with a validation pass in front, an
 * optional primary key, a newline after every FOREIGN KEY clause, and a
 * `drop` that issues DROP TABLE IF EXISTS.
 */
module LegacyDelta {
  import opened Wrappers
  import opened PhpStrings
  import opened PhpArrays
  import opened TableIndexModel
  import opened TableSchemaModel
  import opened DeltaBuilder

  /** `compile_foreign_key_query` ends every FOREIGN KEY clause with a newline. */
  const ForeignTrailer: string := EOL

  const NoTableNameMessage: string := "Table name not defined in schema"

  function MissingPropertiesMessage(t: string): string
  {
    "Columns in " + t + " schema are missing required properties."
  }

  /** A column passes the `array_filter` in `validate_schema` when it has key, null, type and length. */
  predicate HasRequiredProperties(e: ColumnEntry)
  {
    e.key.Present? && e.nullable.Present? && e.dataType.Present? && e.length.Present?
  }

  /** `empty()` on a nullable string property. */
  predicate EmptyOrNull(o: Option<string>)
  {
    o.None? || IsEmpty(o.value)
  }

  /** The condition `validate_indexes` throws on. */
  predicate IncompleteForeignKey(ix: TableIndexState)
  {
    ix.foreignKey && (EmptyOrNull(ix.referenceTable) || CellEmpty(ix.referenceColumn))
  }

  /** The exception message for an incomplete foreign key: each missing part reads UNDEFINED. */
  function ForeignKeyMessage(ix: TableIndexState): string
  {
    "Foreign key index \"" + KeynameText(ix) + "\" requires both reference table("
      + (if EmptyOrNull(ix.referenceTable) then "UNDEFINED" else ix.referenceTable.value)
      + ") and reference column("
      + (if CellEmpty(ix.referenceColumn) then "UNDEFINED" else ix.referenceColumn.s)
      + ") defined."
  }

  /** The first index, in array order, that `validate_indexes` throws on. */
  function FirstIncomplete(ixs: seq<TableIndexState>): Option<TableIndexState>
    decreases |ixs|
  {
    if ixs == [] then None
    else if IncompleteForeignKey(ixs[0]) then Some(ixs[0])
    else FirstIncomplete(ixs[1..])
  }

  /** Nothing is found only when every index is complete; what is found is the earliest incomplete one. */
  lemma {:induction false} FirstIncompleteSpec(ixs: seq<TableIndexState>)
    ensures FirstIncomplete(ixs).None? <==> forall i :: 0 <= i < |ixs| ==> !IncompleteForeignKey(ixs[i])
    ensures FirstIncomplete(ixs).Some? ==>
      (exists i :: 0 <= i < |ixs| && ixs[i] == FirstIncomplete(ixs).value && IncompleteForeignKey(ixs[i])
         && forall j :: 0 <= j < i ==> !IncompleteForeignKey(ixs[j]))
    decreases |ixs|
  {
    if ixs != [] && !IncompleteForeignKey(ixs[0]) {
      FirstIncompleteSpec(ixs[1..]);
      if FirstIncomplete(ixs[1..]).Some? {
        var i :| 0 <= i < |ixs[1..]| && ixs[1..][i] == FirstIncomplete(ixs[1..]).value
          && IncompleteForeignKey(ixs[1..][i]) && forall j :: 0 <= j < i ==> !IncompleteForeignKey(ixs[1..][j]);
        assert ixs[i + 1] == ixs[1..][i];
        forall j | 0 <= j < i + 1 ensures !IncompleteForeignKey(ixs[j]) {
          if j > 0 { assert ixs[j] == ixs[1..][j - 1]; }
        }
      } else {
        forall i | 0 <= i < |ixs| ensures !IncompleteForeignKey(ixs[i]) {
          if i > 0 { assert ixs[i] == ixs[1..][i - 1]; }
        }
      }
    } else if ixs != [] {
      assert IncompleteForeignKey(ixs[0]);
    }
  }

  /**
   * What `validate_indexes` throws: nothing when every foreign key names
   * both a reference table and a reference column, otherwise the message
   * for the first one that does not.
   */
  function IndexesFault(ixs: seq<TableIndexState>): (r: Option<Fault>)
    ensures r.None? <==> forall i :: 0 <= i < |ixs| ==> !IncompleteForeignKey(ixs[i])
    ensures r.Some? ==>
      (exists i :: 0 <= i < |ixs| && IncompleteForeignKey(ixs[i]) && r == Some(Thrown(ForeignKeyMessage(ixs[i])))
         && forall j :: 0 <= j < i ==> !IncompleteForeignKey(ixs[j]))
  {
    FirstIncompleteSpec(ixs);
    match FirstIncomplete(ixs)
    case None => None
    case Some(ix) => Some(Thrown(ForeignKeyMessage(ix)))
  }

  /** `validate_indexes()`: the `foreach` that throws on the first incomplete foreign key. */
  method ValidateIndexes(ixs: seq<TableIndexState>) returns (fault: Option<Fault>)
    ensures fault == IndexesFault(ixs)
  {
    var i := 0;
    while i < |ixs|
      invariant 0 <= i <= |ixs|
      invariant FirstIncomplete(ixs) == FirstIncomplete(ixs[i..])
    {
      assert ixs[i..][0] == ixs[i] && ixs[i..][1..] == ixs[i + 1..];
      if IncompleteForeignKey(ixs[i]) {
        return Some(Thrown(ForeignKeyMessage(ixs[i])));
      }
      i := i + 1;
    }
    assert ixs[i..] == [];
    return None;
  }

  /**
   * What `validate_schema` throws, checking in order: the table name (the
   * getter's string return type rejects an unset one), the columns'
   * required properties, then the indexes.
   */
  function SchemaFault(s: TableSchemaState): (r: Option<Fault>)
    ensures r.None? <==> (s.tableName.Some? && !IsEmpty(s.tableName.value)
      && (forall i :: 0 <= i < |s.columns| ==> HasRequiredProperties(s.columns[i].1))
      && (forall i :: 0 <= i < |s.indexes| ==> !IncompleteForeignKey(s.indexes[i])))
    ensures s.tableName.None? ==> r == Some(TypeError)
    ensures s.tableName.Some? && IsEmpty(s.tableName.value) ==> r == Some(Thrown(NoTableNameMessage))
    ensures s.tableName.Some? && !IsEmpty(s.tableName.value)
      && (exists i :: 0 <= i < |s.columns| && !HasRequiredProperties(s.columns[i].1))
      ==> r == Some(Thrown(MissingPropertiesMessage(s.tableName.value)))
  {
    if s.tableName.None? then Some(TypeError)
    else if IsEmpty(s.tableName.value) then Some(Thrown(NoTableNameMessage))
    else if exists i :: 0 <= i < |s.columns| && !HasRequiredProperties(s.columns[i].1) then
      Some(Thrown(MissingPropertiesMessage(s.tableName.value)))
    else IndexesFault(s.indexes)
  }

  /** `validate_schema()`. */
  method ValidateSchema(s: TableSchemaState) returns (fault: Option<Fault>)
    ensures fault == SchemaFault(s)
  {
    if s.tableName.None? {
      return Some(TypeError);
    }
    var name := s.tableName.value;
    if IsEmpty(name) {
      return Some(Thrown(NoTableNameMessage));
    }
    if exists i :: 0 <= i < |s.columns| && !HasRequiredProperties(s.columns[i].1) {
      return Some(Thrown(MissingPropertiesMessage(name)));
    }
    fault := ValidateIndexes(s.indexes);
  }

  /** `parse_primary_key()`: the clause for a non-empty key, nothing for an empty one. */
  function ParsePrimaryKey(pk: Option<string>): (r: Result<string, Fault>)
    ensures r.Failure? <==> pk.None?
    ensures r.Failure? ==> r.error == TypeError
    ensures r.Success? ==> (r.value == "" <==> IsEmpty(pk.value))
    ensures r.Success? && !IsEmpty(pk.value) ==> r.value == PrimaryKeyClause(pk.value)
  {
    match pk
    case None => Failure(TypeError)
    case Some(k) => Success(if IsEmpty(k) then "" else PrimaryKeyClause(k))
  }

  /** `compile_create_sql()`: the key clause always follows the columns' ",\n", even when it is empty. */
  function CompileCreateSql(s: TableSchemaState, collate: string): (r: Result<string, Fault>)
    ensures r.Success? <==> s.tableName.Some? && s.primaryKey.Some?
    ensures r.Failure? ==> r.error == TypeError
  {
    match TableNameOf(s)
    case Failure(e) => Failure(e)
    case Success(t) =>
      match ParsePrimaryKey(s.primaryKey)
      case Failure(e) => Failure(e)
      case Success(k) =>
        Success("CREATE TABLE " + t + " (" + EOL + TableBody(s.columns, k, s.indexes, ForeignTrailer)
          + ")" + EOL + "COLLATE " + collate + " ")
  }

  /** `build( $schema )`: validate, then compile; the statement reaches `dbDelta` only when nothing is thrown. */
  function LegacyBuild(s: TableSchemaState, collate: string): (r: Result<string, Fault>)
    ensures r.Success? <==> SchemaFault(s).None? && s.primaryKey.Some?
    ensures SchemaFault(s).Some? ==> r == Failure(SchemaFault(s).value)
  {
    match SchemaFault(s)
    case Some(f) => Failure(f)
    case None => CompileCreateSql(s, collate)
  }

  /** Without foreign keys the index compiler files nothing under a reference table. */
  lemma {:induction false} NoForeignKeysNoGroups(ixs: seq<TableIndexState>)
    requires forall i :: 0 <= i < |ixs| ==> !ixs[i].foreignKey
    ensures CompileIndexes(ixs).foreign == []
    decreases |ixs|
  {
    if ixs != [] {
      NoForeignKeysNoGroups(ixs[..|ixs| - 1]);
    }
  }

  /**
   * On a schema that validates, with a key and no foreign key, the legacy
   * builder sends the same statement as the v0.2 builder.
   */
  lemma LegacyAgreesWithBuilder(s: TableSchemaState, collate: string)
    requires SchemaFault(s).None? && s.primaryKey.Some? && !IsEmpty(s.primaryKey.value)
    requires forall i :: 0 <= i < |s.indexes| ==> !s.indexes[i].foreignKey
    ensures LegacyBuild(s, collate) == CreateQuery(s, collate)
  {
    NoForeignKeysNoGroups(s.indexes);
    assert Formatted(s.indexes, ForeignTrailer) == Formatted(s.indexes, "");
  }

  /** With no index at all, `parse_indexes` adds nothing. */
  lemma NoIndexesNoClauses(trailer: string)
    ensures Formatted([], trailer) == [] && ParseIndexes([], trailer) == ""
  {
    ParseIndexesLists([], trailer);
  }

  /**
   * As written, an empty primary key still gets its separator: a table
   * with columns and no index ends its column list with ",\n)", which is
   * not valid SQL.
   */
  lemma EmptyPrimaryKeyDanglingComma(s: TableSchemaState, collate: string)
    requires s.tableName.Some? && s.primaryKey == Some("") && s.indexes == []
    ensures CompileCreateSql(s, collate) == Success("CREATE TABLE " + s.tableName.value + " (" + EOL
      + ParseColumns(s.columns) + ListSep + ")" + EOL + "COLLATE " + collate + " ")
  {
    NoIndexesNoClauses(ForeignTrailer);
    var t, cols := s.tableName.value, ParseColumns(s.columns);
    var body := TableBody(s.columns, "", s.indexes, ForeignTrailer);
    assert body == cols + ListSep + "" + "";
    assert body == cols + ListSep;
    assert CompileCreateSql(s, collate) == Success("CREATE TABLE " + t + " (" + EOL + body + ")" + EOL + "COLLATE " + collate + " ");
    assert "CREATE TABLE " + t + " (" + EOL + body == "CREATE TABLE " + t + " (" + EOL + cols + ListSep;
  }

  /** The key clauses of the list: none for an empty key. */
  function KeyClauses(pk: string): (r: seq<string>)
    ensures |r| <= 1 && (r == [] <==> IsEmpty(pk))
  {
    if IsEmpty(pk) then [] else [PrimaryKeyClause(pk)]
  }

  /** The table body as evidently intended: the key clause and its separator only when there is a key. */
  function IntendedTableBody(cols: seq<(string, ColumnEntry)>, pk: string, ixs: seq<TableIndexState>, trailer: string): string
  {
    ParseColumns(cols) + (if IsEmpty(pk) then "" else ListSep + PrimaryKeyClause(pk)) + ParseIndexes(ixs, trailer)
  }

  /** `compile_create_sql()` as evidently intended. */
  function IntendedCompileCreateSql(s: TableSchemaState, collate: string): (r: Result<string, Fault>)
    ensures r.Success? <==> s.tableName.Some? && s.primaryKey.Some?
  {
    match TableNameOf(s)
    case Failure(e) => Failure(e)
    case Success(t) =>
      match PrimaryKeyOf(s)
      case Failure(e) => Failure(e)
      case Success(pk) =>
        Success("CREATE TABLE " + t + " (" + EOL + IntendedTableBody(s.columns, pk, s.indexes, ForeignTrailer)
          + ")" + EOL + "COLLATE " + collate + " ")
  }

  /** Every clause left after filtering is non-empty. */
  lemma {:induction false} NonEmptyTextsAreNonEmpty(cells: seq<Cell>)
    ensures forall i :: 0 <= i < |NonEmptyTexts(cells)| ==> NonEmptyTexts(cells)[i] != ""
    decreases |cells|
  {
    if cells != [] {
      NonEmptyTextsAreNonEmpty(cells[1..]);
    }
  }

  /** No index clause `parse_indexes` joins is empty. */
  lemma FormattedNonEmpty(ixs: seq<TableIndexState>, trailer: string)
    ensures forall i :: 0 <= i < |Formatted(ixs, trailer)| ==> Formatted(ixs, trailer)[i] != ""
  {
    var c := CompileIndexes(ixs);
    CompiledGroupsNonEmpty(ixs);
    NonEmptyTextsAreNonEmpty(Values(ArrayMerge(SimpleEntries(c.simple), ForeignEntries(c.foreign, trailer))));
  }

  /** Columns, key and indexes as one list joined without an empty item. */
  lemma IntendedBodyLists(cols: seq<(string, ColumnEntry)>, pk: string, ixs: seq<TableIndexState>, trailer: string)
    requires cols != []
    ensures var items := ColumnLines(cols) + KeyClauses(pk) + Formatted(ixs, trailer);
      && IntendedTableBody(cols, pk, ixs, trailer) == Join(ListSep, items)
      && forall i :: 0 <= i < |items| ==> items[i] != ""
  {
    var lines := ColumnLines(cols);
    var f := Formatted(ixs, trailer);
    var keys := KeyClauses(pk);
    IntendedBodyJoins(lines, pk, f);
    assert IntendedTableBody(cols, pk, ixs, trailer)
      == Join(ListSep, lines) + (if IsEmpty(pk) then "" else ListSep + PrimaryKeyClause(pk)) + (if f == [] then "" else ListSep) + Join(ListSep, f);
    FormattedNonEmpty(ixs, trailer);
    assert forall i :: 0 <= i < |lines| ==> lines[i] != "" by {
      forall i | 0 <= i < |lines| ensures lines[i] != "" {
        assert |lines[i]| >= 1;
      }
    }
    NoEmptyItems(lines, keys, f);
  }

  /** Three lists without an empty string make one list without an empty string. */
  lemma NoEmptyItems(a: seq<string>, b: seq<string>, c: seq<string>)
    requires forall i :: 0 <= i < |a| ==> a[i] != ""
    requires forall i :: 0 <= i < |b| ==> b[i] != ""
    requires forall i :: 0 <= i < |c| ==> c[i] != ""
    ensures forall i :: 0 <= i < |a + b + c| ==> (a + b + c)[i] != ""
  {
  }

  /** The string part of `IntendedBodyLists`, on the lists alone. */
  lemma IntendedBodyJoins(lines: seq<string>, pk: string, f: seq<string>)
    requires lines != []
    ensures Join(ListSep, lines) + (if IsEmpty(pk) then "" else ListSep + PrimaryKeyClause(pk)) + ((if f == [] then "" else ListSep) + Join(ListSep, f))
      == Join(ListSep, lines + KeyClauses(pk) + f)
  {
    if IsEmpty(pk) {
      assert lines + KeyClauses(pk) + f == lines + f;
      if f != [] {
        JoinAppend(ListSep, lines, f);
      } else {
        assert lines + f == lines;
      }
    } else {
      ListWithItem(ListSep, lines, PrimaryKeyClause(pk), f);
      ConcatAssoc(Join(ListSep, lines), ListSep, PrimaryKeyClause(pk));
    }
  }

  /** With a non-empty key, the intended body is the written one. */
  lemma IntendedBodyWithKey(cols: seq<(string, ColumnEntry)>, pk: string, ixs: seq<TableIndexState>, trailer: string)
    requires !IsEmpty(pk)
    ensures IntendedTableBody(cols, pk, ixs, trailer) == TableBody(cols, PrimaryKeyClause(pk), ixs, trailer)
  {
    var c, k, x := ParseColumns(cols), PrimaryKeyClause(pk), ParseIndexes(ixs, trailer);
    ConcatAssoc(c, ListSep, k);
  }

  /**
   * As intended, an empty key adds nothing, and the statement is the same
   * as the written one whenever the key is non-empty.
   */
  lemma IntendedCreateSqlSpec(s: TableSchemaState, collate: string)
    requires s.tableName.Some? && s.primaryKey.Some?
    ensures !IsEmpty(s.primaryKey.value) ==> IntendedCompileCreateSql(s, collate) == CompileCreateSql(s, collate)
    ensures s.primaryKey == Some("") && s.indexes == [] ==>
      IntendedCompileCreateSql(s, collate) == Success("CREATE TABLE " + s.tableName.value + " (" + EOL
        + ParseColumns(s.columns) + ")" + EOL + "COLLATE " + collate + " ")
  {
    var pk := s.primaryKey.value;
    if !IsEmpty(pk) {
      IntendedBodyWithKey(s.columns, pk, s.indexes, ForeignTrailer);
    }
    if pk == "" && s.indexes == [] {
      NoIndexesNoClauses(ForeignTrailer);
      var cols := ParseColumns(s.columns);
      var body := IntendedTableBody(s.columns, pk, s.indexes, ForeignTrailer);
      assert body == cols + "" + "";
      assert body == cols;
    }
  }

  /**
   * `drop( $schema )` as written: it validates the schema stored by the
   * last `build` (there is none before the first one) and then drops the
   * table its argument names.
   */
  function DropQuery(stored: Option<TableSchemaState>, arg: TableSchemaState): (r: Result<string, Fault>)
    ensures r.Success? <==> stored.Some? && SchemaFault(stored.value).None? && arg.tableName.Some?
    ensures stored.None? ==> r == Failure(NullReceiver)
    ensures r.Success? ==> r.value == "DROP TABLE IF EXISTS " + arg.tableName.value + ";"
  {
    match stored
    case None => Failure(NullReceiver)
    case Some(st) =>
      match SchemaFault(st)
      case Some(f) => Failure(f)
      case None =>
        match TableNameOf(arg)
        case Failure(e) => Failure(e)
        case Success(t) => Success(DropText(t))
  }

  function DropText(table: string): string
  {
    "DROP TABLE IF EXISTS " + table + ";"
  }

  /**
   * The argument is never validated: after building a valid schema, a
   * schema with an empty name drops "" without complaint.
   */
  lemma DropChecksStoredSchema(stored: TableSchemaState, arg: TableSchemaState)
    requires stored == TableSchemaState(Some("users"), None, [], [])
    requires arg == TableSchemaState(Some(""), None, [], [])
    ensures DropQuery(Some(stored), arg) == Success("DROP TABLE IF EXISTS ;")
    ensures SchemaFault(arg) == Some(Thrown(NoTableNameMessage))
  {
    assert !IsEmpty("users");
    assert SchemaFault(stored) == IndexesFault([]) == None;
    assert "DROP TABLE IF EXISTS " + "" + ";" == "DROP TABLE IF EXISTS ;";
  }

  /** `drop( $schema )` as evidently intended: the schema to drop is the one validated. */
  function IntendedDropQuery(s: TableSchemaState): (r: Result<string, Fault>)
    ensures r.Success? <==> SchemaFault(s).None?
    ensures r.Success? ==> !IsEmpty(s.tableName.value) && r.value == "DROP TABLE IF EXISTS " + s.tableName.value + ";"
    ensures SchemaFault(s).Some? ==> r == Failure(SchemaFault(s).value)
  {
    match SchemaFault(s)
    case Some(f) => Failure(f)
    case None => Success("DROP TABLE IF EXISTS " + s.tableName.value + ";")
  }

  /** When the stored schema is the argument and it validates, both drops issue the same statement. */
  lemma IntendedDropAgrees(s: TableSchemaState)
    ensures DropQuery(Some(s), s) == IntendedDropQuery(s)
  {
  }

  /** The body of `build` once the schema is stored: `validate_schema()`, then `compile_create_sql()`. */
  method BuildQuery(s: TableSchemaState, collate: string) returns (query: Result<string, Fault>)
    ensures query == LegacyBuild(s, collate)
  {
    var fault := ValidateSchema(s);
    if fault.Some? {
      return Failure(fault.value);
    }
    query := CompileCreateSql(s, collate);
  }

  /** The legacy builder: the schema it was last given and the connection's collation. */
  class LegacyBuilder {
    const collate: string
    var schema: TableSchema?

    /** `new DB_Delta( $wpdb )`. */
    constructor(collate: string)
      ensures this.collate == collate && schema == null
    {
      this.collate := collate;
      schema := null;
    }

    /** `build( $schema )`: stores the schema, validates it, then renders; `query` is what reaches `dbDelta`. */
    method Build(s: TableSchema) returns (query: Result<string, Fault>)
      modifies this
      ensures schema == s
      ensures query == LegacyBuild(old(s.State()), collate)
    {
      var st := s.State();
      schema := s;
      query := BuildQuery(st, collate);
    }

    /** `drop( $schema )`: `query` is what reaches `$wpdb->get_results`. */
    method Drop(s: TableSchema) returns (query: Result<string, Fault>)
      ensures query == DropQuery(if schema == null then None else Some(schema.State()), s.State())
    {
      if schema == null {
        return Failure(NullReceiver);
      }
      var stored := schema.State();
      ghost var arg := s.State();
      var fault := ValidateSchema(stored);
      assert schema.State() == stored && s.State() == arg;
      if fault.Some? {
        return Failure(fault.value);
      }
      query := match s.GetTableName()
        case Failure(e) => Failure(e)
        case Success(t) => Success(DropText(t));
    }
  }
}
