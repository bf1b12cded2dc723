/**
 * The v0.2 dbDelta builder (src/Builders/DB_Delta.php): it renders a
 * `Table_Schema` as one CREATE TABLE statement for WordPress's `dbDelta`,
 * without validating it first. The pieces are shared with the legacy builder
 * (__DB_Delta.php), whose foreign-key clause differs only by a trailing
 * newline, given here as `trailer`.
 */
module DeltaBuilder {
  import opened Wrappers
  import opened PhpStrings
  import opened PhpArrays
  import opened TableIndexModel
  import opened TableSchemaModel
  import Translator

  /**
   * `parse_type( $type, $length )`: the upper-cased type, followed by
   * `(length)` for a type that takes one when the length is not empty
   * (null and 0 are empty).
   */
  function ParseType(t: Option<string>, length: Option<int>): (r: string)
    ensures |r| >= |t.GetOr("")| && r[..|t.GetOr("")|] == Upper(t.GetOr(""))
    ensures |r| > |t.GetOr("")| <==> Upper(t.GetOr("")) in Translator.LengthTypes && length.Some? && length.value != 0
    ensures |r| > |t.GetOr("")| ==> r[|t.GetOr("")|..] == "(" + IntToString(length.value) + ")"
  {
    var u := Upper(t.GetOr(""));
    if u in Translator.LengthTypes && length.Some? && length.value != 0 then
      var suffix := "(" + IntToString(length.value) + ")";
      assert (u + suffix)[..|u|] == u && (u + suffix)[|u|..] == suffix;
      u + suffix
    else u
  }

  /**
   * The builder and the newer translator type a column alike, except for a
   * length of 0: the builder treats it as no length, the translator writes `(0)`.
   */
  lemma ParseTypeMatchesTranslator(t: string, length: Option<int>)
    ensures ParseType(Some(t), length) == Translator.TypeMapper(t, length)
      <==> !(Upper(t) in Translator.LengthTypes && length == Some(0))
  {
    var a, b := ParseType(Some(t), length), Translator.TypeMapper(t, length);
    if Upper(t) in Translator.LengthTypes && length == Some(0) {
      assert |a| == |t| < |b|;
    } else {
      assert a == a[..|t|] + a[|t|..];
      assert b == b[..|t|] + b[|t|..];
    }
  }

  const CurrentTimestamp: string := "CURRENT_TIMESTAMP"

  /** `parse_default`: `CURRENT_TIMESTAMP` is written bare, every other default single-quoted. */
  function ParseDefault(d: string): (r: string)
    ensures |r| >= 9 && r[..9] == " DEFAULT "
    ensures d == CurrentTimestamp ==> r[9..] == d
    ensures d != CurrentTimestamp ==> r[9..] == "'" + d + "'"
  {
    if d == CurrentTimestamp then " DEFAULT " + d else " DEFAULT '" + d + "'"
  }

  /** Reads the default value back out of its clause. */
  function DefaultOfClause(clause: string): string
    requires |clause| >= 9
  {
    var body := clause[9..];
    if |body| >= 2 && body[0] == '\'' && body[|body| - 1] == '\'' then body[1..|body| - 1] else body
  }

  /** The clause loses nothing: the default can be read back from it, so different defaults give different SQL. */
  lemma ParseDefaultRoundTrip(d: string)
    ensures DefaultOfClause(ParseDefault(d)) == d
  {
    if d == CurrentTimestamp {
      assert ParseDefault(d)[9..][0] == 'C';
    } else {
      var body := ParseDefault(d)[9..];
      assert body == "'" + d + "'";
      assert body[1..|body| - 1] == d;
    }
  }

  /** `$col['key']` interpolated: an absent key reads as "". */
  function KeyText(e: ColumnEntry): string
  {
    Read(e.key).GetOr("")
  }

  /** `! empty( $col['default'] )`. */
  predicate HasDefault(e: ColumnEntry)
  {
    ReadNullable(e.default).Some? && !IsEmpty(ReadNullable(e.default).value)
  }

  /** `! empty( $col['unsigned'] )` and `! empty( $col['auto_increment'] )`: only a stored `true` counts. */
  predicate IsUnsigned(e: ColumnEntry) { e.unsigned == Present(true) }
  predicate IsAutoIncrement(e: ColumnEntry) { e.autoIncrement == Present(true) }

  /** `! $col['null']`: false and an absent key both give NOT NULL. */
  predicate IsNotNull(e: ColumnEntry) { e.nullable != Present(true) }

  /** The key, the type and the default: everything before the flags. */
  function ColumnHead(e: ColumnEntry): string
  {
    KeyText(e) + " " + ParseType(Read(e.dataType), ReadNullable(e.length))
      + (if HasDefault(e) then ParseDefault(ReadNullable(e.default).value) else "")
  }

  /** The flags in the order the builder appends them. */
  function FlagsTail(unsigned: bool, notNull: bool, autoIncrement: bool): string
  {
    (if unsigned then " UNSIGNED" else "")
      + (if notNull then " NOT NULL" else "")
      + (if autoIncrement then " AUTO_INCREMENT" else "")
  }

  /** The flags can be read back from the tail: its length and its second character determine them. */
  lemma FlagsTailDecode(u: bool, n: bool, a: bool)
    ensures var t := FlagsTail(u, n, a);
      && a == (|t| % 9 != 0)
      && u == (|t| >= 2 && t[1] == 'U')
      && n == (|t| - (if a then 15 else 0) - (if u then 9 else 0) == 9)
  {
  }

  /** Each combination of flags is written differently. */
  lemma FlagsTailInjective(u1: bool, n1: bool, a1: bool, u2: bool, n2: bool, a2: bool)
    requires FlagsTail(u1, n1, a1) == FlagsTail(u2, n2, a2)
    ensures u1 == u2 && n1 == n2 && a1 == a2
  {
    FlagsTailDecode(u1, n1, a1);
    FlagsTailDecode(u2, n2, a2);
  }

  /** One column's definition in `parse_columns`. */
  function ColumnLine(e: ColumnEntry): (r: string)
  {
    ColumnHead(e) + FlagsTail(IsUnsigned(e), IsNotNull(e), IsAutoIncrement(e))
  }

  /** Two columns with the same key, type and default render alike only if their flags agree. */
  lemma ColumnLineFlags(a: ColumnEntry, b: ColumnEntry)
    requires ColumnHead(a) == ColumnHead(b) && ColumnLine(a) == ColumnLine(b)
    ensures IsUnsigned(a) == IsUnsigned(b) && IsNotNull(a) == IsNotNull(b) && IsAutoIncrement(a) == IsAutoIncrement(b)
  {
    var h := ColumnHead(a);
    assert FlagsTail(IsUnsigned(a), IsNotNull(a), IsAutoIncrement(a)) == ColumnLine(a)[|h|..];
    assert FlagsTail(IsUnsigned(b), IsNotNull(b), IsAutoIncrement(b)) == ColumnLine(b)[|h|..];
    FlagsTailInjective(IsUnsigned(a), IsNotNull(a), IsAutoIncrement(a), IsUnsigned(b), IsNotNull(b), IsAutoIncrement(b));
  }

  /**
   * A column declared with `column( $key )` and a type word is NOT NULL and
   * has no length, default or other flag until a setter says otherwise.
   */
  lemma DeclaredColumnLine(key: string, t: string)
    ensures ColumnLine(NewEntry(key).(dataType := Present(t))) == key + " " + Upper(t) + " NOT NULL"
  {
  }

  /** The `",\n"` that separates columns and index clauses. */
  const ListSep: string := "," + EOL

  /** `parse_columns`' lines, one per column in array order. */
  function ColumnLines(cols: seq<(string, ColumnEntry)>): (r: seq<string>)
    ensures |r| == |cols|
    ensures forall i :: 0 <= i < |cols| ==> r[i] == ColumnLine(cols[i].1)
  {
    seq(|cols|, i requires 0 <= i < |cols| => ColumnLine(cols[i].1))
  }

  /** `parse_columns()`. */
  function ParseColumns(cols: seq<(string, ColumnEntry)>): string
  {
    Join(ListSep, ColumnLines(cols))
  }

  /** `$index->keyname` interpolated or used as an array key: null reads as "". */
  function KeynameText(ix: TableIndexState): string
  {
    ix.keyname.GetOr("")
  }

  /** `compile_indexes()`'s two buckets: foreign indexes by reference table then keyname, simple ones by keyname. */
  datatype Compiled = Compiled(
    foreign: seq<(string, seq<(string, TableIndexState)>)>,
    simple: seq<(string, TableIndexState)>)

  /** One step of the `array_reduce` in `compile_indexes`. */
  function AddIndex(c: Compiled, ix: TableIndexState): Compiled
  {
    if ix.foreignKey then
      var rt := ix.referenceTable.GetOr("");
      c.(foreign := Put(c.foreign, rt, Put(Get(c.foreign, rt).GetOr([]), KeynameText(ix), ix)))
    else
      c.(simple := Put(c.simple, KeynameText(ix), ix))
  }

  /** `compile_indexes()`. */
  function CompileIndexes(ixs: seq<TableIndexState>): Compiled
    decreases |ixs|
  {
    if ixs == [] then Compiled([], [])
    else AddIndex(CompileIndexes(ixs[..|ixs| - 1]), ixs[|ixs| - 1])
  }

  /** Reference definition of the simple bucket: the last simple index filed under keyname `k`. */
  function LastSimple(ixs: seq<TableIndexState>, k: string): Option<TableIndexState>
    decreases |ixs|
  {
    if ixs == [] then None
    else if !ixs[|ixs| - 1].foreignKey && KeynameText(ixs[|ixs| - 1]) == k then Some(ixs[|ixs| - 1])
    else LastSimple(ixs[..|ixs| - 1], k)
  }

  /**
   * The simple bucket keeps, for each keyname, the last simple index that
   * has it: later indexes with the same keyname silently replace earlier ones.
   */
  lemma {:induction false} SimpleBucketKeepsLast(ixs: seq<TableIndexState>, k: string)
    ensures DistinctKeys(CompileIndexes(ixs).simple)
    ensures Get(CompileIndexes(ixs).simple, k) == LastSimple(ixs, k)
    decreases |ixs|
  {
    if ixs != [] {
      var init := ixs[..|ixs| - 1];
      var ix := ixs[|ixs| - 1];
      SimpleBucketKeepsLast(init, k);
      var s := CompileIndexes(init).simple;
      if !ix.foreignKey {
        PutKeys(s, KeynameText(ix), ix);
        GetAfterPut(s, KeynameText(ix), ix, k);
      }
    }
  }

  /**
   * As the index constructor is written, no index has a keyname, so all
   * simple indexes share the key "" and at most one of them reaches the SQL.
   */
  lemma {:induction false} NoKeynamesOneSimpleIndex(ixs: seq<TableIndexState>)
    requires forall i :: 0 <= i < |ixs| ==> ixs[i].keyname.None?
    ensures |CompileIndexes(ixs).simple| <= 1
    ensures |CompileIndexes(ixs).simple| == 1 ==> CompileIndexes(ixs).simple[0].0 == ""
    decreases |ixs|
  {
    if ixs != [] {
      var init := ixs[..|ixs| - 1];
      NoKeynamesOneSimpleIndex(init);
      var s := CompileIndexes(init).simple;
      var ix := ixs[|ixs| - 1];
      if !ix.foreignKey {
        if s != [] {
          assert Keys(s)[0] == "";
        }
      }
    }
  }

  /** `"{$unique}INDEX {$index->keyname} ({$index->column}){$hash}"`. */
  function SimpleClause(ix: TableIndexState): (r: string)
    ensures |r| >= 6
  {
    (if ix.unique then "UNIQUE " else "") + "INDEX " + KeynameText(ix) + " (" + CellText(ix.column) + ")"
      + (if ix.hash then " USING HASH" else "")
  }

  /** `index_local_table( $table, 'column' )`. */
  function LocalColumns(g: seq<(string, TableIndexState)>): string
  {
    Join(", ", seq(|g|, i requires 0 <= i < |g| => CellText(g[i].1.column)))
  }

  /** `index_local_table( $table, 'reference_column' )`. */
  function ReferenceColumns(g: seq<(string, TableIndexState)>): string
  {
    Join(", ", seq(|g|, i requires 0 <= i < |g| => CellText(g[i].1.referenceColumn)))
  }

  /** The first value PHP does not consider empty, as the `foreach ... break` loops find it. */
  function FirstNonEmpty(xs: seq<string>): Option<string>
    decreases |xs|
  {
    if xs == [] then None
    else if !IsEmpty(xs[0]) then Some(xs[0])
    else FirstNonEmpty(xs[1..])
  }

  /** The value found is non-empty and every earlier one is empty; nothing is found only when all are empty. */
  lemma {:induction false} FirstNonEmptySpec(xs: seq<string>)
    ensures FirstNonEmpty(xs).None? <==> forall i :: 0 <= i < |xs| ==> IsEmpty(xs[i])
    ensures FirstNonEmpty(xs).Some? ==>
      (exists i :: 0 <= i < |xs| && xs[i] == FirstNonEmpty(xs).value && !IsEmpty(xs[i])
         && forall j :: 0 <= j < i ==> IsEmpty(xs[j]))
    decreases |xs|
  {
    if xs != [] && IsEmpty(xs[0]) {
      FirstNonEmptySpec(xs[1..]);
      if FirstNonEmpty(xs[1..]).Some? {
        var i :| 0 <= i < |xs[1..]| && xs[1..][i] == FirstNonEmpty(xs[1..]).value
          && !IsEmpty(xs[1..][i]) && forall j :: 0 <= j < i ==> IsEmpty(xs[1..][j]);
        assert xs[i + 1] == xs[1..][i];
        assert forall j :: 0 <= j < i + 1 ==> IsEmpty(xs[j]) by {
          forall j | 0 <= j < i + 1 ensures IsEmpty(xs[j]) {
            if j > 0 { assert xs[j] == xs[1..][j - 1]; }
          }
        }
      } else {
        forall i | 0 <= i < |xs| ensures IsEmpty(xs[i]) {
          if i > 0 { assert xs[i] == xs[1..][i - 1]; }
        }
      }
    } else if xs != [] {
      assert !IsEmpty(xs[0]);
    }
  }

  function OnUpdates(g: seq<(string, TableIndexState)>): seq<string>
  {
    seq(|g|, i requires 0 <= i < |g| => g[i].1.onUpdate)
  }

  function OnDeletes(g: seq<(string, TableIndexState)>): seq<string>
  {
    seq(|g|, i requires 0 <= i < |g| => g[i].1.onDelete)
  }

  /** `' ' . $action` for the first non-empty action, if any. */
  function ActionSuffix(xs: seq<string>): string
  {
    match FirstNonEmpty(xs)
    case None => ""
    case Some(a) => " " + a
  }

  /**
   * `compile_foreign_key_query( $table )` for one reference table's group:
   * local columns, the first index's reference table, reference columns,
   * then the first non-empty ON UPDATE and ON DELETE.
   */
  function ForeignKeyQuery(g: seq<(string, TableIndexState)>, trailer: string): (r: string)
    requires g != []
    ensures |r| >= 13
  {
    ForeignKeyHead(g) + ActionSuffix(OnUpdates(g)) + ActionSuffix(OnDeletes(g)) + trailer
  }

  /** The clause up to the actions; the reference table is the first index's. */
  function ForeignKeyHead(g: seq<(string, TableIndexState)>): (r: string)
    requires g != []
    ensures |r| >= 13
  {
    "FOREIGN KEY (" + LocalColumns(g) + ")" + EOL + "REFERENCES " + g[0].1.referenceTable.GetOr("")
      + "(" + ReferenceColumns(g) + ")"
  }

  /** `"INDEX ({$this->index_local_table( $table, 'column' )})"`. */
  function IndexClause(g: seq<(string, TableIndexState)>): (r: string)
    ensures |r| >= 7
  {
    "INDEX (" + LocalColumns(g) + ")"
  }

  /** `compile_foreign_key_query` with its two `foreach ... break` loops. */
  method CompileForeignKeyQuery(g: seq<(string, TableIndexState)>, trailer: string) returns (query: string)
    requires g != []
    ensures query == ForeignKeyQuery(g, trailer)
  {
    query := ForeignKeyHead(g);
    query := AppendFirstAction(query, OnUpdates(g));
    query := AppendFirstAction(query, OnDeletes(g));
    query := query + trailer;
  }

  /** One `foreach ( $table as $value ) { if ( ! empty( ... ) ) { $query .= ' ' . ...; break; } }` loop. */
  method AppendFirstAction(head: string, actions: seq<string>) returns (query: string)
    ensures query == head + ActionSuffix(actions)
  {
    query := head;
    var i := 0;
    while i < |actions|
      invariant 0 <= i <= |actions|
      invariant query == head
      invariant FirstNonEmpty(actions) == FirstNonEmpty(actions[i..])
    {
      assert actions[i..][0] == actions[i] && actions[i..][1..] == actions[i + 1..];
      if !IsEmpty(actions[i]) {
        query := query + " " + actions[i];
        return;
      }
      i := i + 1;
    }
    assert actions[i..] == [];
  }

  /** The `index` and `key` entries one reference table's group writes into the reduce's carry. */
  function GroupCarry(g: seq<(string, TableIndexState)>, trailer: string): (Cell, Cell)
    requires g != []
  {
    (Str(IndexClause(g)), Str(ForeignKeyQuery(g, trailer)))
  }

  /** Every group of the foreign bucket holds at least one index. */
  predicate GroupsNonEmpty(groups: seq<(string, seq<(string, TableIndexState)>)>)
  {
    forall i :: 0 <= i < |groups| ==> groups[i].1 != []
  }

  /** The `array_reduce` in `parseForeignTableQuery`: each group overwrites the carry. */
  function ReduceGroups(carry: (Cell, Cell), groups: seq<(string, seq<(string, TableIndexState)>)>, trailer: string): (Cell, Cell)
    requires GroupsNonEmpty(groups)
    decreases |groups|
  {
    if groups == [] then carry
    else ReduceGroups(GroupCarry(groups[0].1, trailer), groups[1..], trailer)
  }

  /**
   * Only the last reference table's group survives the reduce: every other
   * table's INDEX and FOREIGN KEY clause is dropped.
   */
  lemma {:induction false} ForeignOnlyLastGroup(carry: (Cell, Cell), groups: seq<(string, seq<(string, TableIndexState)>)>, trailer: string)
    requires GroupsNonEmpty(groups) && groups != []
    ensures ReduceGroups(carry, groups, trailer) == GroupCarry(groups[|groups| - 1].1, trailer)
    decreases |groups|
  {
    if |groups| > 1 {
      ForeignOnlyLastGroup(GroupCarry(groups[0].1, trailer), groups[1..], trailer);
    }
  }

  /** The foreign bucket never holds an empty group. */
  lemma {:induction false} CompiledGroupsNonEmpty(ixs: seq<TableIndexState>)
    ensures GroupsNonEmpty(CompileIndexes(ixs).foreign)
    decreases |ixs|
  {
    if ixs != [] {
      var init := ixs[..|ixs| - 1];
      CompiledGroupsNonEmpty(init);
      var ix := ixs[|ixs| - 1];
      if ix.foreignKey {
        var f := CompileIndexes(init).foreign;
        var rt := ix.referenceTable.GetOr("");
        var inner := Put(Get(f, rt).GetOr([]), KeynameText(ix), ix);
        PutKeys(Get(f, rt).GetOr([]), KeynameText(ix), ix);
        assert inner != [] by { assert |Keys(inner)| > 0; }
        var f2 := Put(f, rt, inner);
        forall i | 0 <= i < |f2| ensures f2[i].1 != [] {
          if rt in Keys(f) && i == IndexOf(f, rt) {
          } else if rt !in Keys(f) && i == |f| {
          } else {
            assert f2[i] == f[i];
          }
        }
      }
    }
  }

  /** `parseForeignTableQuery( $is_foreign )`: the `index` and `key` entries, empty arrays when there is no group. */
  function ForeignEntries(groups: seq<(string, seq<(string, TableIndexState)>)>, trailer: string): (r: seq<(Key, Cell)>)
    requires GroupsNonEmpty(groups)
  {
    var c := ReduceGroups((EmptyArray, EmptyArray), groups, trailer);
    [(Name("index"), c.0), (Name("key"), c.1)]
  }

  /** The simple bucket after `array_map`: the clause under each keyname. */
  function SimpleEntries(simple: seq<(string, TableIndexState)>): (r: seq<(Key, Cell)>)
    ensures |r| == |simple|
    ensures forall i :: 0 <= i < |simple| ==> r[i] == (Name(simple[i].0), Str(SimpleClause(simple[i].1)))
  {
    seq(|simple|, i requires 0 <= i < |simple| => (Name(simple[i].0), Str(SimpleClause(simple[i].1))))
  }

  function SimpleClauses(simple: seq<(string, TableIndexState)>): (r: seq<string>)
    ensures |r| == |simple|
    ensures forall i :: 0 <= i < |simple| ==> r[i] == SimpleClause(simple[i].1)
  {
    seq(|simple|, i requires 0 <= i < |simple| => SimpleClause(simple[i].1))
  }

  /** `array_filter( ..., ! empty )` followed by the string values `implode` sees. */
  function NonEmptyTexts(cells: seq<Cell>): seq<string>
    decreases |cells|
  {
    if cells == [] then []
    else (if CellEmpty(cells[0]) then [] else [CellText(cells[0])]) + NonEmptyTexts(cells[1..])
  }

  lemma {:induction false} NonEmptyTextsAppend(a: seq<Cell>, b: seq<Cell>)
    ensures NonEmptyTexts(a + b) == NonEmptyTexts(a) + NonEmptyTexts(b)
    decreases |a|
  {
    if a != [] {
      var h := if CellEmpty(a[0]) then [] else [CellText(a[0])];
      assert (a + b)[0] == a[0] && (a + b)[1..] == a[1..] + b;
      assert NonEmptyTexts(a + b) == h + NonEmptyTexts(a[1..] + b);
      NonEmptyTextsAppend(a[1..], b);
      assert NonEmptyTexts(a) == h + NonEmptyTexts(a[1..]);
    } else {
      assert a + b == b;
    }
  }

  /** Filtering keeps cells that are all non-empty strings, in order. */
  lemma {:induction false} NonEmptyTextsKeepsStrings(cells: seq<Cell>, texts: seq<string>)
    requires |cells| == |texts|
    requires forall i :: 0 <= i < |cells| ==> cells[i] == Str(texts[i]) && !IsEmpty(texts[i])
    ensures NonEmptyTexts(cells) == texts
    decreases |cells|
  {
    if cells != [] {
      NonEmptyTextsKeepsStrings(cells[1..], texts[1..]);
    }
  }

  /** The formatted, filtered index clauses of `parse_indexes`. */
  function Formatted(ixs: seq<TableIndexState>, trailer: string): seq<string>
  {
    var c := CompileIndexes(ixs);
    CompiledGroupsNonEmpty(ixs);
    NonEmptyTexts(Values(ArrayMerge(SimpleEntries(c.simple), ForeignEntries(c.foreign, trailer))))
  }

  /** `parse_indexes()`: nothing when no clause is left, otherwise each clause after `",\n"`. */
  function ParseIndexes(ixs: seq<TableIndexState>, trailer: string): string
  {
    var f := Formatted(ixs, trailer);
    (if f == [] then "" else ListSep) + Join(ListSep, f)
  }

  /** No simple index is filed under a keyname that `array_merge` would overwrite with the foreign entries. */
  predicate NoReservedKeynames(ixs: seq<TableIndexState>)
  {
    forall i :: 0 <= i < |ixs| && !ixs[i].foreignKey ==> KeynameText(ixs[i]) != "index" && KeynameText(ixs[i]) != "key"
  }

  /** Every key of the simple bucket comes from a simple index. */
  lemma {:induction false} SimpleKeysFromIndexes(ixs: seq<TableIndexState>, k: string)
    requires k in Keys(CompileIndexes(ixs).simple)
    ensures exists i :: 0 <= i < |ixs| && !ixs[i].foreignKey && KeynameText(ixs[i]) == k
    decreases |ixs|
  {
    var init := ixs[..|ixs| - 1];
    var ix := ixs[|ixs| - 1];
    var s := CompileIndexes(init).simple;
    if !ix.foreignKey {
      PutKeys(s, KeynameText(ix), ix);
    }
    if k in Keys(s) {
      SimpleKeysFromIndexes(init, k);
      var i :| 0 <= i < |init| && !init[i].foreignKey && KeynameText(init[i]) == k;
      assert ixs[i] == init[i];
    }
  }

  /**
   * With no simple index under a reserved keyname, the clauses are the
   * simple bucket's, in order, then, when any foreign index exists, the
   * INDEX and FOREIGN KEY clauses of the last reference table.
   */
  lemma ParseIndexesLists(ixs: seq<TableIndexState>, trailer: string)
    requires NoReservedKeynames(ixs)
    ensures var c := CompileIndexes(ixs);
      GroupsNonEmpty(c.foreign) && Formatted(ixs, trailer) == SimpleClauses(c.simple) + LastGroupClauses(c.foreign, trailer)
  {
    var c := CompileIndexes(ixs);
    CompiledGroupsNonEmpty(ixs);
    var se := SimpleEntries(c.simple);
    var fe := ForeignEntries(c.foreign, trailer);
    SimpleThenForeign(ixs, trailer);
    var merged := Values(ArrayMerge(se, fe));
    assert Formatted(ixs, trailer) == NonEmptyTexts(merged);
    NonEmptyTextsAppend(Values(se), Values(fe));
    NonEmptyTextsKeepsStrings(Values(se), SimpleClauses(c.simple));
    ForeignTexts(c.foreign, trailer);
  }

  /** The clauses the last reference table's group contributes, if there is one. */
  function LastGroupClauses(groups: seq<(string, seq<(string, TableIndexState)>)>, trailer: string): seq<string>
    requires GroupsNonEmpty(groups)
  {
    if groups == [] then []
    else
      var g := groups[|groups| - 1].1;
      [IndexClause(g), ForeignKeyQuery(g, trailer)]
  }

  /** After filtering, the foreign entries are the last group's two clauses, or nothing. */
  lemma ForeignTexts(groups: seq<(string, seq<(string, TableIndexState)>)>, trailer: string)
    requires GroupsNonEmpty(groups)
    ensures NonEmptyTexts(Values(ForeignEntries(groups, trailer))) == LastGroupClauses(groups, trailer)
  {
    var v := Values(ForeignEntries(groups, trailer));
    if groups != [] {
      ForeignOnlyLastGroup((EmptyArray, EmptyArray), groups, trailer);
      NonEmptyTextsKeepsStrings(v, LastGroupClauses(groups, trailer));
    } else {
      assert v == [EmptyArray, EmptyArray];
      assert v[1..][1..] == [];
      assert NonEmptyTexts(v[1..]) == [];
    }
  }

  /** Without a reserved keyname, `array_merge` keeps every simple clause and appends the two foreign entries. */
  lemma SimpleThenForeign(ixs: seq<TableIndexState>, trailer: string)
    requires NoReservedKeynames(ixs)
    ensures var c := CompileIndexes(ixs);
      GroupsNonEmpty(c.foreign)
        && Values(ArrayMerge(SimpleEntries(c.simple), ForeignEntries(c.foreign, trailer)))
           == Values(SimpleEntries(c.simple)) + Values(ForeignEntries(c.foreign, trailer))
  {
    var c := CompileIndexes(ixs);
    CompiledGroupsNonEmpty(ixs);
    SimpleBucketKeepsLast(ixs, "");
    forall i | 0 <= i < |c.simple| ensures c.simple[i].0 != "index" && c.simple[i].0 != "key" {
      assert Keys(c.simple)[i] == c.simple[i].0;
      SimpleKeysFromIndexes(ixs, c.simple[i].0);
    }
    MergeSimpleThenForeign(c.simple, ForeignEntries(c.foreign, trailer));
  }

  /** `array_merge` of the simple clauses and two entries under keys no simple index uses. */
  lemma MergeSimpleThenForeign(simple: seq<(string, TableIndexState)>, fe: seq<(Key, Cell)>)
    requires DistinctKeys(simple)
    requires forall i :: 0 <= i < |simple| ==> simple[i].0 != "index" && simple[i].0 != "key"
    requires |fe| == 2 && fe[0].0 == Name("index") && fe[1].0 == Name("key")
    ensures Values(ArrayMerge(SimpleEntries(simple), fe)) == Values(SimpleEntries(simple)) + Values(fe)
  {
    var se := SimpleEntries(simple);
    SimpleEntriesDistinct(simple);
    NotASimpleKey(simple, "index");
    NotASimpleKey(simple, "key");
    MergedNamesAvoid(se, fe);
    ArrayMergeValues(se, fe);
  }

  /** Distinct keynames give distinct string keys. */
  lemma SimpleEntriesDistinct(simple: seq<(string, TableIndexState)>)
    requires DistinctKeys(simple)
    ensures NameKeysDistinct(SimpleEntries(simple))
  {
    var se := SimpleEntries(simple);
    forall i, j | 0 <= i < j < |se| ensures se[i].0 != se[j].0 {
      assert simple[i].0 != simple[j].0;
    }
  }

  /** A keyname no simple index uses is not among the simple entries' keys. */
  lemma NotASimpleKey(simple: seq<(string, TableIndexState)>, name: string)
    requires forall i :: 0 <= i < |simple| ==> simple[i].0 != name
    ensures Name(name) !in Keys(SimpleEntries(simple))
  {
    var se := SimpleEntries(simple);
    forall p | 0 <= p < |se| ensures Keys(se)[p] != Name(name) {
      assert Keys(se)[p] == Name(simple[p].0);
    }
  }

  /** The corrected foreign part: the INDEX and FOREIGN KEY clauses of every reference table, in order. */
  function IntendedForeignClauses(groups: seq<(string, seq<(string, TableIndexState)>)>, trailer: string): (r: seq<string>)
    requires GroupsNonEmpty(groups)
    ensures |r| == 2 * |groups|
    decreases |groups|
  {
    if groups == [] then []
    else
      [IndexClause(groups[0].1), ForeignKeyQuery(groups[0].1, trailer)]
        + IntendedForeignClauses(groups[1..], trailer)
  }

  /** Each reference table gets its own pair of clauses. */
  lemma {:induction false} IntendedForeignClausesAll(groups: seq<(string, seq<(string, TableIndexState)>)>, trailer: string)
    requires GroupsNonEmpty(groups)
    ensures |IntendedForeignClauses(groups, trailer)| == 2 * |groups|
    ensures forall i :: 0 <= i < |groups| ==>
      IntendedForeignClauses(groups, trailer)[2 * i] == IndexClause(groups[i].1)
      && IntendedForeignClauses(groups, trailer)[2 * i + 1] == ForeignKeyQuery(groups[i].1, trailer)
    decreases |groups|
  {
    if groups != [] {
      IntendedForeignClausesAll(groups[1..], trailer);
      var head := [IndexClause(groups[0].1), ForeignKeyQuery(groups[0].1, trailer)];
      var tail := IntendedForeignClauses(groups[1..], trailer);
      assert IntendedForeignClauses(groups, trailer) == head + tail;
      forall i | 0 <= i < |groups|
        ensures (head + tail)[2 * i] == IndexClause(groups[i].1)
        ensures (head + tail)[2 * i + 1] == ForeignKeyQuery(groups[i].1, trailer)
      {
        if i > 0 {
          assert groups[1..][i - 1] == groups[i];
          PairAt(head, tail, i);
        }
      }
    }
  }

  /** Past a leading pair, the `i`-th pair of a list is the `i - 1`-th pair of its tail. */
  lemma PairAt(head: seq<string>, tail: seq<string>, i: int)
    requires |head| == 2 && 1 <= i && 2 * i + 1 < |head + tail|
    ensures (head + tail)[2 * i] == tail[2 * (i - 1)] && (head + tail)[2 * i + 1] == tail[2 * (i - 1) + 1]
  {
  }

  /** Two foreign keys on different tables: the written builder keeps one, the corrected part keeps both. */
  lemma TwoReferenceTables(a: seq<(string, TableIndexState)>, b: seq<(string, TableIndexState)>, trailer: string)
    requires a != [] && b != []
    ensures GroupsNonEmpty([("a", a), ("b", b)])
    ensures |IntendedForeignClauses([("a", a), ("b", b)], trailer)| == 4
    ensures ReduceGroups((EmptyArray, EmptyArray), [("a", a), ("b", b)], trailer) == GroupCarry(b, trailer)
    ensures IntendedForeignClauses([("a", a), ("b", b)], trailer)[1] == ForeignKeyQuery(a, trailer)
    ensures IntendedForeignClauses([("a", a), ("b", b)], trailer)[3] == ForeignKeyQuery(b, trailer)
  {
    var groups := [("a", a), ("b", b)];
    ForeignOnlyLastGroup((EmptyArray, EmptyArray), groups, trailer);
    IntendedForeignClausesAll(groups, trailer);
  }

  /** The CREATE TABLE statement `render()` hands to `dbDelta`; the getters' string return types reject an unset name or key. */
  function CreateQuery(s: TableSchemaState, collate: string): (r: Result<string, Fault>)
    ensures r.Success? <==> s.tableName.Some? && s.primaryKey.Some?
    ensures r.Failure? ==> r.error == TypeError
  {
    match TableNameOf(s)
    case Failure(e) => Failure(e)
    case Success(t) =>
      match PrimaryKeyOf(s)
      case Failure(e) => Failure(e)
      case Success(pk) =>
        Success("CREATE TABLE " + t + " (" + EOL + TableBody(s.columns, PrimaryKeyClause(pk), s.indexes, "")
          + ")" + EOL + "COLLATE " + collate + " ")
  }

  function PrimaryKeyClause(pk: string): string
  {
    "PRIMARY KEY  (" + pk + ")"
  }

  /** What stands between the parentheses: the columns, a comma and newline, the key clause, the indexes. */
  function TableBody(cols: seq<(string, ColumnEntry)>, keyClause: string, ixs: seq<TableIndexState>, trailer: string): string
  {
    ParseColumns(cols) + ListSep + keyClause + ParseIndexes(ixs, trailer)
  }

  /**
   * The body is one comma-and-newline separated list: every column's line,
   * the key clause, then every index clause.
   */
  lemma TableBodyLists(cols: seq<(string, ColumnEntry)>, keyClause: string, ixs: seq<TableIndexState>, trailer: string)
    requires cols != []
    ensures TableBody(cols, keyClause, ixs, trailer) == Join(ListSep, ColumnLines(cols) + [keyClause] + Formatted(ixs, trailer))
  {
    var sep := ListSep;
    var f := Formatted(ixs, trailer);
    var indexes := ParseIndexes(ixs, trailer);
    assert indexes == (if f == [] then "" else sep) + Join(sep, f);
    ListWithItem(sep, ColumnLines(cols), keyClause, f);
    assert TableBody(cols, keyClause, ixs, trailer) == Join(sep, ColumnLines(cols)) + sep + keyClause + indexes;
  }

  /** Joining `lines`, then `k`, then `more` as one list. */
  lemma ListWithItem(sep: string, lines: seq<string>, k: string, more: seq<string>)
    requires lines != []
    ensures Join(sep, lines) + sep + k + ((if more == [] then "" else sep) + Join(sep, more)) == Join(sep, lines + [k] + more)
  {
    JoinSnoc(sep, lines, k);
    if more != [] {
      JoinAppend(sep, lines + [k], more);
    } else {
      assert lines + [k] + more == lines + [k];
    }
  }

  /**
   * Between the parentheses the statement is one comma-and-newline separated
   * list: every column's line, the primary key, then every index clause.
   */
  lemma CreateQueryLists(s: TableSchemaState, collate: string)
    requires s.tableName.Some? && s.primaryKey.Some? && s.columns != []
    ensures CreateQuery(s, collate).value == "CREATE TABLE " + s.tableName.value + " (" + EOL
      + Join(ListSep, ColumnLines(s.columns) + [PrimaryKeyClause(s.primaryKey.value)] + Formatted(s.indexes, ""))
      + ")" + EOL + "COLLATE " + collate + " "
  {
    TableBodyLists(s.columns, PrimaryKeyClause(s.primaryKey.value), s.indexes, "");
  }

  /** The builder: the schema it was last given and the connection's collation. */
  class Builder {
    const collate: string
    var schema: TableSchema?

    /** `new DB_Delta( $wpdb )`: only the collation of the connection is kept. */
    constructor(collate: string)
      ensures this.collate == collate && schema == null
    {
      this.collate := collate;
      schema := null;
    }

    /** `build( $schema )`: keeps the schema and renders it; `query` is what reaches `dbDelta`. */
    method Build(s: TableSchema) returns (query: Result<string, Fault>)
      modifies this
      ensures schema == s
      ensures query == CreateQuery(s.State(), collate)
    {
      schema := s;
      query := Render();
    }

    /** `render()`. */
    method Render() returns (query: Result<string, Fault>)
      requires schema != null
      ensures query == CreateQuery(schema.State(), collate)
    {
      query := CreateQuery(schema.State(), collate);
    }
  }

  /** `Table_Schema::create_table( $table_builder )`: hands the schema to the builder. */
  method CreateTable(schema: TableSchema, builder: Builder) returns (query: Result<string, Fault>)
    modifies builder
    ensures builder.schema == schema
    ensures query == CreateQuery(schema.State(), builder.collate)
  {
    query := builder.Build(schema);
  }
}
