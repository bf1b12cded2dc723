/**
 * A table definition (src/Schema.php): a table name and the columns a
 * configure callback declares on it. Columns are kept in a PHP array keyed by
 * name, so declaring a name a second time replaces the stored Column with a
 * new, blank one at the position the name already had.
 */
module SchemaModel {
  import opened Wrappers
  import opened PhpArrays
  import opened ColumnModel
  import opened IndexModel
  import opened ForeignKeyModel

  datatype SchemaState = SchemaState(
    tableName: string,
    columns: seq<(string, ColumnState)>,
    indexes: seq<IndexState>,
    foreignKeys: seq<ForeignKeyState>)

  /**
   * One statement of the configure callback: `$schema->column( name )`
   * followed by a chain of calls on the Column it returns.
   */
  datatype Declaration = Declaration(name: string, chain: seq<ColumnCall>)

  /** The column array after the callback's declarations, run in order. */
  function DeclareAll(cols: seq<(string, ColumnState)>, decls: seq<Declaration>): seq<(string, ColumnState)>
    decreases |decls|
  {
    if decls == [] then cols
    else DeclareAll(Put(cols, decls[0].name, AfterAll(Blank(decls[0].name), decls[0].chain)), decls[1..])
  }

  /** The schema a constructor call leaves behind. */
  function Configured(tableName: string, decls: seq<Declaration>): SchemaState
  {
    SchemaState(tableName, DeclareAll([], decls), [], [])
  }

  /** Names in order of first appearance, each once, after those already `seen`. */
  function FirstSeen(seen: seq<string>, names: seq<string>): seq<string>
    decreases |names|
  {
    if names == [] then seen
    else FirstSeen(if names[0] in seen then seen else seen + [names[0]], names[1..])
  }

  function Names(decls: seq<Declaration>): (r: seq<string>)
    ensures |r| == |decls|
    ensures forall i :: 0 <= i < |decls| ==> r[i] == decls[i].name
  {
    seq(|decls|, i requires 0 <= i < |decls| => decls[i].name)
  }

  /** The chain of the last declaration of `name`, if it is declared at all. */
  function LastChain(decls: seq<Declaration>, name: string): Option<seq<ColumnCall>>
    decreases |decls|
  {
    if decls == [] then None
    else
      var later := LastChain(decls[1..], name);
      if later.Some? then later
      else if decls[0].name == name then Some(decls[0].chain)
      else None
  }

  /** A name has a last declaration exactly when it is declared. */
  lemma {:induction false} LastChainFound(decls: seq<Declaration>, name: string)
    ensures LastChain(decls, name).Some? <==> name in Names(decls)
    decreases |decls|
  {
    if decls != [] {
      LastChainFound(decls[1..], name);
      assert Names(decls) == [decls[0].name] + Names(decls[1..]);
    }
  }

  /**
   * Columns are listed in the order their names were first declared, each
   * name once: re-declaring a name never moves it and never duplicates it.
   */
  lemma {:induction false} DeclaredKeys(cols: seq<(string, ColumnState)>, decls: seq<Declaration>)
    ensures Keys(DeclareAll(cols, decls)) == FirstSeen(Keys(cols), Names(decls))
    decreases |decls|
  {
    if decls != [] {
      var d := decls[0];
      var next := Put(cols, d.name, AfterAll(Blank(d.name), d.chain));
      PutKeys(cols, d.name, AfterAll(Blank(d.name), d.chain));
      DeclaredKeys(next, decls[1..]);
      assert Names(decls)[1..] == Names(decls[1..]);
    }
  }

  /** `FirstSeen` keeps distinct names distinct and holds exactly the names it was given. */
  lemma {:induction false} FirstSeenSpec(seen: seq<string>, names: seq<string>)
    requires forall i, j :: 0 <= i < j < |seen| ==> seen[i] != seen[j]
    ensures forall i, j :: 0 <= i < j < |FirstSeen(seen, names)| ==> FirstSeen(seen, names)[i] != FirstSeen(seen, names)[j]
    ensures forall x :: x in FirstSeen(seen, names) <==> x in seen || x in names
    decreases |names|
  {
    if names != [] {
      var next := if names[0] in seen then seen else seen + [names[0]];
      if names[0] !in seen {
        AppendFresh(seen, names[0]);
      }
      FirstSeenSpec(next, names[1..]);
      assert names == [names[0]] + names[1..];
    }
  }

  /** Appending a name not yet seen keeps the names distinct. */
  lemma AppendFresh(seen: seq<string>, x: string)
    requires forall i, j :: 0 <= i < j < |seen| ==> seen[i] != seen[j]
    requires x !in seen
    ensures forall i, j :: 0 <= i < j < |seen + [x]| ==> (seen + [x])[i] != (seen + [x])[j]
  {
  }

  /**
   * Each declared column ends up with the attributes its LAST declaration's
   * chain gave a blank column; earlier chains for the same name are lost.
   */
  lemma {:induction false} DeclaredState(cols: seq<(string, ColumnState)>, decls: seq<Declaration>, name: string)
    requires DistinctKeys(cols)
    ensures DistinctKeys(DeclareAll(cols, decls))
    ensures Get(DeclareAll(cols, decls), name) ==
      if LastChain(decls, name).Some? then Some(AfterAll(Blank(name), LastChain(decls, name).value))
      else Get(cols, name)
    decreases |decls|
  {
    if decls != [] {
      var d := decls[0];
      var v := AfterAll(Blank(d.name), d.chain);
      var next := Put(cols, d.name, v);
      PutKeys(cols, d.name, v);
      GetAfterPut(cols, d.name, v, name);
      DeclaredState(next, decls[1..], name);
    }
  }

  /** The schema a callback builds: one column per distinct name, carrying its last declaration. */
  lemma ConfiguredColumns(tableName: string, decls: seq<Declaration>, name: string)
    ensures Keys(Configured(tableName, decls).columns) == FirstSeen([], Names(decls))
    ensures LastChain(decls, name).Some? <==> name in Names(decls)
    ensures LastChain(decls, name).Some? ==>
      Get(Configured(tableName, decls).columns, name) == Some(AfterAll(Blank(name), LastChain(decls, name).value))
    ensures name !in Names(decls) ==> Get(Configured(tableName, decls).columns, name) == None
  {
    DeclaredKeys([], decls);
    DeclaredState([], decls, name);
    LastChainFound(decls, name);
  }

  /** Positions are found by key alone. */
  lemma {:induction false} IndexOfByKeys<V, W>(a: seq<(string, V)>, b: seq<(string, W)>, k: string)
    requires Keys(a) == Keys(b) && k in Keys(a)
    ensures IndexOf(a, k) == IndexOf(b, k)
    decreases |a|
  {
    if a[0].0 != k {
      assert Keys(a[1..]) == Keys(a)[1..] == Keys(b)[1..] == Keys(b[1..]);
      IndexOfByKeys(a[1..], b[1..], k);
    }
  }

  class Schema {
    const tableName: string
    var columns: seq<(string, Column)>
    var indexes: seq<Index>
    var foreignKeys: seq<ForeignKey>

    /** Column keys are distinct, each Column is stored under its own name, and no Column is stored twice. */
    ghost predicate Valid()
      reads this
    {
      && DistinctKeys(columns)
      && (forall i :: 0 <= i < |columns| ==> columns[i].1.name == columns[i].0)
      && (forall i, j :: 0 <= i < j < |columns| ==> columns[i].1 != columns[j].1)
    }

    function ColumnStates(): (r: seq<(string, ColumnState)>)
      reads this, set i | 0 <= i < |columns| :: columns[i].1
      ensures |r| == |columns|
      ensures forall i :: 0 <= i < |columns| ==> r[i] == (columns[i].0, columns[i].1.State())
    {
      seq(|columns|, i requires 0 <= i < |columns| reads this, (set j | 0 <= j < |columns| :: columns[j].1) => (columns[i].0, columns[i].1.State()))
    }

    function IndexStates(): (r: seq<IndexState>)
      reads this, set i | 0 <= i < |indexes| :: indexes[i]
      ensures |r| == |indexes|
      ensures forall i :: 0 <= i < |indexes| ==> r[i] == indexes[i].State()
    {
      seq(|indexes|, i requires 0 <= i < |indexes| reads this, (set j | 0 <= j < |indexes| :: indexes[j]) => indexes[i].State())
    }

    function ForeignKeyStates(): (r: seq<ForeignKeyState>)
      reads this, set i | 0 <= i < |foreignKeys| :: foreignKeys[i]
      ensures |r| == |foreignKeys|
      ensures forall i :: 0 <= i < |foreignKeys| ==> r[i] == foreignKeys[i].State()
    {
      seq(|foreignKeys|, i requires 0 <= i < |foreignKeys| reads this, (set j | 0 <= j < |foreignKeys| :: foreignKeys[j]) => foreignKeys[i].State())
    }

    /** The whole table definition as the translator and validator see it. */
    function State(): SchemaState
      reads this, set i | 0 <= i < |columns| :: columns[i].1
      reads set i | 0 <= i < |indexes| :: indexes[i]
      reads set i | 0 <= i < |foreignKeys| :: foreignKeys[i]
    {
      SchemaState(tableName, ColumnStates(), IndexStates(), ForeignKeyStates())
    }

    /**
     * `new Schema( $table_name, $configure )`: stores the name, then runs the
     * callback once on the new schema.
     */
    constructor(tableName: string, configure: seq<Declaration>)
      ensures Valid()
      ensures State() == Configured(tableName, configure)
    {
      this.tableName := tableName;
      columns, indexes, foreignKeys := [], [], [];
      new;
      Configure(configure);
    }

    /** Runs the callback's declarations, each a `column()` call and its chain. */
    method Configure(decls: seq<Declaration>)
      requires Valid()
      modifies this
      ensures Valid()
      ensures indexes == old(indexes) && foreignKeys == old(foreignKeys)
      ensures ColumnStates() == DeclareAll(old(ColumnStates()), decls)
    {
      var i := 0;
      while i < |decls|
        invariant 0 <= i <= |decls|
        invariant Valid()
        invariant indexes == old(indexes) && foreignKeys == old(foreignKeys)
        invariant DeclareAll(old(ColumnStates()), decls) == DeclareAll(ColumnStates(), decls[i..])
      {
        ConfigureOne(decls[i]);
        assert decls[i..][1..] == decls[i + 1..];
        i := i + 1;
      }
    }

    /** One declaration: `column( $name )`, then its chain on the Column handed back. */
    method ConfigureOne(d: Declaration)
      requires Valid()
      modifies this
      ensures Valid()
      ensures indexes == old(indexes) && foreignKeys == old(foreignKeys)
      ensures ColumnStates() == Put(old(ColumnStates()), d.name, AfterAll(Blank(d.name), d.chain))
    {
      ghost var before := ColumnStates();
      ghost var objs := columns;
      assert Keys(before) == Keys(objs);
      ghost var p := if d.name in Keys(objs) then IndexOf(objs, d.name) else |objs|;
      if d.name in Keys(objs) {
        IndexOfByKeys(before, objs, d.name);
      }
      var c := Column(d.name);
      assert columns[p].1 == c;
      ghost var mid := ColumnStates();
      c.ApplyAll(d.chain);
      var after := AfterAll(Blank(d.name), d.chain);
      assert ColumnStates() == mid[p := (d.name, after)] by {
        forall i | 0 <= i < |columns| && i != p ensures columns[i].1 != c {
        }
      }
      PutReplaced(before, d.name, Blank(d.name), after, p);
    }

    /** `column( $name )`: a new Column stored under its name, which the caller goes on to configure. */
    method Column(name: string) returns (c: Column)
      requires Valid()
      modifies this
      ensures Valid() && fresh(c)
      ensures c.State() == Blank(name)
      ensures columns == Put(old(columns), name, c)
      ensures ColumnStates() == Put(old(ColumnStates()), name, Blank(name))
      ensures indexes == old(indexes) && foreignKeys == old(foreignKeys)
    {
      ghost var before := ColumnStates();
      c := new Column(name);
      assert ColumnStates() == before;
      Store(name, c);
    }

    /** `$this->columns[ $name ] = $column` for a Column not stored yet. */
    method Store(name: string, c: Column)
      requires Valid() && c.name == name
      requires forall i :: 0 <= i < |columns| ==> columns[i].1 != c
      modifies this
      ensures Valid()
      ensures columns == Put(old(columns), name, c)
      ensures ColumnStates() == Put(old(ColumnStates()), name, c.State())
      ensures indexes == old(indexes) && foreignKeys == old(foreignKeys)
    {
      ghost var before := ColumnStates();
      ghost var objs := columns;
      PutKeys(objs, name, c);
      columns := Put(columns, name, c);
      assert Keys(before) == Keys(objs);
      if name in Keys(objs) {
        var p := IndexOf(objs, name);
        IndexOfByKeys(before, objs, name);
        assert columns == objs[p := (name, c)];
        assert ColumnStates() == before[p := (name, c.State())];
      } else {
        assert columns == objs + [(name, c)];
        assert ColumnStates() == before + [(name, c.State())];
      }
    }

    /** `index( $column, $keyname )`, test-derived: the index is appended and handed back. */
    method Index(column: string, keyname: Option<string>) returns (ix: Index)
      requires Valid()
      modifies this
      ensures Valid() && fresh(ix)
      ensures ix.State() == IndexState(IndexModel.DefaultKeyname(column, keyname), column, false, false, false)
      ensures indexes == old(indexes) + [ix]
      ensures columns == old(columns) && foreignKeys == old(foreignKeys)
    {
      ix := new Index(column, keyname);
      indexes := indexes + [ix];
    }

    /** `foreign_key( $column, $keyname )`, test-derived: the key is appended and handed back. */
    method ForeignKey(column: string, keyname: Option<string>) returns (fk: ForeignKey)
      requires Valid()
      modifies this
      ensures Valid() && fresh(fk)
      ensures fk.State() == ForeignKeyState(ForeignKeyModel.DefaultKeyname(column, keyname), column, None, None, "", "")
      ensures foreignKeys == old(foreignKeys) + [fk]
      ensures columns == old(columns) && indexes == old(indexes)
    {
      fk := new ForeignKey(column, keyname);
      foreignKeys := foreignKeys + [fk];
    }

    function GetTableName(): (t: string)
      ensures t == tableName
    {
      tableName
    }
  }
}
