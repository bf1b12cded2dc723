/**
 * The v0.2 schema builder (Table_Schema.php). Columns are PHP arrays of
 * properties kept in a keyed array; `column( $key )` starts (or restarts) an
 * entry and every property setter writes into the entry under the LAST key
 * of that array (`array_key_last`), throwing when there is none. A property
 * that was never written is absent from its entry.
 */
module TableSchemaModel {
  import opened Wrappers
  import opened PhpStrings
  import opened PhpArrays
  import opened TableIndexModel

  /** One key of a PHP array: absent, or present with a value (which may itself be null). */
  datatype Slot<T> = Absent | Present(value: T)

  /** `$entry['x']` read where it may be absent: an absent key reads as null. */
  function Read<T>(s: Slot<T>): (r: Option<T>)
    ensures r.Some? <==> s.Present?
    ensures s.Present? ==> r.value == s.value
  {
    match s
    case Absent => None
    case Present(v) => Some(v)
  }

  /** The same read for a property whose value may be null. */
  function ReadNullable<T>(s: Slot<Option<T>>): (r: Option<T>)
    ensures r.Some? <==> s.Present? && s.value.Some?
    ensures r.Some? ==> r.value == s.value.value
  {
    match s
    case Absent => None
    case Present(v) => v
  }

  /** A column's property array: `key`, `null`, `length`, `type`, `default`, `auto_increment`, `unsigned`. */
  datatype ColumnEntry = ColumnEntry(
    key: Slot<string>,
    nullable: Slot<bool>,
    length: Slot<Option<int>>,
    dataType: Slot<string>,
    default: Slot<Option<string>>,
    autoIncrement: Slot<bool>,
    unsigned: Slot<bool>)

  /** What `column( $key )` stores: the key, `null => false` and `length => null`, nothing else. */
  function NewEntry(key: string): (e: ColumnEntry)
    ensures e.key == Present(key) && e.nullable == Present(false) && e.length == Present(None)
    ensures e.dataType.Absent? && e.default.Absent? && e.autoIncrement.Absent? && e.unsigned.Absent?
  {
    ColumnEntry(Present(key), Present(false), Present(None), Absent, Absent, Absent, Absent)
  }

  /** One `push_to_last_column( $key, $value )` call, by the setter that makes it. */
  datatype Property =
    | TypeP(t: string)
    | NullP(b: bool)
    | LengthP(n: int)
    | DefaultP(d: Option<string>)
    | AutoIncrementP(b: bool)
    | UnsignedP(b: bool)

  /** `$entry[ $key ] = $value`: the property's own key is written, the others are kept. */
  function WithProperty(e: ColumnEntry, p: Property): (r: ColumnEntry)
    ensures r.key == e.key
    ensures r.nullable == (if p.NullP? then Present(p.b) else e.nullable)
    ensures r.length == (if p.LengthP? then Present(Some(p.n)) else e.length)
    ensures r.dataType == (if p.TypeP? then Present(p.t) else e.dataType)
    ensures r.default == (if p.DefaultP? then Present(p.d) else e.default)
    ensures r.autoIncrement == (if p.AutoIncrementP? then Present(p.b) else e.autoIncrement)
    ensures r.unsigned == (if p.UnsignedP? then Present(p.b) else e.unsigned)
  {
    match p
    case TypeP(t) => e.(dataType := Present(t))
    case NullP(b) => e.(nullable := Present(b))
    case LengthP(n) => e.(length := Present(Some(n)))
    case DefaultP(d) => e.(default := Present(d))
    case AutoIncrementP(b) => e.(autoIncrement := Present(b))
    case UnsignedP(b) => e.(unsigned := Present(b))
  }

  const NoColumnsMessage: string := "No columns defined, please define a column before adding its properties."

  /**
   * `push_to_last_column`: with no columns it fails and nothing changes;
   * otherwise only the last entry, in insertion order, takes the property.
   */
  function PushToLast(cols: seq<(string, ColumnEntry)>, p: Property): (r: Result<seq<(string, ColumnEntry)>, string>)
    ensures r.Failure? <==> cols == []
    ensures r.Failure? ==> r.error == NoColumnsMessage
    ensures r.Success? ==> |r.value| == |cols| && Keys(r.value) == Keys(cols)
    ensures r.Success? ==> forall i :: 0 <= i < |cols| - 1 ==> r.value[i] == cols[i]
    ensures r.Success? ==> r.value[|cols| - 1].1 == WithProperty(cols[|cols| - 1].1, p)
  {
    if cols == [] then Failure(NoColumnsMessage)
    else
      var last := |cols| - 1;
      var r := cols[last := (cols[last].0, WithProperty(cols[last].1, p))];
      assert Keys(r) == Keys(cols);
      Success(r)
  }

  /** Several pushes in a row, stopping at the first failure (the exception). */
  function PushAll(cols: seq<(string, ColumnEntry)>, ps: seq<Property>): Result<seq<(string, ColumnEntry)>, string>
    decreases |ps|
  {
    if ps == [] then Success(cols)
    else
      match PushToLast(cols, ps[0])
      case Failure(e) => Failure(e)
      case Success(next) => PushAll(next, ps[1..])
  }

  /** The entry's properties after several writes. */
  function WithProperties(e: ColumnEntry, ps: seq<Property>): ColumnEntry
    decreases |ps|
  {
    if ps == [] then e else WithProperties(WithProperty(e, ps[0]), ps[1..])
  }

  /** A chain of setters fails only when there are no columns, and otherwise lands entirely on the last entry. */
  lemma {:induction false} PushAllLast(cols: seq<(string, ColumnEntry)>, ps: seq<Property>)
    ensures PushAll(cols, ps).Failure? <==> cols == [] && ps != []
    ensures PushAll(cols, ps).Failure? ==> PushAll(cols, ps).error == NoColumnsMessage
    ensures cols != [] ==> PushAll(cols, ps) == Success(cols[|cols| - 1 := (cols[|cols| - 1].0, WithProperties(cols[|cols| - 1].1, ps))])
    decreases |ps|
  {
    if ps == [] {
      assert cols != [] ==> cols[|cols| - 1 := (cols[|cols| - 1].0, cols[|cols| - 1].1)] == cols;
    } else if cols != [] {
      var next := PushToLast(cols, ps[0]).value;
      assert next == cols[|cols| - 1 := (cols[|cols| - 1].0, WithProperty(cols[|cols| - 1].1, ps[0]))];
      PushAllLast(next, ps[1..]);
      assert next[|next| - 1 := (next[|next| - 1].0, WithProperties(next[|next| - 1].1, ps[1..]))]
        == cols[|cols| - 1 := (cols[|cols| - 1].0, WithProperties(cols[|cols| - 1].1, ps))];
    }
  }

  /** PHP truthiness of an optional int argument: null and 0 are false. */
  predicate Truthy(n: Option<int>)
  {
    n.Some? && n.value != 0
  }

  /** PHP truthiness of an optional string argument: null, "" and "0" are false. */
  predicate TruthyString(d: Option<string>)
  {
    d.Some? && !IsEmpty(d.value)
  }

  /** What a length shortcut (`varchar`, `int`, ...) writes: the type, then the length only when it is truthy. */
  function LengthShortcut(word: string, len: Option<int>): (ps: seq<Property>)
    ensures 1 <= |ps| <= 2
    ensures ps[0] == TypeP(word)
    ensures |ps| == 2 <==> Truthy(len)
    ensures |ps| == 1 <==> !Truthy(len)
    ensures Truthy(len) ==> ps[1] == LengthP(len.value)
  {
    [TypeP(word)] + (if Truthy(len) then [LengthP(len.value)] else [])
  }

  /** What `datetime` / `timestamp` write: the type, then the default only when it is truthy. */
  function DefaultShortcut(word: string, dflt: Option<string>): (ps: seq<Property>)
    ensures 1 <= |ps| <= 2
    ensures ps[0] == TypeP(word)
    ensures |ps| == 2 <==> TruthyString(dflt)
    ensures |ps| == 1 <==> !TruthyString(dflt)
    ensures TruthyString(dflt) ==> ps[1] == DefaultP(dflt)
  {
    [TypeP(word)] + (if TruthyString(dflt) then [DefaultP(dflt)] else [])
  }

  /**
   * A length shortcut sets the type; it sets the length only for a truthy
   * length and otherwise keeps the earlier one; no other property changes.
   */
  lemma LengthShortcutEffect(e: ColumnEntry, word: string, len: Option<int>)
    ensures WithProperties(e, LengthShortcut(word, len)).dataType == Present(word)
    ensures WithProperties(e, LengthShortcut(word, len)).length == (if Truthy(len) then Present(len) else e.length)
    ensures WithProperties(e, LengthShortcut(word, len)) == e.(dataType := Present(word), length := if Truthy(len) then Present(len) else e.length)
  {
    var ps := LengthShortcut(word, len);
    assert WithProperties(e, ps) == WithProperties(WithProperty(e, ps[0]), ps[1..]);
    if Truthy(len) {
      assert ps[1..][1..] == [];
    }
  }

  /** `datetime` / `timestamp` leave the `default` key absent unless given a truthy default. */
  lemma DefaultShortcutEffect(e: ColumnEntry, word: string, dflt: Option<string>)
    ensures WithProperties(e, DefaultShortcut(word, dflt)) == e.(dataType := Present(word), default := if TruthyString(dflt) then Present(dflt) else e.default)
  {
    var ps := DefaultShortcut(word, dflt);
    assert WithProperties(e, ps) == WithProperties(WithProperty(e, ps[0]), ps[1..]);
    if TruthyString(dflt) {
      assert ps[1..][1..] == [];
    }
  }

  /** A configuring call on the schema: `column( $key )` or a property setter. */
  datatype SchemaCall = Declare(key: string) | Set(p: Property)

  /** A script of calls as written, stopping at the first exception. */
  function Run(cols: seq<(string, ColumnEntry)>, calls: seq<SchemaCall>): Result<seq<(string, ColumnEntry)>, string>
    decreases |calls|
  {
    if calls == [] then Success(cols)
    else
      match calls[0]
      case Declare(k) => Run(Put(cols, k, NewEntry(k)), calls[1..])
      case Set(p) =>
        match PushToLast(cols, p)
        case Failure(e) => Failure(e)
        case Success(next) => Run(next, calls[1..])
  }

  /**
   * Re-declaring a column keeps its position, so the last key is still the
   * column declared after it: the property meant for `a` lands on `b`.
   */
  lemma RedeclaredColumnMisdirected()
    ensures Run([], [Declare("a"), Declare("b"), Declare("a"), Set(TypeP("int"))])
      == Success([("a", NewEntry("a")), ("b", NewEntry("b").(dataType := Present("int")))])
  {
    var c1 := [("a", NewEntry("a"))];
    var c2 := [("a", NewEntry("a")), ("b", NewEntry("b"))];
    DeclaredABA();
    var calls := [Declare("a"), Declare("b"), Declare("a"), Set(TypeP("int"))];
    var c3 := PushToLast(c2, TypeP("int")).value;
    assert c3 == [("a", NewEntry("a")), ("b", NewEntry("b").(dataType := Present("int")))];
    assert Run(c2, calls[3..]) == Run(c3, []);
    assert Run(c2, calls[2..]) == Run(c2, calls[3..]);
    assert Run(c1, calls[1..]) == Run(c2, calls[2..]);
    assert Run([], calls) == Run(c1, calls[1..]);
  }

  /** Declaring `a`, `b`, then `a` again leaves `a` first and `b` last. */
  lemma DeclaredABA()
    ensures Put([], "a", NewEntry("a")) == [("a", NewEntry("a"))]
    ensures Put([("a", NewEntry("a"))], "b", NewEntry("b")) == [("a", NewEntry("a")), ("b", NewEntry("b"))]
    ensures Put([("a", NewEntry("a")), ("b", NewEntry("b"))], "a", NewEntry("a")) == [("a", NewEntry("a")), ("b", NewEntry("b"))]
  {
    var c1 := [("a", NewEntry("a"))];
    var c2 := [("a", NewEntry("a")), ("b", NewEntry("b"))];
    assert "b" !in Keys(c1);
    assert "a" in Keys(c2) by { assert Keys(c2)[0] == "a"; }
  }

  /** The evidently intended setter: it writes into the entry of the most recently declared column. */
  function PushToCurrent(cols: seq<(string, ColumnEntry)>, current: Option<string>, p: Property): (r: Result<seq<(string, ColumnEntry)>, string>)
    ensures r.Failure? <==> current.None? || current.value !in Keys(cols)
  {
    if current.None? || current.value !in Keys(cols) then Failure(NoColumnsMessage)
    else
      var k := current.value;
      Success(Put(cols, k, WithProperty(cols[IndexOf(cols, k)].1, p)))
  }

  /** The intended script semantics: `column( $key )` makes `$key` current. */
  function IntendedRun(cols: seq<(string, ColumnEntry)>, current: Option<string>, calls: seq<SchemaCall>): Result<seq<(string, ColumnEntry)>, string>
    decreases |calls|
  {
    if calls == [] then Success(cols)
    else
      match calls[0]
      case Declare(k) => IntendedRun(Put(cols, k, NewEntry(k)), Some(k), calls[1..])
      case Set(p) =>
        match PushToCurrent(cols, current, p)
        case Failure(e) => Failure(e)
        case Success(next) => IntendedRun(next, current, calls[1..])
  }

  /**
   * The intended setter changes the current column's entry and no other:
   * reading back any other key gives what it held before.
   */
  lemma PushToCurrentTargets(cols: seq<(string, ColumnEntry)>, k: string, p: Property, other: string)
    requires DistinctKeys(cols) && k in Keys(cols)
    ensures PushToCurrent(cols, Some(k), p).Success?
    ensures Get(PushToCurrent(cols, Some(k), p).value, k) == Some(WithProperty(Get(cols, k).value, p))
    ensures other != k ==> Get(PushToCurrent(cols, Some(k), p).value, other) == Get(cols, other)
    ensures Keys(PushToCurrent(cols, Some(k), p).value) == Keys(cols)
  {
    var v := WithProperty(cols[IndexOf(cols, k)].1, p);
    GetAfterPut(cols, k, v, other);
    PutKeys(cols, k, v);
  }

  /** When the current column is also the last one, the written and the intended setter agree. */
  lemma PushToCurrentAgreesOnLast(cols: seq<(string, ColumnEntry)>, p: Property)
    requires DistinctKeys(cols) && cols != []
    ensures PushToCurrent(cols, Some(cols[|cols| - 1].0), p) == PushToLast(cols, p)
  {
    var k := cols[|cols| - 1].0;
    assert Keys(cols)[|cols| - 1] == k;
    assert IndexOf(cols, k) == |cols| - 1;
  }

  /** On the same script, the intended semantics gives `a` its type and leaves `b` alone. */
  lemma RedeclaredColumnIntended()
    ensures IntendedRun([], None, [Declare("a"), Declare("b"), Declare("a"), Set(TypeP("int"))])
      == Success([("a", NewEntry("a").(dataType := Present("int"))), ("b", NewEntry("b"))])
  {
    var c1 := [("a", NewEntry("a"))];
    var c2 := [("a", NewEntry("a")), ("b", NewEntry("b"))];
    DeclaredABA();
    var calls := [Declare("a"), Declare("b"), Declare("a"), Set(TypeP("int"))];
    TypeIntoFirst();
    var c3 := PushToCurrent(c2, Some("a"), TypeP("int")).value;
    assert IntendedRun(c2, Some("a"), calls[3..]) == IntendedRun(c3, Some("a"), []);
    assert IntendedRun(c2, Some("b"), calls[2..]) == IntendedRun(c2, Some("a"), calls[3..]);
    assert IntendedRun(c1, Some("a"), calls[1..]) == IntendedRun(c2, Some("b"), calls[2..]);
    assert IntendedRun([], None, calls) == IntendedRun(c1, Some("a"), calls[1..]);
  }

  /** With `a` current, the intended setter types the first of the two columns. */
  lemma TypeIntoFirst()
    ensures PushToCurrent([("a", NewEntry("a")), ("b", NewEntry("b"))], Some("a"), TypeP("int"))
      == Success([("a", NewEntry("a").(dataType := Present("int"))), ("b", NewEntry("b"))])
  {
    var c2 := [("a", NewEntry("a")), ("b", NewEntry("b"))];
    assert Keys(c2)[0] == "a";
    assert IndexOf(c2, "a") == 0;
    var v := NewEntry("a").(dataType := Present("int"));
    assert WithProperty(NewEntry("a"), TypeP("int")) == v;
    assert Put(c2, "a", v) == c2[0 := ("a", v)];
    assert c2[0 := ("a", v)] == [("a", v), ("b", NewEntry("b"))];
  }

  /** A thrown exception, PHP's TypeError, or the Error of calling a method on null. */
  datatype Fault = TypeError | Thrown(message: string) | NullReceiver

  datatype TableSchemaState = TableSchemaState(
    tableName: Option<string>,
    primaryKey: Option<string>,
    indexes: seq<TableIndexState>,
    columns: seq<(string, ColumnEntry)>)

  /** `get_table_name(): string` on the state: an unset name fails the return type. */
  function TableNameOf(s: TableSchemaState): (r: Result<string, Fault>)
    ensures r.Success? <==> s.tableName.Some?
    ensures r.Success? ==> r.value == s.tableName.value
    ensures r.Failure? ==> r.error == TypeError
  {
    if s.tableName.None? then Failure(TypeError) else Success(s.tableName.value)
  }

  /** `get_primary_key(): string` on the state. */
  function PrimaryKeyOf(s: TableSchemaState): (r: Result<string, Fault>)
    ensures r.Success? <==> s.primaryKey.Some?
    ensures r.Success? ==> r.value == s.primaryKey.value
    ensures r.Failure? ==> r.error == TypeError
  {
    if s.primaryKey.None? then Failure(TypeError) else Success(s.primaryKey.value)
  }

  class TableSchema {
    var tableName: Option<string>
    var primaryKey: Option<string>
    var indexes: seq<TableIndex>
    var columns: seq<(string, ColumnEntry)>

    function IndexStates(): (r: seq<TableIndexState>)
      reads this, set i | 0 <= i < |indexes| :: indexes[i]
      ensures |r| == |indexes|
      ensures forall i :: 0 <= i < |indexes| ==> r[i] == indexes[i].State()
    {
      seq(|indexes|, i requires 0 <= i < |indexes| reads this, (set j | 0 <= j < |indexes| :: indexes[j]) => indexes[i].State())
    }

    function State(): TableSchemaState
      reads this, set i | 0 <= i < |indexes| :: indexes[i]
    {
      TableSchemaState(tableName, primaryKey, IndexStates(), columns)
    }

    /** `new Table_Schema()`: nothing is set. */
    constructor()
      ensures tableName.None? && primaryKey.None? && indexes == [] && columns == []
    {
      tableName, primaryKey, indexes, columns := None, None, [], [];
    }

    /** `Table_Schema::create( $table_name )`. */
    static method Create(t: string) returns (s: TableSchema)
      ensures fresh(s)
      ensures s.tableName == Some(t) && s.primaryKey.None? && s.indexes == [] && s.columns == []
    {
      s := new TableSchema();
      var _ := s.Table(t);
    }

    /** `table( $table_name )`. */
    method Table(t: string) returns (self: TableSchema)
      modifies this
      ensures self == this
      ensures tableName == Some(t)
      ensures primaryKey == old(primaryKey) && indexes == old(indexes) && columns == old(columns)
    {
      tableName := Some(t);
      self := this;
    }

    /** `primary( $key )`: read back by `get_primary_key()`. */
    method Primary(key: string) returns (self: TableSchema)
      modifies this
      ensures self == this
      ensures primaryKey == Some(key) && PrimaryKeyOf(State()) == Success(key)
      ensures tableName == old(tableName) && indexes == old(indexes) && columns == old(columns)
    {
      primaryKey := Some(key);
      self := this;
    }

    /** `index( $index )`: appended, in call order. */
    method Index(ix: TableIndex) returns (self: TableSchema)
      modifies this
      ensures self == this
      ensures indexes == old(indexes) + [ix]
      ensures tableName == old(tableName) && primaryKey == old(primaryKey) && columns == old(columns)
    {
      indexes := indexes + [ix];
      self := this;
    }

    /** `column( $key )`: a fresh entry under the key, replacing any earlier one where it stood. */
    method Column(key: string) returns (self: TableSchema)
      modifies this
      ensures self == this
      ensures columns == Put(old(columns), key, NewEntry(key))
      ensures tableName == old(tableName) && primaryKey == old(primaryKey) && indexes == old(indexes)
    {
      columns := Put(columns, key, NewEntry(key));
      self := this;
    }

    /** `push_to_last_column( $key, $value )`: `err` is the exception's message when it throws. */
    method PushToLastColumn(p: Property) returns (err: Option<string>)
      modifies this
      ensures PushToLast(old(columns), p).Success? ==> err.None? && columns == PushToLast(old(columns), p).value
      ensures PushToLast(old(columns), p).Failure? ==> err == Some(NoColumnsMessage) && columns == old(columns)
      ensures tableName == old(tableName) && primaryKey == old(primaryKey) && indexes == old(indexes)
    {
      if |columns| == 0 {
        return Some(NoColumnsMessage);
      }
      var last := |columns| - 1;
      columns := columns[last := (columns[last].0, WithProperty(columns[last].1, p))];
      return None;
    }

    /** Setters in sequence, as the shortcuts call them, stopping at the first exception. */
    method PushAllToLastColumn(ps: seq<Property>) returns (err: Option<string>)
      modifies this
      ensures PushAll(old(columns), ps).Success? ==> err.None? && columns == PushAll(old(columns), ps).value
      ensures PushAll(old(columns), ps).Failure? ==> err == Some(NoColumnsMessage) && columns == old(columns)
      ensures tableName == old(tableName) && primaryKey == old(primaryKey) && indexes == old(indexes)
    {
      var i := 0;
      err := None;
      while i < |ps|
        invariant 0 <= i <= |ps|
        invariant tableName == old(tableName) && primaryKey == old(primaryKey) && indexes == old(indexes)
        invariant PushAll(old(columns), ps) == PushAll(columns, ps[i..])
        invariant err.None?
        invariant (columns == []) == (old(columns) == [])
        invariant old(columns) == [] ==> columns == old(columns)
      {
        assert ps[i..][0] == ps[i];
        err := PushToLastColumn(ps[i]);
        if err.Some? {
          return;
        }
        assert ps[i..][1..] == ps[i + 1..];
        i := i + 1;
      }
    }

    /** `type( $type )`. */
    method Type(t: string) returns (err: Option<string>)
      modifies this
      ensures PushToLast(old(columns), TypeP(t)).Success? ==> err.None? && columns == PushToLast(old(columns), TypeP(t)).value
      ensures PushToLast(old(columns), TypeP(t)).Failure? ==> err == Some(NoColumnsMessage) && columns == old(columns)
      ensures tableName == old(tableName) && primaryKey == old(primaryKey) && indexes == old(indexes)
    {
      err := PushToLastColumn(TypeP(t));
    }

    /** `nullable( bool $null = true )`; the deprecated `null()` does the same after its notice. */
    method Nullable(b: bool) returns (err: Option<string>)
      modifies this
      ensures PushToLast(old(columns), NullP(b)).Success? ==> err.None? && columns == PushToLast(old(columns), NullP(b)).value
      ensures PushToLast(old(columns), NullP(b)).Failure? ==> err == Some(NoColumnsMessage) && columns == old(columns)
      ensures tableName == old(tableName) && primaryKey == old(primaryKey) && indexes == old(indexes)
    {
      err := PushToLastColumn(NullP(b));
    }

    /** `length( $length )`. */
    method Length(n: int) returns (err: Option<string>)
      modifies this
      ensures PushToLast(old(columns), LengthP(n)).Success? ==> err.None? && columns == PushToLast(old(columns), LengthP(n)).value
      ensures PushToLast(old(columns), LengthP(n)).Failure? ==> err == Some(NoColumnsMessage) && columns == old(columns)
      ensures tableName == old(tableName) && primaryKey == old(primaryKey) && indexes == old(indexes)
    {
      err := PushToLastColumn(LengthP(n));
    }

    /** `default( ?string $default = null )`: a null default is stored as a present null. */
    method Default(d: Option<string>) returns (err: Option<string>)
      modifies this
      ensures PushToLast(old(columns), DefaultP(d)).Success? ==> err.None? && columns == PushToLast(old(columns), DefaultP(d)).value
      ensures PushToLast(old(columns), DefaultP(d)).Failure? ==> err == Some(NoColumnsMessage) && columns == old(columns)
      ensures tableName == old(tableName) && primaryKey == old(primaryKey) && indexes == old(indexes)
    {
      err := PushToLastColumn(DefaultP(d));
    }

    /** `auto_increment( bool $auto_increment = true )`. */
    method AutoIncrement(b: bool) returns (err: Option<string>)
      modifies this
      ensures PushToLast(old(columns), AutoIncrementP(b)).Success? ==> err.None? && columns == PushToLast(old(columns), AutoIncrementP(b)).value
      ensures PushToLast(old(columns), AutoIncrementP(b)).Failure? ==> err == Some(NoColumnsMessage) && columns == old(columns)
      ensures tableName == old(tableName) && primaryKey == old(primaryKey) && indexes == old(indexes)
    {
      err := PushToLastColumn(AutoIncrementP(b));
    }

    /** `unsigned( bool $unsigned = true )`. */
    method Unsigned(b: bool) returns (err: Option<string>)
      modifies this
      ensures PushToLast(old(columns), UnsignedP(b)).Success? ==> err.None? && columns == PushToLast(old(columns), UnsignedP(b)).value
      ensures PushToLast(old(columns), UnsignedP(b)).Failure? ==> err == Some(NoColumnsMessage) && columns == old(columns)
      ensures tableName == old(tableName) && primaryKey == old(primaryKey) && indexes == old(indexes)
    {
      err := PushToLastColumn(UnsignedP(b));
    }

    /** `varchar`, `text`, `int`, `float`, `double`: the type word, and the length when truthy. */
    method WithLength(word: string, len: Option<int>) returns (err: Option<string>)
      requires word in {"varchar", "text", "int", "float", "double"}
      modifies this
      ensures PushAll(old(columns), LengthShortcut(word, len)).Success? ==> err.None? && columns == PushAll(old(columns), LengthShortcut(word, len)).value
      ensures PushAll(old(columns), LengthShortcut(word, len)).Failure? ==> err == Some(NoColumnsMessage) && columns == old(columns)
      ensures tableName == old(tableName) && primaryKey == old(primaryKey) && indexes == old(indexes)
    {
      err := PushAllToLastColumn(LengthShortcut(word, len));
    }

    /** `datetime`, `timestamp`: the type word, and the default when truthy. */
    method WithDefault(word: string, dflt: Option<string>) returns (err: Option<string>)
      requires word in {"datetime", "timestamp"}
      modifies this
      ensures PushAll(old(columns), DefaultShortcut(word, dflt)).Success? ==> err.None? && columns == PushAll(old(columns), DefaultShortcut(word, dflt)).value
      ensures PushAll(old(columns), DefaultShortcut(word, dflt)).Failure? ==> err == Some(NoColumnsMessage) && columns == old(columns)
      ensures tableName == old(tableName) && primaryKey == old(primaryKey) && indexes == old(indexes)
    {
      err := PushAllToLastColumn(DefaultShortcut(word, dflt));
    }

    /** `get_table_name()`. */
    function GetTableName(): (r: Result<string, Fault>)
      reads this
      ensures r.Success? <==> tableName.Some?
      ensures r.Success? ==> r.value == tableName.value
    {
      if tableName.None? then Failure(TypeError) else Success(tableName.value)
    }

    /** `get_primary_key()`. */
    function GetPrimaryKey(): (r: Result<string, Fault>)
      reads this
      ensures r.Success? <==> primaryKey.Some?
      ensures r.Success? ==> r.value == primaryKey.value
    {
      if primaryKey.None? then Failure(TypeError) else Success(primaryKey.value)
    }
  }
}
