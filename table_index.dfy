/**
 * The v0.2 index record (Table_Index.php): public fields reassigned by fluent
 * setters. `column` and `reference_column` start as empty PHP arrays and
 * become strings once set; the constructor stores its argument in a dynamic
 * property `name`, so `keyname` stays null.
 */
module TableIndexModel {
  import opened Wrappers
  import opened PhpStrings

  /** A property that starts as `array()` and later holds a string. */
  datatype Cell = EmptyArray | Str(s: string)

  /** The cell interpolated into a string: an array reads as "Array". */
  function CellText(c: Cell): (r: string)
    ensures c.Str? ==> r == c.s
    ensures c.EmptyArray? ==> r == "Array"
  {
    match c
    case EmptyArray => "Array"
    case Str(s) => s
  }

  /** PHP `empty()` on the cell: an empty array, "" or "0". */
  predicate CellEmpty(c: Cell)
  {
    c.EmptyArray? || IsEmpty(c.s)
  }

  datatype TableIndexState = TableIndexState(
    keyname: Option<string>,
    name: Option<string>,
    column: Cell,
    referenceColumn: Cell,
    referenceTable: Option<string>,
    foreignKey: bool,
    unique: bool,
    fullText: bool,
    hash: bool,
    onUpdate: string,
    onDelete: string)

  /** `new Table_Index( $keyname )` as written: the argument lands in `name`, every flag is false. */
  function Created(keyname: string): (s: TableIndexState)
    ensures s.keyname.None? && s.name == Some(keyname)
    ensures s.column == EmptyArray && s.referenceColumn == EmptyArray && s.referenceTable.None?
    ensures !s.foreignKey && !s.unique && !s.fullText && !s.hash
    ensures s.onUpdate == "" && s.onDelete == ""
  {
    TableIndexState(None, Some(keyname), EmptyArray, EmptyArray, None, false, false, false, false, "", "")
  }

  /** The constructor as evidently intended: the argument is the keyname. */
  function IntendedCreated(keyname: string): (s: TableIndexState)
    ensures s.keyname == Some(keyname)
    ensures s.column == EmptyArray && s.referenceColumn == EmptyArray && s.referenceTable.None?
    ensures !s.foreignKey && !s.unique && !s.fullText && !s.hash
    ensures s.onUpdate == "" && s.onDelete == ""
  {
    TableIndexState(Some(keyname), None, EmptyArray, EmptyArray, None, false, false, false, false, "", "")
  }

  /** As written, no two indexes are told apart by keyname: every one has none. */
  lemma CreatedLosesKeyname(a: string, b: string)
    ensures Created(a).keyname == Created(b).keyname == None
    ensures IntendedCreated(a).keyname == IntendedCreated(b).keyname <==> a == b
  {
  }

  /** `'ON UPDATE ' . strtoupper( $action )` and its ON DELETE twin. */
  function ActionClause(prefix: string, action: string): (r: string)
    ensures |r| == |prefix| + |action|
    ensures r[..|prefix|] == prefix
    ensures forall i :: |prefix| <= i < |r| ==> r[i] == UpperChar(action[i - |prefix|])
  {
    prefix + Upper(action)
  }

  /**
   * An action set through the setters is never PHP-empty, so the builders
   * always pick it up, and its case does not matter.
   */
  lemma StoredActionSpec(action: string)
    ensures !IsEmpty(ActionClause("ON UPDATE ", action)) && !IsEmpty(ActionClause("ON DELETE ", action))
    ensures ActionClause("ON UPDATE ", Upper(action)) == ActionClause("ON UPDATE ", action)
    ensures ActionClause("ON DELETE ", Upper(action)) == ActionClause("ON DELETE ", action)
  {
    UpperIsIdempotent(action);
  }

  class TableIndex {
    var keyname: Option<string>
    /** The dynamic property the constructor writes. */
    var name: Option<string>
    var column: Cell
    var referenceColumn: Cell
    var referenceTable: Option<string>
    var foreignKey: bool
    var unique: bool
    var fullText: bool
    var hash: bool
    var onUpdate: string
    var onDelete: string

    function State(): TableIndexState
      reads this
    {
      TableIndexState(keyname, name, column, referenceColumn, referenceTable, foreignKey, unique, fullText, hash, onUpdate, onDelete)
    }

    /** `__construct( $keyname )`, also reached through the static `name( $keyname )`. */
    constructor(keyname: string)
      ensures State() == Created(keyname)
    {
      this.keyname := None;
      name := Some(keyname);
      column, referenceColumn, referenceTable := EmptyArray, EmptyArray, None;
      foreignKey, unique, fullText, hash := false, false, false, false;
      onUpdate, onDelete := "", "";
    }

    /** `column( $column )`: replaces the column, it does not add one. */
    method Column(c: string) returns (self: TableIndex)
      modifies this
      ensures self == this
      ensures State() == old(State()).(column := Str(c))
    {
      column := Str(c);
      self := this;
    }

    /** `unique( bool $unique = true )`. */
    method Unique(b: bool) returns (self: TableIndex)
      modifies this
      ensures self == this
      ensures State() == old(State()).(unique := b)
    {
      unique := b;
      self := this;
    }

    /** `full_text( bool $full_text = true )`. */
    method FullText(b: bool) returns (self: TableIndex)
      modifies this
      ensures self == this
      ensures State() == old(State()).(fullText := b)
    {
      fullText := b;
      self := this;
    }

    /** `foreign_key( bool $foreign_key = true )`. */
    method ForeignKey(b: bool) returns (self: TableIndex)
      modifies this
      ensures self == this
      ensures State() == old(State()).(foreignKey := b)
    {
      foreignKey := b;
      self := this;
    }

    /** `hash( bool $hash = true )`. */
    method Hash(b: bool) returns (self: TableIndex)
      modifies this
      ensures self == this
      ensures State() == old(State()).(hash := b)
    {
      hash := b;
      self := this;
    }

    /** `reference_table( $reference_table )`. */
    method ReferenceTable(t: string) returns (self: TableIndex)
      modifies this
      ensures self == this
      ensures State() == old(State()).(referenceTable := Some(t))
    {
      referenceTable := Some(t);
      self := this;
    }

    /** `reference_column( $reference_column )`. */
    method ReferenceColumn(c: string) returns (self: TableIndex)
      modifies this
      ensures self == this
      ensures State() == old(State()).(referenceColumn := Str(c))
    {
      referenceColumn := Str(c);
      self := this;
    }

    /** `on_update( $action )`: stores the prefixed, upper-cased action. */
    method OnUpdate(action: string) returns (self: TableIndex)
      modifies this
      ensures self == this
      ensures State() == old(State()).(onUpdate := ActionClause("ON UPDATE ", action))
    {
      onUpdate := "ON UPDATE " + Upper(action);
      self := this;
    }

    /** `on_delete( $action )`: stores the prefixed, upper-cased action. */
    method OnDelete(action: string) returns (self: TableIndex)
      modifies this
      ensures self == this
      ensures State() == old(State()).(onDelete := ActionClause("ON DELETE ", action))
    {
      onDelete := "ON DELETE " + Upper(action);
      self := this;
    }
  }
}
