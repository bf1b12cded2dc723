/**
 * A column of a table definition (src/Column.php) together with the type
 * shortcuts it takes from the Column_Types trait (src/Column_Types.php).
 * Every attribute starts out as PHP `null` and is written by a fluent setter.
 */
module ColumnModel {
  import opened Wrappers
  import opened PhpStrings

  /** The attributes of a column at one moment. */
  datatype ColumnState = ColumnState(
    name: string,
    dataType: Option<string>,
    length: Option<int>,
    nullable: Option<bool>,
    default: Option<string>,
    autoIncrement: Option<bool>,
    unsigned: Option<bool>,
    unique: Option<bool>)

  /** A freshly constructed column: only the name is set. */
  function Blank(name: string): ColumnState
  {
    ColumnState(name, None, None, None, None, None, None, None)
  }

  /** What `export()` hands out: every attribute except auto_increment. */
  datatype ColumnExport = ColumnExport(
    name: string,
    dataType: Option<string>,
    length: Option<int>,
    nullable: Option<bool>,
    default: Option<string>,
    unsigned: Option<bool>,
    unique: Option<bool>)

  function ExportOf(s: ColumnState): ColumnExport
  {
    ColumnExport(s.name, s.dataType, s.length, s.nullable, s.default, s.unsigned, s.unique)
  }

  /** The export forgets auto_increment and nothing else. */
  lemma ExportForgetsOnlyAutoIncrement(s: ColumnState, t: ColumnState)
    ensures ExportOf(s.(autoIncrement := t.autoIncrement)) == ExportOf(s)
    ensures ExportOf(s) == ExportOf(t) && s.autoIncrement == t.autoIncrement ==> s == t
  {
  }

  /** `if ( $length )`: a null or zero length is falsy. */
  predicate LengthGiven(length: Option<int>)
  {
    length.Some? && length.value != 0
  }

  /** `if ( $default )`: null, "" and "0" are falsy. */
  predicate DefaultGiven(default: Option<string>)
  {
    default.Some? && !IsEmpty(default.value)
  }

  /** One call of the column's fluent interface, setters and shortcuts alike. */
  datatype ColumnCall =
    | Type(t: string)
    | Length(n: int)
    | Nullable(b: bool)
    | Default(d: string)
    | Unsigned(b: bool)
    | Unique(b: bool)
    | Varchar(len: Option<int>)
    | Text(len: Option<int>)
    | Int(len: Option<int>)
    | Float(len: Option<int>)
    | Double(len: Option<int>)
    | Datetime(dflt: Option<string>)
    | Timestamp(dflt: Option<string>)
    | UnsignedInt(len: Option<int>)
    | UnsignedMedium(len: Option<int>)

  /** A shortcut with a length: the type word, then the length only when it is truthy. */
  function TypedWithLength(s: ColumnState, word: string, len: Option<int>): (r: ColumnState)
    ensures r.dataType == Some(word)
    ensures r.length == (if LengthGiven(len) then len else s.length)
    ensures r == s.(dataType := r.dataType, length := r.length)
  {
    var typed := s.(dataType := Some(word));
    if LengthGiven(len) then typed.(length := len) else typed
  }

  /** A shortcut with a default: the type word, then the default only when it is truthy. */
  function TypedWithDefault(s: ColumnState, word: string, dflt: Option<string>): (r: ColumnState)
    ensures r.dataType == Some(word)
    ensures r.default == (if DefaultGiven(dflt) then dflt else s.default)
    ensures r == s.(dataType := r.dataType, default := r.default)
  {
    var typed := s.(dataType := Some(word));
    if DefaultGiven(dflt) then typed.(default := dflt) else typed
  }

  /** The column's attributes after one call. */
  function After(s: ColumnState, call: ColumnCall): (r: ColumnState)
    ensures r.name == s.name
    ensures r.autoIncrement == s.autoIncrement
  {
    match call
    case Type(t) => s.(dataType := Some(t))
    case Length(n) => s.(length := Some(n))
    case Nullable(b) => s.(nullable := Some(b))
    case Default(d) => s.(default := Some(d))
    case Unsigned(b) => s.(unsigned := Some(b))
    case Unique(b) => s.(unique := Some(b))
    case Varchar(len) => TypedWithLength(s, "varchar", len)
    case Text(len) => TypedWithLength(s, "text", len)
    case Int(len) => TypedWithLength(s, "int", len)
    case Float(len) => TypedWithLength(s, "float", len)
    case Double(len) => TypedWithLength(s, "double", len)
    case Datetime(dflt) => TypedWithDefault(s, "datetime", dflt)
    case Timestamp(dflt) => TypedWithDefault(s, "timestamp", dflt)
    case UnsignedInt(len) => TypedWithLength(s.(unsigned := Some(true)), "int", len)
    case UnsignedMedium(len) => TypedWithLength(s.(unsigned := Some(true)), "mediumint", len)
  }

  /** The attributes after a whole chain of calls, applied left to right. */
  function AfterAll(s: ColumnState, calls: seq<ColumnCall>): (r: ColumnState)
    ensures r.name == s.name
    ensures r.autoIncrement == s.autoIncrement
    decreases |calls|
  {
    if calls == [] then s else AfterAll(After(s, calls[0]), calls[1..])
  }

  /** Every shortcut leaves the column typed, so a column given one always passes the type check. */
  lemma {:induction false} ShortcutTypes(s: ColumnState, calls: seq<ColumnCall>)
    requires exists i :: 0 <= i < |calls| && !calls[i].Length? && !calls[i].Nullable? && !calls[i].Default?
                                          && !calls[i].Unsigned? && !calls[i].Unique?
    ensures AfterAll(s, calls).dataType.Some?
    decreases |calls|
  {
    var i :| 0 <= i < |calls| && !calls[i].Length? && !calls[i].Nullable? && !calls[i].Default?
                             && !calls[i].Unsigned? && !calls[i].Unique?;
    if i == 0 {
      TypeSticks(After(s, calls[0]), calls[1..]);
    } else {
      assert calls[1..][i - 1] == calls[i];
      ShortcutTypes(After(s, calls[0]), calls[1..]);
    }
  }

  /** Once set, the type is never cleared again by a later call. */
  lemma {:induction false} TypeSticks(s: ColumnState, calls: seq<ColumnCall>)
    requires s.dataType.Some?
    ensures AfterAll(s, calls).dataType.Some?
    decreases |calls|
  {
    if calls != [] {
      TypeSticks(After(s, calls[0]), calls[1..]);
    }
  }

  class Column {
    const name: string
    var dataType: Option<string>
    var length: Option<int>
    var nullable: Option<bool>
    var default: Option<string>
    var autoIncrement: Option<bool>
    var unsigned: Option<bool>
    var unique: Option<bool>

    function State(): ColumnState
      reads this
    {
      ColumnState(name, dataType, length, nullable, default, autoIncrement, unsigned, unique)
    }

    constructor(name: string)
      ensures State() == Blank(name)
    {
      this.name := name;
      dataType, length, nullable, default := None, None, None, None;
      autoIncrement, unsigned, unique := None, None, None;
    }

    method Type(t: string) returns (self: Column)
      modifies this
      ensures self == this
      ensures State() == old(State()).(dataType := Some(t))
    {
      dataType := Some(t);
      self := this;
    }

    method Length(n: int) returns (self: Column)
      modifies this
      ensures self == this
      ensures State() == old(State()).(length := Some(n))
    {
      length := Some(n);
      self := this;
    }

    /** `nullable( bool $nullable = true )`: callers pass `true` for the default. */
    method Nullable(b: bool) returns (self: Column)
      modifies this
      ensures self == this
      ensures State() == old(State()).(nullable := Some(b))
    {
      nullable := Some(b);
      self := this;
    }

    method Default(d: string) returns (self: Column)
      modifies this
      ensures self == this
      ensures State() == old(State()).(default := Some(d))
    {
      default := Some(d);
      self := this;
    }

    method Unsigned(b: bool) returns (self: Column)
      modifies this
      ensures self == this
      ensures State() == old(State()).(unsigned := Some(b))
    {
      unsigned := Some(b);
      self := this;
    }

    /** `unique( bool $unique = true )`: callers pass `true` for the default. */
    method Unique(b: bool) returns (self: Column)
      modifies this
      ensures self == this
      ensures State() == old(State()).(unique := Some(b))
    {
      unique := Some(b);
      self := this;
    }

    function Export(): (e: ColumnExport)
      reads this
      ensures e == ExportOf(State())
    {
      ColumnExport(name, dataType, length, nullable, default, unsigned, unique)
    }

    function GetName(): (n: string)
      reads this
      ensures n == State().name
    {
      name
    }

    method SetTypeWithLength(word: string, len: Option<int>)
      modifies this
      ensures State() == TypedWithLength(old(State()), word, len)
    {
      var _ := Type(word);
      if LengthGiven(len) {
        var _ := Length(len.value);
      }
    }

    method SetTypeWithDefault(word: string, dflt: Option<string>)
      modifies this
      ensures State() == TypedWithDefault(old(State()), word, dflt)
    {
      var _ := Type(word);
      if DefaultGiven(dflt) {
        var _ := Default(dflt.value);
      }
    }

    method Varchar(len: Option<int>) returns (self: Column)
      modifies this
      ensures self == this
      ensures State() == After(old(State()), ColumnCall.Varchar(len))
    {
      SetTypeWithLength("varchar", len);
      self := this;
    }

    method Text(len: Option<int>) returns (self: Column)
      modifies this
      ensures self == this
      ensures State() == After(old(State()), ColumnCall.Text(len))
    {
      SetTypeWithLength("text", len);
      self := this;
    }

    method Int(len: Option<int>) returns (self: Column)
      modifies this
      ensures self == this
      ensures State() == After(old(State()), ColumnCall.Int(len))
    {
      SetTypeWithLength("int", len);
      self := this;
    }

    method Float(len: Option<int>) returns (self: Column)
      modifies this
      ensures self == this
      ensures State() == After(old(State()), ColumnCall.Float(len))
    {
      SetTypeWithLength("float", len);
      self := this;
    }

    method Double(len: Option<int>) returns (self: Column)
      modifies this
      ensures self == this
      ensures State() == After(old(State()), ColumnCall.Double(len))
    {
      SetTypeWithLength("double", len);
      self := this;
    }

    method Datetime(dflt: Option<string>) returns (self: Column)
      modifies this
      ensures self == this
      ensures State() == After(old(State()), ColumnCall.Datetime(dflt))
    {
      SetTypeWithDefault("datetime", dflt);
      self := this;
    }

    method Timestamp(dflt: Option<string>) returns (self: Column)
      modifies this
      ensures self == this
      ensures State() == After(old(State()), ColumnCall.Timestamp(dflt))
    {
      SetTypeWithDefault("timestamp", dflt);
      self := this;
    }

    /** `unsigned()` is called without its argument and taken as `unsigned( true )`. */
    method UnsignedInt(len: Option<int>) returns (self: Column)
      modifies this
      ensures self == this
      ensures State() == After(old(State()), ColumnCall.UnsignedInt(len))
    {
      var _ := Type("int");
      var _ := Unsigned(true);
      if LengthGiven(len) {
        var _ := Length(len.value);
      }
      self := this;
    }

    method UnsignedMedium(len: Option<int>) returns (self: Column)
      modifies this
      ensures self == this
      ensures State() == After(old(State()), ColumnCall.UnsignedMedium(len))
    {
      var _ := Type("mediumint");
      var _ := Unsigned(true);
      if LengthGiven(len) {
        var _ := Length(len.value);
      }
      self := this;
    }

    /** Runs one call of the fluent interface. */
    method Apply(call: ColumnCall)
      modifies this
      ensures State() == After(old(State()), call)
    {
      var self: Column;
      match call {
        case Type(t) => self := Type(t);
        case Length(n) => self := Length(n);
        case Nullable(b) => self := Nullable(b);
        case Default(d) => self := Default(d);
        case Unsigned(b) => self := Unsigned(b);
        case Unique(b) => self := Unique(b);
        case Varchar(len) => self := Varchar(len);
        case Text(len) => self := Text(len);
        case Int(len) => self := Int(len);
        case Float(len) => self := Float(len);
        case Double(len) => self := Double(len);
        case Datetime(dflt) => self := Datetime(dflt);
        case Timestamp(dflt) => self := Timestamp(dflt);
        case UnsignedInt(len) => self := UnsignedInt(len);
        case UnsignedMedium(len) => self := UnsignedMedium(len);
      }
    }

    /** Runs a chain of calls left to right, as `$column->int( 11 )->nullable()` does. */
    method ApplyAll(calls: seq<ColumnCall>)
      modifies this
      ensures State() == AfterAll(old(State()), calls)
    {
      var i := 0;
      while i < |calls|
        invariant 0 <= i <= |calls|
        invariant AfterAll(old(State()), calls) == AfterAll(State(), calls[i..])
      {
        assert calls[i..][1..] == calls[i + 1..];
        Apply(calls[i]);
        i := i + 1;
      }
    }
  }
}
