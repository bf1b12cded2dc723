/**
 * An index declared on one column (src/Index.php): a keyname, the column,
 * and the primary / unique / full-text flags, which all start false.
 */
module IndexModel {
  import opened Wrappers

  datatype IndexState = IndexState(keyname: string, column: string, unique: bool, fullText: bool, primary: bool)

  /** `$keyname ?? 'ix_' . $column`: only a missing keyname is replaced, an empty one is kept. */
  function DefaultKeyname(column: string, keyname: Option<string>): (k: string)
    ensures keyname.Some? ==> k == keyname.value
    ensures keyname.None? ==> |k| == |column| + 3 && k[..3] == "ix_" && k[3..] == column
  {
    keyname.GetOr("ix_" + column)
  }

  /** `get_type()`: primary wins over unique, unique over full text, otherwise the empty type. */
  function IndexType(s: IndexState): (t: string)
    ensures t == "primary" <==> s.primary
    ensures t == "unique" <==> !s.primary && s.unique
    ensures t == "fulltext" <==> !s.primary && !s.unique && s.fullText
    ensures t == "" <==> !s.primary && !s.unique && !s.fullText
  {
    if s.primary then "primary"
    else if s.unique then "unique"
    else if s.fullText then "fulltext"
    else ""
  }

  /** What `export()` hands out. */
  datatype IndexExport = IndexExport(keyname: string, column: string, primary: bool, unique: bool, fullText: bool)

  class Index {
    const keyname: string
    const column: string
    var unique: bool
    var fullText: bool
    var primary: bool

    function State(): IndexState
      reads this
    {
      IndexState(keyname, column, unique, fullText, primary)
    }

    constructor(column: string, keyname: Option<string>)
      ensures State() == IndexState(DefaultKeyname(column, keyname), column, false, false, false)
    {
      this.keyname := DefaultKeyname(column, keyname);
      this.column := column;
      unique, fullText, primary := false, false, false;
    }

    /** `primary( bool $primary = true )`: callers pass `true` for the default. */
    method Primary(b: bool) returns (self: Index)
      modifies this
      ensures self == this
      ensures State() == old(State()).(primary := b)
    {
      primary := b;
      self := this;
    }

    method Unique(b: bool) returns (self: Index)
      modifies this
      ensures self == this
      ensures State() == old(State()).(unique := b)
    {
      unique := b;
      self := this;
    }

    method FullText(b: bool) returns (self: Index)
      modifies this
      ensures self == this
      ensures State() == old(State()).(fullText := b)
    {
      fullText := b;
      self := this;
    }

    function GetKeyname(): (k: string)
      reads this
      ensures k == State().keyname
    {
      keyname
    }

    function GetColumn(): (c: string)
      reads this
      ensures c == State().column
    {
      column
    }

    function IsPrimary(): (b: bool)
      reads this
      ensures b == State().primary
    {
      primary
    }

    function IsUnique(): (b: bool)
      reads this
      ensures b == State().unique
    {
      unique
    }

    function IsFullText(): (b: bool)
      reads this
      ensures b == State().fullText
    {
      fullText
    }

    function GetType(): (t: string)
      reads this
      ensures t == IndexType(State())
    {
      if IsPrimary() then "primary"
      else if IsUnique() then "unique"
      else if IsFullText() then "fulltext"
      else ""
    }

    function Export(): (e: IndexExport)
      reads this
      ensures e == IndexExport(State().keyname, State().column, State().primary, State().unique, State().fullText)
    {
      IndexExport(keyname, column, primary, unique, fullText)
    }
  }
}
