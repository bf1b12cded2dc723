/**
 * A foreign key from a local column to a column of another table
 * (src/Foreign_Key.php). The reference table and column start as PHP `null`;
 * the referential actions start as the empty string and are stored verbatim.
 */
module ForeignKeyModel {
  import opened Wrappers

  datatype ForeignKeyState = ForeignKeyState(
    keyname: string,
    column: string,
    referenceTable: Option<string>,
    referenceColumn: Option<string>,
    onUpdate: string,
    onDelete: string)

  /** `$keyname ?? 'fk_' . $column`. */
  function DefaultKeyname(column: string, keyname: Option<string>): (k: string)
    ensures keyname.Some? ==> k == keyname.value
    ensures keyname.None? ==> |k| == |column| + 3 && k[..3] == "fk_" && k[3..] == column
  {
    keyname.GetOr("fk_" + column)
  }

  class ForeignKey {
    const keyname: string
    const column: string
    var referenceTable: Option<string>
    var referenceColumn: Option<string>
    var onUpdate: string
    var onDelete: string

    function State(): ForeignKeyState
      reads this
    {
      ForeignKeyState(keyname, column, referenceTable, referenceColumn, onUpdate, onDelete)
    }

    constructor(column: string, keyname: Option<string>)
      ensures State() == ForeignKeyState(DefaultKeyname(column, keyname), column, None, None, "", "")
    {
      this.keyname := DefaultKeyname(column, keyname);
      this.column := column;
      referenceTable, referenceColumn := None, None;
      onUpdate, onDelete := "", "";
    }

    method ReferenceTable(table: string) returns (self: ForeignKey)
      modifies this
      ensures self == this
      ensures State() == old(State()).(referenceTable := Some(table))
    {
      referenceTable := Some(table);
      self := this;
    }

    method ReferenceColumn(col: string) returns (self: ForeignKey)
      modifies this
      ensures self == this
      ensures State() == old(State()).(referenceColumn := Some(col))
    {
      referenceColumn := Some(col);
      self := this;
    }

    method OnUpdate(action: string) returns (self: ForeignKey)
      modifies this
      ensures self == this
      ensures State() == old(State()).(onUpdate := action)
    {
      onUpdate := action;
      self := this;
    }

    method OnDelete(action: string) returns (self: ForeignKey)
      modifies this
      ensures self == this
      ensures State() == old(State()).(onDelete := action)
    {
      onDelete := action;
      self := this;
    }
  }
}
