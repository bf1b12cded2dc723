/**
 * The dbDelta schema validator
 * (src/Engines/WPDB_DB_Delta/DB_Delta_Validator.php). It keeps a list of
 * error strings: `validate` clears it, `validate_columns` appends one message
 * per column without a type, and `validate_primary_key` runs a reducer over
 * the indexes. That reducer is declared to return an array but returns
 * nothing, so under strict types PHP raises a TypeError on the first index
 * it visits.
 */
module Validator {
  import opened Wrappers
  import opened ColumnModel
  import opened SchemaModel

  /** `sprintf( 'Column "%s" has no type defined', $name )`. */
  function TypeErrorMessage(name: string): string
  {
    "Column \"" + name + "\" has no type defined"
  }

  predicate Untyped(c: ColumnState)
  {
    c.dataType.None?
  }

  /** The message one column contributes, if any. */
  function ErrorFor(c: ColumnState): seq<string>
  {
    if Untyped(c) then [TypeErrorMessage(c.name)] else []
  }

  /** What `validate_columns` appends: the messages of the columns, in column order. */
  function MissingTypeErrors(cols: seq<(string, ColumnState)>): (r: seq<string>)
    ensures |r| <= |cols|
    decreases |cols|
  {
    if cols == [] then [] else ErrorFor(cols[0].1) + MissingTypeErrors(cols[1..])
  }

  /**
   * Exactly the columns without a type are reported: there are no messages
   * when every column has a type, each such column has its message, and
   * every message names such a column.
   */
  lemma {:induction false} MissingTypeErrorsSpec(cols: seq<(string, ColumnState)>)
    ensures MissingTypeErrors(cols) == [] <==> forall i :: 0 <= i < |cols| ==> !Untyped(cols[i].1)
    ensures forall i :: 0 <= i < |cols| && Untyped(cols[i].1) ==> TypeErrorMessage(cols[i].1.name) in MissingTypeErrors(cols)
    ensures forall m :: m in MissingTypeErrors(cols) ==>
      exists i :: 0 <= i < |cols| && Untyped(cols[i].1) && m == TypeErrorMessage(cols[i].1.name)
    decreases |cols|
  {
    if cols != [] {
      MissingTypeErrorsSpec(cols[1..]);
      assert forall i :: 1 <= i < |cols| ==> cols[i] == cols[1..][i - 1];
      forall m | m in MissingTypeErrors(cols)
        ensures exists i :: 0 <= i < |cols| && Untyped(cols[i].1) && m == TypeErrorMessage(cols[i].1.name)
      {
        if m !in ErrorFor(cols[0].1) {
          var i :| 0 <= i < |cols[1..]| && Untyped(cols[1..][i].1) && m == TypeErrorMessage(cols[1..][i].1.name);
          assert cols[i + 1] == cols[1..][i];
        }
      }
    }
  }

  lemma MissingTypeErrorsCons(cols: seq<(string, ColumnState)>)
    requires cols != []
    ensures MissingTypeErrors(cols) == ErrorFor(cols[0].1) + MissingTypeErrors(cols[1..])
  {
  }

  /** The messages follow the columns: errors of a concatenation are the errors of each part, in order. */
  lemma {:induction false} MissingTypeErrorsAppend(a: seq<(string, ColumnState)>, b: seq<(string, ColumnState)>)
    ensures MissingTypeErrors(a + b) == MissingTypeErrors(a) + MissingTypeErrors(b)
    decreases |a|
  {
    if a == [] {
      assert a + b == b;
    } else {
      var ab := a + b;
      assert ab[0] == a[0] && ab[1..] == a[1..] + b;
      MissingTypeErrorsCons(ab);
      MissingTypeErrorsCons(a);
      MissingTypeErrorsAppend(a[1..], b);
    }
  }

  /** What `validate` ends in: a boolean, or the reducer's TypeError. */
  datatype Validation = Verdict(hasErrors: bool) | ReducerTypeError

  /** `validate( $schema )`, as written, on the schema's state. */
  function ValidationOf(s: SchemaState): (v: Validation)
    ensures v.ReducerTypeError? <==> |s.indexes| != 0
    ensures v.Verdict? ==> (v.hasErrors <==> exists i :: 0 <= i < |s.columns| && Untyped(s.columns[i].1))
  {
    MissingTypeErrorsSpec(s.columns);
    if |s.indexes| != 0 then ReducerTypeError
    else Verdict(MissingTypeErrors(s.columns) != [])
  }

  /**
   * `validate( $schema )` as evidently intended: the primary-key reducer
   * returns its carry, so the verdict always comes from the column check,
   * and it agrees with the code as written whenever the reducer has no
   * index to visit.
   */
  function IntendedValidationOf(s: SchemaState): (v: Validation)
    ensures v.Verdict?
    ensures v.hasErrors <==> exists i :: 0 <= i < |s.columns| && Untyped(s.columns[i].1)
    ensures |s.indexes| == 0 ==> v == ValidationOf(s)
  {
    MissingTypeErrorsSpec(s.columns);
    Verdict(MissingTypeErrors(s.columns) != [])
  }

  class DbDeltaValidator {
    var errors: seq<string>

    constructor()
      ensures errors == []
    {
      errors := [];
    }

    /**
     * `validate( $schema )`: resets the errors, checks the columns, then runs
     * the primary-key reducer; the result is `has_errors()` unless the reducer
     * fails first. Either way the errors describe only this schema.
     */
    method Validate(schema: Schema) returns (v: Validation)
      modifies this
      ensures errors == MissingTypeErrors(schema.State().columns)
      ensures v == ValidationOf(schema.State())
    {
      errors := [];
      ValidateColumns(schema);
      var failed := ValidatePrimaryKey(schema);
      if failed {
        return ReducerTypeError;
      }
      var has := HasErrors();
      return Verdict(has);
    }

    /** `get_errors()`. */
    function GetErrors(): (r: seq<string>)
      reads this
      ensures r == errors
    {
      errors
    }

    /** `has_errors()`: whether any error has been recorded. */
    function HasErrors(): (b: bool)
      reads this
      ensures b <==> errors != []
    {
      |errors| != 0
    }

    /** `validate_columns( $schema )`: appends a message for each column without a type. */
    method ValidateColumns(schema: Schema)
      modifies this
      ensures errors == old(errors) + MissingTypeErrors(schema.State().columns)
    {
      var missing := MissingTypeErrors(schema.State().columns);
      if |missing| != 0 {
        errors := errors + missing;
      }
      assert schema.State() == old(schema.State());
    }

    /**
     * `validate_primary_key( $schema )`: never records an error; `failed`
     * says that the reducer raised its TypeError, which it does as soon as
     * there is an index to visit.
     */
    method ValidatePrimaryKey(schema: Schema) returns (failed: bool)
      ensures failed <==> |schema.State().indexes| != 0
    {
      failed := |schema.indexes| != 0;
    }
  }
}
