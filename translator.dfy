/**
 * The dbDelta translator (src/Engines/WPDB_DB_Delta/DB_Delta_Translator.php):
 * it turns a schema into SQL fragments, one per column and one per primary
 * key, index group and foreign key. It only reads the schema, so it is
 * modelled as functions of the schema's state.
 */
module Translator {
  import opened Wrappers
  import opened PhpStrings
  import opened PhpArrays
  import opened ColumnModel
  import opened IndexModel
  import opened ForeignKeyModel
  import opened SchemaModel

  /** The types `type_mapper` renders with a length when one is set. */
  const LengthTypes: set<string> := {
    "CHAR", "VARCHAR", "BINARY", "VARBINARY", "TEXT", "BLOB",
    "BIT", "TINYINT", "SMALLINT", "MEDIUMINT", "INT", "INTEGER", "BIGINT",
    "FLOAT", "DOUBLE", "DOUBLE PRECISION", "DECIMAL", "DEC",
    "DATETIME", "TIMESTAMP", "TIME"}

  /** The types whose default `parse_default` quotes. */
  const QuotedTypes: set<string> := {"CHAR", "VARCHAR", "BINARY", "VARBINARY", "TEXT", "BLOB"}

  /**
   * `type_mapper`: the upper-cased type, followed by "(length)" exactly when
   * the type takes a length and a length is set (0 included).
   */
  function TypeMapper(t: string, length: Option<int>): (r: string)
    ensures |r| >= |t| && r[..|t|] == Upper(t)
    ensures |r| > |t| <==> Upper(t) in LengthTypes && length.Some?
    ensures |r| > |t| ==> r[|t|..] == "(" + IntToString(length.value) + ")"
  {
    var upper := Upper(t);
    if upper in LengthTypes && length.Some? then
      var suffix := "(" + IntToString(length.value) + ")";
      assert (upper + suffix)[..|t|] == upper && (upper + suffix)[|t|..] == suffix;
      upper + suffix
    else
      assert upper[..|t|] == upper;
      upper
  }

  /** The type's case does not matter to the mapping. */
  lemma TypeMapperIgnoresCase(t: string, length: Option<int>)
    ensures TypeMapper(Upper(t), length) == TypeMapper(t, length)
  {
    UpperIsIdempotent(t);
  }

  /**
   * `parse_default`: nothing without a default; otherwise " DEFAULT " and the
   * value, quoted for the string types and bare for every other type.
   */
  function ParseDefault(t: string, default: Option<string>): (r: string)
    ensures default.None? <==> r == ""
    ensures default.Some? ==> r == " DEFAULT " + (if Upper(t) in QuotedTypes then "'" + default.value + "'" else default.value)
  {
    if default.None? then ""
    else if Upper(t) in QuotedTypes then " DEFAULT '" + default.value + "'"
    else " DEFAULT " + default.value
  }

  /** The column flags between the type and the default. */
  function ColumnFlags(c: ColumnState): string
  {
    FlagsText(c.unsigned == Some(true), c.nullable == Some(true), c.autoIncrement == Some(true))
  }

  function FlagsText(unsigned: bool, nullable: bool, autoIncrement: bool): string
  {
    (if unsigned then " UNSIGNED" else "")
    + (if nullable then " NULL" else " NOT NULL")
    + (if autoIncrement then " AUTO_INCREMENT" else "")
  }

  /** Reads the default back out of what `parse_default` wrote for a column of type `t`. */
  function DefaultOfClause(t: string, clause: string): Option<string>
  {
    if |clause| < 9 then None
    else
      var body := clause[9..];
      if Upper(t) in QuotedTypes && |body| >= 2 then Some(body[1..|body| - 1]) else Some(body)
  }

  /** The default clause loses nothing: the default, or its absence, can be read back from it. */
  lemma ParseDefaultRoundTrip(t: string, default: Option<string>)
    ensures DefaultOfClause(t, ParseDefault(t, default)) == default
  {
    if default.Some? {
      var r := ParseDefault(t, default);
      if Upper(t) in QuotedTypes {
        assert r[9..] == "'" + default.value + "'";
      } else {
        assert r[9..] == default.value;
      }
    }
  }

  /** The flags as booleans: unsigned, nullable, auto-increment. */
  function FlagsOf(c: ColumnState): (bool, bool, bool)
  {
    (c.unsigned == Some(true), c.nullable == Some(true), c.autoIncrement == Some(true))
  }

  /** Reads an optional `word` off the front of `t`: whether it was there, and what follows. */
  function ReadWord(word: string, t: string): (bool, string)
  {
    if |t| >= |word| && t[..|word|] == word then (true, t[|word|..]) else (false, t)
  }

  /** Writing an optional word and reading it back gives the same answer, when what follows cannot be mistaken for it. */
  lemma ReadWordRoundTrip(word: string, present: bool, t: string)
    requires |word| >= 2
    requires |t| >= 2 ==> t[1] != word[1]
    ensures ReadWord(word, (if present then word else "") + t) == (present, t)
  {
    var w := (if present then word else "") + t;
    if present {
      assert w[..|word|] == word && w[|word|..] == t;
    } else {
      assert w == t;
      if |t| >= |word| {
        assert t[..|word|] != word by {
          assert t[..|word|][1] == t[1];
        }
      }
    }
  }

  /** Reads " NULL" or " NOT NULL" off the front of `t`: whether it said NULL, and what follows. */
  function ReadNullability(t: string): (bool, string)
  {
    var (nullable, t1) := ReadWord(" NULL", t);
    (nullable, if nullable then t1 else ReadWord(" NOT NULL", t1).1)
  }

  lemma NullabilityRoundTrip(n: bool, t: string)
    requires |t| >= 2 ==> t[1] == 'A' || t[1] == 'D'
    ensures ReadNullability((if n then " NULL" else " NOT NULL") + t) == (n, t)
  {
    if n {
      ReadWordRoundTrip(" NULL", true, t);
    } else {
      var w := " NOT NULL" + t;
      assert w[..5] != " NULL" by {
        assert w[2] == 'O';
      }
      ReadWordRoundTrip(" NOT NULL", true, t);
    }
  }

  /**
   * Reads the flags back from the text that follows the type, and returns
   * what is left after them: " UNSIGNED" if present, then " NULL" or
   * " NOT NULL", then " AUTO_INCREMENT" if present.
   */
  function ReadFlags(t: string): ((bool, bool, bool), string)
  {
    var (unsigned, t1) := ReadWord(" UNSIGNED", t);
    var (nullable, t2) := ReadNullability(t1);
    var (autoIncrement, rest) := ReadWord(" AUTO_INCREMENT", t2);
    ((unsigned, nullable, autoIncrement), rest)
  }

  /**
   * The flags text says exactly one of " NULL" and " NOT NULL", and each
   * flag can be read back from it whatever default clause follows.
   */
  lemma ColumnFlagsRoundTrip(c: ColumnState, rest: string)
    requires rest == "" || (|rest| >= 9 && rest[..9] == " DEFAULT ")
    ensures ReadFlags(ColumnFlags(c) + rest) == (FlagsOf(c), rest)
  {
    FlagsTextRoundTrip(c.unsigned == Some(true), c.nullable == Some(true), c.autoIncrement == Some(true), rest);
  }

  lemma FlagsTextRoundTrip(u: bool, n: bool, a: bool, rest: string)
    requires rest == "" || (|rest| >= 9 && rest[..9] == " DEFAULT ")
    ensures ReadFlags(FlagsText(u, n, a) + rest) == ((u, n, a), rest)
  {
    var wu, wn, wa := if u then " UNSIGNED" else "", if n then " NULL" else " NOT NULL", if a then " AUTO_INCREMENT" else "";
    var tailA := wa + rest;
    var tailN := wn + tailA;
    assert FlagsText(u, n, a) == wu + wn + wa;
    Regroup(wu, wn, wa, rest);
    if |rest| >= 2 {
      assert rest[1] == 'D';
    }
    ReadWordRoundTrip(" AUTO_INCREMENT", a, rest);
    NullabilityRoundTrip(n, tailA);
    ReadWordRoundTrip(" UNSIGNED", u, tailN);
  }

  /** Different flags never render alike. */
  lemma ColumnFlagsInjective(a: ColumnState, b: ColumnState)
    requires ColumnFlags(a) == ColumnFlags(b)
    ensures FlagsOf(a) == FlagsOf(b)
  {
    ColumnFlagsRoundTrip(a, "");
    ColumnFlagsRoundTrip(b, "");
    assert ColumnFlags(a) + "" == ColumnFlags(a) && ColumnFlags(b) + "" == ColumnFlags(b);
  }

  lemma Assoc(x: string, y: string, z: string)
    ensures (x + y) + z == x + (y + z)
  {
  }

  lemma Regroup(x: string, y: string, z: string, w: string)
    ensures (x + y + z) + w == x + (y + (z + w))
  {
  }

  lemma SameHeadSameTail(head: string, x: string, y: string)
    requires head + x == head + y
    ensures x == y
  {
    assert x == (head + x)[|head|..];
    assert y == (head + y)[|head|..];
  }

  /** One column's definition: `'%s %s%s%s%s%s'`. */
  function ColumnClause(c: ColumnState): (r: string)
    ensures |r| > |c.name| && r[..|c.name| + 1] == c.name + " "
  {
    var head := c.name + " " + TypeMapper(c.dataType.GetOr(""), c.length);
    var r := head + ColumnFlags(c) + ParseDefault(c.dataType.GetOr(""), c.default);
    assert r[..|c.name| + 1] == head[..|c.name| + 1];
    r
  }

  /**
   * The clause determines the column's flags and default: two columns with
   * the same name, type and length render alike only when their flags and
   * defaults agree.
   */
  lemma ColumnClauseDetermines(a: ColumnState, b: ColumnState)
    requires a.name == b.name && a.dataType == b.dataType && a.length == b.length
    requires ColumnClause(a) == ColumnClause(b)
    ensures FlagsOf(a) == FlagsOf(b) && a.default == b.default
  {
    var t := a.dataType.GetOr("");
    var head := a.name + " " + TypeMapper(t, a.length);
    var ra, rb := ParseDefault(t, a.default), ParseDefault(t, b.default);
    assert ColumnClause(a) == head + ColumnFlags(a) + ra && ColumnClause(b) == head + ColumnFlags(b) + rb;
    Assoc(head, ColumnFlags(a), ra);
    Assoc(head, ColumnFlags(b), rb);
    SameHeadSameTail(head, ColumnFlags(a) + ra, ColumnFlags(b) + rb);
    ColumnFlagsRoundTrip(a, ra);
    ColumnFlagsRoundTrip(b, rb);
    ParseDefaultRoundTrip(t, a.default);
    ParseDefaultRoundTrip(t, b.default);
  }

  /** `translate_columns`: one definition per column, under the column's own key. */
  function TranslateColumns(s: SchemaState): (r: seq<(Key, string)>)
    ensures |r| == |s.columns|
    ensures forall i :: 0 <= i < |r| ==> r[i] == (Name(s.columns[i].0), ColumnClause(s.columns[i].1))
  {
    seq(|s.columns|, i requires 0 <= i < |s.columns| => (Name(s.columns[i].0), ColumnClause(s.columns[i].1)))
  }

  function PrimaryClause(column: string): string
  {
    "PRIMARY KEY  (" + column + ")"
  }

  /** The indexes under their list positions, as `get_indexes()` hands them over. */
  function Listed(ixs: seq<IndexState>): (r: seq<(Key, IndexState)>)
    ensures |r| == |ixs|
    ensures forall i :: 0 <= i < |ixs| ==> r[i] == (Idx(i), ixs[i])
  {
    seq(|ixs|, i requires 0 <= i < |ixs| => (Idx(i), ixs[i]))
  }

  /** Entries under integer keys that rise strictly along the list, as in a list PHP built by appending. */
  predicate IncreasingIdx<V>(a: seq<(Key, V)>)
  {
    (forall i :: 0 <= i < |a| ==> a[i].0.Idx?)
    && forall i, j :: 0 <= i < j < |a| ==> a[i].0.n < a[j].0.n
  }

  /** `array_filter` with `is_primary()`: the primary entries, keys kept, order kept. */
  function FilterPrimary(entries: seq<(Key, IndexState)>): (r: seq<(Key, IndexState)>)
    ensures forall e :: e in r <==> e in entries && e.1.primary
    ensures |r| <= |entries|
    ensures IncreasingIdx(entries) ==> IncreasingIdx(r)
  {
    if entries == [] then []
    else
      var rest := FilterPrimary(entries[1..]);
      FilterStep(entries, rest);
      (if entries[0].1.primary then [entries[0]] else []) + rest
  }

  /** Filtering a strictly increasing list keeps it strictly increasing, one entry at a time. */
  lemma FilterStep(entries: seq<(Key, IndexState)>, rest: seq<(Key, IndexState)>)
    requires entries != []
    requires forall e :: e in rest ==> e in entries[1..]
    requires IncreasingIdx(entries[1..]) ==> IncreasingIdx(rest)
    ensures IncreasingIdx(entries) ==> IncreasingIdx(rest) && IncreasingIdx([entries[0]] + rest)
  {
    if IncreasingIdx(entries) {
      forall i, j | 0 <= i < j < |entries[1..]| ensures entries[1..][i].0.n < entries[1..][j].0.n {
        assert entries[1..][i] == entries[i + 1] && entries[1..][j] == entries[j + 1];
      }
      forall j | 0 <= j < |rest| ensures entries[0].0.n < rest[j].0.n {
        assert rest[j] in entries[1..];
        var m :| 0 <= m < |entries[1..]| && entries[1..][m] == rest[j];
        assert entries[m + 1] == rest[j];
      }
      var r := [entries[0]] + rest;
      forall i, j | 0 <= i < j < |r| ensures r[i].0.n < r[j].0.n {
        if i == 0 { assert r[j] == rest[j - 1]; } else { assert r[i] == rest[i - 1] && r[j] == rest[j - 1]; }
      }
    }
  }

  /**
   * `transform_primary`: a clause for every primary index, under the index's
   * position in the list (`array_filter` and `array_map` keep keys).
   */
  function TransformPrimary(ixs: seq<IndexState>): (r: seq<(Key, string)>)
    ensures |r| == |FilterPrimary(Listed(ixs))|
    ensures forall k :: 0 <= k < |r| ==> r[k].0.Idx? && 0 <= r[k].0.n < |ixs|
    ensures forall k :: 0 <= k < |r| ==> ixs[r[k].0.n].primary && r[k].1 == PrimaryClause(ixs[r[k].0.n].column)
    ensures forall i :: 0 <= i < |ixs| && ixs[i].primary ==> (Idx(i), PrimaryClause(ixs[i].column)) in r
    ensures forall a, b :: 0 <= a < b < |r| ==> r[a].0.n < r[b].0.n
  {
    var kept := FilterPrimary(Listed(ixs));
    PrimaryKept(ixs);
    var r := seq(|kept|, k requires 0 <= k < |kept| => (kept[k].0, PrimaryClause(kept[k].1.column)));
    assert forall i :: 0 <= i < |ixs| && ixs[i].primary ==> (Idx(i), PrimaryClause(ixs[i].column)) in r by {
      forall i | 0 <= i < |ixs| && ixs[i].primary ensures (Idx(i), PrimaryClause(ixs[i].column)) in r {
        var k :| 0 <= k < |kept| && kept[k] == (Idx(i), ixs[i]);
        assert r[k] == (Idx(i), PrimaryClause(ixs[i].column));
      }
    }
    r
  }

  /** The primary entries of the listed indexes: in list order, each under its own position. */
  lemma PrimaryKept(ixs: seq<IndexState>)
    ensures IncreasingIdx(FilterPrimary(Listed(ixs)))
    ensures forall k :: 0 <= k < |FilterPrimary(Listed(ixs))| ==>
      var e := FilterPrimary(Listed(ixs))[k];
      e.0.n < |ixs| && e.1 == ixs[e.0.n] && ixs[e.0.n].primary
    ensures forall i :: 0 <= i < |ixs| && ixs[i].primary ==> (Idx(i), ixs[i]) in FilterPrimary(Listed(ixs))
  {
    var listed := Listed(ixs);
    var kept := FilterPrimary(listed);
    assert IncreasingIdx(listed);
    forall k | 0 <= k < |kept| ensures kept[k].0.n < |ixs| && kept[k].1 == ixs[kept[k].0.n] {
      assert kept[k] in listed;
    }
    forall i | 0 <= i < |ixs| && ixs[i].primary ensures (Idx(i), ixs[i]) in kept {
      assert listed[i] in listed;
    }
  }

  /** Two strictly increasing lists with the same entries are the same list. */
  lemma {:induction false} IncreasingIdxUnique<V>(a: seq<(Key, V)>, b: seq<(Key, V)>)
    requires IncreasingIdx(a) && IncreasingIdx(b)
    requires forall e :: e in a <==> e in b
    ensures a == b
    decreases |a|
  {
    EntriesOccur(a, b);
    EntriesOccur(b, a);
    if a != [] {
      SameHead(a, b);
      IncreasingIdxUnique(a[1..], b[1..]);
      assert a == [a[0]] + a[1..] && b == [b[0]] + b[1..];
    }
  }

  /** A list whose entries all occur in `b` leaves `b` non-empty, unless it is empty itself. */
  lemma EntriesOccur<V>(a: seq<(Key, V)>, b: seq<(Key, V)>)
    requires forall e :: e in a ==> e in b
    ensures a != [] ==> b != []
  {
    if a != [] {
      assert a[0] in b;
    }
  }

  /** Non-empty increasing lists with the same entries share their head, and their tails share the rest. */
  lemma SameHead<V>(a: seq<(Key, V)>, b: seq<(Key, V)>)
    requires IncreasingIdx(a) && IncreasingIdx(b) && a != [] && b != []
    requires forall e :: e in a <==> e in b
    ensures a[0] == b[0]
    ensures IncreasingIdx(a[1..]) && IncreasingIdx(b[1..])
    ensures forall e :: e in a[1..] <==> e in b[1..]
  {
    assert a[0] in b;
    var j :| 0 <= j < |b| && b[j] == a[0];
    assert b[0] in a;
    var i :| 0 <= i < |a| && a[i] == b[0];
    assert i == 0;
    IncreasingTail(a);
    IncreasingTail(b);
    TailMembers(a, b);
    TailMembers(b, a);
  }

  /** The tail of an increasing list is increasing and lies above its head. */
  lemma IncreasingTail<V>(a: seq<(Key, V)>)
    requires IncreasingIdx(a) && a != []
    ensures IncreasingIdx(a[1..])
    ensures forall x :: 0 <= x < |a[1..]| ==> a[0].0.n < a[1..][x].0.n
  {
    forall x, y | 0 <= x < y < |a[1..]| ensures a[1..][x].0.n < a[1..][y].0.n {
      assert a[1..][x] == a[x + 1] && a[1..][y] == a[y + 1];
    }
    forall x | 0 <= x < |a[1..]| ensures a[0].0.n < a[1..][x].0.n {
      assert a[1..][x] == a[x + 1];
    }
  }

  /** Past a shared head, every later entry of one list is a later entry of the other. */
  lemma TailMembers<V>(a: seq<(Key, V)>, b: seq<(Key, V)>)
    requires IncreasingIdx(a) && IncreasingIdx(b) && a != [] && b != [] && a[0] == b[0]
    requires forall e :: e in a ==> e in b
    ensures forall e :: e in a[1..] ==> e in b[1..]
  {
    forall e | e in a[1..] ensures e in b[1..] {
      var p :| 0 <= p < |a[1..]| && a[1..][p] == e;
      assert a[p + 1] == e;
      assert e in a;
      var q :| 0 <= q < |b| && b[q] == e;
      assert q != 0;
      assert b[1..][q - 1] == e;
    }
  }

  /**
   * `array_filter` keeps the primary entries in list order and each once:
   * any increasing list holding exactly the primary entries is its result.
   */
  lemma FilterPrimaryExact(ixs: seq<IndexState>, kept: seq<(Key, IndexState)>)
    requires IncreasingIdx(kept)
    requires forall e :: e in kept <==> e in Listed(ixs) && e.1.primary
    ensures kept == FilterPrimary(Listed(ixs))
  {
    PrimaryKept(ixs);
    IncreasingIdxUnique(kept, FilterPrimary(Listed(ixs)));
  }

  /** The array key an index is grouped under: `keyname . '_' . get_type()`. */
  function GroupKey(ix: IndexState): string
  {
    ix.keyname + "_" + IndexType(ix)
  }

  /**
   * Two non-primary indexes get the same group key exactly when their
   * keynames and types agree: the three type suffixes "_", "_unique" and
   * "_fulltext" end in different characters, so they never blur together.
   */
  lemma GroupKeyInjective(a: IndexState, b: IndexState)
    requires !a.primary && !b.primary
    ensures GroupKey(a) == GroupKey(b) <==> a.keyname == b.keyname && IndexType(a) == IndexType(b)
  {
    var ta, tb := IndexType(a), IndexType(b);
    var sa, sb := "_" + ta, "_" + tb;
    assert GroupKey(a) == a.keyname + sa && GroupKey(b) == b.keyname + sb;
    if GroupKey(a) == GroupKey(b) {
      var g := GroupKey(a);
      assert sa[|sa| - 1] == g[|g| - 1] == sb[|sb| - 1];
      assert ta == tb;
      assert |a.keyname| == |b.keyname|;
      assert a.keyname == g[..|a.keyname|] == b.keyname;
    }
  }

  /** The non-primary indexes with group key `k`, in declaration order. */
  function Members(ixs: seq<IndexState>, k: string): (r: seq<IndexState>)
    ensures forall m :: m in r ==> m in ixs && !m.primary && GroupKey(m) == k
  {
    if ixs == [] then []
    else
      var last := ixs[|ixs| - 1];
      Members(ixs[..|ixs| - 1], k) + (if !last.primary && GroupKey(last) == k then [last] else [])
  }

  /** The group keys of the non-primary indexes, in declaration order. */
  function GroupKeys(ixs: seq<IndexState>): seq<string>
  {
    if ixs == [] then []
    else
      var last := ixs[|ixs| - 1];
      GroupKeys(ixs[..|ixs| - 1]) + (if !last.primary then [GroupKey(last)] else [])
  }

  /**
   * One step of `group_indexes`' reducer: a primary index leaves the groups
   * as they are; any other is appended to the group under its key, which is
   * created when missing. Distinct keys and non-empty groups are kept.
   */
  function AddToGroup(groups: seq<(string, seq<IndexState>)>, ix: IndexState): (r: seq<(string, seq<IndexState>)>)
    ensures ix.primary ==> r == groups
    ensures DistinctKeys(groups) ==> DistinctKeys(r)
    ensures (forall i :: 0 <= i < |groups| ==> groups[i].1 != []) ==> forall i :: 0 <= i < |r| ==> r[i].1 != []
    ensures DistinctKeys(groups) && !ix.primary ==> Get(r, GroupKey(ix)) == Some(Get(groups, GroupKey(ix)).GetOr([]) + [ix])
  {
    if ix.primary then groups
    else
      var k := GroupKey(ix);
      var v := Get(groups, k).GetOr([]) + [ix];
      PutKeys(groups, k, v);
      assert (forall i :: 0 <= i < |groups| ==> groups[i].1 != []) ==> forall i :: 0 <= i < |Put(groups, k, v)| ==> Put(groups, k, v)[i].1 != [] by {
        if k in Keys(groups) {
          assert Put(groups, k, v) == groups[IndexOf(groups, k) := (k, v)];
        }
      }
      assert DistinctKeys(groups) ==> Get(Put(groups, k, v), k) == Some(v) by {
        if DistinctKeys(groups) {
          GetAfterPut(groups, k, v, k);
        }
      }
      Put(groups, k, v)
  }

  /** `group_indexes`: `array_reduce` over the indexes, starting from an empty array. */
  function GroupIndexes(ixs: seq<IndexState>): (r: seq<(string, seq<IndexState>)>)
    ensures DistinctKeys(r)
    ensures forall i :: 0 <= i < |r| ==> r[i].1 != []
  {
    if ixs == [] then []
    else AddToGroup(GroupIndexes(ixs[..|ixs| - 1]), ixs[|ixs| - 1])
  }

  /** `group_indexes` lists one group per distinct group key, in order of first appearance. */
  lemma {:induction false} GroupIndexesKeys(ixs: seq<IndexState>)
    ensures Keys(GroupIndexes(ixs)) == FirstSeen([], GroupKeys(ixs))
    decreases |ixs|
  {
    if ixs != [] {
      var init := ixs[..|ixs| - 1];
      var ix := ixs[|ixs| - 1];
      GroupIndexesKeys(init);
      if !ix.primary {
        var before := GroupIndexes(init);
        var key := GroupKey(ix);
        var v := Get(before, key).GetOr([]) + [ix];
        assert GroupIndexes(ixs) == Put(before, key, v);
        assert GroupKeys(ixs) == GroupKeys(init) + [key];
        PutKeys(before, key, v);
        FirstSeenSnoc([], GroupKeys(init), key);
        var fs := FirstSeen([], GroupKeys(init));
        assert Keys(before) == fs;
        assert Keys(Put(before, key, v)) == if key in fs then fs else fs + [key];
        assert FirstSeen([], GroupKeys(ixs)) == if key in fs then fs else fs + [key];
      } else {
        assert GroupIndexes(ixs) == GroupIndexes(init);
        assert GroupKeys(ixs) == GroupKeys(init);
      }
    }
  }

  /**
   * Each group holds exactly the non-primary indexes with its key, in
   * declaration order, and no other key has a group. With GroupKeyInjective:
   * non-primary indexes share a clause exactly when keyname and type agree.
   */
  lemma {:induction false} GroupIndexesMembers(ixs: seq<IndexState>, k: string)
    ensures Get(GroupIndexes(ixs), k) == if Members(ixs, k) == [] then None else Some(Members(ixs, k))
    decreases |ixs|
  {
    if ixs != [] {
      var init := ixs[..|ixs| - 1];
      var ix := ixs[|ixs| - 1];
      GroupIndexesMembers(init, k);
      if !ix.primary {
        var before := GroupIndexes(init);
        var key := GroupKey(ix);
        GroupIndexesMembers(init, key);
        var v := Get(before, key).GetOr([]) + [ix];
        assert GroupIndexes(ixs) == Put(before, key, v);
        assert Members(ixs, key) == Members(init, key) + [ix];
        assert v == Members(ixs, key);
        GetAfterPut(before, key, v, k);
        if k != key {
          assert Members(ixs, k) == Members(init, k);
        }
      } else {
        assert GroupIndexes(ixs) == GroupIndexes(init);
        assert Members(ixs, k) == Members(init, k);
      }
    }
  }

  /** A key has members exactly when it is one of the group keys. */
  lemma {:induction false} MembersIffKey(ixs: seq<IndexState>, k: string)
    ensures Members(ixs, k) != [] <==> k in GroupKeys(ixs)
    decreases |ixs|
  {
    if ixs != [] {
      MembersIffKey(ixs[..|ixs| - 1], k);
    }
  }

  /** `FirstSeen` of one more name appends it only if it is new. */
  lemma {:induction false} FirstSeenSnoc(seen: seq<string>, names: seq<string>, x: string)
    ensures FirstSeen(seen, names + [x]) ==
      if x in FirstSeen(seen, names) then FirstSeen(seen, names) else FirstSeen(seen, names) + [x]
    decreases |names|
  {
    if names == [] {
      assert names + [x] == [x];
    } else {
      var next := if names[0] in seen then seen else seen + [names[0]];
      assert (names + [x])[1..] == names[1..] + [x];
      FirstSeenSnoc(next, names[1..], x);
    }
  }

  /** `FirstSeen` holds exactly the names already seen and those given. */
  lemma {:induction false} FirstSeenHas(seen: seq<string>, names: seq<string>, x: string)
    ensures x in FirstSeen(seen, names) <==> x in seen || x in names
    decreases |names|
  {
    if names != [] {
      var next := if names[0] in seen then seen else seen + [names[0]];
      FirstSeenHas(next, names[1..], x);
      assert names == [names[0]] + names[1..];
    }
  }

  function ColumnsOf(group: seq<IndexState>): (r: seq<string>)
    ensures |r| == |group|
    ensures forall i :: 0 <= i < |group| ==> r[i] == group[i].column
  {
    seq(|group|, i requires 0 <= i < |group| => group[i].column)
  }

  /**
   * One group's clause, named and typed after its first index: `'%sINDEX %s (%s)'`,
   * the upper-cased type and a space only when the type is non-empty, then
   * every member's column in the group's order.
   */
  function IndexClause(group: seq<IndexState>): (r: string)
    requires group != []
    ensures IndexType(group[0]) == "" ==>
      r == "INDEX " + group[0].keyname + " (" + Join(", ", ColumnsOf(group)) + ")"
    ensures IndexType(group[0]) != "" ==>
      r == Upper(IndexType(group[0])) + " INDEX " + group[0].keyname + " (" + Join(", ", ColumnsOf(group)) + ")"
  {
    var t := IndexType(group[0]);
    (if |t| != 0 then Upper(t) + " " else "") + "INDEX " + group[0].keyname + " (" + Join(", ", ColumnsOf(group)) + ")"
  }

  /** `transform_indexes`: one clause per group, under the group's key. */
  function TransformIndexes(ixs: seq<IndexState>): (r: seq<(Key, string)>)
    ensures |r| == |GroupIndexes(ixs)|
    ensures forall i :: 0 <= i < |r| ==> r[i].0 == Name(GroupIndexes(ixs)[i].0)
    ensures forall i :: 0 <= i < |r| ==> r[i].1 == IndexClause(GroupIndexes(ixs)[i].1)
    ensures NameKeysDistinct(r)
  {
    var groups := GroupIndexes(ixs);
    seq(|groups|, i requires 0 <= i < |groups| => (Name(groups[i].0), IndexClause(groups[i].1)))
  }

  /**
   * The clause stored under a group key is the clause of exactly the
   * non-primary indexes with that key, in declaration order; a key no
   * non-primary index produces has no clause.
   */
  lemma TransformIndexesClause(ixs: seq<IndexState>, k: string)
    ensures Members(ixs, k) != [] <==> k in GroupKeys(ixs)
    ensures Get(TransformIndexes(ixs), Name(k)) ==
      if k in GroupKeys(ixs) then Some(IndexClause(Members(ixs, k))) else None
  {
    MembersIffKey(ixs, k);
    GroupIndexesMembers(ixs, k);
    var g := GroupIndexes(ixs);
    var t := TransformIndexes(ixs);
    if k in Keys(g) {
      var p := IndexOf(g, k);
      assert Keys(t)[p] == Name(k);
      var q := IndexOf(t, Name(k));
      assert g[q].0 == k;
      assert q == p;
    } else {
      forall j | 0 <= j < |t| ensures Keys(t)[j] != Name(k) {
        assert Keys(g)[j] == g[j].0;
      }
    }
  }

  /** One foreign key: `'FOREIGN KEY %s(%s) REFERENCES %s(%s)%s%s'`, a missing reference printing as "". */
  function ForeignKeyClause(fk: ForeignKeyState): string
  {
    "FOREIGN KEY " + fk.keyname + "(" + fk.column + ") REFERENCES "
    + fk.referenceTable.GetOr("") + "(" + fk.referenceColumn.GetOr("") + ")"
    + (if |fk.onUpdate| != 0 then " ON UPDATE " + fk.onUpdate else "")
    + (if |fk.onDelete| != 0 then " ON DELETE " + fk.onDelete else "")
  }

  /** `transform_foreign_keys`: one clause per foreign key, in order. */
  function TransformForeignKeys(fks: seq<ForeignKeyState>): (r: seq<(Key, string)>)
    ensures |r| == |fks|
    ensures forall i :: 0 <= i < |r| ==> r[i] == (Idx(i), ForeignKeyClause(fks[i]))
  {
    seq(|fks|, i requires 0 <= i < |fks| => (Idx(i), ForeignKeyClause(fks[i])))
  }

  /** `translate_indexes`: `array_merge` of the primary, grouped and foreign-key clauses. */
  function TranslateIndexes(s: SchemaState): seq<(Key, string)>
  {
    ArrayMerge(ArrayMerge(TransformPrimary(s.indexes), TransformIndexes(s.indexes)), TransformForeignKeys(s.foreignKeys))
  }

  /**
   * The index clauses come out primary keys first, then one per index group,
   * then the foreign keys, and none is lost to a key clash; their string keys
   * are the group keys.
   */
  lemma TranslateIndexesOrder(s: SchemaState)
    ensures Values(TranslateIndexes(s)) ==
      Values(TransformPrimary(s.indexes)) + Values(TransformIndexes(s.indexes)) + Values(TransformForeignKeys(s.foreignKeys))
    ensures NameKeysDistinct(TranslateIndexes(s))
    ensures forall k: Key :: k in Keys(TranslateIndexes(s)) && k.Name? ==> k in Keys(TransformIndexes(s.indexes))
  {
    var f := TransformForeignKeys(s.foreignKeys);
    var pg := ArrayMerge(TransformPrimary(s.indexes), TransformIndexes(s.indexes));
    PrimaryThenGroups(s.indexes);
    MergedPrimaryGroups(s.indexes);
    IdxOnlyFresh(MergeAll([], pg), f);
    ArrayMergeValues(pg, f);
    MergeAllNames(MergeAll([], pg), f);
  }

  /** Re-merging the first step's result keeps its string keys distinct and drawn from the groups. */
  lemma MergedPrimaryGroups(ixs: seq<IndexState>)
    ensures NamesFresh([], ArrayMerge(TransformPrimary(ixs), TransformIndexes(ixs)))
    ensures var m := MergeAll([], ArrayMerge(TransformPrimary(ixs), TransformIndexes(ixs)));
      NameKeysDistinct(m) && forall k: Key :: k in Keys(m) && k.Name? ==> k in Keys(TransformIndexes(ixs))
  {
    var pg := ArrayMerge(TransformPrimary(ixs), TransformIndexes(ixs));
    PrimaryThenGroups(ixs);
    MergeAllNames([], pg);
  }

  /** The first `array_merge` step: primary-key clauses, then group clauses, none lost. */
  lemma PrimaryThenGroups(ixs: seq<IndexState>)
    ensures Values(ArrayMerge(TransformPrimary(ixs), TransformIndexes(ixs))) == Values(TransformPrimary(ixs)) + Values(TransformIndexes(ixs))
    ensures NameKeysDistinct(ArrayMerge(TransformPrimary(ixs), TransformIndexes(ixs)))
    ensures forall k: Key :: k in Keys(ArrayMerge(TransformPrimary(ixs), TransformIndexes(ixs))) && k.Name? ==> k in Keys(TransformIndexes(ixs))
  {
    var p := TransformPrimary(ixs);
    var g := TransformIndexes(ixs);
    var none: seq<(Key, string)> := [];
    var pm := MergeAll(none, p);
    assert forall k: Key :: k in Keys(pm) ==> k.Idx? by {
      MergeAllNames(none, p);
    }
    assert NameKeysDistinct(pm) by {
      forall j | 0 <= j < |pm| ensures pm[j].0.Idx? {
        assert Keys(pm)[j] == pm[j].0;
      }
    }
    ArrayMergeValues(p, g);
    MergeAllNames(pm, g);
  }

  /** An allow-listed type with a length, as the translator's tests expect ("INT(24)", "FLOAT(11)"). */
  lemma IntTypeWithLength()
    ensures TypeMapper("int", Some(11)) == "INT(11)"
  {
    assert Upper("int") == "INT" by {
      assert Upper("int")[0] == 'I' && Upper("int")[1] == 'N' && Upper("int")[2] == 'T';
    }
    assert "INT" in LengthTypes;
    assert IntToString(11) == "11" by {
      assert NatToString(1) == "1";
    }
  }

  /** The translator's own example: an unsigned int(11) auto-increment `id`. */
  lemma IdColumnExample()
    ensures ColumnClause(ColumnState("id", Some("int"), Some(11), None, None, Some(true), Some(true), None))
      == "id" + " " + "INT(11)" + (" UNSIGNED" + " NOT NULL" + " AUTO_INCREMENT")
  {
    IntTypeWithLength();
  }
}
