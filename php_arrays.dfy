/**
 * PHP ordered arrays, as the builders use them: a sequence of (key, value)
 * entries in insertion order. Assigning to a key that is already present
 * replaces its value where it stands; assigning to a new key appends.
 * `array_merge` renumbers integer keys and lets a later string key overwrite
 * an earlier one in place.
 */
module PhpArrays {
  import opened Wrappers

  /** An array key: an integer position or a string name. */
  datatype Key = Idx(n: int) | Name(s: string)

  function Keys<K, V>(a: seq<(K, V)>): (r: seq<K>)
    ensures |r| == |a|
    ensures forall i :: 0 <= i < |a| ==> r[i] == a[i].0
  {
    seq(|a|, i requires 0 <= i < |a| => a[i].0)
  }

  function Values<K, V>(a: seq<(K, V)>): (r: seq<V>)
    ensures |r| == |a|
    ensures forall i :: 0 <= i < |a| ==> r[i] == a[i].1
  {
    seq(|a|, i requires 0 <= i < |a| => a[i].1)
  }

  /** Regrouping appended lists, stated once over plain sequences. */
  lemma ConcatAssoc<T>(a: seq<T>, b: seq<T>, c: seq<T>)
    ensures a + b + c == a + (b + c)
  {
  }

  lemma ConcatRegroup<T>(a: seq<T>, b: seq<T>, c: seq<T>, d: seq<T>)
    ensures a + (b + c + d) == a + b + c + d
  {
  }

  lemma ValuesAppend<K, V>(a: seq<(K, V)>, b: seq<(K, V)>)
    ensures Values(a + b) == Values(a) + Values(b)
  {
  }

  predicate DistinctKeys<K(==), V>(a: seq<(K, V)>)
  {
    forall i, j :: 0 <= i < j < |a| ==> a[i].0 != a[j].0
  }

  /** Position of the entry stored under `k`. */
  function IndexOf<K(==), V>(a: seq<(K, V)>, k: K): (p: nat)
    requires k in Keys(a)
    ensures p < |a| && a[p].0 == k
    ensures forall q :: 0 <= q < p ==> a[q].0 != k
  {
    if a[0].0 == k then 0
    else
      assert k in Keys(a[1..]) by {
        var i :| 0 <= i < |a| && Keys(a)[i] == k;
        assert Keys(a[1..])[i - 1] == k;
      }
      1 + IndexOf(a[1..], k)
  }

  /** `$a[k]` read with `??`: the value stored under `k`, if any. */
  function Get<K(==), V>(a: seq<(K, V)>, k: K): Option<V>
  {
    if k in Keys(a) then Some(a[IndexOf(a, k)].1) else None
  }

  /** `$a[k] = v`: replace the value under `k` in place, or append a new entry. */
  function Put<K(==), V>(a: seq<(K, V)>, k: K, v: V): (r: seq<(K, V)>)
    ensures k in Keys(a) ==> r == a[IndexOf(a, k) := (k, v)]
    ensures k !in Keys(a) ==> r == a + [(k, v)]
  {
    if a == [] then [(k, v)]
    else if a[0].0 == k then [(k, v)] + a[1..]
    else
      KeysTail(a, k);
      var rest := Put(a[1..], k, v);
      ConsPut(a, k, v, rest);
      [a[0]] + rest
  }

  /** Putting into the rest of an array, past a first entry with another key, puts into the whole. */
  lemma ConsPut<K, V>(a: seq<(K, V)>, k: K, v: V, rest: seq<(K, V)>)
    requires a != [] && a[0].0 != k
    requires k in Keys(a[1..]) ==> rest == a[1..][IndexOf(a[1..], k) := (k, v)]
    requires k !in Keys(a[1..]) ==> rest == a[1..] + [(k, v)]
    ensures k in Keys(a) ==> [a[0]] + rest == a[IndexOf(a, k) := (k, v)]
    ensures k !in Keys(a) ==> [a[0]] + rest == a + [(k, v)]
  {
    KeysTail(a, k);
    if k in Keys(a[1..]) {
      var q := IndexOf(a[1..], k);
      assert IndexOf(a, k) == 1 + q;
      ConsUpdate(a, q, (k, v));
    } else {
      assert a == [a[0]] + a[1..];
      ConcatAssoc([a[0]], a[1..], [(k, v)]);
    }
  }

  /** Overwriting the entry a `Put` just wrote is the same as putting the new value directly. */
  lemma PutReplaced<K, V>(a: seq<(K, V)>, k: K, v: V, w: V, p: int)
    requires p == if k in Keys(a) then IndexOf(a, k) else |a|
    ensures 0 <= p < |Put(a, k, v)| && Put(a, k, v)[p := (k, w)] == Put(a, k, w)
  {
  }

  /** Updating the rest of a sequence at `q` updates the whole at `q + 1`. */
  lemma ConsUpdate<T>(a: seq<T>, q: int, x: T)
    requires 0 <= q < |a| - 1
    ensures [a[0]] + a[1..][q := x] == a[q + 1 := x]
  {
    var l := [a[0]] + a[1..][q := x];
    forall i | 0 <= i < |a| ensures l[i] == a[q + 1 := x][i] {
      if i > 0 {
        assert l[i] == a[1..][q := x][i - 1];
      }
    }
  }

  /** Past a first entry with another key, `k` is in the array exactly when it is in the rest. */
  lemma KeysTail<K, V>(a: seq<(K, V)>, k: K)
    requires a != [] && a[0].0 != k
    ensures k in Keys(a) <==> k in Keys(a[1..])
  {
    if k in Keys(a) {
      var i :| 0 <= i < |a| && Keys(a)[i] == k;
      assert Keys(a[1..])[i - 1] == k;
    }
    if k in Keys(a[1..]) {
      var i :| 0 <= i < |a| - 1 && Keys(a[1..])[i] == k;
      assert Keys(a)[i + 1] == k;
    }
  }

  /** An assignment keeps every key where it was, and adds `k` at the end when it is new. */
  lemma PutKeys<K, V>(a: seq<(K, V)>, k: K, v: V)
    ensures Keys(Put(a, k, v)) == if k in Keys(a) then Keys(a) else Keys(a) + [k]
    ensures DistinctKeys(a) ==> DistinctKeys(Put(a, k, v))
  {
    if k in Keys(a) {
      assert Keys(Put(a, k, v)) == Keys(a);
    } else {
      assert Keys(Put(a, k, v)) == Keys(a) + [k];
    }
  }

  /** Reading back: the assigned key yields the new value, every other key its old one. */
  lemma GetAfterPut<K, V>(a: seq<(K, V)>, k: K, v: V, other: K)
    requires DistinctKeys(a)
    ensures Get(Put(a, k, v), k) == Some(v)
    ensures other != k ==> Get(Put(a, k, v), other) == Get(a, other)
  {
    var r := Put(a, k, v);
    PutKeys(a, k, v);
    assert k in Keys(r) by {
      if k in Keys(a) {
        assert Keys(r)[IndexOf(a, k)] == k;
      } else {
        assert Keys(r)[|a|] == k;
      }
    }
    if other != k && other in Keys(a) {
      var p := IndexOf(a, other);
      assert Keys(r)[p] == other;
      assert IndexOf(r, other) == p;
    }
  }

  /** Number of integer-keyed entries, which is the next index `array_merge` hands out. */
  function CountIdx<V>(a: seq<(Key, V)>): (n: nat)
    ensures n <= |a|
  {
    if a == [] then 0 else CountIdx(a[..|a| - 1]) + (if a[|a| - 1].0.Idx? then 1 else 0)
  }

  /** One step of `array_merge`: integer keys are renumbered, string keys assigned. */
  function MergeOne<V>(acc: seq<(Key, V)>, e: (Key, V)): seq<(Key, V)>
  {
    match e.0
    case Idx(_) => acc + [(Idx(CountIdx(acc)), e.1)]
    case Name(_) => Put(acc, e.0, e.1)
  }

  function MergeAll<V>(acc: seq<(Key, V)>, b: seq<(Key, V)>): seq<(Key, V)>
    decreases |b|
  {
    if b == [] then acc else MergeAll(MergeOne(acc, b[0]), b[1..])
  }

  /** `array_merge(a, b)`. */
  function ArrayMerge<V>(a: seq<(Key, V)>, b: seq<(Key, V)>): seq<(Key, V)>
  {
    MergeAll(MergeAll([], a), b)
  }

  /** No string key occurs twice. */
  predicate NameKeysDistinct<V>(a: seq<(Key, V)>)
  {
    forall i, j :: 0 <= i < j < |a| && a[j].0.Name? ==> a[i].0 != a[j].0
  }

  /** No string key of `b` is already in `acc` nor repeated later in `b`. */
  predicate NamesFresh<V>(acc: seq<(Key, V)>, b: seq<(Key, V)>)
  {
    && (forall j :: 0 <= j < |b| && b[j].0.Name? ==> b[j].0 !in Keys(acc))
    && NameKeysDistinct(b)
  }

  /** One merge step adds exactly one entry at the end when its string key is new. */
  lemma MergeOneAppends<V>(acc: seq<(Key, V)>, e: (Key, V))
    requires e.0.Name? ==> e.0 !in Keys(acc)
    ensures MergeOne(acc, e) == acc + [(if e.0.Name? then e.0 else Idx(CountIdx(acc)), e.1)]
  {
  }

  /** Without a string-key clash, merging keeps every value of both sides, in order. */
  lemma {:induction false} MergeAllValues<V>(acc: seq<(Key, V)>, b: seq<(Key, V)>)
    requires NamesFresh(acc, b)
    ensures Values(MergeAll(acc, b)) == Values(acc) + Values(b)
    decreases |b|
  {
    if b != [] {
      var k := if b[0].0.Name? then b[0].0 else Idx(CountIdx(acc));
      MergeOneAppends(acc, b[0]);
      var next := acc + [(k, b[0].1)];
      NamesFreshStep(acc, b, k);
      MergeAllValues(next, b[1..]);
      ValuesStep(acc, b, k);
    }
  }

  /** Moving the first entry of `b` to the end of `acc`, under any key, keeps the values in order. */
  lemma ValuesStep<V>(acc: seq<(Key, V)>, b: seq<(Key, V)>, k: Key)
    requires b != []
    ensures Values(acc + [(k, b[0].1)]) + Values(b[1..]) == Values(acc) + Values(b)
  {
    assert Values(b) == [b[0].1] + Values(b[1..]);
    assert Values(acc + [(k, b[0].1)]) == Values(acc) + [b[0].1];
    ConcatAssoc(Values(acc), [b[0].1], Values(b[1..]));
  }

  /** After the first entry of `b` is appended under a key `b`'s other string keys avoid, the rest is still fresh. */
  lemma NamesFreshStep<V>(acc: seq<(Key, V)>, b: seq<(Key, V)>, k: Key)
    requires NamesFresh(acc, b) && b != []
    requires b[0].0.Name? ==> k == b[0].0
    requires !b[0].0.Name? ==> k.Idx?
    ensures NamesFresh(acc + [(k, b[0].1)], b[1..])
  {
    var next := acc + [(k, b[0].1)];
    assert Keys(next) == Keys(acc) + [k];
    forall j | 0 <= j < |b[1..]| && b[1..][j].0.Name?
      ensures b[1..][j].0 !in Keys(next)
    {
      assert b[1..][j] == b[j + 1];
    }
    assert NameKeysDistinct(b[1..]) by {
      forall i, j | 0 <= i < j < |b[1..]| ensures b[1..][i].0.Name? && b[1..][j].0.Name? ==> b[1..][i].0 != b[1..][j].0 {
        assert b[1..][i] == b[i + 1] && b[1..][j] == b[j + 1];
      }
    }
  }

  /** `array_merge` of two arrays whose string keys do not clash lists the values of both, in order. */
  lemma ArrayMergeValues<V>(a: seq<(Key, V)>, b: seq<(Key, V)>)
    requires NamesFresh([], a)
    requires NamesFresh(MergeAll([], a), b)
    ensures Values(ArrayMerge(a, b)) == Values(a) + Values(b)
  {
    var m := MergeAll([], a);
    MergeAllValues([], a);
    assert Values(m) == Values(a);
    MergeAllValues(m, b);
  }

  /** Merging never adds more entries than its inputs have. */
  lemma {:induction false} MergeAllLength<V>(acc: seq<(Key, V)>, b: seq<(Key, V)>)
    ensures |MergeAll(acc, b)| <= |acc| + |b|
    ensures (exists j :: 0 <= j < |b| && b[j].0.Name? && b[j].0 in Keys(acc)) ==> |MergeAll(acc, b)| < |acc| + |b|
    decreases |b|
  {
    if b != [] {
      var next := MergeOne(acc, b[0]);
      if b[0].0.Name? {
        PutKeys(acc, b[0].0, b[0].1);
      }
      assert forall key :: key in Keys(acc) ==> key in Keys(next) by {
        forall key | key in Keys(acc) ensures key in Keys(next) {
          var i :| 0 <= i < |acc| && Keys(acc)[i] == key;
          assert Keys(next)[i] == key;
        }
      }
      MergeAllLength(next, b[1..]);
      if exists j :: 0 <= j < |b| && b[j].0.Name? && b[j].0 in Keys(acc) {
        var j :| 0 <= j < |b| && b[j].0.Name? && b[j].0 in Keys(acc);
        if j > 0 {
          assert b[1..][j - 1].0 in Keys(next);
        }
      }
    }
  }

  /** Entries under integer keys only never clash with a string key. */
  lemma IdxOnlyFresh<V>(acc: seq<(Key, V)>, b: seq<(Key, V)>)
    requires forall j :: 0 <= j < |b| ==> b[j].0.Idx?
    ensures NamesFresh(acc, b)
  {
  }

  /** String keys of `b` that `a` does not use are still unused once `a` is merged. */
  lemma MergedNamesAvoid<V>(a: seq<(Key, V)>, b: seq<(Key, V)>)
    requires NameKeysDistinct(b)
    requires forall j :: 0 <= j < |b| && b[j].0.Name? ==> b[j].0 !in Keys(a)
    ensures NamesFresh(MergeAll([], a), b)
  {
    MergeAllNames([], a);
  }

  /** Merging keeps string keys unique and invents none: each one comes from one of the inputs. */
  lemma {:induction false} MergeAllNames<V>(acc: seq<(Key, V)>, b: seq<(Key, V)>)
    requires NameKeysDistinct(acc)
    ensures NameKeysDistinct(MergeAll(acc, b))
    ensures forall k :: k in Keys(MergeAll(acc, b)) && k.Name? ==> k in Keys(acc) || k in Keys(b)
    decreases |b|
  {
    if b != [] {
      var next := MergeOne(acc, b[0]);
      assert NameKeysDistinct(next) && forall k: Key :: k in Keys(next) && k.Name? ==> k in Keys(acc) || k == b[0].0 by {
        if b[0].0.Name? {
          PutKeys(acc, b[0].0, b[0].1);
        } else {
          assert Keys(next) == Keys(acc) + [Idx(CountIdx(acc))];
        }
      }
      MergeAllNames(next, b[1..]);
      assert b[0].0 in Keys(b);
      forall k | k in Keys(b[1..]) ensures k in Keys(b) {
        var i :| 0 <= i < |b| - 1 && Keys(b[1..])[i] == k;
        assert Keys(b)[i + 1] == k;
      }
    }
  }

  /** Merging never drops a string key: one present on either side is present afterwards. */
  lemma {:induction false} MergeAllKeepsNames<V>(acc: seq<(Key, V)>, b: seq<(Key, V)>, k: Key)
    requires k.Name?
    requires k in Keys(acc) || k in Keys(b)
    ensures k in Keys(MergeAll(acc, b))
    decreases |b|
  {
    if b != [] {
      var next := MergeOne(acc, b[0]);
      if b[0].0.Name? {
        PutKeys(acc, b[0].0, b[0].1);
      } else {
        assert Keys(next) == Keys(acc) + [Idx(CountIdx(acc))];
      }
      if k in Keys(acc) {
        var i :| 0 <= i < |acc| && Keys(acc)[i] == k;
        assert Keys(next)[i] == k;
      } else if k == b[0].0 {
        assert k in Keys(next);
      } else {
        var i :| 0 <= i < |b| && Keys(b)[i] == k;
        assert Keys(b[1..])[i - 1] == k;
      }
      MergeAllKeepsNames(next, b[1..], k);
    }
  }
}
