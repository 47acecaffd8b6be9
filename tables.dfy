/**
 * Maps as the conversion layer reads and fills them.
 *
 * A source map is read by iterating its keys and asking for each key's value.
 * A target map is filled by `put(key, value)` once per source key. `put` with a
 * key equivalent to a stored one replaces that key's value and keeps the stored
 * key in its place; otherwise the key is appended. The equivalence is a
 * canonical-key function: the identity for ordinary maps, a case fold for the
 * case-insensitive ones.
 *
 * A `Table` holds the stored keys in iteration order and the values indexed by
 * the canonical form of their key.
 */
module Tables {
  import opened Wrappers
  import opened Unique

  datatype Table<K(==), V> = Table(keys: seq<K>, values: map<K, V>)

  /** A table as a map under `key` keeps it: keys pairwise inequivalent, one value per stored key. */
  ghost predicate ValidBy<K, V>(t: Table<K, V>, key: K -> K) {
    && UniqueBy(t.keys, key)
    && t.values.Keys == set i | 0 <= i < |t.keys| :: key(t.keys[i])
  }

  /** An ordinary (equality-keyed) source map: distinct keys, each with a value, and no other value. */
  ghost predicate Wellformed<K, V>(t: Table<K, V>) {
    && (forall i, j :: 0 <= i < j < |t.keys| ==> t.keys[i] != t.keys[j])
    && t.values.Keys == Elements(t.keys)
  }

  function Empty<K(==), V>(): Table<K, V> {
    Table([], map[])
  }

  /** The key-value pairs a source map yields, in its key order. */
  function Entries<K(==), V>(t: Table<K, V>): seq<(K, V)>
    requires forall k :: k in t.keys ==> k in t.values
  {
    seq(|t.keys|, i requires 0 <= i < |t.keys| => (t.keys[i], t.values[t.keys[i]]))
  }

  /** The keys of a sequence of entries. */
  function KeysOf<K(==), V>(es: seq<(K, V)>): seq<K> {
    seq(|es|, i requires 0 <= i < |es| => es[i].0)
  }

  /** `get(k, default)` on a source map. */
  function GetOr<K(==), V>(t: Table<K, V>, k: K, default: V): V {
    if k in t.values then t.values[k] else default
  }

  /** `put` on a target map. */
  function Put<K(==), V>(t: Table<K, V>, k: K, v: V, key: K -> K): Table<K, V> {
    if key(k) in t.values then Table(t.keys, t.values[key(k) := v])
    else Table(t.keys + [k], t.values[key(k) := v])
  }

  /** `put` of each entry in turn. */
  function PutAll<K(==), V>(t: Table<K, V>, es: seq<(K, V)>, key: K -> K): Table<K, V>
    decreases |es|
  {
    if es == [] then t
    else
      var last := es[|es| - 1];
      Put(PutAll(t, es[..|es| - 1], key), last.0, last.1, key)
  }

  /** The value of the last entry whose key has canonical form `c`, if there is one. */
  function LastValue<K(==), V>(es: seq<(K, V)>, c: K, key: K -> K): Option<V>
    decreases |es|
  {
    if es == [] then None
    else if key(es[|es| - 1].0) == c then Some(es[|es| - 1].1)
    else LastValue(es[..|es| - 1], c, key)
  }

  // ---------------------------------------------------------------------------
  // Lemmas

  /** In a valid table, a canonical key has a value exactly when an equivalent key is stored. */
  lemma StoredIffValued<K, V>(t: Table<K, V>, k: K, key: K -> K)
    requires ValidBy(t, key)
    ensures key(k) in t.values <==> HasKey(t.keys, k, key)
  {
    if key(k) in t.values {
      var i :| 0 <= i < |t.keys| && key(t.keys[i]) == key(k);
      assert t.keys[i] in t.keys;
    }
    if HasKey(t.keys, k, key) {
      var y :| y in t.keys && key(y) == key(k);
      var i :| 0 <= i < |t.keys| && t.keys[i] == y;
    }
  }

  /** `put` keeps a table valid. */
  lemma PutValid<K, V>(t: Table<K, V>, k: K, v: V, key: K -> K)
    requires ValidBy(t, key)
    ensures ValidBy(Put(t, k, v, key), key)
  {
    var r := Put(t, k, v, key);
    if key(k) !in t.values {
      forall i, j | 0 <= i < j < |r.keys| ensures key(r.keys[i]) != key(r.keys[j]) {
        if j == |t.keys| {
          assert key(t.keys[i]) in t.values;
        }
      }
      forall c | c in r.values ensures exists i :: 0 <= i < |r.keys| && key(r.keys[i]) == c {
        if c == key(k) {
          assert key(r.keys[|t.keys|]) == c;
        } else {
          var i :| 0 <= i < |t.keys| && key(t.keys[i]) == c;
          assert r.keys[i] == t.keys[i];
        }
      }
    }
  }

  /** Filling keeps a table valid. */
  lemma {:induction false} PutAllValid<K, V>(t: Table<K, V>, es: seq<(K, V)>, key: K -> K)
    requires ValidBy(t, key)
    ensures ValidBy(PutAll(t, es, key), key)
    decreases |es|
  {
    if es != [] {
      PutAllValid(t, es[..|es| - 1], key);
      PutValid(PutAll(t, es[..|es| - 1], key), es[|es| - 1].0, es[|es| - 1].1, key);
    }
  }

  /**
   * The stored keys after filling are those an insertion-ordered set would hold
   * after adding the entries' keys: the first key of each equivalence class, in
   * order of first occurrence.
   */
  lemma {:induction false} PutAllKeys<K, V>(t: Table<K, V>, es: seq<(K, V)>, key: K -> K)
    requires ValidBy(t, key)
    ensures PutAll(t, es, key).keys == InsertAll(t.keys, KeysOf(es), key)
    decreases |es|
  {
    if es != [] {
      var init := es[..|es| - 1];
      assert KeysOf(es)[..|es| - 1] == KeysOf(init);
      PutAllKeys(t, init, key);
      PutAllValid(t, init, key);
      StoredIffValued(PutAll(t, init, key), es[|es| - 1].0, key);
    }
  }

  /**
   * The last entry wins: after filling, a canonical key holds the value of the
   * last entry with that canonical key, and keys no entry touches keep what they had.
   */
  lemma {:induction false} PutAllValues<K, V>(t: Table<K, V>, es: seq<(K, V)>, key: K -> K, c: K)
    ensures LastValue(es, c, key).Some? ==>
              c in PutAll(t, es, key).values && PutAll(t, es, key).values[c] == LastValue(es, c, key).value
    ensures LastValue(es, c, key).None? ==>
              (c in PutAll(t, es, key).values <==> c in t.values)
              && (c in t.values ==> PutAll(t, es, key).values[c] == t.values[c])
    decreases |es|
  {
    if es != [] {
      PutAllValues(t, es[..|es| - 1], key, c);
    }
  }

  /** One more entry of the fill is one more `put`. */
  lemma PutAllStep<K, V>(t: Table<K, V>, es: seq<(K, V)>, i: nat, key: K -> K)
    requires i < |es|
    ensures PutAll(t, es[..i + 1], key) == Put(PutAll(t, es[..i], key), es[i].0, es[i].1, key)
  {
    assert es[..i + 1][..i] == es[..i];
  }

  /** What one `put` does to the key set of an ordinary map. */
  lemma PutElements<K, V>(t: Table<K, V>, k: K, v: V)
    ensures Elements(Put(t, k, v, Id).keys) == if k in t.values then Elements(t.keys) else Elements(t.keys) + {k}
    ensures Put(t, k, v, Id).values == t.values[k := v]
  {
    if k !in t.values {
      assert Elements(t.keys + [k]) == Elements(t.keys) + {k};
    }
  }

  /** Copying an ordinary map entry by entry into an ordinary empty map reproduces it, order included. */
  lemma FromEntries<K, V>(t: Table<K, V>)
    requires Wellformed(t)
    ensures PutAll(Empty(), Entries(t), Id) == t
  {
    var n := |t.keys|;
    PrefixFromEntries(t, n);
    assert t.keys[..n] == t.keys;
    assert Entries(t)[..n] == Entries(t);
  }

  lemma {:induction false} PrefixFromEntries<K, V>(t: Table<K, V>, n: nat)
    requires Wellformed(t)
    requires n <= |t.keys|
    ensures PutAll(Empty(), Entries(t)[..n], Id) == Table(t.keys[..n], map k | k in t.keys[..n] :: t.values[k])
  {
    if n > 0 {
      PrefixFromEntries(t, n - 1);
      var es := Entries(t)[..n];
      assert es[..n - 1] == Entries(t)[..n - 1];
      var k := t.keys[n - 1];
      var pre := t.keys[..n - 1];
      assert k !in pre by {
        forall j | 0 <= j < |pre| ensures pre[j] != k {
          assert t.keys[j] != t.keys[n - 1];
        }
      }
      assert t.keys[..n] == t.keys[..n - 1] + [k];
    }
  }

  /** Among an ordinary map's entries, the one for a key carries that key's value. */
  lemma LastValueOfEntries<K, V>(t: Table<K, V>, k: K)
    requires Wellformed(t)
    ensures k in t.values ==> LastValue(Entries(t), k, Id) == Some(t.values[k])
    ensures k !in t.values ==> LastValue(Entries(t), k, Id) == None
  {
    FromEntries(t);
    PutAllValues(Empty(), Entries(t), Id, k);
  }
}
