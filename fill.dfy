/**
 * The loops every conversion is made of: walk the source in its iteration order
 * and hand each element, or each key with its value, to the target.
 */
module Fill {
  import opened Unique
  import opened Tables
  import opened Containers

  /** `for (T t : from) target.add(t)` into a list-like target. */
  method AppendAll<T>(target: Sequence<T>, xs: seq<T>)
    modifies target
    ensures target.items == old(target.items) + xs
  {
    for i := 0 to |xs|
      invariant target.items == old(target.items) + xs[..i]
    {
      target.Add(xs[i]);
      assert xs[..i + 1] == xs[..i] + [xs[i]];
    }
    assert xs[..|xs|] == xs;
  }

  /** `for (T t : from) target.add(t)` into an insertion-ordered set. */
  method InsertEach<T>(target: LinkedSet<T>, xs: seq<T>)
    requires target.Valid()
    modifies target
    ensures target.Valid()
    ensures target.items == InsertAll(old(target.items), xs, target.canon)
  {
    for i := 0 to |xs|
      invariant target.Valid()
      invariant target.items == InsertAll(old(target.items), xs[..i], target.canon)
    {
      target.Add(xs[i]);
      assert xs[..i + 1][..i] == xs[..i];
    }
    assert xs[..|xs|] == xs;
  }

  /** `for (T t : from) target.add(t)` into an unordered set. */
  method AddEach<T>(target: HashedSet<T>, xs: seq<T>)
    modifies target
    ensures target.elems == AddAllKeys(old(target.elems), xs, target.canon)
  {
    for i := 0 to |xs|
      invariant target.elems == AddAllKeys(old(target.elems), xs[..i], target.canon)
    {
      target.Add(xs[i]);
      assert xs[..i + 1][..i] == xs[..i];
    }
    assert xs[..|xs|] == xs;
  }

  /** `for (K k : from.keys()) target.put(k, from.get(k))` into an insertion-ordered map. */
  method PutEach<K, V>(target: LinkedMap<K, V>, from: Table<K, V>)
    requires target.Valid() && Wellformed(from)
    modifies target
    ensures target.Valid()
    ensures target.State() == PutAll(old(target.State()), Entries(from), target.canon)
  {
    ghost var es := Entries(from);
    for i := 0 to |from.keys|
      invariant target.Valid()
      invariant target.State() == PutAll(old(target.State()), es[..i], target.canon)
    {
      var k := from.keys[i];
      target.Put(k, from.values[k]);
      assert es[..i + 1][..i] == es[..i];
    }
    assert es[..|es|] == es;
  }

  /**
   * `for (K k : from.keys()) target.put(k, from.get(k, 0))` into an
   * insertion-ordered map: the default is never used, since every key iterated
   * has a value.
   */
  method PutEachOr<K, V>(target: LinkedMap<K, V>, from: Table<K, V>, default: V)
    requires target.Valid() && Wellformed(from)
    modifies target
    ensures target.Valid()
    ensures target.State() == PutAll(old(target.State()), Entries(from), target.canon)
  {
    ghost var es := Entries(from);
    for i := 0 to |from.keys|
      invariant target.Valid()
      invariant target.State() == PutAll(old(target.State()), es[..i], target.canon)
    {
      var k := from.keys[i];
      target.Put(k, GetOr(from, k, default));
      assert es[..i + 1][..i] == es[..i];
    }
    assert es[..|es|] == es;
  }

  /** The same loops into an unordered map, proved against the ordered fill of `shadow`, its insertion history. */
  method PutEachHashed<K, V>(target: HashedMap<K, V>, from: Table<K, V>, ghost shadow: Table<K, V>)
    requires Wellformed(from)
    requires target.keys == Elements(shadow.keys) && target.values == shadow.values
    modifies target
    ensures target.keys == Elements(PutAll(shadow, Entries(from), target.canon).keys)
    ensures target.values == PutAll(shadow, Entries(from), target.canon).values
  {
    ghost var es := Entries(from);
    for i := 0 to |from.keys|
      invariant target.keys == Elements(PutAll(shadow, es[..i], target.canon).keys)
      invariant target.values == PutAll(shadow, es[..i], target.canon).values
    {
      var k := from.keys[i];
      ghost var before := PutAll(shadow, es[..i], target.canon);
      target.Put(k, from.values[k]);
      assert es[..i + 1][..i] == es[..i];
      assert Elements(before.keys + [k]) == Elements(before.keys) + {k};
    }
    assert es[..|es|] == es;
  }

  /** `PutEachHashed` with `get(k, 0)`. */
  method PutEachHashedOr<K, V>(target: HashedMap<K, V>, from: Table<K, V>, default: V, ghost shadow: Table<K, V>)
    requires Wellformed(from)
    requires target.keys == Elements(shadow.keys) && target.values == shadow.values
    modifies target
    ensures target.keys == Elements(PutAll(shadow, Entries(from), target.canon).keys)
    ensures target.values == PutAll(shadow, Entries(from), target.canon).values
  {
    ghost var es := Entries(from);
    for i := 0 to |from.keys|
      invariant target.keys == Elements(PutAll(shadow, es[..i], target.canon).keys)
      invariant target.values == PutAll(shadow, es[..i], target.canon).values
    {
      var k := from.keys[i];
      ghost var before := PutAll(shadow, es[..i], target.canon);
      target.Put(k, GetOr(from, k, default));
      assert es[..i + 1][..i] == es[..i];
      assert Elements(before.keys + [k]) == Elements(before.keys) + {k};
    }
    assert es[..|es|] == es;
  }
}
