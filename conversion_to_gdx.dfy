/**
 * ConversionToGDX: JDK and jdkgdxds containers into fresh libGDX containers.
 *
 * A source collection is the sequence its iterator yields (it may repeat items
 * when it is a list); a source map is a well-formed `Table` read in `keySet()` or
 * `entrySet()` order. Overloads whose bodies are the same up to a primitive
 * element type are one generic method here.
 */
module ConversionToGdx {
  import opened Unique
  import opened Tables
  import opened Containers
  import opened Fill

  /** toArray(Collection): every item, in iteration order, so `from.size()` of them. */
  method ToArray<T>(from: seq<T>) returns (arr: Sequence<T>)
    ensures fresh(arr)
    ensures arr.items == from && |arr.items| == |from|
  {
    arr := new Sequence();
    AppendAll(arr, from);
  }

  /** toIntArray, toLongArray, toFloatArray: the primitive iterator's values, in order. */
  method ToPrimitiveArray<T>(from: seq<T>) returns (arr: Sequence<T>)
    ensures fresh(arr)
    ensures arr.items == from
  {
    arr := new Sequence();
    var i := 0;
    while i < |from|
      invariant 0 <= i <= |from|
      invariant arr.items == from[..i]
    {
      arr.Add(from[i]);
      i := i + 1;
    }
  }

  /** toLongQueue: `addLast` per value, so front-to-back order is iteration order. */
  method ToLongQueue(from: seq<int>) returns (queue: Sequence<int>)
    ensures fresh(queue)
    ensures queue.items == from
  {
    queue := new Sequence();
    var i := 0;
    while i < |from|
      invariant 0 <= i <= |from|
      invariant queue.items == from[..i]
    {
      queue.Add(from[i]);
      i := i + 1;
    }
  }

  /** toArrayMap: an ordered ArrayMap holding the entries of `from` in `entrySet()` order. */
  method ToArrayMap<K(==), V>(from: Table<K, V>) returns (arrayMap: LinkedMap<K, V>)
    requires Wellformed(from)
    ensures fresh(arrayMap) && arrayMap.Valid() && arrayMap.canon == Id
    ensures arrayMap.State() == from
  {
    arrayMap := new LinkedMap(Id);
    var es := Entries(from);
    for i := 0 to |es|
      invariant arrayMap.Valid() && arrayMap.canon == Id
      invariant arrayMap.State() == PutAll(Empty(), es[..i], Id)
    {
      arrayMap.Put(es[i].0, es[i].1);
      assert es[..i + 1][..i] == es[..i];
    }
    assert es[..|es|] == es;
    FromEntries(from);
  }

  /** toObjectSet: exactly the distinct items of `from`. */
  method ToObjectSet<T(==)>(from: seq<T>) returns (target: HashedSet<T>)
    ensures fresh(target) && target.canon == Id
    ensures target.elems == Elements(from)
  {
    target := new HashedSet(Id);
    AddEach(target, from);
    AddAllIdElements(from);
  }

  /** toOrderedSet: each distinct item once, by first occurrence, so no more items than `from`. */
  method ToOrderedSet<T(==)>(from: seq<T>) returns (target: LinkedSet<T>)
    ensures fresh(target) && target.Valid() && target.canon == Id
    ensures target.items == FirstOccurrences(from, Id)
    ensures Elements(target.items) == Elements(from) && |target.items| <= |from|
  {
    target := new LinkedSet(Id);
    InsertEach(target, from);
    DistinctIsFirstOccurrences(from, Id);
    DistinctIdElements(from);
  }

  /** toIntSet: exactly the distinct ints the iterator yields. */
  method ToIntSet(from: seq<int>) returns (target: HashedSet<int>)
    ensures fresh(target) && target.canon == Id
    ensures target.elems == Elements(from)
  {
    target := new HashedSet(Id);
    var i := 0;
    while i < |from|
      invariant 0 <= i <= |from|
      invariant target.elems == AddAllKeys({}, from[..i], Id)
    {
      target.Add(from[i]);
      assert from[..i + 1][..i] == from[..i];
      i := i + 1;
    }
    assert from[..|from|] == from;
    AddAllIdElements(from);
  }

  /**
   * toObjectMap, and toObjectIntMap, toObjectLongMap, toObjectFloatMap: every key
   * of `from.keySet()` to `from.get(k)`, and no other key.
   */
  method ToObjectMap<K(==), V>(from: Table<K, V>) returns (target: HashedMap<K, V>)
    requires Wellformed(from)
    ensures fresh(target) && target.canon == Id
    ensures target.keys == Elements(from.keys) && target.values == from.values
  {
    target := new HashedMap(Id);
    PutEachHashed(target, from, Empty());
    FromEntries(from);
  }

  /** toOrderedMap: the same entries, in `keySet()` order. */
  method ToOrderedMap<K(==), V>(from: Table<K, V>) returns (target: LinkedMap<K, V>)
    requires Wellformed(from)
    ensures fresh(target) && target.Valid() && target.canon == Id
    ensures target.State() == from
  {
    target := new LinkedMap(Id);
    PutEach(target, from);
    FromEntries(from);
  }

  /** toIntMap, toIntIntMap, toIntFloatMap, toLongMap: `from.get(k)` for each key of the primitive key iterator. */
  method ToPrimitiveKeyedMap<V>(from: Table<int, V>) returns (target: HashedMap<int, V>)
    requires Wellformed(from)
    ensures fresh(target) && target.canon == Id
    ensures target.keys == Elements(from.keys) && target.values == from.values
  {
    target := new HashedMap(Id);
    ghost var es := Entries(from);
    var i := 0;
    while i < |from.keys|
      invariant 0 <= i <= |from.keys| && target.canon == Id
      invariant target.keys == Elements(PutAll(Empty(), es[..i], Id).keys)
      invariant target.values == PutAll(Empty(), es[..i], Id).values
    {
      var k := from.keys[i];
      PutAllStep(Empty(), es, i, Id);
      PutElements(PutAll(Empty(), es[..i], Id), k, from.values[k]);
      target.Put(k, from.values[k]);
      i := i + 1;
    }
    assert es[..|es|] == es;
    FromEntries(from);
  }

  /** toIdentityMap: every key of `from.keySet()` to `from.get(k)`. */
  method ToIdentityMap<K(==), V>(from: Table<K, V>) returns (target: HashedMap<K, V>)
    requires Wellformed(from)
    ensures fresh(target) && target.canon == Id
    ensures target.keys == Elements(from.keys) && target.values == from.values
  {
    target := ToObjectMap(from);
  }
}
