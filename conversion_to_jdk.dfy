/**
 * ConversionToJDK: libGDX containers into fresh jdkgdxds containers.
 *
 * Overloads whose bodies are the same up to a primitive element type (IntList,
 * LongList, ... from IntArray, LongArray, ...) are one generic method here. A
 * source set is the sequence its iterator yields, which never repeats an item;
 * a source map is a well-formed `Table`. Case-insensitive containers take the
 * case fold that decides their equivalence as `fold`.
 */
module ConversionToJdk {
  import opened Unique
  import opened Tables
  import opened Containers
  import opened Fill

  // ---------------------------------------------------------------------------
  // Lists

  /** toObjectList(Array): the array's items, in order. */
  method ToObjectListFromArray<T>(from: GdxArray<T>) returns (list: Sequence<T>)
    requires from.Valid()
    ensures fresh(list)
    ensures list.items == from.Contents()
  {
    list := new Sequence();
    AppendAll(list, from.Contents());
  }

  /** toObjectList(Queue): the queue's items, front to back. */
  method ToObjectListFromQueue<T>(from: GdxQueue<T>) returns (list: Sequence<T>)
    requires from.Valid()
    ensures fresh(list)
    ensures list.items == from.Contents()
  {
    list := new Sequence();
    AppendAll(list, from.Contents());
  }

  /** toObjectList(ObjectSet): the set's items in its iteration order. */
  method ToObjectListFromSet<T>(from: seq<T>) returns (list: Sequence<T>)
    ensures fresh(list)
    ensures list.items == from
  {
    list := new Sequence();
    AppendAll(list, from);
  }

  /** toIntList(IntArray), toLongList(LongArray), ...: a copy of `items[0..size)`, spare capacity dropped. */
  method ToPrimitiveList<T>(from: GdxArray<T>) returns (list: Sequence<T>)
    requires from.Valid()
    ensures fresh(list)
    ensures list.items == from.items[0..from.size] == from.Contents()
  {
    list := new Sequence.CopyOf(from.items, 0, from.size);
  }

  /** toIntList(IntSet): the set's items in its iteration order. */
  method ToIntListFromSet(from: seq<int>) returns (list: Sequence<int>)
    ensures fresh(list)
    ensures list.items == from
  {
    list := new Sequence();
    var i := 0;
    while i < |from|
      invariant 0 <= i <= |from|
      invariant list.items == from[..i]
    {
      list.Add(from[i]);
      i := i + 1;
    }
  }

  /** toLongList(LongQueue): `from.get(0) ... from.get(size - 1)`. */
  method ToLongListFromQueue<T>(from: GdxQueue<T>) returns (list: Sequence<T>)
    requires from.Valid()
    ensures fresh(list)
    ensures |list.items| == from.size
    ensures forall i :: 0 <= i < from.size ==> list.items[i] == from.Get(i)
  {
    list := new Sequence();
    for i := 0 to from.size
      invariant |list.items| == i
      invariant forall j :: 0 <= j < i ==> list.items[j] == from.Get(j)
    {
      list.Add(from.Get(i));
    }
  }

  // ---------------------------------------------------------------------------
  // Sets

  /** toObjectSet(Array): exactly the distinct items of the array. */
  method ToObjectSetFromArray<T(==)>(from: GdxArray<T>) returns (target: HashedSet<T>)
    requires from.Valid()
    ensures fresh(target) && target.canon == Id
    ensures target.elems == Elements(from.Contents())
  {
    target := new HashedSet(Id);
    AddEach(target, from.Contents());
    AddAllIdElements(from.Contents());
  }

  /** toObjectSet(Queue): exactly the distinct items of the queue. */
  method ToObjectSetFromQueue<T(==)>(from: GdxQueue<T>) returns (target: HashedSet<T>)
    requires from.Valid()
    ensures fresh(target) && target.canon == Id
    ensures target.elems == Elements(from.Contents())
  {
    target := new HashedSet(Id);
    AddEach(target, from.Contents());
    AddAllIdElements(from.Contents());
  }

  /** toObjectSet(ObjectSet): the same items. */
  method ToObjectSetFromSet<T(==)>(from: seq<T>) returns (target: HashedSet<T>)
    ensures fresh(target) && target.canon == Id
    ensures target.elems == Elements(from)
  {
    target := new HashedSet(Id);
    AddEach(target, from);
    AddAllIdElements(from);
  }

  /** toObjectOrderedSet(Array): each distinct item once, by first occurrence. */
  method ToObjectOrderedSetFromArray<T(==)>(from: GdxArray<T>) returns (target: LinkedSet<T>)
    requires from.Valid()
    ensures fresh(target) && target.Valid() && target.canon == Id
    ensures target.items == FirstOccurrences(from.Contents(), Id)
    ensures Elements(target.items) == Elements(from.Contents()) && |target.items| <= from.size
  {
    target := new LinkedSet(Id);
    InsertEach(target, from.Contents());
    DistinctIsFirstOccurrences(from.Contents(), Id);
    DistinctIdElements(from.Contents());
  }

  /** toObjectOrderedSet(Queue): each distinct item once, by first occurrence. */
  method ToObjectOrderedSetFromQueue<T(==)>(from: GdxQueue<T>) returns (target: LinkedSet<T>)
    requires from.Valid()
    ensures fresh(target) && target.Valid() && target.canon == Id
    ensures target.items == FirstOccurrences(from.Contents(), Id)
    ensures Elements(target.items) == Elements(from.Contents()) && |target.items| <= from.size
  {
    target := new LinkedSet(Id);
    InsertEach(target, from.Contents());
    DistinctIsFirstOccurrences(from.Contents(), Id);
    DistinctIdElements(from.Contents());
  }

  /** toObjectOrderedSet(ObjectSet): the set's items in its iteration order. */
  method ToObjectOrderedSetFromSet<T(==)>(from: seq<T>) returns (target: LinkedSet<T>)
    requires UniqueBy(from, Id)
    ensures fresh(target) && target.Valid() && target.canon == Id
    ensures target.items == from
  {
    target := new LinkedSet(Id);
    InsertEach(target, from);
    DistinctOfUnique(from, Id);
  }

  /** toCaseInsensitiveSet(Array): one item per case-folded class, the first met. */
  method ToCaseInsensitiveSetFromArray(from: GdxArray<string>, fold: string -> string) returns (target: HashedSet<string>)
    requires from.Valid()
    ensures fresh(target) && target.canon == fold
    ensures target.elems == Elements(FirstOccurrences(from.Contents(), fold))
  {
    target := new HashedSet(fold);
    AddEach(target, from.Contents());
    AddAllIsInsertAll([], from.Contents(), fold);
    assert Elements<string>([]) == {};
    DistinctIsFirstOccurrences(from.Contents(), fold);
  }

  /** toCaseInsensitiveSet(ObjectSet): one item per case-folded class, the first met. */
  method ToCaseInsensitiveSetFromSet(from: seq<string>, fold: string -> string) returns (target: HashedSet<string>)
    ensures fresh(target) && target.canon == fold
    ensures target.elems == Elements(FirstOccurrences(from, fold))
  {
    target := new HashedSet(fold);
    AddEach(target, from);
    AddAllIsInsertAll([], from, fold);
    assert Elements<string>([]) == {};
    DistinctIsFirstOccurrences(from, fold);
  }

  /** toCaseInsensitiveOrderedSet(Array): the first item of each case-folded class, in source order. */
  method ToCaseInsensitiveOrderedSetFromArray(from: GdxArray<string>, fold: string -> string)
    returns (target: LinkedSet<string>)
    requires from.Valid()
    ensures fresh(target) && target.Valid() && target.canon == fold
    ensures target.items == FirstOccurrences(from.Contents(), fold)
  {
    target := new LinkedSet(fold);
    InsertEach(target, from.Contents());
    DistinctIsFirstOccurrences(from.Contents(), fold);
  }

  /** toCaseInsensitiveOrderedSet(ObjectSet): the first item of each case-folded class, in iteration order. */
  method ToCaseInsensitiveOrderedSetFromSet(from: seq<string>, fold: string -> string) returns (target: LinkedSet<string>)
    ensures fresh(target) && target.Valid() && target.canon == fold
    ensures target.items == FirstOccurrences(from, fold)
  {
    target := new LinkedSet(fold);
    InsertEach(target, from);
    DistinctIsFirstOccurrences(from, fold);
  }

  /** toIntSet(IntSet): the same ints. */
  method ToIntSetFromSet(from: seq<int>) returns (target: HashedSet<int>)
    ensures fresh(target) && target.canon == Id
    ensures target.elems == Elements(from)
  {
    target := new HashedSet(Id);
    var i := 0;
    while i < |from|
      invariant 0 <= i <= |from|
      invariant target.elems == AddAllKeys({}, from[..i], Id)
    {
      target.Add(from[i]);
      assert from[..i + 1][..i] == from[..i];
      i := i + 1;
    }
    assert from[..|from|] == from;
    AddAllIdElements(from);
  }

  /** toIntSet(IntArray): the distinct ints of `items[0..size)`, through IntSet's array constructor. */
  method ToIntSetFromArray(from: GdxArray<int>) returns (target: HashedSet<int>)
    requires from.Valid()
    ensures fresh(target) && target.canon == Id
    ensures target.elems == Elements(from.items[0..from.size])
  {
    target := new HashedSet(Id);
    AddEach(target, from.items[0..from.size]);
    AddAllIdElements(from.items[0..from.size]);
  }

  /** toIntOrderedSet(IntSet): the same ints, in the source's iteration order. */
  method ToIntOrderedSetFromSet(from: seq<int>) returns (target: LinkedSet<int>)
    requires UniqueBy(from, Id)
    ensures fresh(target) && target.Valid() && target.canon == Id
    ensures target.items == from
  {
    target := new LinkedSet(Id);
    var i := 0;
    while i < |from|
      invariant 0 <= i <= |from|
      invariant target.Valid() && target.canon == Id
      invariant target.items == InsertAll([], from[..i], Id)
    {
      target.Add(from[i]);
      assert from[..i + 1][..i] == from[..i];
      i := i + 1;
    }
    assert from[..|from|] == from;
    DistinctOfUnique(from, Id);
  }

  /** toIntOrderedSet(IntArray): each distinct int of `items[0..size)` once, by first occurrence. */
  method ToIntOrderedSetFromArray(from: GdxArray<int>) returns (target: LinkedSet<int>)
    requires from.Valid()
    ensures fresh(target) && target.Valid() && target.canon == Id
    ensures target.items == FirstOccurrences(from.items[0..from.size], Id)
    ensures Elements(target.items) == Elements(from.items[0..from.size]) && |target.items| <= from.size
  {
    target := new LinkedSet(Id);
    InsertEach(target, from.items[0..from.size]);
    DistinctIsFirstOccurrences(from.items[0..from.size], Id);
    DistinctIdElements(from.items[0..from.size]);
  }

  /** toNumberedSet(ObjectSet): the set's items, numbered in iteration order. */
  method ToNumberedSetFromSet<T(==)>(from: seq<T>) returns (target: LinkedSet<T>)
    requires UniqueBy(from, Id)
    ensures fresh(target) && target.Valid() && target.canon == Id
    ensures target.items == from
  {
    target := new LinkedSet(Id);
    var i := 0;
    while i < |from|
      invariant 0 <= i <= |from|
      invariant target.Valid() && target.canon == Id
      invariant target.items == InsertAll([], from[..i], Id)
    {
      target.Add(from[i]);
      assert from[..i + 1][..i] == from[..i];
      i := i + 1;
    }
    assert from[..|from|] == from;
    DistinctOfUnique(from, Id);
  }

  /** toNumberedSet(Array): each distinct item once, numbered by first occurrence. */
  method ToNumberedSetFromArray<T(==)>(from: GdxArray<T>) returns (target: LinkedSet<T>)
    requires from.Valid()
    ensures fresh(target) && target.Valid() && target.canon == Id
    ensures target.items == FirstOccurrences(from.Contents(), Id)
    ensures Elements(target.items) == Elements(from.Contents()) && |target.items| <= from.size
  {
    target := new LinkedSet(Id);
    ghost var c := from.Contents();
    var i := 0;
    while i < from.size
      invariant 0 <= i <= from.size
      invariant target.Valid() && target.canon == Id
      invariant target.items == InsertAll([], c[..i], Id)
    {
      var x := from.Get(i);
      assert x == c[i];
      target.Add(x);
      assert c[..i + 1][..i] == c[..i];
      i := i + 1;
    }
    assert c[..from.size] == c;
    DistinctIsFirstOccurrences(c, Id);
    DistinctIdElements(c);
  }

  /** toNumberedSet(Queue): each distinct item once, numbered by first occurrence. */
  method ToNumberedSetFromQueue<T(==)>(from: GdxQueue<T>) returns (target: LinkedSet<T>)
    requires from.Valid()
    ensures fresh(target) && target.Valid() && target.canon == Id
    ensures target.items == FirstOccurrences(from.Contents(), Id)
    ensures Elements(target.items) == Elements(from.Contents()) && |target.items| <= from.size
  {
    target := new LinkedSet(Id);
    AddQueueItems(target, from);
    DistinctIsFirstOccurrences(from.Contents(), Id);
    DistinctIdElements(from.Contents());
  }

  /** The loop of toNumberedSet(Queue): `target.add(from.get(i))` for every `i < from.size`, in order. */
  method AddQueueItems<T(==)>(target: LinkedSet<T>, from: GdxQueue<T>)
    requires from.Valid() && target.Valid() && target.canon == Id && target.items == []
    modifies target
    ensures target.Valid() && target.canon == Id
    ensures target.items == InsertAll([], from.Contents(), Id)
  {
    ghost var c := from.Contents();
    var i := 0;
    while i < from.size
      invariant 0 <= i <= from.size
      invariant target.Valid() && target.canon == Id
      invariant target.items == InsertAll([], c[..i], Id)
    {
      var x := from.Get(i);
      assert x == c[i];
      target.Add(x);
      assert c[..i + 1][..i] == c[..i];
      i := i + 1;
    }
    assert c[..from.size] == c;
  }

  // ---------------------------------------------------------------------------
  // Maps

  /** toObjectObjectMap(ObjectMap), toObjectObjectMap(ArrayMap): every key of `from` to `from.get(k)`, nothing else. */
  method ToObjectObjectMap<K(==), V>(from: Table<K, V>) returns (target: HashedMap<K, V>)
    requires Wellformed(from)
    ensures fresh(target) && target.canon == Id
    ensures target.keys == Elements(from.keys) && target.values == from.values
  {
    target := new HashedMap(Id);
    PutEachHashed(target, from, Empty());
    FromEntries(from);
  }

  /** toObjectObjectOrderedMap(ObjectMap), (ArrayMap): the same entries in `from.keys()` order. */
  method ToObjectObjectOrderedMap<K(==), V>(from: Table<K, V>) returns (target: LinkedMap<K, V>)
    requires Wellformed(from)
    ensures fresh(target) && target.Valid() && target.canon == Id
    ensures target.State() == from
  {
    target := new LinkedMap(Id);
    PutEach(target, from);
    FromEntries(from);
  }

  /**
   * toCaseInsensitiveMap: one key per case-folded class (the first met), holding
   * the value of the last key of that class.
   */
  method ToCaseInsensitiveMap<V>(from: Table<string, V>, fold: string -> string) returns (target: HashedMap<string, V>)
    requires Wellformed(from)
    ensures fresh(target) && target.canon == fold
    ensures target.keys == Elements(FirstOccurrences(from.keys, fold))
    ensures forall c :: LastValue(Entries(from), c, fold).Some? ==>
              c in target.values && target.values[c] == LastValue(Entries(from), c, fold).value
    ensures forall c :: LastValue(Entries(from), c, fold).None? ==> c !in target.values
  {
    target := new HashedMap(fold);
    PutEachHashed(target, from, Empty());
    CaseInsensitiveFill(from, fold);
  }

  /**
   * toCaseInsensitiveOrderedMap: one key per case-folded class (the first met),
   * in `from.keys()` order, holding the value of the last key of that class.
   */
  method ToCaseInsensitiveOrderedMap<V>(from: Table<string, V>, fold: string -> string)
    returns (target: LinkedMap<string, V>)
    requires Wellformed(from)
    ensures fresh(target) && target.Valid() && target.canon == fold
    ensures target.keys == FirstOccurrences(from.keys, fold)
    ensures forall c :: LastValue(Entries(from), c, fold).Some? ==>
              c in target.values && target.values[c] == LastValue(Entries(from), c, fold).value
    ensures forall c :: LastValue(Entries(from), c, fold).None? ==> c !in target.values
  {
    target := new LinkedMap(fold);
    PutEach(target, from);
    CaseInsensitiveFill(from, fold);
  }

  /** What filling an empty map with `from`'s entries under `fold` produces. */
  lemma CaseInsensitiveFill<V>(from: Table<string, V>, fold: string -> string)
    requires Wellformed(from)
    ensures PutAll(Empty(), Entries(from), fold).keys == FirstOccurrences(from.keys, fold)
    ensures forall c :: LastValue(Entries(from), c, fold).Some? ==>
              c in PutAll(Empty(), Entries(from), fold).values
              && PutAll(Empty(), Entries(from), fold).values[c] == LastValue(Entries(from), c, fold).value
    ensures forall c :: LastValue(Entries(from), c, fold).None? ==> c !in PutAll(Empty(), Entries(from), fold).values
  {
    assert ValidBy(Empty<string, V>(), fold);
    PutAllKeys(Empty(), Entries(from), fold);
    assert KeysOf(Entries(from)) == from.keys;
    DistinctIsFirstOccurrences(from.keys, fold);
    forall c {
      PutAllValues(Empty(), Entries(from), fold, c);
    }
  }

  /** toObjectIntMap, toObjectLongMap, toObjectFloatMap: `from.get(k, 0)` per key, and 0 is never used. */
  method ToObjectPrimitiveMap<K(==), V>(from: Table<K, V>, zero: V) returns (target: HashedMap<K, V>)
    requires Wellformed(from)
    ensures fresh(target) && target.canon == Id
    ensures target.keys == Elements(from.keys) && target.values == from.values
  {
    target := new HashedMap(Id);
    PutEachHashedOr(target, from, zero, Empty());
    FromEntries(from);
  }

  /** toObjectIntOrderedMap, toObjectLongOrderedMap, toObjectFloatOrderedMap: the same entries in key order. */
  method ToObjectPrimitiveOrderedMap<K(==), V>(from: Table<K, V>, zero: V) returns (target: LinkedMap<K, V>)
    requires Wellformed(from)
    ensures fresh(target) && target.Valid() && target.canon == Id
    ensures target.State() == from
  {
    target := new LinkedMap(Id);
    PutEachOr(target, from, zero);
    FromEntries(from);
  }

  /** toIntObjectMap, toLongObjectMap: `from.get(k)` for each key the key iterator yields. */
  method ToPrimitiveObjectMap<V>(from: Table<int, V>) returns (target: HashedMap<int, V>)
    requires Wellformed(from)
    ensures fresh(target) && target.canon == Id
    ensures target.keys == Elements(from.keys) && target.values == from.values
  {
    target := new HashedMap(Id);
    ghost var es := Entries(from);
    var i := 0;
    while i < |from.keys|
      invariant 0 <= i <= |from.keys| && target.canon == Id
      invariant target.keys == Elements(PutAll(Empty(), es[..i], Id).keys)
      invariant target.values == PutAll(Empty(), es[..i], Id).values
    {
      var k := from.keys[i];
      PutAllStep(Empty(), es, i, Id);
      PutElements(PutAll(Empty(), es[..i], Id), k, from.values[k]);
      target.Put(k, from.values[k]);
      i := i + 1;
    }
    assert es[..|es|] == es;
    FromEntries(from);
  }

  /** toIntObjectOrderedMap, toLongObjectOrderedMap: the same entries in key-iterator order. */
  method ToPrimitiveObjectOrderedMap<V>(from: Table<int, V>) returns (target: LinkedMap<int, V>)
    requires Wellformed(from)
    ensures fresh(target) && target.Valid() && target.canon == Id
    ensures target.State() == from
  {
    target := new LinkedMap(Id);
    ghost var es := Entries(from);
    var i := 0;
    while i < |from.keys|
      invariant 0 <= i <= |from.keys|
      invariant target.Valid() && target.canon == Id
      invariant target.State() == PutAll(Empty(), es[..i], Id)
    {
      var k := from.keys[i];
      target.Put(k, from.values[k]);
      assert es[..i + 1][..i] == es[..i];
      i := i + 1;
    }
    assert es[..|es|] == es;
    FromEntries(from);
  }

  /** toIntIntMap, toIntFloatMap: `from.get(k, 0)` for each key the key iterator yields; 0 is never used. */
  method ToPrimitivePrimitiveMap<V>(from: Table<int, V>, zero: V) returns (target: HashedMap<int, V>)
    requires Wellformed(from)
    ensures fresh(target) && target.canon == Id
    ensures target.keys == Elements(from.keys) && target.values == from.values
  {
    target := new HashedMap(Id);
    ghost var es := Entries(from);
    var i := 0;
    while i < |from.keys|
      invariant 0 <= i <= |from.keys| && target.canon == Id
      invariant target.keys == Elements(PutAll(Empty(), es[..i], Id).keys)
      invariant target.values == PutAll(Empty(), es[..i], Id).values
    {
      var k := from.keys[i];
      PutAllStep(Empty(), es, i, Id);
      PutElements(PutAll(Empty(), es[..i], Id), k, from.values[k]);
      target.Put(k, GetOr(from, k, zero));
      i := i + 1;
    }
    assert es[..|es|] == es;
    FromEntries(from);
  }

  /** toIntIntOrderedMap, toIntFloatOrderedMap: the same entries in key-iterator order. */
  method ToPrimitivePrimitiveOrderedMap<V>(from: Table<int, V>, zero: V) returns (target: LinkedMap<int, V>)
    requires Wellformed(from)
    ensures fresh(target) && target.Valid() && target.canon == Id
    ensures target.State() == from
  {
    target := new LinkedMap(Id);
    ghost var es := Entries(from);
    var i := 0;
    while i < |from.keys|
      invariant 0 <= i <= |from.keys|
      invariant target.Valid() && target.canon == Id
      invariant target.State() == PutAll(Empty(), es[..i], Id)
    {
      var k := from.keys[i];
      target.Put(k, GetOr(from, k, zero));
      assert es[..i + 1][..i] == es[..i];
      i := i + 1;
    }
    assert es[..|es|] == es;
    FromEntries(from);
  }

  /** toIdentityObjectMap: every key of `from` to `from.get(k)`. */
  method ToIdentityObjectMap<K(==), V>(from: Table<K, V>) returns (target: HashedMap<K, V>)
    requires Wellformed(from)
    ensures fresh(target) && target.canon == Id
    ensures target.keys == Elements(from.keys) && target.values == from.values
  {
    target := ToObjectObjectMap(from);
  }

  /** toIdentityObjectOrderedMap: the same entries in `from.keys()` order. */
  method ToIdentityObjectOrderedMap<K(==), V>(from: Table<K, V>) returns (target: LinkedMap<K, V>)
    requires Wellformed(from)
    ensures fresh(target) && target.Valid() && target.canon == Id
    ensures target.State() == from
  {
    target := ToObjectObjectOrderedMap(from);
  }

  // ---------------------------------------------------------------------------
  // Deques

  /** toObjectDeque(Array): the array's items, in order. */
  method ToObjectDequeFromArray<T>(from: GdxArray<T>) returns (deque: Sequence<T>)
    requires from.Valid()
    ensures fresh(deque)
    ensures deque.items == from.Contents()
  {
    deque := ToObjectListFromArray(from);
  }

  /** toObjectDeque(Queue): the queue's items, front to back. */
  method ToObjectDequeFromQueue<T>(from: GdxQueue<T>) returns (deque: Sequence<T>)
    requires from.Valid()
    ensures fresh(deque)
    ensures deque.items == from.Contents()
  {
    deque := ToObjectListFromQueue(from);
  }

  /** toObjectDeque(ObjectSet): the set's items in its iteration order. */
  method ToObjectDequeFromSet<T>(from: seq<T>) returns (deque: Sequence<T>)
    ensures fresh(deque)
    ensures deque.items == from
  {
    deque := ToObjectListFromSet(from);
  }

  /** toLongDeque(LongQueue): `from.get(0) ... from.get(size - 1)`. */
  method ToLongDequeFromQueue<T>(from: GdxQueue<T>) returns (deque: Sequence<T>)
    requires from.Valid()
    ensures fresh(deque)
    ensures |deque.items| == from.size
    ensures forall i :: 0 <= i < from.size ==> deque.items[i] == from.Get(i)
  {
    deque := ToLongListFromQueue(from);
  }

  /** toLongDeque(LongArray), toIntDeque(IntArray), ...: `from.get(0) ... from.get(size - 1)`. */
  method ToPrimitiveDeque<T>(from: GdxArray<T>) returns (deque: Sequence<T>)
    requires from.Valid()
    ensures fresh(deque)
    ensures deque.items == from.items[0..from.size]
  {
    deque := new Sequence();
    for i := 0 to from.size
      invariant deque.items == from.items[0..i]
    {
      deque.Add(from.Get(i));
    }
  }

  /** toIntDeque(IntSet): the set's ints in its iteration order. */
  method ToIntDequeFromSet(from: seq<int>) returns (deque: Sequence<int>)
    ensures fresh(deque)
    ensures deque.items == from
  {
    deque := ToIntListFromSet(from);
  }
}
