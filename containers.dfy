/**
 * The containers on both sides of a conversion.
 *
 * Sources are libGDX structures read in place: `GdxArray` (Array and the
 * primitive IntArray, LongArray, ... which keep `items` and `size`) and
 * `GdxQueue` (Queue and LongQueue, a ring buffer). Source sets are read as the
 * sequence their iterator yields and source maps as a `Table`.
 *
 * Targets are freshly allocated and filled one element at a time: `Sequence`
 * (lists, deques, libGDX Array and the primitive arrays, LongQueue), `LinkedSet`
 * (ordered sets, NumberedSet), `HashedSet` (unordered sets), `LinkedMap`
 * (ordered maps, ArrayMap) and `HashedMap` (unordered maps). Sets and maps carry
 * the canonical-key function of their equivalence.
 */
module Containers {
  import opened Unique
  import opened Tables

  /** libGDX Array or a primitive array: the first `size` slots of `items` are the contents. */
  class GdxArray<T> {
    var items: array<T>
    var size: int

    ghost predicate Valid()
      reads this
    {
      0 <= size <= items.Length
    }

    constructor (items: array<T>, size: int)
      requires 0 <= size <= items.Length
      ensures Valid() && this.items == items && this.size == size
    {
      this.items := items;
      this.size := size;
    }

    /** What the array's iterator yields, in order. */
    function Contents(): (r: seq<T>)
      requires Valid()
      reads this, items
      ensures |r| == size
      ensures forall i :: 0 <= i < size ==> r[i] == items[i]
    {
      items[..size]
    }

    /** `get(index)`. */
    function Get(i: int): (r: T)
      requires Valid() && 0 <= i < size
      reads this, items
      ensures r == Contents()[i]
    {
      items[i]
    }
  }

  /**
   * libGDX Queue or LongQueue: `size` elements stored circularly in `values`
   * starting at `head`.
   */
  class GdxQueue<T> {
    var values: array<T>
    var head: int
    var size: int

    ghost predicate Valid()
      reads this
    {
      && 0 <= size <= values.Length
      && 0 <= head
      && (head < values.Length || head == 0)
    }

    constructor (values: array<T>, head: int, size: int)
      requires 0 <= size <= values.Length && 0 <= head && (head < values.Length || head == 0)
      ensures Valid() && this.values == values && this.head == head && this.size == size
    {
      this.values := values;
      this.head := head;
      this.size := size;
    }

    /** `get(index)`: the slot `index` places after `head`, wrapping once past the end. */
    function Get(i: int): (r: T)
      requires Valid() && 0 <= i < size
      reads this, values
      ensures r == values[(head + i) % values.Length]
    {
      var j := head + i;
      if j >= values.Length then
        assert (head + i) % values.Length == j - values.Length by {
          ModAfterOneWrap(j, values.Length);
        }
        values[j - values.Length]
      else
        assert (head + i) % values.Length == j by {
          ModBeforeWrap(j, values.Length);
        }
        values[j]
    }

    /** The first `n` elements, front to back. */
    function Prefix(n: int): (r: seq<T>)
      requires Valid() && 0 <= n <= size
      reads this, values
      ensures |r| == n
      ensures forall i :: 0 <= i < n ==> r[i] == values[(head + i) % values.Length]
      decreases n
    {
      if n == 0 then [] else Prefix(n - 1) + [Get(n - 1)]
    }

    /** What the queue's iterator yields, in order. */
    function Contents(): (r: seq<T>)
      requires Valid()
      reads this, values
      ensures |r| == size
      ensures forall i :: 0 <= i < size ==> r[i] == Get(i)
    {
      Prefix(size)
    }
  }

  lemma ModBeforeWrap(j: int, n: int)
    requires 0 <= j < n
    ensures j % n == j
  {
  }

  lemma ModAfterOneWrap(j: int, n: int)
    requires 0 < n <= j < 2 * n
    ensures j % n == j - n
  {
  }

  /** A target filled by appending: every list, deque and libGDX array type. */
  class Sequence<T> {
    var items: seq<T>

    constructor ()
      ensures items == []
    {
      items := [];
    }

    /** The (array, offset, count) constructor, which copies that slice. */
    constructor CopyOf(a: array<T>, start: int, count: int)
      requires 0 <= start && 0 <= count && start + count <= a.Length
      ensures items == a[start..start + count]
    {
      items := a[start..start + count];
    }

    /** `add` / `addLast`. */
    method Add(x: T)
      modifies this
      ensures items == old(items) + [x]
    {
      items := items + [x];
    }
  }

  /** An insertion-ordered set: ObjectOrderedSet, NumberedSet, OrderedSet, LinkedHashSet and their variants. */
  class LinkedSet<T(==)> {
    var items: seq<T>
    const canon: T -> T

    ghost predicate Valid()
      reads this
    {
      UniqueBy(items, canon)
    }

    constructor (canon: T -> T)
      ensures Valid() && items == [] && this.canon == canon
    {
      items := [];
      this.canon := canon;
    }

    /** `add`: appends `x` unless an equivalent item is present. */
    method Add(x: T)
      requires Valid()
      modifies this
      ensures Valid()
      ensures items == Insert(old(items), x, canon)
    {
      if !HasKey(items, x, canon) {
        items := items + [x];
        InsertAllUnique(old(items), [x], canon);
        assert [x][..0] == [];
      }
    }
  }

  /** An unordered set: ObjectSet, IntSet, HashSet and their variants. */
  class HashedSet<T(==)> {
    var elems: set<T>
    const canon: T -> T

    constructor (canon: T -> T)
      ensures elems == {} && this.canon == canon
    {
      elems := {};
      this.canon := canon;
    }

    /** `add`: inserts `x` unless an equivalent item is present. */
    method Add(x: T)
      modifies this
      ensures elems == AddKey(old(elems), x, canon)
    {
      if !exists y :: y in elems && canon(y) == canon(x) {
        elems := elems + {x};
      }
    }
  }

  /** An insertion-ordered map: ObjectObjectOrderedMap, OrderedMap, ArrayMap, LinkedHashMap and their variants. */
  class LinkedMap<K(==), V> {
    var keys: seq<K>
    var values: map<K, V>
    const canon: K -> K

    ghost predicate Valid()
      reads this
    {
      ValidBy(Table(keys, values), canon)
    }

    function State(): Table<K, V>
      reads this
    {
      Table(keys, values)
    }

    constructor (canon: K -> K)
      ensures Valid() && State() == Empty() && this.canon == canon
    {
      keys := [];
      values := map[];
      this.canon := canon;
    }

    /** `put`: replaces the value of an equivalent stored key in place, or appends the key. */
    method Put(k: K, v: V)
      requires Valid()
      modifies this
      ensures Valid()
      ensures State() == Tables.Put(old(State()), k, v, canon)
    {
      var c := canon(k);
      if c !in values {
        keys := keys + [k];
      }
      values := values[c := v];
      PutValid(old(State()), k, v, canon);
    }
  }

  /** An unordered map: ObjectObjectMap, ObjectMap, IntMap, HashMap and their variants. */
  class HashedMap<K(==), V> {
    var keys: set<K>
    var values: map<K, V>
    const canon: K -> K

    constructor (canon: K -> K)
      ensures keys == {} && values == map[] && this.canon == canon
    {
      keys := {};
      values := map[];
      this.canon := canon;
    }

    /** `put`: replaces the value of an equivalent stored key, or adds the key. */
    method Put(k: K, v: V)
      modifies this
      ensures keys == if canon(k) in old(values) then old(keys) else old(keys) + {k}
      ensures values == old(values)[canon(k) := v]
    {
      var c := canon(k);
      if c !in values {
        keys := keys + {k};
      }
      values := values[c := v];
    }
  }
}
