/**
 * The builders the conversion tests use to make their JDK inputs: `LHM`, `HM`,
 * `LHS`, `HS`, `AL` and `AD`, each with a `with` method.
 *
 * Java's generics are erased, so the key-and-value varargs of the map builders
 * hold one element type `T` here; a Java `null` array is `None`.
 */
module Maker {
  import opened Wrappers
  import opened Unique
  import opened Tables
  import opened Containers
  import opened Fill

  /** The array a vararg parameter holds, with a `null` array read as empty. */
  function OrEmpty<T>(rest: Option<seq<T>>): seq<T> {
    match rest
    case None => []
    case Some(xs) => xs
  }

  /** The pairs `(rest[i], rest[i + 1])` for even `i < |rest| - 1`, in order. */
  function Pairs<T>(rest: seq<T>): (es: seq<(T, T)>)
    ensures |es| == |rest| / 2
    ensures forall j :: 0 <= j < |es| ==> es[j] == (rest[2 * j], rest[2 * j + 1])
    decreases |rest|
  {
    if |rest| < 2 then [] else [(rest[0], rest[1])] + Pairs(rest[2..])
  }

  /** The map `with(k0, v0, rest...)` builds: `k0 -> v0`, then every pair of `rest` put in turn. */
  function MapWith<T(==)>(k0: T, v0: T, rest: Option<seq<T>>): Table<T, T> {
    PutAll(Put(Empty(), k0, v0, Id), Pairs(OrEmpty(rest)), Id)
  }

  /** `LHM.with(k0, v0, rest...)`. */
  method LinkedHashMapWith<T(==)>(k0: T, v0: T, rest: Option<seq<T>>) returns (m: LinkedMap<T, T>)
    ensures fresh(m) && m.Valid() && m.canon == Id
    ensures m.State() == MapWith(k0, v0, rest)
  {
    m := new LinkedMap(Id);
    if rest.None? || |rest.value| == 0 {
      m.Put(k0, v0);
      assert Pairs(OrEmpty(rest)) == [];
      return;
    }
    m.Put(k0, v0);
    PutPairs(m, rest.value);
  }

  /** The loop of `LHM.with`: `put(rest[i], rest[i + 1])` for `i = 0, 2, 4, ...` while `i < |rest| - 1`. */
  method PutPairs<T(==)>(m: LinkedMap<T, T>, xs: seq<T>)
    requires m.Valid() && m.canon == Id
    modifies m
    ensures m.Valid()
    ensures m.State() == PutAll(old(m.State()), Pairs(xs), Id)
  {
    ghost var es := Pairs(xs);
    ghost var start := m.State();
    var i := 0;
    ghost var n := 0;
    while i < |xs| - 1
      invariant 0 <= i <= |xs| && i == 2 * n
      invariant m.Valid()
      invariant m.State() == PutAll(start, es[..n], Id)
    {
      assert es[n] == (xs[i], xs[i + 1]);
      PutAllStep(start, es, n, Id);
      m.Put(xs[i], xs[i + 1]);
      i, n := i + 2, n + 1;
    }
    PairsDone(xs, n);
  }

  /** `LHM.with()`. */
  method LinkedHashMapEmpty<T(==)>() returns (m: LinkedMap<T, T>)
    ensures fresh(m) && m.Valid() && m.canon == Id
    ensures m.State() == Empty()
  {
    m := new LinkedMap(Id);
  }

  /**
   * `HM.with(k0, v0, rest...)`: the keys and values of `MapWith`, with no
   * order; the ordered fill is kept as the ghost history of the map.
   */
  method HashMapWith<T(==)>(k0: T, v0: T, rest: Option<seq<T>>) returns (m: HashedMap<T, T>)
    ensures fresh(m) && m.canon == Id
    ensures m.keys == Elements(MapWith(k0, v0, rest).keys)
    ensures m.values == MapWith(k0, v0, rest).values
  {
    m := new HashedMap(Id);
    ghost var first := Put(Empty(), k0, v0, Id);
    PutElements(Empty(), k0, v0);
    assert Elements(Empty<T, T>().keys) == {};
    if rest.None? || |rest.value| == 0 {
      m.Put(k0, v0);
      assert Pairs(OrEmpty(rest)) == [];
      return;
    }
    m.Put(k0, v0);
    PutPairsHashed(m, rest.value, first);
  }

  /** The loop of `HM.with`, proved against the ordered fill of `shadow`, the map's insertion history. */
  method PutPairsHashed<T(==)>(m: HashedMap<T, T>, xs: seq<T>, ghost shadow: Table<T, T>)
    requires m.canon == Id
    requires m.keys == Elements(shadow.keys) && m.values == shadow.values
    modifies m
    ensures m.keys == Elements(PutAll(shadow, Pairs(xs), Id).keys)
    ensures m.values == PutAll(shadow, Pairs(xs), Id).values
  {
    ghost var es := Pairs(xs);
    var i := 0;
    ghost var n := 0;
    while i < |xs| - 1
      invariant 0 <= i <= |xs| && i == 2 * n
      invariant m.keys == Elements(PutAll(shadow, es[..n], Id).keys)
      invariant m.values == PutAll(shadow, es[..n], Id).values
    {
      ghost var before := PutAll(shadow, es[..n], Id);
      assert es[n] == (xs[i], xs[i + 1]);
      PutAllStep(shadow, es, n, Id);
      PutElements(before, xs[i], xs[i + 1]);
      m.Put(xs[i], xs[i + 1]);
      assert PutAll(shadow, es[..n + 1], Id) == Put(before, xs[i], xs[i + 1], Id);
      i, n := i + 2, n + 1;
    }
    PairsDone(xs, n);
  }

  /** `HM.with()`. */
  method HashMapEmpty<T(==)>() returns (m: HashedMap<T, T>)
    ensures fresh(m) && m.canon == Id
    ensures m.keys == {} && m.values == map[]
  {
    m := new HashedMap(Id);
  }

  /** `LHS.with(elements...)`: each distinct element once, in the order it first appears. */
  method LinkedHashSetWith<T(==)>(elements: Option<seq<T>>) returns (r: Option<LinkedSet<T>>)
    ensures r.Some? <==> elements.Some?
    ensures r.Some? ==> fresh(r.value) && r.value.Valid() && r.value.canon == Id
    ensures r.Some? ==> r.value.items == Distinct(elements.value, Id)
  {
    if elements.None? {
      return None;
    }
    var s := new LinkedSet(Id);
    InsertEach(s, elements.value);
    return Some(s);
  }

  /** `LHS.with(element)`. */
  method LinkedHashSetOf<T(==)>(element: T) returns (s: LinkedSet<T>)
    ensures fresh(s) && s.Valid() && s.canon == Id
    ensures s.items == [element]
  {
    s := new LinkedSet(Id);
    s.Add(element);
  }

  /** `HS.with(elements...)`: the set of the elements. */
  method HashSetWith<T(==)>(elements: Option<seq<T>>) returns (r: Option<HashedSet<T>>)
    ensures r.Some? <==> elements.Some?
    ensures r.Some? ==> fresh(r.value) && r.value.canon == Id
    ensures r.Some? ==> r.value.elems == Elements(elements.value)
  {
    if elements.None? {
      return None;
    }
    var s := new HashedSet(Id);
    AddEach(s, elements.value);
    AddAllIdElements(elements.value);
    return Some(s);
  }

  /** `HS.with(element)`. */
  method HashSetOf<T(==)>(element: T) returns (s: HashedSet<T>)
    ensures fresh(s) && s.canon == Id
    ensures s.elems == {element}
  {
    s := new HashedSet(Id);
    s.Add(element);
  }

  /** `AL.with(elements...)` and `AD.with(elements...)`: every element, in order. */
  method ListWith<T>(elements: Option<seq<T>>) returns (r: Option<Sequence<T>>)
    ensures r.Some? <==> elements.Some?
    ensures r.Some? ==> fresh(r.value) && r.value.items == elements.value
  {
    if elements.None? {
      return None;
    }
    var l := new Sequence();
    AppendAll(l, elements.value);
    return Some(l);
  }

  /** `AL.with(element)` and `AD.with(element)`. */
  method ListOf<T>(element: T) returns (l: Sequence<T>)
    ensures fresh(l) && l.items == [element]
  {
    l := new Sequence();
    l.Add(element);
  }

  // ---------------------------------------------------------------------------
  // Lemmas

  /** The loop stops once fewer than two elements are left: every pair has been put. */
  lemma PairsDone<T>(xs: seq<T>, n: nat)
    requires |xs| - 1 <= 2 * n <= |xs|
    ensures Pairs(xs)[..n] == Pairs(xs)
  {
  }

  /** With no `rest`, or an empty one, the map holds exactly `k0 -> v0`. */
  lemma MapWithoutRest<T>(k0: T, v0: T, rest: Option<seq<T>>)
    requires rest.None? || rest.value == []
    ensures MapWith(k0, v0, rest) == Table([k0], map[k0 := v0])
  {
    assert Pairs(OrEmpty(rest)) == [];
  }

  /** Pairing ignores an element after an even-length prefix. */
  lemma {:induction false} PairsDropLast<T>(xs: seq<T>, x: T)
    requires |xs| % 2 == 0
    ensures Pairs(xs + [x]) == Pairs(xs)
    decreases |xs|
  {
    if |xs| >= 2 {
      PairsDropLast(xs[2..], x);
      assert (xs + [x])[2..] == xs[2..] + [x];
    }
  }

  /** An odd trailing element of `rest` has no partner and is not put. */
  lemma OddTrailingDropped<T>(k0: T, v0: T, xs: seq<T>, x: T)
    requires |xs| % 2 == 0
    ensures MapWith(k0, v0, Some(xs + [x])) == MapWith(k0, v0, Some(xs))
  {
    PairsDropLast(xs, x);
  }

  /**
   * What the map holds: `k0` and the first element of every pair, in order of
   * first appearance, each once; a key repeated in `rest` holds the value of its
   * last pair, and `k0` keeps `v0` unless a pair names it.
   */
  lemma MapWithContents<T>(k0: T, v0: T, xs: seq<T>, k: T)
    ensures MapWith(k0, v0, Some(xs)).keys == Distinct([k0] + KeysOf(Pairs(xs)), Id)
    ensures k in MapWith(k0, v0, Some(xs)).values <==> k == k0 || k in KeysOf(Pairs(xs))
    ensures LastValue(Pairs(xs), k, Id).Some? ==>
              k in MapWith(k0, v0, Some(xs)).values &&
              MapWith(k0, v0, Some(xs)).values[k] == LastValue(Pairs(xs), k, Id).value
    ensures LastValue(Pairs(xs), k, Id).None? && k == k0 ==>
              k in MapWith(k0, v0, Some(xs)).values && MapWith(k0, v0, Some(xs)).values[k] == v0
  {
    var first := Put(Empty(), k0, v0, Id);
    var es := Pairs(xs);
    assert first == Table([k0], map[k0 := v0]);
    PutValid(Empty(), k0, v0, Id);
    PutAllKeys(first, es, Id);
    PutAllValues(first, es, Id, k);
    PutAllValid(first, es, Id);
    assert [k0] == InsertAll([], [k0], Id) by {
      assert [k0][..0] == [];
    }
    InsertAllConcat([], [k0], KeysOf(es), Id);
    StoredIffValued(PutAll(first, es, Id), k, Id);
    InsertAllHasKey(first.keys, KeysOf(es), k, Id);
    HasKeyId(PutAll(first, es, Id).keys, k);
    HasKeyId(first.keys, k);
    HasKeyId(KeysOf(es), k);
  }

  /** Adding `xs` and then `ys` is adding `xs + ys`. */
  lemma {:induction false} InsertAllConcat<T>(s: seq<T>, xs: seq<T>, ys: seq<T>, key: T -> T)
    ensures InsertAll(InsertAll(s, xs, key), ys, key) == InsertAll(s, xs + ys, key)
    decreases |ys|
  {
    if ys == [] {
      assert xs + ys == xs;
    } else {
      InsertAllConcat(s, xs, ys[..|ys| - 1], key);
      assert (xs + ys)[..|xs + ys| - 1] == xs + ys[..|ys| - 1];
    }
  }
}
