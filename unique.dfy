/**
 * Sets as the conversion layer fills them.
 *
 * Every set-like target (ordered set, NumberedSet, hash set, LinkedHashSet and
 * the case-insensitive sets) is filled by calling `add` once per source item, in
 * the source's iteration order. `add` leaves the set unchanged when an element
 * with the same key is already present and otherwise appends. The key is the
 * identity for the ordinary sets and a case fold for the case-insensitive ones,
 * so the equivalence of case-insensitive containers is a parameter here.
 *
 * `Distinct` is what an ordered set holds after adding a sequence, and
 * `FirstOccurrences` is an independent definition of "each distinct item once,
 * ordered by first occurrence"; `DistinctIsFirstOccurrences` connects the two.
 */
module Unique {

  /** The key of the ordinary containers, whose elements are compared with equals. */
  function Id<T>(x: T): T { x }

  function Elements<T>(s: seq<T>): set<T> {
    set y | y in s
  }

  /** No two elements of `s` share a key. */
  ghost predicate UniqueBy<T>(s: seq<T>, key: T -> T) {
    forall i, j :: 0 <= i < j < |s| ==> key(s[i]) != key(s[j])
  }

  /** Some element of `s` has the key of `x`. */
  predicate HasKey<T(==)>(s: seq<T>, x: T, key: T -> T) {
    exists y :: y in s && key(y) == key(x)
  }

  /** `add` on an insertion-ordered set. */
  function Insert<T(==)>(s: seq<T>, x: T, key: T -> T): seq<T> {
    if HasKey(s, x, key) then s else s + [x]
  }

  /** `add` of each of `xs` in turn. */
  function InsertAll<T(==)>(s: seq<T>, xs: seq<T>, key: T -> T): seq<T>
    decreases |xs|
  {
    if xs == [] then s
    else Insert(InsertAll(s, xs[..|xs| - 1], key), xs[|xs| - 1], key)
  }

  /** What a fresh ordered set holds after adding `xs`. */
  function Distinct<T(==)>(xs: seq<T>, key: T -> T): seq<T> {
    InsertAll([], xs, key)
  }

  /** Position `i` of `xs` is the first with its key. */
  ghost predicate IsFirst<T>(xs: seq<T>, i: int, key: T -> T)
    requires 0 <= i < |xs|
  {
    forall j :: 0 <= j < i ==> key(xs[j]) != key(xs[i])
  }

  /** The items of `xs` at first occurrences of their keys, in source order. */
  ghost function FirstOccurrences<T>(xs: seq<T>, key: T -> T): seq<T>
    decreases |xs|
  {
    if xs == [] then []
    else
      FirstOccurrences(xs[..|xs| - 1], key)
      + (if IsFirst(xs, |xs| - 1, key) then [xs[|xs| - 1]] else [])
  }

  /** `add` on an unordered set. */
  function AddKey<T(==)>(e: set<T>, x: T, key: T -> T): set<T> {
    if exists y :: y in e && key(y) == key(x) then e else e + {x}
  }

  /** `add` of each of `xs` in turn, on an unordered set. */
  function AddAllKeys<T(==)>(e: set<T>, xs: seq<T>, key: T -> T): set<T>
    decreases |xs|
  {
    if xs == [] then e
    else AddKey(AddAllKeys(e, xs[..|xs| - 1], key), xs[|xs| - 1], key)
  }

  /** First index of an element with the key of `x`, or -1 (`indexOf`). */
  function IndexBy<T(==)>(s: seq<T>, x: T, key: T -> T): (r: int)
    ensures -1 <= r < |s|
    ensures r >= 0 ==> key(s[r]) == key(x) && forall j :: 0 <= j < r ==> key(s[j]) != key(x)
    ensures r < 0 <==> !HasKey(s, x, key)
    decreases |s|
  {
    if s == [] then -1
    else if key(s[0]) == key(x) then 0
    else
      var j := IndexBy(s[1..], x, key);
      if j < 0 then
        assert s == [s[0]] + s[1..];
        -1
      else
        assert s[1..][j] == s[j + 1];
        j + 1
  }

  // ---------------------------------------------------------------------------
  // Lemmas

  lemma HasKeyAppend<T>(s: seq<T>, x: T, y: T, key: T -> T)
    ensures HasKey(s + [x], y, key) <==> HasKey(s, y, key) || key(x) == key(y)
  {
    if HasKey(s + [x], y, key) {
      var w :| w in s + [x] && key(w) == key(y);
      if w !in s { assert w == x; }
    }
    if HasKey(s, y, key) {
      var w :| w in s && key(w) == key(y);
      assert w in s + [x];
    }
    if key(x) == key(y) {
      assert x in s + [x];
    }
  }

  /** With the identity key, "has an element with the key of y" is membership. */
  lemma HasKeyId<T>(s: seq<T>, y: T)
    ensures HasKey(s, y, Id) <==> y in s
  {
    if y in s { assert Id(y) == y; }
  }

  /** After inserting, a key is present iff it was present or it came from `xs`. */
  lemma {:induction false} InsertAllHasKey<T>(s: seq<T>, xs: seq<T>, y: T, key: T -> T)
    ensures HasKey(InsertAll(s, xs, key), y, key) <==> HasKey(s, y, key) || HasKey(xs, y, key)
    decreases |xs|
  {
    if xs != [] {
      var init, last := xs[..|xs| - 1], xs[|xs| - 1];
      assert xs == init + [last];
      InsertAllHasKey(s, init, y, key);
      InsertAllHasKey(s, init, last, key);
      HasKeyAppend(init, last, y, key);
      var r := InsertAll(s, init, key);
      HasKeyAppend(r, last, y, key);
      if HasKey(r, last, key) && key(last) == key(y) {
        var w :| w in r && key(w) == key(last);
        assert key(w) == key(y);
      }
    }
  }

  /** Inserting never creates two elements with one key. */
  lemma {:induction false} InsertAllUnique<T>(s: seq<T>, xs: seq<T>, key: T -> T)
    requires UniqueBy(s, key)
    ensures UniqueBy(InsertAll(s, xs, key), key)
    decreases |xs|
  {
    if xs != [] {
      var init, last := xs[..|xs| - 1], xs[|xs| - 1];
      InsertAllUnique(s, init, key);
      var r := InsertAll(s, init, key);
      if !HasKey(r, last, key) {
        var r' := r + [last];
        forall i, j | 0 <= i < j < |r'| ensures key(r'[i]) != key(r'[j]) {
          if j == |r| {
            assert r[i] in r;
          }
        }
      }
    }
  }

  /** Insertion keeps what was there, in place, and appends at most one item per source item. */
  lemma {:induction false} InsertAllGrows<T>(s: seq<T>, xs: seq<T>, key: T -> T)
    ensures |s| <= |InsertAll(s, xs, key)| <= |s| + |xs|
    ensures InsertAll(s, xs, key)[..|s|] == s
    ensures forall y :: y in InsertAll(s, xs, key) ==> y in s || y in xs
    decreases |xs|
  {
    if xs != [] {
      var init, last := xs[..|xs| - 1], xs[|xs| - 1];
      InsertAllGrows(s, init, key);
      var r := InsertAll(s, init, key);
      assert xs == init + [last];
      if !HasKey(r, last, key) {
        assert (r + [last])[..|s|] == r[..|s|];
      }
    }
  }

  /**
   * An ordered set filled from `xs` holds exactly the items of `xs` that are the
   * first with their key, in the order of `xs`.
   */
  lemma {:induction false} DistinctIsFirstOccurrences<T>(xs: seq<T>, key: T -> T)
    ensures Distinct(xs, key) == FirstOccurrences(xs, key)
    decreases |xs|
  {
    if xs != [] {
      var n := |xs|;
      var init, last := xs[..n - 1], xs[n - 1];
      DistinctIsFirstOccurrences(init, key);
      InsertAllHasKey([], init, last, key);
      assert !HasKey([], last, key);
      LastIsFirstIffNew(xs, key);
    }
  }

  /** The last item of `xs` is the first with its key exactly when no earlier item has that key. */
  lemma LastIsFirstIffNew<T>(xs: seq<T>, key: T -> T)
    requires xs != []
    ensures IsFirst(xs, |xs| - 1, key) <==> !HasKey(xs[..|xs| - 1], xs[|xs| - 1], key)
  {
    var n := |xs|;
    var init, last := xs[..n - 1], xs[n - 1];
    if HasKey(init, last, key) {
      var w :| w in init && key(w) == key(last);
      var j :| 0 <= j < n - 1 && init[j] == w;
      assert xs[j] == w;
    } else {
      forall j | 0 <= j < n - 1 ensures key(xs[j]) != key(xs[n - 1]) {
        assert xs[j] == init[j];
        assert init[j] in init;
      }
    }
  }

  /** An ordered set filled from a sequence without repeated keys holds that sequence. */
  lemma {:induction false} DistinctOfUnique<T>(xs: seq<T>, key: T -> T)
    requires UniqueBy(xs, key)
    ensures Distinct(xs, key) == xs
    decreases |xs|
  {
    if xs != [] {
      var n := |xs|;
      var init, last := xs[..n - 1], xs[n - 1];
      assert UniqueBy(init, key) by {
        forall i, j | 0 <= i < j < |init| ensures key(init[i]) != key(init[j]) {
          assert init[i] == xs[i] && init[j] == xs[j];
        }
      }
      DistinctOfUnique(init, key);
      assert !HasKey(init, last, key) by {
        forall w | w in init ensures key(w) != key(last) {
          var j :| 0 <= j < n - 1 && init[j] == w;
          assert xs[j] == w;
        }
      }
      assert xs == init + [last];
    }
  }

  /** The distinct items, as a set, are what an unordered set filled from `xs` holds. */
  lemma {:induction false} AddAllIsInsertAll<T>(s: seq<T>, xs: seq<T>, key: T -> T)
    ensures AddAllKeys(Elements(s), xs, key) == Elements(InsertAll(s, xs, key))
    decreases |xs|
  {
    if xs != [] {
      var init, last := xs[..|xs| - 1], xs[|xs| - 1];
      AddAllIsInsertAll(s, init, key);
      var r := InsertAll(s, init, key);
      var e := Elements(r);
      if exists y :: y in e && key(y) == key(last) {
        var y :| y in e && key(y) == key(last);
        assert HasKey(r, last, key);
      } else {
        assert !HasKey(r, last, key);
        assert Elements(r + [last]) == e + {last};
      }
    }
  }

  /** With the identity key, the ordered set holds every source item and nothing else. */
  lemma DistinctIdElements<T>(xs: seq<T>)
    ensures Elements(Distinct(xs, Id)) == Elements(xs)
    ensures UniqueBy(Distinct(xs, Id), Id)
    ensures |Distinct(xs, Id)| <= |xs|
  {
    InsertAllUnique([], xs, Id);
    InsertAllGrows([], xs, Id);
    forall y ensures y in Distinct(xs, Id) <==> y in xs {
      InsertAllHasKey([], xs, y, Id);
      HasKeyId(Distinct(xs, Id), y);
      HasKeyId(xs, y);
      HasKeyId([], y);
    }
  }

  /** An unordered set filled from `xs` holds exactly the items of `xs`. */
  lemma AddAllIdElements<T>(xs: seq<T>)
    ensures AddAllKeys({}, xs, Id) == Elements(xs)
  {
    assert Elements<T>([]) == {};
    AddAllIsInsertAll([], xs, Id);
    DistinctIdElements(xs);
  }
}
