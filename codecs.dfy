/**
 * The hand-written text forms in JsonSupport, with the libGDX Json plumbing
 * (object start/end, JsonValue chains) abstracted away: a JSON value that may
 * be null is an `Option`, an array of parts a sequence, an object's fields a
 * sequence of (name, value) pairs.
 */
module Codecs {
  import opened Wrappers
  import opened Unique
  import opened Tables
  import opened Decimal

  // ---------------------------------------------------------------------------
  // AtomicLong: "`" + signed(v) + "`"

  function WriteAtomicLong(v: i64): (s: string)
    ensures 3 <= |s| && s[0] == '`' && s[|s| - 1] == '`'
  {
    "`" + Signed(v as int) + "`"
  }

  /** Null for a null value or a string shorter than 3; otherwise the numeral from index 1 to the next backtick. */
  function ReadAtomicLong(json: Option<string>): (r: Read<i64>)
    ensures r.Null? <==> json.None? || |json.value| < 3
    ensures r.Value? ==> ReadLong(json.value, 1, IndexOf(json.value, '`', 1)) == Some(r.value)
    ensures r.Unreadable? <==> json.Some? && 3 <= |json.value| && ReadLong(json.value, 1, IndexOf(json.value, '`', 1)).None?
  {
    match json
    case None => Null
    case Some(s) =>
      if |s| < 3 then Null
      else
        var tick := IndexOf(s, '`', 1);
        match ReadLong(s, 1, tick)
        case Some(state) => Value(state)
        case None => Unreadable
  }

  // ---------------------------------------------------------------------------
  // RandomXS128: "`" + signed(a) + "~" + signed(b) + "`"

  function WriteRandomXS128(a: i64, b: i64): (s: string)
    ensures 5 <= |s| && s[0] == '`' && s[|s| - 1] == '`'
  {
    "`" + Signed(a as int) + "~" + Signed(b as int) + "`"
  }

  /**
   * Null for a null value or a string shorter than 5; otherwise the first state
   * runs from index 1 to the first '~' after it and the second from there to the
   * next backtick.
   */
  function ReadRandomXS128(json: Option<string>): (r: Read<(i64, i64)>)
    ensures r.Null? <==> json.None? || |json.value| < 5
    ensures r.Value? ==> var split := IndexOf(json.value, '~', 1);
              && ReadLong(json.value, 1, split) == Some(r.value.0)
              && ReadLong(json.value, split + 1, IndexOf(json.value, '`', split)) == Some(r.value.1)
    ensures r.Unreadable? <==>
              (json.Some? && 5 <= |json.value| &&
               var split := IndexOf(json.value, '~', 1);
               (ReadLong(json.value, 1, split).None? || ReadLong(json.value, split + 1, IndexOf(json.value, '`', split)).None?))
  {
    match json
    case None => Null
    case Some(s) =>
      if |s| < 5 then Null
      else
        var split := IndexOf(s, '~', 1);
        match (ReadLong(s, 1, split), ReadLong(s, split + 1, IndexOf(s, '`', split)))
        case (Some(stateA), Some(stateB)) => Value((stateA, stateB))
        case _ => Unreadable
  }

  /** `indexOf` finds the first occurrence: the one at `k` when none lies before it. */
  lemma IndexOfFinds(s: string, c: char, from: int, k: int)
    requires 0 <= from <= k < |s| && s[k] == c
    requires forall j :: from <= j < k ==> s[j] != c
    ensures IndexOf(s, c, from) == k
  {
  }

  /** Searching from the start of `d`, which lacks `c`, finds the `c` just after it. */
  lemma IndexOfAfter(pre: string, d: string, c: char, post: string)
    requires forall i :: 0 <= i < |d| ==> d[i] != c
    ensures IndexOf(pre + d + [c] + post, c, |pre|) == |pre| + |d|
  {
    var s := pre + d + [c] + post;
    forall j | |pre| <= j < |pre| + |d| ensures s[j] != c {
      assert s[j] == d[j - |pre|];
    }
    IndexOfFinds(s, c, |pre|, |pre| + |d|);
  }

  /** The signed form holds no character other than digits and '-'. */
  lemma SignedLacks(v: int, c: char)
    requires c != '-' && !IsDigit(c)
    ensures forall i :: 0 <= i < |Signed(v)| ==> Signed(v)[i] != c
  {
    SignedAlphabet(v);
  }

  /** Reading what `WriteAtomicLong` writes gives back the value. */
  lemma AtomicLongRoundTrip(v: i64)
    ensures ReadAtomicLong(Some(WriteAtomicLong(v))) == Value(v)
  {
    var d := Signed(v as int);
    SignedLacks(v as int, '`');
    IndexOfAfter("`", d, '`', "");
    assert WriteAtomicLong(v) == "`" + d + ['`'] + "";
    ReadLongOfSigned(v, "`", "`");
  }

  /** The reader's outcome once both separators and both numerals are known. */
  lemma ReadRandomXS128Of(s: string, split: int, a: i64, b: i64)
    requires 5 <= |s| && IndexOf(s, '~', 1) == split
    requires ReadLong(s, 1, split) == Some(a)
    requires ReadLong(s, split + 1, IndexOf(s, '`', split)) == Some(b)
    ensures ReadRandomXS128(Some(s)) == Value((a, b))
  {
  }

  lemma TildeAfterFirstState(a: i64, b: i64)
    ensures IndexOf(WriteRandomXS128(a, b), '~', 1) == 1 + |Signed(a as int)|
  {
    var da, db := Signed(a as int), Signed(b as int);
    SignedLacks(a as int, '~');
    IndexOfAfter("`", da, '~', db + "`");
    assert WriteRandomXS128(a, b) == "`" + da + ['~'] + (db + "`");
  }

  lemma TickAfterSecondState(a: i64, b: i64)
    ensures IndexOf(WriteRandomXS128(a, b), '`', 1 + |Signed(a as int)|) == |WriteRandomXS128(a, b)| - 1
  {
    var da, db := Signed(a as int), Signed(b as int);
    var second := "~" + db;
    SignedLacks(b as int, '`');
    forall i | 0 <= i < |second| ensures second[i] != '`' {
      if i > 0 {
        assert second[i] == db[i - 1];
      }
    }
    IndexOfAfter("`" + da, second, '`', "");
    assert WriteRandomXS128(a, b) == ("`" + da) + second + ['`'] + "";
  }

  lemma StatesReadable(a: i64, b: i64)
    ensures ReadLong(WriteRandomXS128(a, b), 1, 1 + |Signed(a as int)|) == Some(a)
    ensures ReadLong(WriteRandomXS128(a, b), 2 + |Signed(a as int)|, |WriteRandomXS128(a, b)| - 1) == Some(b)
  {
    var da, db := Signed(a as int), Signed(b as int);
    ReadLongOfSigned(a, "`", "~" + db + "`");
    assert WriteRandomXS128(a, b) == "`" + da + ("~" + db + "`");
    ReadLongOfSigned(b, "`" + da + "~", "`");
    assert WriteRandomXS128(a, b) == ("`" + da + "~") + db + "`";
  }

  /** Reading what `WriteRandomXS128` writes gives back both states. */
  lemma RandomXS128RoundTrip(a: i64, b: i64)
    ensures ReadRandomXS128(Some(WriteRandomXS128(a, b))) == Value((a, b))
  {
    TildeAfterFirstState(a, b);
    TickAfterSecondState(a, b);
    StatesReadable(a, b);
    ReadRandomXS128Of(WriteRandomXS128(a, b), 1 + |Signed(a as int)|, a, b);
  }

  // ---------------------------------------------------------------------------
  // Enum-keyed maps: "parts" holds key, value, key, value, ...

  datatype Part<K, V> = KeyPart(key: K) | ValuePart(val: V)

  /** The parts array for a sequence of entries. */
  function Interleave<K, V>(es: seq<(K, V)>): (parts: seq<Part<K, V>>)
    ensures |parts| == 2 * |es|
  {
    if es == [] then [] else [KeyPart(es[0].0), ValuePart(es[0].1)] + Interleave(es[1..])
  }

  /**
   * The entries read two parts at a time. An odd count leaves a key without a
   * value, where the reader dereferences a missing node; a part of the wrong
   * kind is not readable either.
   */
  function Deinterleave<K, V>(parts: seq<Part<K, V>>): Option<seq<(K, V)>>
    decreases |parts|
  {
    if parts == [] then Some([])
    else if |parts| == 1 then None
    else match (parts[0], parts[1], Deinterleave(parts[2..]))
      case (KeyPart(k), ValuePart(v), Some(rest)) => Some([(k, v)] + rest)
      case _ => None
  }

  lemma {:induction false} InterleaveAppend<K, V>(es: seq<(K, V)>, e: (K, V))
    ensures Interleave(es + [e]) == Interleave(es) + [KeyPart(e.0), ValuePart(e.1)]
    decreases |es|
  {
    if es != [] {
      assert (es + [e])[1..] == es[1..] + [e];
      InterleaveAppend(es[1..], e);
    } else {
      assert [e][1..] == [];
    }
  }

  /** The writer's loop: key then value for each entry, in iteration order. */
  method WriteParts<K, V>(es: seq<(K, V)>) returns (parts: seq<Part<K, V>>)
    ensures parts == Interleave(es)
  {
    parts := [];
    for i := 0 to |es|
      invariant parts == Interleave(es[..i])
    {
      InterleaveAppend(es[..i], es[i]);
      assert es[..i + 1] == es[..i] + [es[i]];
      parts := parts + [KeyPart(es[i].0), ValuePart(es[i].1)];
    }
    assert es[..|es|] == es;
  }

  /** The reader's loop: `put(key, value)` for each pair of parts into a fresh map. */
  method ReadParts<K(==), V>(json: Option<seq<Part<K, V>>>) returns (r: Read<Table<K, V>>)
    ensures json.None? ==> r.Null?
    ensures json.Some? && Deinterleave(json.value).None? ==> r.Unreadable?
    ensures json.Some? && Deinterleave(json.value).Some? ==>
              r == Value(PutAll(Empty(), Deinterleave(json.value).value, Id))
  {
    if json.None? {
      return Null;
    }
    var parts := json.value;
    var data: Table<K, V> := Empty();
    ghost var done: seq<(K, V)> := [];
    assert parts[0..] == parts;
    assert Prepend(done, Deinterleave(parts)) == Deinterleave(parts) by {
      if Deinterleave(parts).Some? {
        assert [] + Deinterleave(parts).value == Deinterleave(parts).value;
      }
    }
    var i := 0;
    while i < |parts|
      invariant 0 <= i <= |parts|
      invariant Deinterleave(parts) == Prepend(done, Deinterleave(parts[i..]))
      invariant data == PutAll(Empty(), done, Id)
      decreases |parts| - i
    {
      if i + 1 == |parts| {
        return Unreadable;
      }
      var rest := parts[i..];
      assert rest[0] == parts[i] && rest[1] == parts[i + 1] && rest[2..] == parts[i + 2..];
      match (parts[i], parts[i + 1]) {
        case (KeyPart(k), ValuePart(v)) =>
          assert Deinterleave(rest) == Prepend([(k, v)], Deinterleave(parts[i + 2..]));
          PrependAssoc(done, (k, v), Deinterleave(parts[i + 2..]));
          assert (done + [(k, v)])[..|done|] == done;
          done := done + [(k, v)];
          data := Tables.Put(data, k, v, Id);
        case _ =>
          return Unreadable;
      }
      i := i + 2;
    }
    assert parts[|parts|..] == [];
    assert done + [] == done;
    return Value(data);
  }

  function Prepend<T>(xs: seq<T>, r: Option<seq<T>>): Option<seq<T>> {
    match r
    case None => None
    case Some(ys) => Some(xs + ys)
  }

  lemma PrependAssoc<T>(xs: seq<T>, x: T, r: Option<seq<T>>)
    ensures Prepend(xs, Prepend([x], r)) == Prepend(xs + [x], r)
  {
    if r.Some? {
      assert xs + ([x] + r.value) == (xs + [x]) + r.value;
    }
  }

  /** Reading the parts written for some entries gives back those entries. */
  lemma {:induction false} PartsRoundTrip<K, V>(es: seq<(K, V)>)
    ensures Deinterleave(Interleave(es)) == Some(es)
    decreases |es|
  {
    if es != [] {
      PartsRoundTrip(es[1..]);
      var p := Interleave(es);
      assert p[2..] == Interleave(es[1..]);
      assert [es[0]] + es[1..] == es;
    }
  }

  /** A parts array of odd length is never readable. */
  lemma {:induction false} OddPartsUnreadable<K, V>(parts: seq<Part<K, V>>)
    requires |parts| % 2 == 1
    ensures Deinterleave(parts) == None
    decreases |parts|
  {
    if |parts| > 1 {
      OddPartsUnreadable(parts[2..]);
    }
  }

  /** An enum-keyed map written as parts and read back is the same map, in the same order. */
  lemma EnumMapRoundTrip<K, V>(t: Table<K, V>)
    requires Wellformed(t)
    ensures Deinterleave(Interleave(Entries(t))).Some?
    ensures PutAll(Empty(), Deinterleave(Interleave(Entries(t))).value, Id) == t
  {
    PartsRoundTrip(Entries(t));
    FromEntries(t);
  }

  // ---------------------------------------------------------------------------
  // BooleanDeque: one character per element, '1' for true and '0' for false

  function DenseChar(b: bool): char {
    if b then '1' else '0'
  }

  /** The inverse reading: '1' is true, anything else false. */
  function Booleans(s: string): (bs: seq<bool>)
    ensures |bs| == |s|
  {
    seq(|s|, i requires 0 <= i < |s| => s[i] == '1')
  }

  /** The dense form of a deque: one character per element, in order. */
  function Dense(items: seq<bool>): (s: string)
    ensures |s| == |items|
  {
    if items == [] then "" else Dense(items[..|items| - 1]) + [DenseChar(items[|items| - 1])]
  }

  /** The writer's loop over the deque's iterator. */
  method WriteBooleanDeque(items: seq<bool>) returns (s: string)
    ensures s == Dense(items)
    ensures forall i :: 0 <= i < |s| ==> s[i] == '0' || s[i] == '1'
  {
    s := "";
    for i := 0 to |items|
      invariant s == Dense(items[..i])
      invariant forall j :: 0 <= j < |s| ==> s[j] == '0' || s[j] == '1'
    {
      assert items[..i + 1][..i] == items[..i];
      s := s + [DenseChar(items[i])];
    }
    assert items[..|items|] == items;
  }

  /** Decoding the dense form recovers the deque. */
  lemma {:induction false} BooleanDequeRoundTrip(items: seq<bool>)
    ensures Booleans(Dense(items)) == items
    decreases |items|
  {
    if items != [] {
      var init := items[..|items| - 1];
      BooleanDequeRoundTrip(init);
      assert Booleans(Dense(items)) == Booleans(Dense(init)) + [items[|items| - 1]];
      assert init + [items[|items| - 1]] == items;
    }
  }

  // ---------------------------------------------------------------------------
  // FloatDeque and DoubleDeque: formatted numbers joined by single spaces

  /** " " before each token, which is what the writer's StringBuilder holds before `substring(1)`. */
  function Spaced(tokens: seq<string>): (s: string)
    ensures |s| >= |tokens|
  {
    if tokens == [] then "" else " " + tokens[0] + Spaced(tokens[1..])
  }

  lemma {:induction false} SpacedAppend(tokens: seq<string>, t: string)
    ensures Spaced(tokens + [t]) == Spaced(tokens) + " " + t
    decreases |tokens|
  {
    if tokens != [] {
      assert (tokens + [t])[1..] == tokens[1..] + [t];
      SpacedAppend(tokens[1..], t);
    } else {
      assert [t][1..] == [];
    }
  }

  /**
   * The writer: a space and a token per element, then `substring(1)`, which
   * throws on an empty deque (`None` here).
   */
  method WriteTokens(tokens: seq<string>) returns (r: Option<string>)
    ensures tokens == [] ==> r.None?
    ensures tokens != [] ==> r == Some(Spaced(tokens)[1..])
  {
    var sb := "";
    for i := 0 to |tokens|
      invariant sb == Spaced(tokens[..i])
    {
      SpacedAppend(tokens[..i], tokens[i]);
      assert tokens[..i + 1] == tokens[..i] + [tokens[i]];
      sb := sb + " " + tokens[i];
    }
    assert tokens[..|tokens|] == tokens;
    if |sb| < 1 {
      return None;
    }
    return Some(sb[1..]);
  }

  /** Splitting at every space. */
  function SplitSpaces(s: string): (r: seq<string>)
    ensures |r| >= 1
    decreases |s|
  {
    var i := IndexOf(s, ' ', 0);
    if i < 0 then [s] else [s[..i]] + SplitSpaces(s[i + 1..])
  }

  /** Splitting a string with no space in it gives that string alone. */
  lemma SplitWithoutSpace(t: string)
    requires ' ' !in t
    ensures SplitSpaces(t) == [t]
  {
  }

  /** Splitting `t + " " + rest` where `t` has no space gives `t`, then the split of `rest`. */
  lemma SplitAtFirstSpace(t: string, rest: string)
    requires ' ' !in t
    ensures SplitSpaces(t + " " + rest) == [t] + SplitSpaces(rest)
  {
    var s := t + " " + rest;
    forall j | 0 <= j < |t| ensures s[j] != ' ' {
      assert s[j] == t[j];
      assert t[j] in t;
    }
    IndexOfFinds(s, ' ', 0, |t|);
    assert s[..|t|] == t;
    assert s[|t| + 1..] == rest;
  }

  /** The joined form of `[t] + rest` is `t`, a space, and the joined form of `rest`. */
  lemma SpacedCons(t: string, rest: seq<string>)
    requires rest != []
    ensures Spaced([t] + rest)[1..] == t + " " + Spaced(rest)[1..]
  {
    assert ([t] + rest)[1..] == rest;
  }

  /** Tokens without spaces, joined by the writer, split back into the same tokens. */
  lemma {:induction false} TokensRoundTrip(tokens: seq<string>)
    requires tokens != []
    requires forall t :: t in tokens ==> ' ' !in t
    ensures SplitSpaces(Spaced(tokens)[1..]) == tokens
    decreases |tokens|
  {
    var t, rest := tokens[0], tokens[1..];
    assert t in tokens;
    assert tokens == [t] + rest;
    if rest == [] {
      assert Spaced(tokens)[1..] == t;
      SplitWithoutSpace(t);
    } else {
      forall u | u in rest ensures ' ' !in u {
        assert u in tokens;
      }
      TokensRoundTrip(rest);
      SpacedCons(t, rest);
      SplitAtFirstSpace(t, Spaced(rest)[1..]);
    }
  }

  // ---------------------------------------------------------------------------
  // Integer-keyed maps: each entry is a field named by its key

  /** Fields named by `format` of each key, in entry order. */
  function NamedFields<K, V>(es: seq<(K, V)>, format: K -> string): (fs: seq<(string, V)>)
    ensures |fs| == |es|
  {
    seq(|es|, i requires 0 <= i < |es| => (format(es[i].0), es[i].1))
  }

  /** Every field name parses as a key. */
  predicate NamesParse<K, V>(fields: seq<(string, V)>, parse: string -> Option<K>) {
    forall i :: 0 <= i < |fields| ==> parse(fields[i].0).Some?
  }

  /** The entries the fields denote, when every name parses. */
  function ParsedEntries<K, V>(fields: seq<(string, V)>, parse: string -> Option<K>): (es: seq<(K, V)>)
    requires NamesParse(fields, parse)
    ensures |es| == |fields|
  {
    seq(|fields|, i requires 0 <= i < |fields| && NamesParse(fields, parse) => (parse(fields[i].0).value, fields[i].1))
  }

  /** The writer's loop: one field per entry, named by the formatted key. */
  method WriteKeyed<K, V>(es: seq<(K, V)>, format: K -> string) returns (fields: seq<(string, V)>)
    ensures |fields| == |es|
    ensures forall i :: 0 <= i < |es| ==> fields[i] == (format(es[i].0), es[i].1)
  {
    fields := [];
    for i := 0 to |es|
      invariant |fields| == i
      invariant forall j :: 0 <= j < i ==> fields[j] == (format(es[j].0), es[j].1)
    {
      fields := fields + [(format(es[i].0), es[i].1)];
    }
  }

  /** The reader's loop: `put(parse(name), value)` for each field into a fresh map. */
  method ReadKeyed<K(==), V>(json: Option<seq<(string, V)>>, parse: string -> Option<K>) returns (r: Read<Table<K, V>>)
    ensures json.None? ==> r.Null?
    ensures json.Some? && !NamesParse(json.value, parse) ==> r.Unreadable?
    ensures json.Some? && NamesParse(json.value, parse) ==>
              r == Value(PutAll(Empty(), ParsedEntries(json.value, parse), Id))
  {
    if json.None? {
      return Null;
    }
    var fields := json.value;
    var data: Table<K, V> := Empty();
    for i := 0 to |fields|
      invariant NamesParse(fields[..i], parse)
      invariant data == PutAll(Empty(), ParsedEntries(fields[..i], parse), Id)
    {
      var key := parse(fields[i].0);
      if key.None? {
        return Unreadable;
      }
      assert fields[..i + 1][..i] == fields[..i];
      assert ParsedEntries(fields[..i + 1], parse)[..i] == ParsedEntries(fields[..i], parse);
      data := Tables.Put(data, key.value, fields[i].1, Id);
    }
    assert fields[..|fields|] == fields;
    return Value(data);
  }

  /** Names written by `format` and read by a `parse` that inverts it give back the entries. */
  lemma ParsedNamedFields<K, V>(es: seq<(K, V)>, format: K -> string, parse: string -> Option<K>)
    requires forall k :: parse(format(k)) == Some(k)
    ensures NamesParse(NamedFields(es, format), parse)
    ensures ParsedEntries(NamedFields(es, format), parse) == es
  {
    var fields := NamedFields(es, format);
    forall i | 0 <= i < |fields| ensures parse(fields[i].0) == Some(es[i].0) {
      assert fields[i].0 == format(es[i].0);
    }
    var back := ParsedEntries(fields, parse);
    forall i | 0 <= i < |es| ensures back[i] == es[i] {
    }
  }

  /** IntObjectMap, IntIntMap, ...: keys written with `signed` and read with `readInt` round-trip the map. */
  lemma IntKeyedRoundTrip<V>(t: Table<i32, V>)
    requires Wellformed(t)
    ensures NamesParse(NamedFields(Entries(t), k => Signed(k as int)), ReadInt)
    ensures PutAll(Empty(), ParsedEntries(NamedFields(Entries(t), k => Signed(k as int)), ReadInt), Id) == t
  {
    forall k: i32 ensures ReadInt(Signed(k as int)) == Some(k) {
      ReadIntOfSigned(k);
    }
    ParsedNamedFields(Entries(t), k => Signed(k as int), ReadInt);
    FromEntries(t);
  }

  /** LongObjectMap, ...: keys written with `Long.toString` and read with `Long.parseLong` round-trip the map. */
  lemma LongKeyedRoundTrip<V>(t: Table<i64, V>)
    requires Wellformed(t)
    ensures NamesParse(NamedFields(Entries(t), k => Signed(k as int)), ParseLong)
    ensures PutAll(Empty(), ParsedEntries(NamedFields(Entries(t), k => Signed(k as int)), ParseLong), Id) == t
  {
    forall k: i64 ensures ParseLong(Signed(k as int)) == Some(k) {
      ParseLongOfSigned(k);
    }
    ParsedNamedFields(Entries(t), k => Signed(k as int), ParseLong);
    FromEntries(t);
  }
}
