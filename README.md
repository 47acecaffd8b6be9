# jdkgdxds interop, modelled in Dafny

This project models the core of jdkgdxds_interop, a Java library that connects
two collection families: libGDX's `com.badlogic.gdx.utils` collections and the
jdkgdxds collections (which implement the JDK collection interfaces). The model
covers four parts of the library.

- **Conversions** (`ConversionToJDK`, `ConversionToGDX` and the older `Conversion`):
  - Each method allocates a fresh target and copies a source into it element by element.
  - The model keeps that form. Sources are the libGDX `Array` and `Queue` classes, whose
    storage is an `array` with a size, or a ring buffer with a head. Sets are read as the
    sequence their iterator yields, and maps as a `Table`: a key order plus a key-to-value map.
  - Targets are small classes (`Sequence`, `LinkedSet`, `HashedSet`, `LinkedMap`,
    `HashedMap`) whose `Add` and `Put` methods keep the target's invariant.
  - Every conversion's loop is proved against a specification function: the
    list equals the source, an ordered set holds the first occurrence of each element,
    a map holds the same entries in the same order.
  - A canonical-key function covers the case-insensitive sets and maps; the
    identity function covers the others.
- **JsonSupport settings and registration**:
  - The static settings `BASE`, `LEGIBLE_FLOATS` and `ADD_CLASS_TAGS`.
  - A libGDX `Json` object reduced to what registration changes: its set of classes
    with a serializer, and its two class-tag tables.
  - Each `registerX` method becomes a `Registrar` value: an optional early-return
    guard, then statements (a conditional `addClassTag`, an unconditional one, a
    `setSerializer`, or a call to another registrar). All 162 `registerX` methods of
    the source, `registerAll` among them, are written out this way.
  - Ten registrars bind a tag to the wrong class. Each of them is written out twice:
    as written (`...AsWritten`) and corrected. The registrars that call one of them
    (`registerAll`, `registerEnhancedRandom` and the four that call the latter) take a flag
    `corrected`: with `false` they call the code as written, with `true` the corrected one.
  - One method runs any registrar, and it is proved equal to the function `Run`.
- **Hand-written text forms** (serializer bodies):
  - AtomicLong and RandomXS128 as backtick-quoted decimal numbers.
  - BooleanDeque as a dense string of `0`/`1`.
  - FloatDeque and DoubleDeque as tokens joined by single spaces.
  - Enum-keyed maps as an alternating array of keys and values.
  - Int- and long-keyed maps as JSON objects whose field names are the keys.
  - Each writer has a round-trip lemma against its reader.
- **The test builders** in `Maker` (`LHM`, `HM`, `LHS`, `HS`, `AL`, `AD`).

The numeral base is modelled as BASE10 only:
- `Decimal.Signed` is `signed`;
- `Decimal.ReadLong` and `Decimal.ReadInt` are `readLong` and `readInt` on well-formed numerals;
- `Decimal.ParseLong` is `Long.parseLong` on ASCII digits.

Every reader is total and gives `None` where the text is not an ASCII decimal numeral that fits.
What the Java code does with such text instead is listed under "## Left out".

## Model

| member | source | states |
|---|---|---|
| Containers.GdxQueue.Get | src/main/java/com/github/tommyettinger/ds/interop/ConversionToJDK.java:169-175 | `get(i)` on a libGDX queue is the slot `i` places after `head`, wrapping around the end of the ring buffer. |
| Containers.GdxQueue.Contents | src/main/java/com/github/tommyettinger/ds/interop/ConversionToJDK.java:111-116 | A queue iterates front to back: element `i` is `get(i)`, `size` elements in all. |
| Containers.Sequence.Add | src/main/java/com/github/tommyettinger/ds/interop/ConversionToJDK.java:98-103 | `add` / `addLast` on a list, deque or Array target appends the element after the old contents. |
| Containers.Sequence.CopyOf | src/main/java/com/github/tommyettinger/ds/interop/ConversionToJDK.java:136-138 | The `(items, 0, size)` constructor holds exactly the copied slice. |
| Containers.HashedSet.Add | src/main/java/com/github/tommyettinger/ds/interop/ConversionToGDX.java:123-130 | `add` on an unordered set inserts the element unless an equivalent one is present, and changes nothing else. |
| Containers.LinkedSet.Add | src/main/java/com/github/tommyettinger/ds/interop/ConversionToJDK.java:274-280 | `add` on an ordered set appends an element only when no equivalent one is present, and keeps the set free of duplicates. |
| Containers.LinkedMap.Put | src/main/java/com/github/tommyettinger/ds/interop/ConversionToJDK.java:505-511 | `put` on an ordered map replaces the value of an equivalent key in place, or appends the key; keys stay unique. |
| Containers.HashedMap.Put | src/main/java/com/github/tommyettinger/ds/interop/ConversionToJDK.java:488-494 | `put` on an unordered map replaces the value of an equivalent key, or adds the key. |
| Fill.AppendAll | src/main/java/com/github/tommyettinger/ds/interop/ConversionToGDX.java:34-39 | Adding each element in turn leaves the list as its old contents followed by the source, in order. |
| Fill.InsertEach | src/main/java/com/github/tommyettinger/ds/interop/ConversionToGDX.java:138-145 | Adding each element to an ordered set gives `InsertAll`, the set with each new element appended once. |
| Fill.AddEach | src/main/java/com/github/tommyettinger/ds/interop/ConversionToGDX.java:123-130 | Adding each element to an unordered set gives `AddAllKeys` of the elements. |
| Fill.PutEach | src/main/java/com/github/tommyettinger/ds/interop/ConversionToJDK.java:505-511 | Putting each key with `from.get(k)` into an ordered map gives `PutAll` of the source's entries, in key order. |
| Fill.PutEachOr | src/main/java/com/github/tommyettinger/ds/interop/ConversionToJDK.java:602-608 | As `PutEach`, with `get(k, 0)`: the default is never used, because every iterated key has a value. |
| Fill.PutEachHashed | src/main/java/com/github/tommyettinger/ds/interop/ConversionToJDK.java:488-494 | An unordered map filled entry by entry holds the keys and values of the ordered fill. |
| Fill.PutEachHashedOr | src/main/java/com/github/tommyettinger/ds/interop/ConversionToJDK.java:585-591 | As `PutEachHashed`, with `get(k, 0)`. |
| Unique.InsertAllUnique | src/main/java/com/github/tommyettinger/ds/interop/ConversionToJDK.java:274-280 | Filling an ordered set never creates two equivalent elements. |
| Unique.DistinctIsFirstOccurrences | src/main/java/com/github/tommyettinger/ds/interop/ConversionToJDK.java:274-280 | An ordered set filled from a sequence holds exactly the first occurrence of each element, in source order. |
| Unique.DistinctOfUnique | src/main/java/com/github/tommyettinger/ds/interop/ConversionToJDK.java:303-310 | Filling from a sequence without duplicates (a set's iteration) keeps it unchanged. |
| Unique.AddAllIsInsertAll | src/main/java/com/github/tommyettinger/ds/interop/ConversionToJDK.java:229-235 | An unordered set holds the same elements as the ordered set filled from the same sequence. |
| Unique.DistinctIdElements | src/main/java/com/github/tommyettinger/ds/interop/ConversionToGDX.java:138-145 | An ordered set holds the same elements as its source, no duplicates, and no more of them than the source. |
| Tables.PutAllValid | src/main/java/com/github/tommyettinger/ds/interop/ConversionToJDK.java:505-511 | A map filled by `put` keeps its keys unique and every key valued. |
| Tables.PutAllKeys | src/main/java/com/github/tommyettinger/ds/interop/ConversionToJDK.java:553-559 | A filled map's key order is the keys inserted in order, each equivalence class once at its first insertion. |
| Tables.PutAllValues | src/main/java/com/github/tommyettinger/ds/interop/ConversionToJDK.java:553-559 | The last entry wins: a key holds the value of the last entry with an equivalent key, and untouched keys keep their values. |
| Tables.FromEntries | src/main/java/com/github/tommyettinger/ds/interop/ConversionToJDK.java:505-511 | Copying an ordinary map entry by entry into an empty ordered map reproduces it, order included. |
| Tables.LastValueOfEntries | src/main/java/com/github/tommyettinger/ds/interop/ConversionToJDK.java:488-494 | In a map's own entry list, a key's last value is its stored value. |
| ConversionToJdk.ToObjectListFromArray | src/main/java/com/github/tommyettinger/ds/interop/ConversionToJDK.java:98-103 | `toObjectList(Array)` holds the array's items in order. |
| ConversionToJdk.ToObjectListFromQueue | src/main/java/com/github/tommyettinger/ds/interop/ConversionToJDK.java:111-116 | `toObjectList(Queue)` holds the queue's items front to back. |
| ConversionToJdk.ToObjectListFromSet | src/main/java/com/github/tommyettinger/ds/interop/ConversionToJDK.java:124-129 | `toObjectList(ObjectSet)` holds the set's items in iteration order. |
| ConversionToJdk.ToPrimitiveList | src/main/java/com/github/tommyettinger/ds/interop/ConversionToJDK.java:136-138 | `toIntList(IntArray)` copies exactly `items[0..size)`; the same for the long, float, byte, char, short and boolean lists (lines 160-220). |
| ConversionToJdk.ToIntListFromSet | src/main/java/com/github/tommyettinger/ds/interop/ConversionToJDK.java:146-153 | `toIntList(IntSet)` holds the set's ints in iteration order. |
| ConversionToJdk.ToLongListFromQueue | src/main/java/com/github/tommyettinger/ds/interop/ConversionToJDK.java:169-175 | `toLongList(LongQueue)` holds `get(0) ... get(size-1)`. |
| ConversionToJdk.ToObjectSetFromArray | src/main/java/com/github/tommyettinger/ds/interop/ConversionToJDK.java:229-235 | `toObjectSet(Array)` holds exactly the distinct items of the array. |
| ConversionToJdk.ToObjectSetFromQueue | src/main/java/com/github/tommyettinger/ds/interop/ConversionToJDK.java:244-250 | `toObjectSet(Queue)` holds exactly the distinct items of the queue. |
| ConversionToJdk.ToObjectSetFromSet | src/main/java/com/github/tommyettinger/ds/interop/ConversionToJDK.java:258-265 | `toObjectSet(ObjectSet)` holds the same items. |
| ConversionToJdk.ToObjectOrderedSetFromArray | src/main/java/com/github/tommyettinger/ds/interop/ConversionToJDK.java:274-280 | `toObjectOrderedSet(Array)` holds the first occurrence of each item in array order: the same elements, no more of them than the array. |
| ConversionToJdk.ToObjectOrderedSetFromQueue | src/main/java/com/github/tommyettinger/ds/interop/ConversionToJDK.java:289-295 | The same for a queue, front to back. |
| ConversionToJdk.ToObjectOrderedSetFromSet | src/main/java/com/github/tommyettinger/ds/interop/ConversionToJDK.java:303-310 | `toObjectOrderedSet(ObjectSet)` keeps the set's iteration order exactly. |
| ConversionToJdk.ToCaseInsensitiveSetFromArray | src/main/java/com/github/tommyettinger/ds/interop/ConversionToJDK.java:319-325 | `toCaseInsensitiveSet(Array)` holds one item per case-folded class, the first one met. |
| ConversionToJdk.ToCaseInsensitiveSetFromSet | src/main/java/com/github/tommyettinger/ds/interop/ConversionToJDK.java:333-340 | The same from an ObjectSet. |
| ConversionToJdk.ToCaseInsensitiveOrderedSetFromArray | src/main/java/com/github/tommyettinger/ds/interop/ConversionToJDK.java:349-355 | `toCaseInsensitiveOrderedSet(Array)` holds the first item of each case-folded class, in array order. |
| ConversionToJdk.ToCaseInsensitiveOrderedSetFromSet | src/main/java/com/github/tommyettinger/ds/interop/ConversionToJDK.java:364-371 | The same from an ObjectSet, in iteration order. |
| ConversionToJdk.ToIntSetFromSet | src/main/java/com/github/tommyettinger/ds/interop/ConversionToJDK.java:379-386 | `toIntSet(IntSet)` holds the same ints. |
| ConversionToJdk.ToIntSetFromArray | src/main/java/com/github/tommyettinger/ds/interop/ConversionToJDK.java:394-396 | `toIntSet(IntArray)` holds the distinct ints of `items[0..size)`. |
| ConversionToJdk.ToIntOrderedSetFromSet | src/main/java/com/github/tommyettinger/ds/interop/ConversionToJDK.java:407-414 | `toIntOrderedSet(IntSet)` keeps the set's iteration order. |
| ConversionToJdk.ToIntOrderedSetFromArray | src/main/java/com/github/tommyettinger/ds/interop/ConversionToJDK.java:423-425 | `toIntOrderedSet(IntArray)` holds each distinct int once, by first occurrence. |
| ConversionToJdk.ToNumberedSetFromSet | src/main/java/com/github/tommyettinger/ds/interop/ConversionToJDK.java:437-444 | `toNumberedSet(ObjectSet)` numbers the set's items in iteration order. |
| ConversionToJdk.ToNumberedSetFromArray | src/main/java/com/github/tommyettinger/ds/interop/ConversionToJDK.java:454-461 | `toNumberedSet(Array)` numbers each distinct item by first occurrence. |
| ConversionToJdk.ToNumberedSetFromQueue | src/main/java/com/github/tommyettinger/ds/interop/ConversionToJDK.java:471-478 | The same from a queue. |
| ConversionToJdk.ToObjectObjectMap | src/main/java/com/github/tommyettinger/ds/interop/ConversionToJDK.java:488-494 | `toObjectObjectMap` holds exactly the keys and values of the source map; the ArrayMap overload at lines 520-526 is the same. |
| ConversionToJdk.ToObjectObjectOrderedMap | src/main/java/com/github/tommyettinger/ds/interop/ConversionToJDK.java:505-511 | `toObjectObjectOrderedMap` is the source map itself, in `keys()` order; the same for ArrayMap at lines 537-543. |
| ConversionToJdk.ToCaseInsensitiveMap | src/main/java/com/github/tommyettinger/ds/interop/ConversionToJDK.java:553-559 | `toCaseInsensitiveMap` keeps the first key met of each case-folded class, holding the value of the last such key. |
| ConversionToJdk.ToCaseInsensitiveOrderedMap | src/main/java/com/github/tommyettinger/ds/interop/ConversionToJDK.java:570-576 | The same, with those first keys in source order. |
| ConversionToJdk.CaseInsensitiveFill | src/main/java/com/github/tommyettinger/ds/interop/ConversionToJDK.java:553-559 | Filling under a case fold: key order is first occurrences, and each class holds its last value. |
| ConversionToJdk.ToObjectPrimitiveMap | src/main/java/com/github/tommyettinger/ds/interop/ConversionToJDK.java:585-591 | `toObjectIntMap` holds the same keys and values; the same for the long and float maps (lines 617-623, 649-655). |
| ConversionToJdk.ToObjectPrimitiveOrderedMap | src/main/java/com/github/tommyettinger/ds/interop/ConversionToJDK.java:602-608 | `toObjectIntOrderedMap` is the source map in key order; the same for long and float (lines 634-640, 666-672). |
| ConversionToJdk.ToPrimitiveObjectMap | src/main/java/com/github/tommyettinger/ds/interop/ConversionToJDK.java:681-689 | `toIntObjectMap` holds the same keys and values; the same for `toLongObjectMap` (lines 785-793). |
| ConversionToJdk.ToPrimitiveObjectOrderedMap | src/main/java/com/github/tommyettinger/ds/interop/ConversionToJDK.java:700-708 | `toIntObjectOrderedMap` is the source map in key-iterator order; the same for long (lines 804-812). |
| ConversionToJdk.ToPrimitivePrimitiveMap | src/main/java/com/github/tommyettinger/ds/interop/ConversionToJDK.java:716-724 | `toIntIntMap` holds the same keys and values; the same for `toIntFloatMap` (lines 750-758). |
| ConversionToJdk.ToPrimitivePrimitiveOrderedMap | src/main/java/com/github/tommyettinger/ds/interop/ConversionToJDK.java:734-742 | `toIntIntOrderedMap` is the source map in key order; the same for int-float (lines 768-776). |
| ConversionToJdk.ToIdentityObjectMap | src/main/java/com/github/tommyettinger/ds/interop/ConversionToJDK.java:822-828 | `toIdentityObjectMap` holds the same keys and values. |
| ConversionToJdk.ToIdentityObjectOrderedMap | src/main/java/com/github/tommyettinger/ds/interop/ConversionToJDK.java:839-845 | `toIdentityObjectOrderedMap` is the source map in key order. |
| ConversionToJdk.ToObjectDequeFromArray | src/main/java/com/github/tommyettinger/ds/interop/ConversionToJDK.java:853-858 | `toObjectDeque(Array)` holds the array's items in order. |
| ConversionToJdk.ToObjectDequeFromQueue | src/main/java/com/github/tommyettinger/ds/interop/ConversionToJDK.java:866-871 | `toObjectDeque(Queue)` holds the queue's items front to back. |
| ConversionToJdk.ToObjectDequeFromSet | src/main/java/com/github/tommyettinger/ds/interop/ConversionToJDK.java:879-884 | `toObjectDeque(ObjectSet)` holds the set's items in iteration order. |
| ConversionToJdk.ToLongDequeFromQueue | src/main/java/com/github/tommyettinger/ds/interop/ConversionToJDK.java:891-897 | `toLongDeque(LongQueue)` holds `get(0) ... get(size-1)`. |
| ConversionToJdk.ToPrimitiveDeque | src/main/java/com/github/tommyettinger/ds/interop/ConversionToJDK.java:904-910 | `toLongDeque(LongArray)` holds exactly `items[0..size)`; the same for the int, byte, short, char and float deques (lines 917-923, 944-988). |
| ConversionToJdk.ToIntDequeFromSet | src/main/java/com/github/tommyettinger/ds/interop/ConversionToJDK.java:930-937 | `toIntDeque(IntSet)` holds the set's ints in iteration order. |
| ConversionToGdx.ToArray | src/main/java/com/github/tommyettinger/ds/interop/ConversionToGDX.java:34-39 | `toArray` holds every item in iteration order, `from.size()` of them. |
| ConversionToGdx.ToPrimitiveArray | src/main/java/com/github/tommyettinger/ds/interop/ConversionToGDX.java:47-54 | `toIntArray` holds the iterator's values in order; the same for `toLongArray` and `toFloatArray` (lines 62-69, 92-99). |
| ConversionToGdx.ToLongQueue | src/main/java/com/github/tommyettinger/ds/interop/ConversionToGDX.java:77-84 | `toLongQueue` calls `addLast` on each value, so front to back is iteration order. |
| ConversionToGdx.ToArrayMap | src/main/java/com/github/tommyettinger/ds/interop/ConversionToGDX.java:110-115 | `toArrayMap` is an ordered ArrayMap equal to the source map, in `entrySet()` order. |
| ConversionToGdx.ToObjectSet | src/main/java/com/github/tommyettinger/ds/interop/ConversionToGDX.java:123-130 | `toObjectSet` holds exactly the distinct items. |
| ConversionToGdx.ToOrderedSet | src/main/java/com/github/tommyettinger/ds/interop/ConversionToGDX.java:138-145 | `toOrderedSet` holds each distinct item once, by first occurrence: the same elements, no more of them than the source. |
| ConversionToGdx.ToIntSet | src/main/java/com/github/tommyettinger/ds/interop/ConversionToGDX.java:154-161 | `toIntSet` holds exactly the distinct ints the iterator yields. |
| ConversionToGdx.ToObjectMap | src/main/java/com/github/tommyettinger/ds/interop/ConversionToGDX.java:171-177 | `toObjectMap` holds exactly the source's keys and values; the same for `toObjectIntMap`, `toObjectLongMap` and `toObjectFloatMap` (lines 204-240). |
| ConversionToGdx.ToOrderedMap | src/main/java/com/github/tommyettinger/ds/interop/ConversionToGDX.java:189-195 | `toOrderedMap` is the source map in `keySet()` order. |
| ConversionToGdx.ToPrimitiveKeyedMap | src/main/java/com/github/tommyettinger/ds/interop/ConversionToGDX.java:249-257 | `toIntMap` holds the same keys and values; the same for `toIntIntMap`, `toIntFloatMap` and `toLongMap` (lines 265-306). |
| ConversionToGdx.ToIdentityMap | src/main/java/com/github/tommyettinger/ds/interop/ConversionToGDX.java:317-323 | `toIdentityMap` holds the same keys and values. |
| Conversion.ToObjectList | src/main/java/com/github/tommyettinger/ds/interop/Conversion.java:19-24 | `toObjectList(Array)` holds the array's items in order. |
| Conversion.ToArray | src/main/java/com/github/tommyettinger/ds/interop/Conversion.java:34-39 | `toArray` holds every item in iteration order. |
| Conversion.ToPrimitiveList | src/main/java/com/github/tommyettinger/ds/interop/Conversion.java:46-48 | `toIntList` copies exactly `items[0..size)`; the same for long and float (lines 70-72, 94-96). |
| Conversion.ToPrimitiveArray | src/main/java/com/github/tommyettinger/ds/interop/Conversion.java:56-63 | `toIntArray` holds the iterator's values in order; the same for long and float (lines 80-87, 104-111). |
| Conversion.ToArrayMap | src/main/java/com/github/tommyettinger/ds/interop/Conversion.java:122-127 | `toArrayMap` is an ordered ArrayMap equal to the source map. |
| Decimal.Digits | src/main/java/com/github/tommyettinger/ds/interop/JsonSupport.java:2727 | BASE10 digits of a magnitude: nonempty, digits only, no leading zero. |
| Decimal.ValueOfDigits | src/main/java/com/github/tommyettinger/ds/interop/JsonSupport.java:2727 | Reading back the digits of `n` gives `n`. |
| Decimal.ParseSignedOfSigned | src/main/java/com/github/tommyettinger/ds/interop/JsonSupport.java:2727-2736 | A BASE10 numeral written by `signed` parses back to its value. |
| Decimal.ReadLongOfSigned | src/main/java/com/github/tommyettinger/ds/interop/JsonSupport.java:2735 | `readLong(s, start, end)` recovers any long from its `signed` form wherever that form sits in a string. |
| Decimal.ReadIntOfSigned | src/main/java/com/github/tommyettinger/ds/interop/JsonSupport.java:1847 | `readInt` recovers every int from its `signed` form. |
| Decimal.ParseLongOfSigned | src/main/java/com/github/tommyettinger/ds/interop/JsonSupport.java:2095 | `Long.parseLong` recovers every long from `Long.toString`. |
| Decimal.SignedInjective | src/main/java/com/github/tommyettinger/ds/interop/JsonSupport.java:1835 | Different keys get different field names. |
| Decimal.IndexOf | src/main/java/com/github/tommyettinger/ds/interop/JsonSupport.java:2734 | `indexOf(c, from)` is the first index at or after `from` holding `c`, or -1 when there is none. |
| Decimal.Signed | src/main/java/com/github/tommyettinger/ds/interop/JsonSupport.java:2727 | `signed` writes at least one character: a '-' exactly for a negative value, and digits everywhere else. |
| Decimal.ReadLong | src/main/java/com/github/tommyettinger/ds/interop/JsonSupport.java:2735 | `readLong(s, start, end)` succeeds exactly when `s[start..end)` lies inside the string and is a numeral that fits in a long, and then gives that numeral's value. |
| Decimal.ReadInt | src/main/java/com/github/tommyettinger/ds/interop/JsonSupport.java:1847 | `readInt` succeeds exactly when the text is a numeral that fits in an int, and then gives its value. |
| Decimal.ParseLong | src/main/java/com/github/tommyettinger/ds/interop/JsonSupport.java:2095 | `Long.parseLong` accepts a numeral with an optional '-' or '+' sign that fits in a long, and gives its value; `None` stands for the NumberFormatException on anything else. |
| Codecs.WriteAtomicLong | src/main/java/com/github/tommyettinger/ds/interop/JsonSupport.java:2727 | The AtomicLong form is a numeral between backticks, at least 3 characters long. |
| Codecs.ReadAtomicLong | src/main/java/com/github/tommyettinger/ds/interop/JsonSupport.java:2731-2736 | The reader gives null exactly for a null value or a string shorter than 3. Otherwise the state is the numeral from index 1 up to the next backtick, and the read is unreadable exactly when that text is not a numeral that fits in a long. |
| Codecs.AtomicLongRoundTrip | src/main/java/com/github/tommyettinger/ds/interop/JsonSupport.java:2725-2736 | Reading what the writer writes gives back the long. |
| Codecs.WriteRandomXS128 | src/main/java/com/github/tommyettinger/ds/interop/JsonSupport.java:3830 | The RandomXS128 form is two numerals split by `~`, between backticks. |
| Codecs.ReadRandomXS128 | src/main/java/com/github/tommyettinger/ds/interop/JsonSupport.java:3834-3840 | The reader gives null exactly for a null value or a string shorter than 5. Otherwise the first state is the numeral from index 1 up to the first `~`, and the second the numeral from there to the next backtick. It is unreadable exactly when either is not a numeral that fits. |
| Codecs.RandomXS128RoundTrip | src/main/java/com/github/tommyettinger/ds/interop/JsonSupport.java:3828-3840 | Reading what the writer writes gives back both states. |
| Codecs.IndexOfAfter | src/main/java/com/github/tommyettinger/ds/interop/JsonSupport.java:3836-3838 | A search that starts at a numeral finds the separator right after it, since a numeral holds neither `~` nor a backtick. |
| Codecs.Interleave | src/main/java/com/github/tommyettinger/ds/interop/JsonSupport.java:1252-1259 | The enum map's "parts" array has two parts per entry. |
| Codecs.WriteParts | src/main/java/com/github/tommyettinger/ds/interop/JsonSupport.java:1252-1259 | The writer's loop emits key, then value, for each entry in iteration order. |
| Codecs.ReadParts | src/main/java/com/github/tommyettinger/ds/interop/JsonSupport.java:1264-1272 | The reader gives null for a null value; it puts each key-value pair of parts into a fresh map; a parts array that does not pair up is unreadable. |
| Codecs.PartsRoundTrip | src/main/java/com/github/tommyettinger/ds/interop/JsonSupport.java:1252-1272 | Pairing up the written parts gives back the entries. |
| Codecs.OddPartsUnreadable | src/main/java/com/github/tommyettinger/ds/interop/JsonSupport.java:1269-1270 | An odd number of parts leaves a key without a value and is never readable. |
| Codecs.EnumMapRoundTrip | src/main/java/com/github/tommyettinger/ds/interop/JsonSupport.java:1246-1275 | An enum map written as parts and read back is the same map, in the same order. |
| Codecs.Dense | src/main/java/com/github/tommyettinger/ds/interop/JsonSupport.java:986-994 | The dense form of a deque has one character per element. |
| Codecs.WriteBooleanDeque | src/main/java/com/github/tommyettinger/ds/interop/JsonSupport.java:986-994 | The writer's loop produces the dense form, `1` for true and `0` for false, with no other characters. |
| Codecs.BooleanDequeRoundTrip | src/main/java/com/github/tommyettinger/ds/interop/JsonSupport.java:982-1003 | Decoding the dense form of any deque recovers that deque. |
| Codecs.WriteTokens | src/main/java/com/github/tommyettinger/ds/interop/JsonSupport.java:928-938 | The writer puts a space before each formatted element, then drops the first character; an empty deque makes `substring(1)` throw (`None`). |
| Codecs.SpacedAppend | src/main/java/com/github/tommyettinger/ds/interop/JsonSupport.java:932-935 | One more loop turn adds a space and the token. |
| Codecs.TokensRoundTrip | src/main/java/com/github/tommyettinger/ds/interop/JsonSupport.java:924-946 | Tokens without spaces, joined by the writer, split at spaces back into the same tokens. |
| Codecs.WriteKeyed | src/main/java/com/github/tommyettinger/ds/interop/JsonSupport.java:1834-1836 | One field per entry, in entry order, named by the formatted key. |
| Codecs.ReadKeyed | src/main/java/com/github/tommyettinger/ds/interop/JsonSupport.java:1841-1850 | The reader gives null for a null value; it puts each field, keyed by its parsed name, into a fresh map; a name that does not parse is unreadable. |
| Codecs.ParsedNamedFields | src/main/java/com/github/tommyettinger/ds/interop/JsonSupport.java:1834-1849 | Names written by a formatter and read by a parser that inverts it give back the entries. |
| Codecs.IntKeyedRoundTrip | src/main/java/com/github/tommyettinger/ds/interop/JsonSupport.java:1828-1852 | An int-keyed map written with `signed` and read with `readInt` is the same map, in the same order. |
| Codecs.LongKeyedRoundTrip | src/main/java/com/github/tommyettinger/ds/interop/JsonSupport.java:2076-2100 | A long-keyed map written with `Long.toString` and read with `Long.parseLong` is the same map, in the same order. |
| Registry.Tagged | src/main/java/com/github/tommyettinger/ds/interop/JsonSupport.java:297 | `addClassTag(tag, cls)` maps the tag to the class and the class to the tag, overwriting both, and changes nothing else. |
| Registry.Json.HasSerializer | src/main/java/com/github/tommyettinger/ds/interop/JsonSupport.java:3826 | `getSerializer(cls) != null` exactly when `cls` has a serializer. |
| Registry.Json.AddClassTag | src/main/java/com/github/tommyettinger/ds/interop/JsonSupport.java:297 | The Json object's tables become `Tagged`. |
| Registry.Json.SetSerializer | src/main/java/com/github/tommyettinger/ds/interop/JsonSupport.java:298 | The class gains a serializer, and the tag tables are unchanged. |
| Registry.JsonSupport.constructor | src/main/java/com/github/tommyettinger/ds/interop/JsonSupport.java:46-50 | The settings start as BASE10, legible floats, and class tags on. |
| Registry.JsonSupport.NumeralBase | src/main/java/com/github/tommyettinger/ds/interop/JsonSupport.java:165-167 | `getNumeralBase()` is the base currently set, which is never null. |
| Registry.JsonSupport.SetNumeralBase | src/main/java/com/github/tommyettinger/ds/interop/JsonSupport.java:176-179 | A null base is ignored; any other base replaces the current one, and the other settings are unchanged. |
| Registry.JsonSupport.SetFloatsLegible | src/main/java/com/github/tommyettinger/ds/interop/JsonSupport.java:201-203 | Sets LEGIBLE_FLOATS and nothing else. |
| Registry.JsonSupport.SetAddClassTags | src/main/java/com/github/tommyettinger/ds/interop/JsonSupport.java:223-225 | Sets ADD_CLASS_TAGS and nothing else. |
| Registry.JsonSupport.Register | src/main/java/com/github/tommyettinger/ds/interop/JsonSupport.java:3760-3815 | Running a registrar's statements against a Json object leaves it as `Run` says: an early return when the guard class already has a serializer, a tag only when ADD_CLASS_TAGS is on (unless the tag is unconditional), and nested registrars run in place. |
| Registry.RunKeepsSerializers | src/main/java/com/github/tommyettinger/ds/interop/JsonSupport.java:57-157 | Registration never removes a serializer. |
| Registry.RunStepsInstalls | src/main/java/com/github/tommyettinger/ds/interop/JsonSupport.java:298 | A `setSerializer` among a registrar's statements leaves that class with a serializer. |
| Registry.GuardedIdempotent | src/main/java/com/github/tommyettinger/ds/interop/JsonSupport.java:3825-3843 | A guarded registrar that installs its guard class's serializer leaves that serializer installed, and a second run changes nothing. |
| Registry.SimpleIdempotent | src/main/java/com/github/tommyettinger/ds/interop/JsonSupport.java:296-320 | Running a tag-and-serializer registrar twice gives the same tables as running it once. |
| Registry.SimpleWithoutTags | src/main/java/com/github/tommyettinger/ds/interop/JsonSupport.java:297-298 | With ADD_CLASS_TAGS off, such a registrar only installs the serializer (or does nothing once it is guarded and installed). |
| Registry.SimpleWithTags | src/main/java/com/github/tommyettinger/ds/interop/JsonSupport.java:297-298 | With ADD_CLASS_TAGS on, the class is written with its tag and the tag reads back as the class. |
| Registry.GuardedSimpleFirstRun | src/main/java/com/github/tommyettinger/ds/interop/JsonSupport.java:2933-2995 | The first run of a random-generator registrar binds its tag to its class in both directions, adds only its own serializer, and leaves another class written with the same tag still written with it. |
| Registry.RunStepsCallInstalls | src/main/java/com/github/tommyettinger/ds/interop/JsonSupport.java:57-157 | A call, among a registrar's statements, to a registrar that installs its own class's serializer leaves that serializer installed. |
| Registry.RunStepsConcat | src/main/java/com/github/tommyettinger/ds/interop/JsonSupport.java:57-157 | Running two lists of statements one after the other is running their concatenation. |
| Registry.GuardedSimpleRun | src/main/java/com/github/tommyettinger/ds/interop/JsonSupport.java:3826 | The guard decides: with no serializer yet the registrar runs in full; with one it changes nothing; a second run is a no-op. |
| Registry.FlatWithoutTags | src/main/java/com/github/tommyettinger/ds/interop/JsonSupport.java:2702-2711 | With ADD_CLASS_TAGS off, a registrar of conditional tags and serializers leaves both tag tables untouched. |
| Registry.TaggedConsistent | src/main/java/com/github/tommyettinger/ds/interop/JsonSupport.java:297 | `addClassTag` keeps every tag round-tripping when its tag is new or already names the class; otherwise the class that had that tag no longer reads back from it. |
| Registrars.InterpolatorAlwaysTagged | src/main/java/com/github/tommyettinger/ds/interop/JsonSupport.java:4666-4680 | `registerInterpolator` tags Interpolator with "Inlr" whatever ADD_CLASS_TAGS says. |
| Registrars.EnhancedRandomIdempotent | src/main/java/com/github/tommyettinger/ds/interop/JsonSupport.java:3760-3815 | `registerEnhancedRandom`, both as written and corrected, installs its serializer, and calling it again changes nothing. |
| Registrars.DistributionIdempotent | src/main/java/com/github/tommyettinger/ds/interop/JsonSupport.java:4557-4611 | The same for `registerDistribution`. |
| Registrars.WrappersIdempotent | src/main/java/com/github/tommyettinger/ds/interop/JsonSupport.java:3647-3738 | The same for ReverseWrapper, ArchivalWrapper, DistributedRandom and InterpolatedRandom, both as written and corrected. |
| Registrars.RandomXS128Idempotent | src/main/java/com/github/tommyettinger/ds/interop/JsonSupport.java:3825-3843 | The same for `registerRandomXS128`. |
| Registrars.XssrNamesTwoClasses | src/main/java/com/github/tommyettinger/ds/interop/JsonSupport.java:3048-3087 | After both registrars, Xoroshiro128StarStarRandom is still written as "XSSR", which now reads back as Xoshiro256StarStarRandom. |
| Registrars.XpprNamesThreeClasses | src/main/java/com/github/tommyettinger/ds/interop/JsonSupport.java:2933-2995 | After the three registrars, Xoshiro128PlusPlusRandom, Chip32Random and Xoshiro160RoadroxoRandom are all written as "XPPR", which reads back as Xoshiro160RoadroxoRandom. |
| Registrars.RegisterAllBlocks | src/main/java/com/github/tommyettinger/ds/interop/JsonSupport.java:57-157 | `registerAll`, as written or corrected, runs its blocks in the source's order: lists, bags, deques, sets and maps; then the case-insensitive block; then the filtered-string block; then the rest. |
| Registrars.RegisterAllInstalls | src/main/java/com/github/tommyettinger/ds/interop/JsonSupport.java:57-157 | Every registrar that `registerAll` calls and that installs its own class's serializer leaves that serializer installed after `registerAll`, whatever was registered before and whatever ADD_CLASS_TAGS says. |
| Registrars.RegisterAllBooleanDeque | src/main/java/com/github/tommyettinger/ds/interop/JsonSupport.java:78-86 | Inside `registerAll`, as written, BooleanDeque gets no tag from the deque block (unless it had one) and ObjectDeque is written as "tQ"; corrected, BooleanDeque round-trips through "tQ". |
| Registrars.RegisterAllCaseInsensitive | src/main/java/com/github/tommyettinger/ds/interop/JsonSupport.java:126-129 | Inside `registerAll`, as written, neither case-insensitive map has a tag after its block (unless it had one before), and CaseInsensitiveSet is written as "ooCOM"; corrected, all four classes round-trip through their own tags. |
| Registrars.RegisterAllFilteredString | src/main/java/com/github/tommyettinger/ds/interop/JsonSupport.java:131-134 | The same for the filtered-string block: as written, FilteredStringSet is written as "ooFSOM" and neither map gets a tag; corrected, all four classes round-trip. |
| Registrars.BooleanDequeTagAsWritten | src/main/java/com/github/tommyettinger/ds/interop/JsonSupport.java:983 | As written, BooleanDeque gets no tag, and ObjectDeque is written as "tQ". |
| Registrars.BooleanDequeTagged | src/main/java/com/github/tommyettinger/ds/interop/JsonSupport.java:982-1003 | Corrected, BooleanDeque round-trips through "tQ", and every other class keeps its tag. |
| Registrars.CaseInsensitiveTagsAsWritten | src/main/java/com/github/tommyettinger/ds/interop/JsonSupport.java:2452-2511 | As written, neither case-insensitive map gets a tag, and CaseInsensitiveSet ends up written as "ooCOM". |
| Registrars.CaseInsensitiveTagged | src/main/java/com/github/tommyettinger/ds/interop/JsonSupport.java:2390-2511 | Corrected, all four case-insensitive classes round-trip through their own tags. |
| Registrars.FilteredStringTagsAsWritten | src/main/java/com/github/tommyettinger/ds/interop/JsonSupport.java:2585-2655 | As written, neither filtered-string map gets a tag, and FilteredStringSet ends up written as "ooFSOM". |
| Registrars.FilteredStringTagged | src/main/java/com/github/tommyettinger/ds/interop/JsonSupport.java:2518-2655 | Corrected, all four filtered-string classes round-trip through their own tags. |
| Registrars.EnumMapTagsAsWritten | src/main/java/com/github/tommyettinger/ds/interop/JsonSupport.java:1318-1491 | As written, EnumIntMap and EnumLongMap are both written as "elM", which reads back as EnumFloatMap. |
| Registrars.EnumMapTagged | src/main/java/com/github/tommyettinger/ds/interop/JsonSupport.java:1318-1491 | Corrected, each of the three enum maps round-trips through its own tag. |
| Registrars.EnumOrderedMapTagsAsWritten | src/main/java/com/github/tommyettinger/ds/interop/JsonSupport.java:1354-1527 | As written, EnumIntOrderedMap and EnumLongOrderedMap are both written as "elOM", which reads back as EnumFloatOrderedMap. |
| Registrars.EnumOrderedMapTagged | src/main/java/com/github/tommyettinger/ds/interop/JsonSupport.java:1354-1527 | Corrected, each of the three ordered enum maps round-trips through its own tag. |
| Registrars.QuasiRandomTagsAsWritten | src/main/java/com/github/tommyettinger/ds/interop/JsonSupport.java:3531-3570 | As written, LowChangeQuasiRandom is written as "VCQR", which reads back as VanDerCorputQuasiRandom. |
| Registrars.QuasiRandomTagged | src/main/java/com/github/tommyettinger/ds/interop/JsonSupport.java:3531-3570 | Corrected, both quasi-random generators round-trip through their own tags. |
| Maker.Pairs | src/test/java/com/github/tommyettinger/ds/interop/test/Maker.java:55-57 | The pairs the loop puts: `(rest[2j], rest[2j+1])`, `⌊|rest|/2⌋` of them. |
| Maker.LinkedHashMapWith | src/test/java/com/github/tommyettinger/ds/interop/test/Maker.java:44-62 | `LHM.with` puts `k0 -> v0`, then each pair of `rest` in turn, into a fresh ordered map. |
| Maker.LinkedHashMapEmpty | src/test/java/com/github/tommyettinger/ds/interop/test/Maker.java:73-76 | `LHM.with()` is an empty map. |
| Maker.HashMapWith | src/test/java/com/github/tommyettinger/ds/interop/test/Maker.java:96-114 | `HM.with` holds the keys and values of the same fill, without order. |
| Maker.HashMapEmpty | src/test/java/com/github/tommyettinger/ds/interop/test/Maker.java:125-128 | `HM.with()` is an empty map. |
| Maker.LinkedHashSetWith | src/test/java/com/github/tommyettinger/ds/interop/test/Maker.java:141-146 | `LHS.with` is null for a null array; otherwise it holds each distinct element once, by first occurrence. |
| Maker.LinkedHashSetOf | src/test/java/com/github/tommyettinger/ds/interop/test/Maker.java:154-158 | The one-element `LHS.with` holds exactly that element. |
| Maker.HashSetWith | src/test/java/com/github/tommyettinger/ds/interop/test/Maker.java:170-175 | `HS.with` is null for a null array; otherwise it is the set of the elements. |
| Maker.HashSetOf | src/test/java/com/github/tommyettinger/ds/interop/test/Maker.java:183-187 | The one-element `HS.with` holds exactly that element. |
| Maker.ListWith | src/test/java/com/github/tommyettinger/ds/interop/test/Maker.java:199-204 | `AL.with` (and `AD.with`, lines 230-235) is null for a null array; otherwise it holds every element in order. |
| Maker.ListOf | src/test/java/com/github/tommyettinger/ds/interop/test/Maker.java:213-217 | The one-element `AL.with` (and `AD.with`, lines 244-248) holds exactly that element. |
| Maker.MapWithoutRest | src/test/java/com/github/tommyettinger/ds/interop/test/Maker.java:46-51 | With a null or empty `rest`, the map holds exactly `k0 -> v0`. |
| Maker.OddTrailingDropped | src/test/java/com/github/tommyettinger/ds/interop/test/Maker.java:55 | An odd trailing element of `rest` has no partner and is not put. |
| Maker.MapWithContents | src/test/java/com/github/tommyettinger/ds/interop/test/Maker.java:52-61 | The keys are `k0` and each pair's first element, each once, by first appearance. A key repeated in `rest` holds the value of its last pair. `k0` keeps `v0` unless a pair names it. |

## Left out

- Floating-point formatting and parsing (`BASE.general`, `signed(float)`, `readFloat`, the `Exact` variants, `LEGIBLE_FLOATS`'s effect on them) are not modelled: FloatDeque/DoubleDeque tokens are opaque strings, and the round trip is stated for any tokens without a space.
- Numeral bases other than BASE10 (scrambled and other radices) are an opaque `OtherBase`; every codec is stated for BASE10.
- Decimal.ReadLong / Decimal.ReadInt: `readLong` and `readInt` come from the digital library, which is not part of this model. The library's reading of text that is not a numeral, or of a numeral that does not fit, is lenient; here such text reads as `None`. So `Codecs.ReadAtomicLong`, `Codecs.ReadRandomXS128` and the int-keyed `Codecs.ReadKeyed` give `Unreadable` where the Java readers return some value.
- Decimal.ParseLong: Java's `Long.parseLong` reads digits with `Character.digit`, so it also accepts non-ASCII decimal digits such as Arabic-Indic or fullwidth ones. `ParseLong` accepts ASCII `0`-`9` only and gives `None` for the others. On the long-keyed reader (JsonSupport.java line 2095), `Unreadable` stands for the NumberFormatException that `Long.parseLong` throws on a field name that is not a numeral; that reader is not lenient.
- Codecs.BooleanDequeRoundTrip: the reader's `TextTools.booleanSplitDense` is not part of this model; it is taken as "'1' is true, anything else false" (`Codecs.Booleans`).
- The libGDX `Json` machinery is not modelled: writing objects, `JsonValue` chains, `readValue` of nested values, and the removal of the "class" field. A JSON value is an `Option`, an array a sequence, and an object a sequence of named fields.
- The bodies of serializers that delegate to other libraries (juniper's `Deserializer`, `Junction.parse`, the `stringSerialize` methods of the random generators, `Interpolator` lookup) are not modelled. Only their registration is.
- Logging through `Gdx.app.error` on a failed read is not modelled; such a read returns null, which the model does not distinguish.
- Identity maps compare keys by reference; the model compares by equality, which agrees on the reference-distinct keys a source map holds.
- Case folding is a parameter of the case-insensitive conversions; the fold itself (`Utilities` in jdkgdxds) is not part of this model.
- Hash iteration order is not modelled: unordered sources are read as any duplicate-free sequence, and unordered targets are sets and maps with no order.
- Capacity arguments (`new ObjectList<>(from.size)` and the like) have no observable effect and are left out.
- Maker.LinkedHashMapWith: the `ClassCastException` catch is left out. Java's generics are erased, so the unchecked casts never throw, and keys and values share one type here.
- Maker.ListWith: `ArrayDeque` rejects null elements; the model has no null elements.
- Maker.LinkedHashSetWith / Maker.HashSetWith: the documentation of `LHS.with` and `HS.with` says duplicates are resolved in favour of the later item. The code keeps the first, because `add` ignores an element already present. The model follows the code: first occurrences.
- Null values in conversions are not modelled: the model assumes no null source container, element or key wherever the Java code would throw on one. A null `from` makes every `ConversionToGDX` and `ConversionToJDK` method throw a NullPointerException. A null element or key in a JDK collection or map makes `ConversionToGDX.toObjectSet`, `toOrderedSet`, `toObjectMap`, `toOrderedMap` and `toIdentityMap` throw, because libGDX's hashed sets and maps reject null keys. A libGDX Array holding null fed to `ConversionToJDK.toObjectSet`, `toNumberedSet` or `toObjectOrderedSet`, and the key loop of `ConversionToJDK.toObjectObjectMap`, are likewise modelled only for non-null elements and keys.
- Registry.Json.constructor: libGDX's `new Json()` is not part of this model. The constructor stands for the empty Json object that callers of `registerAll` pass in.
- Registrars: each of the 162 `registerX` methods is written out as data and run by `Registry.JsonSupport.Register`, but only the registrars named in the table have their own lemma; the others are covered by `Registry.SimpleIdempotent`, `Registry.SimpleWithTags` and `Registry.SimpleWithoutTags` through their shape.
- The "XSSR" and "XPPR" tags are kept as written. Lemmas show the classes they confuse, but the source gives no evidence of which tag was intended.
- The advice in `registerJunction`'s documentation to tag the Junction's item type is caller code and is not modelled.

## Findings

| source | as written | input that shows it | evidently intended | confidence | as-written member | corrected member |
|---|---|---|---|---|---|---|
| src/main/java/com/github/tommyettinger/ds/interop/JsonSupport.java:983 | `registerBooleanDeque` tags `ObjectDeque` with "tQ" | any Json, ADD_CLASS_TAGS on: after `registerBooleanDeque`, BooleanDeque has no tag and ObjectDeque is written as "tQ" | tag BooleanDeque with "tQ" | not executed | Registrars.BooleanDequeTagAsWritten | Registrars.BooleanDequeTagged |
| src/main/java/com/github/tommyettinger/ds/interop/JsonSupport.java:2453 | `registerCaseInsensitiveMap` and `registerCaseInsensitiveOrderedMap` (line 2486) tag CaseInsensitiveSet with "ooCM" and "ooCOM" | `registerAll` with ADD_CLASS_TAGS on: neither map gets a tag, and CaseInsensitiveSet is written as "ooCOM" | tag CaseInsensitiveMap and CaseInsensitiveOrderedMap | not executed | Registrars.CaseInsensitiveTagsAsWritten | Registrars.CaseInsensitiveTagged |
| src/main/java/com/github/tommyettinger/ds/interop/JsonSupport.java:2586 | `registerFilteredStringMap` and `registerFilteredStringOrderedMap` (line 2625) tag FilteredStringSet with "ooFSM" and "ooFSOM" | `registerAll` with ADD_CLASS_TAGS on: neither map gets a tag, and FilteredStringSet is written as "ooFSOM" | tag FilteredStringMap and FilteredStringOrderedMap | not executed | Registrars.FilteredStringTagsAsWritten | Registrars.FilteredStringTagged |
| src/main/java/com/github/tommyettinger/ds/interop/JsonSupport.java:1319 | EnumIntMap, EnumLongMap and EnumFloatMap (lines 1319, 1391, 1463) all use "elM" | the three registrars in order: EnumIntMap is written as "elM", which reads back as EnumFloatMap | "eiM" for EnumIntMap and "efM" for EnumFloatMap | not executed | Registrars.EnumMapTagsAsWritten | Registrars.EnumMapTagged |
| src/main/java/com/github/tommyettinger/ds/interop/JsonSupport.java:1355 | EnumIntOrderedMap, EnumLongOrderedMap and EnumFloatOrderedMap (lines 1355, 1427, 1499) all use "elOM" | the three registrars in order: EnumIntOrderedMap is written as "elOM", which reads back as EnumFloatOrderedMap | "eiOM" and "efOM" | not executed | Registrars.EnumOrderedMapTagsAsWritten | Registrars.EnumOrderedMapTagged |
| src/main/java/com/github/tommyettinger/ds/interop/JsonSupport.java:3556 | `registerLowChangeQuasiRandom` uses "VCQR", the tag of VanDerCorputQuasiRandom (line 3533) | both registrars on a fresh Json: LowChangeQuasiRandom is written as "VCQR", which reads back as VanDerCorputQuasiRandom | "LCQR" | not executed | Registrars.QuasiRandomTagsAsWritten | Registrars.QuasiRandomTagged |
