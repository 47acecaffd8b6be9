/**
 * Conversion: the older entry point. Each of its methods has the same body as
 * one in ConversionToJDK or ConversionToGDX, so each is that method here.
 */
module Conversion {
  import opened Unique
  import opened Tables
  import opened Containers
  import ConversionToJdk
  import ConversionToGdx

  /** toObjectList(Array): the array's items, in order. */
  method ToObjectList<T>(from: GdxArray<T>) returns (list: Sequence<T>)
    requires from.Valid()
    ensures fresh(list)
    ensures list.items == from.Contents()
  {
    list := ConversionToJdk.ToObjectListFromArray(from);
  }

  /** toArray(Collection): every item, in iteration order. */
  method ToArray<T>(from: seq<T>) returns (arr: Sequence<T>)
    ensures fresh(arr)
    ensures arr.items == from
  {
    arr := ConversionToGdx.ToArray(from);
  }

  /** toIntList, toLongList, toFloatList: a copy of `items[0..size)`. */
  method ToPrimitiveList<T>(from: GdxArray<T>) returns (list: Sequence<T>)
    requires from.Valid()
    ensures fresh(list)
    ensures list.items == from.items[0..from.size]
  {
    list := ConversionToJdk.ToPrimitiveList(from);
  }

  /** toIntArray, toLongArray, toFloatArray: the primitive iterator's values, in order. */
  method ToPrimitiveArray<T>(from: seq<T>) returns (arr: Sequence<T>)
    ensures fresh(arr)
    ensures arr.items == from
  {
    arr := ConversionToGdx.ToPrimitiveArray(from);
  }

  /** toArrayMap: an ordered ArrayMap holding the entries of `from` in `entrySet()` order. */
  method ToArrayMap<K(==), V>(from: Table<K, V>) returns (arrayMap: LinkedMap<K, V>)
    requires Wellformed(from)
    ensures fresh(arrayMap) && arrayMap.Valid() && arrayMap.canon == Id
    ensures arrayMap.State() == from
  {
    arrayMap := ConversionToGdx.ToArrayMap(from);
  }
}
