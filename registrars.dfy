/**
 * Every `registerX` method of JsonSupport, as the statements it runs.
 *
 * Five groups of class tags are bound in a way that loses a class's short tag
 * or makes one tag name two classes. For those the registrar as written is kept
 * under `...AsWritten`, and the plain name holds the corrected registrar.
 * The registrars that call one of them, directly or through
 * `registerEnhancedRandom`, take a flag `corrected`: `false` gives the
 * statements as written, `true` the same statements calling the corrected
 * registrars.
 */
module Registrars {
  import opened Wrappers
  import opened Registry

  /**
   * `registerAll`, lines 57-157, in the blocks the source separates by blank
   * lines: lists, bags, deques, sets, maps (with the enum map), the
   * case-insensitive and filtered-string blocks, and the registrars of other
   * libraries.
   */
  function RegisterAll(corrected: bool): Registrar {
    Registrar(None, AllHeadSteps(corrected) + CaseInsensitiveSteps(corrected) + FilteredStringSteps(corrected) + AllTailSteps(corrected))
  }

  /** The blocks of `registerAll` before the case-insensitive one, lines 58-124. */
  function AllHeadSteps(corrected: bool): seq<Step> {
    ListSteps + BagSteps + DequeSteps(corrected) + SetSteps + MapSteps
  }

  /** Lines 58-66. */
  const ListSteps: seq<Step> := [
      Call(RegisterObjectList),
      Call(RegisterIntList),
      Call(RegisterLongList),
      Call(RegisterFloatList),
      Call(RegisterByteList),
      Call(RegisterShortList),
      Call(RegisterCharList),
      Call(RegisterDoubleList),
      Call(RegisterBooleanList)
    ]

  /** Lines 68-76. */
  const BagSteps: seq<Step> := [
      Call(RegisterObjectBag),
      Call(RegisterIntBag),
      Call(RegisterLongBag),
      Call(RegisterFloatBag),
      Call(RegisterByteBag),
      Call(RegisterShortBag),
      Call(RegisterCharBag),
      Call(RegisterDoubleBag),
      Call(RegisterBooleanBag)
    ]

  /** Lines 78-86: the deques, BooleanDeque last. */
  function DequeSteps(corrected: bool): seq<Step> {
    DequeHeadSteps + [Call(if corrected then RegisterBooleanDeque else RegisterBooleanDequeAsWritten)]
  }

  /** Lines 78-85. */
  const DequeHeadSteps: seq<Step> := [
      Call(RegisterObjectDeque),
      Call(RegisterLongDeque),
      Call(RegisterIntDeque),
      Call(RegisterShortDeque),
      Call(RegisterByteDeque),
      Call(RegisterDoubleDeque),
      Call(RegisterFloatDeque),
      Call(RegisterCharDeque)
    ]

  /** Lines 88-95. */
  const SetSteps: seq<Step> := [
      Call(RegisterObjectSet),
      Call(RegisterObjectOrderedSet),
      Call(RegisterIntSet),
      Call(RegisterIntOrderedSet),
      Call(RegisterLongSet),
      Call(RegisterLongOrderedSet),
      Call(RegisterOffsetBitSet),
      Call(RegisterEnumSet)
    ]

  /** Lines 97-124: object-, int- and long-keyed maps, then the enum map. */
  const MapSteps: seq<Step> := [
      Call(RegisterObjectObjectMap),
      Call(RegisterObjectObjectOrderedMap),
      Call(RegisterObjectIntMap),
      Call(RegisterObjectIntOrderedMap),
      Call(RegisterObjectLongMap),
      Call(RegisterObjectLongOrderedMap),
      Call(RegisterObjectFloatMap),
      Call(RegisterObjectFloatOrderedMap),
      Call(RegisterIntObjectMap),
      Call(RegisterIntObjectOrderedMap),
      Call(RegisterIntIntMap),
      Call(RegisterIntIntOrderedMap),
      Call(RegisterIntLongMap),
      Call(RegisterIntLongOrderedMap),
      Call(RegisterIntFloatMap),
      Call(RegisterIntFloatOrderedMap),
      Call(RegisterLongObjectMap),
      Call(RegisterLongObjectOrderedMap),
      Call(RegisterLongIntMap),
      Call(RegisterLongIntOrderedMap),
      Call(RegisterLongLongMap),
      Call(RegisterLongLongOrderedMap),
      Call(RegisterLongFloatMap),
      Call(RegisterLongFloatOrderedMap),
      Call(RegisterEnumMap)
    ]

  /** Lines 126-129. */
  function CaseInsensitiveSteps(corrected: bool): seq<Step> {
    [
      Call(RegisterCaseInsensitiveSet),
      Call(RegisterCaseInsensitiveOrderedSet),
      Call(if corrected then RegisterCaseInsensitiveMap else RegisterCaseInsensitiveMapAsWritten),
      Call(if corrected then RegisterCaseInsensitiveOrderedMap else RegisterCaseInsensitiveOrderedMapAsWritten)
    ]
  }

  /** Lines 131-134. */
  function FilteredStringSteps(corrected: bool): seq<Step> {
    [
      Call(RegisterFilteredStringSet),
      Call(RegisterFilteredStringOrderedSet),
      Call(if corrected then RegisterFilteredStringMap else RegisterFilteredStringMapAsWritten),
      Call(if corrected then RegisterFilteredStringOrderedMap else RegisterFilteredStringOrderedMapAsWritten)
    ]
  }

  /** Lines 136-156: NumberedSet, BinaryHeap, Junction, then the registrars of digital, juniper, libGDX and the JDK. */
  function AllTailSteps(corrected: bool): seq<Step> {
    [
      Call(RegisterNumberedSet),
      Call(RegisterBinaryHeap),
      Call(RegisterJunction),
      Call(RegisterBase),
      Call(RegisterHasher),
      Call(RegisterAlternateRandom),
      Call(RegisterInterpolator),
      Call(RegisterDistributedRandom(corrected)),
      Call(RegisterInterpolatedRandom(corrected)),
      Call(RegisterRandomXS128),
      Call(RegisterClass)
    ]
  }

  /** `registerObjectList`, lines 296-320. */
  const RegisterObjectList: Registrar := Simple("oL", "ObjectList")

  /** `registerIntList`, lines 327-344. */
  const RegisterIntList: Registrar := Simple("iL", "IntList")

  /** `registerLongList`, lines 351-367. */
  const RegisterLongList: Registrar := Simple("lL", "LongList")

  /** `registerFloatList`, lines 374-390. */
  const RegisterFloatList: Registrar := Simple("fL", "FloatList")

  /** `registerByteList`, lines 397-413. */
  const RegisterByteList: Registrar := Simple("bL", "ByteList")

  /** `registerShortList`, lines 420-436. */
  const RegisterShortList: Registrar := Simple("sL", "ShortList")

  /** `registerCharList`, lines 443-459. */
  const RegisterCharList: Registrar := Simple("cL", "CharList")

  /** `registerDoubleList`, lines 466-482. */
  const RegisterDoubleList: Registrar := Simple("dL", "DoubleList")

  /** `registerBooleanList`, lines 489-505. */
  const RegisterBooleanList: Registrar := Simple("tL", "BooleanList")

  /** `registerObjectBag`, lines 512-536. */
  const RegisterObjectBag: Registrar := Simple("oB", "ObjectBag")

  /** `registerIntBag`, lines 543-565. */
  const RegisterIntBag: Registrar := Simple("iB", "IntBag")

  /** `registerLongBag`, lines 572-593. */
  const RegisterLongBag: Registrar := Simple("lB", "LongBag")

  /** `registerFloatBag`, lines 600-616. */
  const RegisterFloatBag: Registrar := Simple("fB", "FloatBag")

  /** `registerByteBag`, lines 623-644. */
  const RegisterByteBag: Registrar := Simple("bB", "ByteBag")

  /** `registerShortBag`, lines 651-672. */
  const RegisterShortBag: Registrar := Simple("sB", "ShortBag")

  /** `registerCharBag`, lines 679-700. */
  const RegisterCharBag: Registrar := Simple("cB", "CharBag")

  /** `registerDoubleBag`, lines 707-723. */
  const RegisterDoubleBag: Registrar := Simple("dB", "DoubleBag")

  /** `registerBooleanBag`, lines 730-746. */
  const RegisterBooleanBag: Registrar := Simple("tB", "BooleanBag")

  /** `registerObjectDeque`, lines 753-777. */
  const RegisterObjectDeque: Registrar := Simple("oQ", "ObjectDeque")

  /** `registerLongDeque`, lines 784-805. */
  const RegisterLongDeque: Registrar := Simple("lQ", "LongDeque")

  /** `registerIntDeque`, lines 812-833. */
  const RegisterIntDeque: Registrar := Simple("iQ", "IntDeque")

  /** `registerCharDeque`, lines 840-861. */
  const RegisterCharDeque: Registrar := Simple("cQ", "CharDeque")

  /** `registerShortDeque`, lines 868-889. */
  const RegisterShortDeque: Registrar := Simple("sQ", "ShortDeque")

  /** `registerByteDeque`, lines 896-917. */
  const RegisterByteDeque: Registrar := Simple("bQ", "ByteDeque")

  /** `registerFloatDeque`, lines 924-946. */
  const RegisterFloatDeque: Registrar := Simple("fQ", "FloatDeque")

  /** `registerDoubleDeque`, lines 953-975. */
  const RegisterDoubleDeque: Registrar := Simple("dQ", "DoubleDeque")

  /** `registerBooleanDeque` as written, at lines 982-1003. */
  const RegisterBooleanDequeAsWritten: Registrar := Registrar(None, [Tag("tQ", "ObjectDeque"), Serializer("BooleanDeque")])

  /** `registerBooleanDeque`, with the tag bound to the class it serializes. */
  const RegisterBooleanDeque: Registrar := Simple("tQ", "BooleanDeque")

  /** `registerEnumSet`, lines 1010-1034. */
  const RegisterEnumSet: Registrar := Simple("eS", "EnumSet")

  /** `registerEnumOrderedSet`, lines 1041-1065. */
  const RegisterEnumOrderedSet: Registrar := Simple("eOS", "EnumOrderedSet")

  /** `registerObjectSet`, lines 1072-1096. */
  const RegisterObjectSet: Registrar := Simple("oS", "ObjectSet")

  /** `registerObjectOrderedSet`, lines 1103-1127. */
  const RegisterObjectOrderedSet: Registrar := Simple("oOS", "ObjectOrderedSet")

  /** `registerIntSet`, lines 1134-1155. */
  const RegisterIntSet: Registrar := Simple("iS", "IntSet")

  /** `registerIntOrderedSet`, lines 1162-1183. */
  const RegisterIntOrderedSet: Registrar := Simple("iOS", "IntOrderedSet")

  /** `registerLongSet`, lines 1190-1211. */
  const RegisterLongSet: Registrar := Simple("lS", "LongSet")

  /** `registerLongOrderedSet`, lines 1218-1239. */
  const RegisterLongOrderedSet: Registrar := Simple("lOS", "LongOrderedSet")

  /** `registerEnumMap`, lines 1246-1275. */
  const RegisterEnumMap: Registrar := Simple("eoM", "EnumMap")

  /** `registerEnumOrderedMap`, lines 1282-1311. */
  const RegisterEnumOrderedMap: Registrar := Simple("eoOM", "EnumOrderedMap")

  /** `registerEnumIntMap` as written, at lines 1318-1347. */
  const RegisterEnumIntMapAsWritten: Registrar := Simple("elM", "EnumIntMap")

  /** `registerEnumIntMap`, with a tag of its own. */
  const RegisterEnumIntMap: Registrar := Simple("eiM", "EnumIntMap")

  /** `registerEnumIntOrderedMap` as written, at lines 1354-1383. */
  const RegisterEnumIntOrderedMapAsWritten: Registrar := Simple("elOM", "EnumIntOrderedMap")

  /** `registerEnumIntOrderedMap`, with a tag of its own. */
  const RegisterEnumIntOrderedMap: Registrar := Simple("eiOM", "EnumIntOrderedMap")

  /** `registerEnumLongMap`, lines 1390-1419. */
  const RegisterEnumLongMap: Registrar := Simple("elM", "EnumLongMap")

  /** `registerEnumLongOrderedMap`, lines 1426-1455. */
  const RegisterEnumLongOrderedMap: Registrar := Simple("elOM", "EnumLongOrderedMap")

  /** `registerEnumFloatMap` as written, at lines 1462-1491. */
  const RegisterEnumFloatMapAsWritten: Registrar := Simple("elM", "EnumFloatMap")

  /** `registerEnumFloatMap`, with a tag of its own. */
  const RegisterEnumFloatMap: Registrar := Simple("efM", "EnumFloatMap")

  /** `registerEnumFloatOrderedMap` as written, at lines 1498-1527. */
  const RegisterEnumFloatOrderedMapAsWritten: Registrar := Simple("elOM", "EnumFloatOrderedMap")

  /** `registerEnumFloatOrderedMap`, with a tag of its own. */
  const RegisterEnumFloatOrderedMap: Registrar := Simple("efOM", "EnumFloatOrderedMap")

  /** `registerObjectObjectMap`, lines 1534-1563. */
  const RegisterObjectObjectMap: Registrar := Simple("ooM", "ObjectObjectMap")

  /** `registerObjectObjectOrderedMap`, lines 1570-1600. */
  const RegisterObjectObjectOrderedMap: Registrar := Simple("ooOM", "ObjectObjectOrderedMap")

  /** `registerObjectLongMap`, lines 1607-1637. */
  const RegisterObjectLongMap: Registrar := Simple("olM", "ObjectLongMap")

  /** `registerObjectLongOrderedMap`, lines 1644-1674. */
  const RegisterObjectLongOrderedMap: Registrar := Simple("olOM", "ObjectLongOrderedMap")

  /** `registerObjectIntMap`, lines 1681-1711. */
  const RegisterObjectIntMap: Registrar := Simple("oiM", "ObjectIntMap")

  /** `registerObjectIntOrderedMap`, lines 1718-1748. */
  const RegisterObjectIntOrderedMap: Registrar := Simple("oiOM", "ObjectIntOrderedMap")

  /** `registerObjectFloatMap`, lines 1755-1785. */
  const RegisterObjectFloatMap: Registrar := Simple("ofM", "ObjectFloatMap")

  /** `registerObjectFloatOrderedMap`, lines 1792-1821. */
  const RegisterObjectFloatOrderedMap: Registrar := Simple("ofOM", "ObjectFloatOrderedMap")

  /** `registerIntObjectMap`, lines 1828-1852. */
  const RegisterIntObjectMap: Registrar := Simple("ioM", "IntObjectMap")

  /** `registerIntObjectOrderedMap`, lines 1859-1883. */
  const RegisterIntObjectOrderedMap: Registrar := Simple("ioOM", "IntObjectOrderedMap")

  /** `registerIntIntMap`, lines 1890-1914. */
  const RegisterIntIntMap: Registrar := Simple("iiM", "IntIntMap")

  /** `registerIntIntOrderedMap`, lines 1921-1945. */
  const RegisterIntIntOrderedMap: Registrar := Simple("iiOM", "IntIntOrderedMap")

  /** `registerIntLongMap`, lines 1952-1976. */
  const RegisterIntLongMap: Registrar := Simple("ilM", "IntLongMap")

  /** `registerIntLongOrderedMap`, lines 1983-2007. */
  const RegisterIntLongOrderedMap: Registrar := Simple("ilOM", "IntLongOrderedMap")

  /** `registerIntFloatMap`, lines 2014-2038. */
  const RegisterIntFloatMap: Registrar := Simple("ifM", "IntFloatMap")

  /** `registerIntFloatOrderedMap`, lines 2045-2069. */
  const RegisterIntFloatOrderedMap: Registrar := Simple("ifOM", "IntFloatOrderedMap")

  /** `registerLongObjectMap`, lines 2076-2100. */
  const RegisterLongObjectMap: Registrar := Simple("loM", "LongObjectMap")

  /** `registerLongObjectOrderedMap`, lines 2107-2131. */
  const RegisterLongObjectOrderedMap: Registrar := Simple("loOM", "LongObjectOrderedMap")

  /** `registerLongIntMap`, lines 2138-2162. */
  const RegisterLongIntMap: Registrar := Simple("liM", "LongIntMap")

  /** `registerLongIntOrderedMap`, lines 2169-2193. */
  const RegisterLongIntOrderedMap: Registrar := Simple("liOM", "LongIntOrderedMap")

  /** `registerLongLongMap`, lines 2200-2224. */
  const RegisterLongLongMap: Registrar := Simple("llM", "LongLongMap")

  /** `registerLongLongOrderedMap`, lines 2231-2255. */
  const RegisterLongLongOrderedMap: Registrar := Simple("llOM", "LongLongOrderedMap")

  /** `registerLongFloatMap`, lines 2262-2286. */
  const RegisterLongFloatMap: Registrar := Simple("lfM", "LongFloatMap")

  /** `registerLongFloatOrderedMap`, lines 2293-2317. */
  const RegisterLongFloatOrderedMap: Registrar := Simple("lfOM", "LongFloatOrderedMap")

  /** `registerBinaryHeap`, lines 2326-2351. */
  const RegisterBinaryHeap: Registrar := Simple("oBQ", "BinaryHeap")

  /** `registerNumberedSet`, lines 2359-2383. */
  const RegisterNumberedSet: Registrar := Simple("oNS", "NumberedSet")

  /** `registerCaseInsensitiveSet`, lines 2390-2414. */
  const RegisterCaseInsensitiveSet: Registrar := Simple("oCS", "CaseInsensitiveSet")

  /** `registerCaseInsensitiveOrderedSet`, lines 2421-2445. */
  const RegisterCaseInsensitiveOrderedSet: Registrar := Simple("oCOS", "CaseInsensitiveOrderedSet")

  /** `registerCaseInsensitiveMap` as written, at lines 2452-2478. */
  const RegisterCaseInsensitiveMapAsWritten: Registrar := Registrar(None, [Tag("ooCM", "CaseInsensitiveSet"), Serializer("CaseInsensitiveMap")])

  /** `registerCaseInsensitiveMap`, with the tag bound to the class it serializes. */
  const RegisterCaseInsensitiveMap: Registrar := Simple("ooCM", "CaseInsensitiveMap")

  /** `registerCaseInsensitiveOrderedMap` as written, at lines 2485-2511. */
  const RegisterCaseInsensitiveOrderedMapAsWritten: Registrar := Registrar(None, [Tag("ooCOM", "CaseInsensitiveSet"), Serializer("CaseInsensitiveOrderedMap")])

  /** `registerCaseInsensitiveOrderedMap`, with the tag bound to the class it serializes. */
  const RegisterCaseInsensitiveOrderedMap: Registrar := Simple("ooCOM", "CaseInsensitiveOrderedMap")

  /** `registerFilteredStringSet`, lines 2518-2544. */
  const RegisterFilteredStringSet: Registrar := Simple("oFSS", "FilteredStringSet")

  /** `registerFilteredStringOrderedSet`, lines 2552-2578. */
  const RegisterFilteredStringOrderedSet: Registrar := Simple("oFSOS", "FilteredStringOrderedSet")

  /** `registerFilteredStringMap` as written, at lines 2585-2616. */
  const RegisterFilteredStringMapAsWritten: Registrar := Registrar(None, [Tag("ooFSM", "FilteredStringSet"), Serializer("FilteredStringMap")])

  /** `registerFilteredStringMap`, with the tag bound to the class it serializes. */
  const RegisterFilteredStringMap: Registrar := Simple("ooFSM", "FilteredStringMap")

  /** `registerFilteredStringOrderedMap` as written, at lines 2624-2655. */
  const RegisterFilteredStringOrderedMapAsWritten: Registrar := Registrar(None, [Tag("ooFSOM", "FilteredStringSet"), Serializer("FilteredStringOrderedMap")])

  /** `registerFilteredStringOrderedMap`, with the tag bound to the class it serializes. */
  const RegisterFilteredStringOrderedMap: Registrar := Simple("ooFSOM", "FilteredStringOrderedMap")

  /** `registerOffsetBitSet`, lines 2662-2688. */
  const RegisterOffsetBitSet: Registrar := Simple("iBS", "OffsetBitSet")

  /** `registerJunction`, lines 2702-2711. */
  const RegisterJunction: Registrar := Registrar(None, [
      Tag("Junc", "Junction"),
      Tag("JAny", "Junction.Any"),
      Tag("JAll", "Junction.All"),
      Tag("JOne", "Junction.One"),
      Tag("JNot", "Junction.Not"),
      Tag("JLea", "Junction.Leaf")
    ])

  /** `registerAtomicLong`, lines 2723-2739. */
  const RegisterAtomicLong: Registrar := Registrar(None, [Serializer("AtomicLong")])

  /** `registerAlternateRandom`, lines 2749-2765. */
  const RegisterAlternateRandom: Registrar := GuardedSimple("AltR", "AlternateRandom")

  /** `registerFourWheelRandom`, lines 2772-2788. */
  const RegisterFourWheelRandom: Registrar := GuardedSimple("FoWR", "FourWheelRandom")

  /** `registerTrimRandom`, lines 2795-2811. */
  const RegisterTrimRandom: Registrar := GuardedSimple("TrmR", "TrimRandom")

  /** `registerWhiskerRandom`, lines 2818-2834. */
  const RegisterWhiskerRandom: Registrar := GuardedSimple("WhiR", "WhiskerRandom")

  /** `registerPasarRandom`, lines 2841-2857. */
  const RegisterPasarRandom: Registrar := GuardedSimple("PasR", "PasarRandom")

  /** `registerAceRandom`, lines 2864-2880. */
  const RegisterAceRandom: Registrar := GuardedSimple("AceR", "AceRandom")

  /** `registerChopRandom`, lines 2887-2903. */
  const RegisterChopRandom: Registrar := GuardedSimple("ChpR", "ChopRandom")

  /** `registerJsf32Random`, lines 2910-2926. */
  const RegisterJsf32Random: Registrar := GuardedSimple("JS3R", "Jsf32Random")

  /** `registerXoshiro128PlusPlusRandom`, lines 2933-2949. */
  const RegisterXoshiro128PlusPlusRandom: Registrar := GuardedSimple("XPPR", "Xoshiro128PlusPlusRandom")

  /** `registerChip32Random`, lines 2956-2972. */
  const RegisterChip32Random: Registrar := GuardedSimple("XPPR", "Chip32Random")

  /** `registerXoshiro160RoadroxoRandom`, lines 2979-2995. */
  const RegisterXoshiro160RoadroxoRandom: Registrar := GuardedSimple("XPPR", "Xoshiro160RoadroxoRandom")

  /** `registerRespite32Random`, lines 3002-3018. */
  const RegisterRespite32Random: Registrar := GuardedSimple("Re3R", "Respite32Random")

  /** `registerStrangerRandom`, lines 3025-3041. */
  const RegisterStrangerRandom: Registrar := GuardedSimple("StrR", "StrangerRandom")

  /** `registerXoshiro256StarStarRandom`, lines 3048-3064. */
  const RegisterXoshiro256StarStarRandom: Registrar := GuardedSimple("XSSR", "Xoshiro256StarStarRandom")

  /** `registerXoroshiro128StarStarRandom`, lines 3071-3087. */
  const RegisterXoroshiro128StarStarRandom: Registrar := GuardedSimple("XSSR", "Xoroshiro128StarStarRandom")

  /** `registerXoshiro256MX3Random`, lines 3094-3110. */
  const RegisterXoshiro256MX3Random: Registrar := GuardedSimple("XMXR", "Xoshiro256MX3Random")

  /** `registerTricycleRandom`, lines 3117-3133. */
  const RegisterTricycleRandom: Registrar := GuardedSimple("TriR", "TricycleRandom")

  /** `registerRomuTrioRandom`, lines 3140-3156. */
  const RegisterRomuTrioRandom: Registrar := GuardedSimple("RTrR", "RomuTrioRandom")

  /** `registerSoloRandom`, lines 3163-3179. */
  const RegisterSoloRandom: Registrar := GuardedSimple("SolR", "SoloRandom")

  /** `registerLaserRandom`, lines 3186-3202. */
  const RegisterLaserRandom: Registrar := GuardedSimple("LasR", "LaserRandom")

  /** `registerMizuchiRandom`, lines 3209-3225. */
  const RegisterMizuchiRandom: Registrar := GuardedSimple("MizR", "MizuchiRandom")

  /** `registerPcgRXSMXSRandom`, lines 3232-3248. */
  const RegisterPcgRXSMXSRandom: Registrar := GuardedSimple("PRXR", "PcgRXSMXSRandom")

  /** `registerDistinctRandom`, lines 3255-3271. */
  const RegisterDistinctRandom: Registrar := GuardedSimple("DisR", "DistinctRandom")

  /** `registerScruffRandom`, lines 3278-3294. */
  const RegisterScruffRandom: Registrar := GuardedSimple("ScrR", "ScruffRandom")

  /** `registerPouchRandom`, lines 3301-3317. */
  const RegisterPouchRandom: Registrar := GuardedSimple("PouR", "PouchRandom")

  /** `registerSfc64Random`, lines 3324-3340. */
  const RegisterSfc64Random: Registrar := GuardedSimple("SfcR", "Sfc64Random")

  /** `registerCrand64Random`, lines 3347-3363. */
  const RegisterCrand64Random: Registrar := GuardedSimple("CraR", "Crand64Random")

  /** `registerFlowRandom`, lines 3370-3386. */
  const RegisterFlowRandom: Registrar := GuardedSimple("FloR", "FlowRandom")

  /** `registerOrbitalRandom`, lines 3393-3409. */
  const RegisterOrbitalRandom: Registrar := GuardedSimple("OrbR", "OrbitalRandom")

  /** `registerTaxon32Random`, lines 3416-3432. */
  const RegisterTaxon32Random: Registrar := GuardedSimple("TxnR", "Taxon32Random")

  /** `registerChoo32Random`, lines 3439-3455. */
  const RegisterChoo32Random: Registrar := GuardedSimple("ChoR", "Choo32Random")

  /** `registerChill32Random`, lines 3462-3478. */
  const RegisterChill32Random: Registrar := GuardedSimple("Ch3R", "Chill32Random")

  /** `registerBear32Random`, lines 3485-3501. */
  const RegisterBear32Random: Registrar := GuardedSimple("BeaR", "Bear32Random")

  /** `registerGoldenQuasiRandom`, lines 3508-3524. */
  const RegisterGoldenQuasiRandom: Registrar := GuardedSimple("GoQR", "GoldenQuasiRandom")

  /** `registerVanDerCorputQuasiRandom`, lines 3531-3547. */
  const RegisterVanDerCorputQuasiRandom: Registrar := GuardedSimple("VCQR", "VanDerCorputQuasiRandom")

  /** `registerLowChangeQuasiRandom` as written, at lines 3554-3570. */
  const RegisterLowChangeQuasiRandomAsWritten: Registrar := GuardedSimple("VCQR", "LowChangeQuasiRandom")

  /** `registerLowChangeQuasiRandom`, with a tag of its own. */
  const RegisterLowChangeQuasiRandom: Registrar := GuardedSimple("LCQR", "LowChangeQuasiRandom")

  /** `registerTupleQuasiRandom`, lines 3577-3593. */
  const RegisterTupleQuasiRandom: Registrar := GuardedSimple("TuQR", "TupleQuasiRandom")

  /** `registerKnownSequenceRandom`, lines 3600-3616. */
  const RegisterKnownSequenceRandom: Registrar := GuardedSimple("KnSR", "KnownSequenceRandom")

  /** `registerLongSequence`, lines 3623-3639. */
  const RegisterLongSequence: Registrar := GuardedSimple("LSeq", "LongSequence")

  /** `registerReverseWrapper`, lines 3647-3664. */
  function RegisterReverseWrapper(corrected: bool): Registrar {
    Registrar(Some("ReverseWrapper"), [Call(RegisterEnhancedRandom(corrected)), Tag("RevW", "ReverseWrapper"), Serializer("ReverseWrapper")])
  }

  /** `registerArchivalWrapper`, lines 3672-3690. */
  function RegisterArchivalWrapper(corrected: bool): Registrar {
    Registrar(Some("ArchivalWrapper"), [
        Call(RegisterEnhancedRandom(corrected)),
        Call(RegisterLongSequence),
        Tag("ArcW", "ArchivalWrapper"),
        Serializer("ArchivalWrapper")
      ])
  }

  /** `registerDistributedRandom`, lines 3698-3714. */
  function RegisterDistributedRandom(corrected: bool): Registrar {
    Registrar(Some("DistributedRandom"), [
        Call(RegisterEnhancedRandom(corrected)),
        Call(RegisterDistribution),
        Tag("DsrR", "DistributedRandom"),
        Serializer("DistributedRandom")
      ])
  }

  /** `registerInterpolatedRandom`, lines 3722-3738. */
  function RegisterInterpolatedRandom(corrected: bool): Registrar {
    Registrar(Some("InterpolatedRandom"), [
        Call(RegisterEnhancedRandom(corrected)),
        Call(RegisterInterpolator),
        Tag("InrR", "InterpolatedRandom"),
        Serializer("InterpolatedRandom")
      ])
  }

  /** `registerEnhancedRandom`, lines 3760-3815. */
  function RegisterEnhancedRandom(corrected: bool): Registrar {
    Registrar(Some("EnhancedRandom"), [
        Call(RegisterAtomicLong),
        Call(RegisterAceRandom),
        Call(RegisterBear32Random),
        Call(RegisterChill32Random),
        Call(RegisterChoo32Random),
        Call(RegisterChopRandom),
        Call(RegisterCrand64Random),
        Call(RegisterDistinctRandom),
        Call(RegisterFlowRandom),
        Call(RegisterFourWheelRandom),
        Call(RegisterGoldenQuasiRandom),
        Call(RegisterJsf32Random),
        Call(RegisterKnownSequenceRandom),
        Call(RegisterLaserRandom),
        Call(if corrected then RegisterLowChangeQuasiRandom else RegisterLowChangeQuasiRandomAsWritten),
        Call(RegisterMizuchiRandom),
        Call(RegisterPasarRandom),
        Call(RegisterPcgRXSMXSRandom),
        Call(RegisterPouchRandom),
        Call(RegisterRespite32Random),
        Call(RegisterRomuTrioRandom),
        Call(RegisterScruffRandom),
        Call(RegisterSfc64Random),
        Call(RegisterSoloRandom),
        Call(RegisterStrangerRandom),
        Call(RegisterTaxon32Random),
        Call(RegisterTricycleRandom),
        Call(RegisterTrimRandom),
        Call(RegisterTupleQuasiRandom),
        Call(RegisterVanDerCorputQuasiRandom),
        Call(RegisterWhiskerRandom),
        Call(RegisterXoroshiro128StarStarRandom),
        Call(RegisterXoshiro128PlusPlusRandom),
        Call(RegisterXoshiro256MX3Random),
        Call(RegisterXoshiro256StarStarRandom),
        Tag("EnhR", "EnhancedRandom"),
        Serializer("EnhancedRandom")
      ])
  }

  /** `registerRandomXS128`, lines 3825-3843. */
  const RegisterRandomXS128: Registrar := Registrar(Some("RandomXS128"), [Serializer("RandomXS128")])

  /** `registerArcsineDistribution`, lines 3871-3886. */
  const RegisterArcsineDistribution: Registrar := Simple("Arcsine", "ArcsineDistribution")

  /** `registerBernoulliDistribution`, lines 3893-3908. */
  const RegisterBernoulliDistribution: Registrar := Simple("Bernoulli", "BernoulliDistribution")

  /** `registerBetaDistribution`, lines 3915-3930. */
  const RegisterBetaDistribution: Registrar := Simple("Beta", "BetaDistribution")

  /** `registerBetaPrimeDistribution`, lines 3937-3952. */
  const RegisterBetaPrimeDistribution: Registrar := Simple("BetaPrime", "BetaPrimeDistribution")

  /** `registerBinomialDistribution`, lines 3959-3974. */
  const RegisterBinomialDistribution: Registrar := Simple("Binomial", "BinomialDistribution")

  /** `registerCauchyDistribution`, lines 3981-3996. */
  const RegisterCauchyDistribution: Registrar := Simple("Cauchy", "CauchyDistribution")

  /** `registerChiDistribution`, lines 4003-4018. */
  const RegisterChiDistribution: Registrar := Simple("Chi", "ChiDistribution")

  /** `registerChiSquareDistribution`, lines 4025-4040. */
  const RegisterChiSquareDistribution: Registrar := Simple("ChiSquare", "ChiSquareDistribution")

  /** `registerContinuousUniformDistribution`, lines 4047-4062. */
  const RegisterContinuousUniformDistribution: Registrar := Simple("ContinuousUniform", "ContinuousUniformDistribution")

  /** `registerDiscreteUniformDistribution`, lines 4069-4084. */
  const RegisterDiscreteUniformDistribution: Registrar := Simple("DiscreteUniform", "DiscreteUniformDistribution")

  /** `registerErlangDistribution`, lines 4091-4106. */
  const RegisterErlangDistribution: Registrar := Simple("Erlang", "ErlangDistribution")

  /** `registerExponentialDistribution`, lines 4113-4128. */
  const RegisterExponentialDistribution: Registrar := Simple("Exponential", "ExponentialDistribution")

  /** `registerFisherSnedecorDistribution`, lines 4135-4150. */
  const RegisterFisherSnedecorDistribution: Registrar := Simple("FisherSnedecor", "FisherSnedecorDistribution")

  /** `registerFisherTippettDistribution`, lines 4157-4172. */
  const RegisterFisherTippettDistribution: Registrar := Simple("FisherTippett", "FisherTippettDistribution")

  /** `registerGammaDistribution`, lines 4179-4194. */
  const RegisterGammaDistribution: Registrar := Simple("Gamma", "GammaDistribution")

  /** `registerGeometricDistribution`, lines 4201-4216. */
  const RegisterGeometricDistribution: Registrar := Simple("Geometric", "GeometricDistribution")

  /** `registerKumaraswamyDistribution`, lines 4223-4238. */
  const RegisterKumaraswamyDistribution: Registrar := Simple("Kumaraswamy", "KumaraswamyDistribution")

  /** `registerLaplaceDistribution`, lines 4245-4260. */
  const RegisterLaplaceDistribution: Registrar := Simple("Laplace", "LaplaceDistribution")

  /** `registerLogCauchyDistribution`, lines 4267-4282. */
  const RegisterLogCauchyDistribution: Registrar := Simple("LogCauchy", "LogCauchyDistribution")

  /** `registerLogisticDistribution`, lines 4289-4304. */
  const RegisterLogisticDistribution: Registrar := Simple("Logistic", "LogisticDistribution")

  /** `registerLogNormalDistribution`, lines 4311-4326. */
  const RegisterLogNormalDistribution: Registrar := Simple("LogNormal", "LogNormalDistribution")

  /** `registerLumpDistribution`, lines 4333-4348. */
  const RegisterLumpDistribution: Registrar := Simple("Lump", "LumpDistribution")

  /** `registerNormalDistribution`, lines 4355-4370. */
  const RegisterNormalDistribution: Registrar := Simple("Normal", "NormalDistribution")

  /** `registerParetoDistribution`, lines 4377-4392. */
  const RegisterParetoDistribution: Registrar := Simple("Pareto", "ParetoDistribution")

  /** `registerPoissonDistribution`, lines 4399-4414. */
  const RegisterPoissonDistribution: Registrar := Simple("Poisson", "PoissonDistribution")

  /** `registerPowerDistribution`, lines 4421-4436. */
  const RegisterPowerDistribution: Registrar := Simple("Power", "PowerDistribution")

  /** `registerRayleighDistribution`, lines 4443-4458. */
  const RegisterRayleighDistribution: Registrar := Simple("Rayleigh", "RayleighDistribution")

  /** `registerStudentsTDistribution`, lines 4465-4480. */
  const RegisterStudentsTDistribution: Registrar := Simple("StudentsT", "StudentsTDistribution")

  /** `registerTriangularDistribution`, lines 4487-4502. */
  const RegisterTriangularDistribution: Registrar := Simple("Triangular", "TriangularDistribution")

  /** `registerWeibullDistribution`, lines 4509-4524. */
  const RegisterWeibullDistribution: Registrar := Simple("Weibull", "WeibullDistribution")

  /** `registerZipfianDistribution`, lines 4531-4546. */
  const RegisterZipfianDistribution: Registrar := Simple("Zipfian", "ZipfianDistribution")

  /** `registerDistribution`, lines 4557-4611. */
  const RegisterDistribution: Registrar := Registrar(Some("Distribution"), [
      Call(RegisterArcsineDistribution),
      Call(RegisterBernoulliDistribution),
      Call(RegisterBetaDistribution),
      Call(RegisterBetaPrimeDistribution),
      Call(RegisterBinomialDistribution),
      Call(RegisterCauchyDistribution),
      Call(RegisterChiDistribution),
      Call(RegisterChiSquareDistribution),
      Call(RegisterContinuousUniformDistribution),
      Call(RegisterDiscreteUniformDistribution),
      Call(RegisterErlangDistribution),
      Call(RegisterExponentialDistribution),
      Call(RegisterExponentialDistribution),
      Call(RegisterFisherSnedecorDistribution),
      Call(RegisterFisherTippettDistribution),
      Call(RegisterGammaDistribution),
      Call(RegisterGeometricDistribution),
      Call(RegisterKumaraswamyDistribution),
      Call(RegisterLaplaceDistribution),
      Call(RegisterLogCauchyDistribution),
      Call(RegisterLogisticDistribution),
      Call(RegisterLogNormalDistribution),
      Call(RegisterLumpDistribution),
      Call(RegisterNormalDistribution),
      Call(RegisterParetoDistribution),
      Call(RegisterPoissonDistribution),
      Call(RegisterPowerDistribution),
      Call(RegisterRayleighDistribution),
      Call(RegisterStudentsTDistribution),
      Call(RegisterTriangularDistribution),
      Call(RegisterWeibullDistribution),
      Call(RegisterZipfianDistribution),
      Tag("Dist", "Distribution"),
      Serializer("Distribution")
    ])

  /** `registerBase`, lines 4620-4634. */
  const RegisterBase: Registrar := Simple("Base", "Base")

  /** `registerHasher`, lines 4642-4657. */
  const RegisterHasher: Registrar := Simple("Hshr", "Hasher")

  /** `registerInterpolator`, lines 4666-4680. */
  const RegisterInterpolator: Registrar := Registrar(None, [TagAlways("Inlr", "Interpolator"), Serializer("Interpolator")])

  /** `registerClass`, lines 4689-4717. */
  const RegisterClass: Registrar := Simple("C", "Class")

  // ---------------------------------------------------------------------------
  // registerAll

  /** `registerAll` runs its blocks one after the other. */
  lemma RegisterAllBlocks(s: JsonState, addTags: bool, corrected: bool)
    ensures Run(s, RegisterAll(corrected), addTags) ==
              RunSteps(RunSteps(RunSteps(RunSteps(s, AllHeadSteps(corrected), addTags),
                CaseInsensitiveSteps(corrected), addTags), FilteredStringSteps(corrected), addTags), AllTailSteps(corrected), addTags)
  {
    var h, c, f := AllHeadSteps(corrected), CaseInsensitiveSteps(corrected), FilteredStringSteps(corrected);
    RunStepsConcat(s, h + c + f, AllTailSteps(corrected), addTags);
    RunStepsConcat(s, h + c, f, addTags);
    RunStepsConcat(s, h, c, addTags);
  }

  /** Four calls in a row. */
  lemma RunFourCalls(s: JsonState, a: Registrar, b: Registrar, c: Registrar, d: Registrar, addTags: bool)
    ensures RunSteps(s, [Call(a), Call(b), Call(c), Call(d)], addTags) == Run(Run(Run(Run(s, a, addTags), b, addTags), c, addTags), d, addTags)
  {
    assert [Call(a), Call(b), Call(c), Call(d)] == [Call(a), Call(b)] + [Call(c), Call(d)];
    RunStepsConcat(s, [Call(a), Call(b)], [Call(c), Call(d)], addTags);
    RunTwoSteps(s, Call(a), Call(b), addTags);
    RunTwoSteps(Run(Run(s, a, addTags), b, addTags), Call(c), Call(d), addTags);
  }

  /**
   * `registerAll`, as written or corrected, leaves a serializer for every class
   * whose registrar it calls directly and which installs that class's own
   * serializer, whatever was registered before and whatever ADD_CLASS_TAGS says.
   */
  lemma RegisterAllInstalls(s: JsonState, addTags: bool, corrected: bool)
    ensures forall r, cls :: InstallsOwn(r, cls) && Call(r) in RegisterAll(corrected).steps ==>
              cls in Run(s, RegisterAll(corrected), addTags).serializers
  {
    forall r, cls | InstallsOwn(r, cls) && Call(r) in RegisterAll(corrected).steps
      ensures cls in Run(s, RegisterAll(corrected), addTags).serializers
    {
      RunStepsCallInstalls(s, RegisterAll(corrected).steps, addTags, r, cls);
    }
  }

  /**
   * Inside `registerAll`, `registerBooleanDeque` runs on whatever the deque
   * block before it left: as written BooleanDeque gets no tag there and
   * ObjectDeque is written as "tQ"; corrected, BooleanDeque round-trips "tQ".
   */
  lemma RegisterAllBooleanDeque(s: JsonState, corrected: bool)
    ensures var before := RunSteps(s, ListSteps + BagSteps + DequeHeadSteps, true);
            var after := RunSteps(s, ListSteps + BagSteps + DequeSteps(corrected), true);
              && (!corrected && "BooleanDeque" !in before.classToTag ==>
                    "BooleanDeque" !in after.classToTag && WrittenAs(after, "ObjectDeque", "tQ"))
              && (corrected ==> TagRoundTrips(after, "BooleanDeque", "tQ"))
  {
    var booleanDeque := if corrected then RegisterBooleanDeque else RegisterBooleanDequeAsWritten;
    var before := RunSteps(s, ListSteps + BagSteps + DequeHeadSteps, true);
    assert ListSteps + BagSteps + DequeSteps(corrected) == (ListSteps + BagSteps + DequeHeadSteps) + [Call(booleanDeque)];
    RunStepsConcat(s, ListSteps + BagSteps + DequeHeadSteps, [Call(booleanDeque)], true);
    assert RunSteps(before, [Call(booleanDeque)], true) == Run(before, booleanDeque, true) by {
      assert [Call(booleanDeque)][..0] == [];
    }
    if corrected {
      BooleanDequeTagged(before);
    } else if "BooleanDeque" !in before.classToTag {
      BooleanDequeTagAsWritten(before);
    }
  }

  /**
   * Inside `registerAll`, the case-insensitive block runs on whatever the
   * blocks before it left: as written, when neither map had a tag before it,
   * neither has one after and CaseInsensitiveSet is written as "ooCOM";
   * corrected, all four classes round-trip their own tags.
   */
  lemma RegisterAllCaseInsensitive(s: JsonState, corrected: bool)
    ensures var before := RunSteps(s, AllHeadSteps(corrected), true);
            var after := RunSteps(before, CaseInsensitiveSteps(corrected), true);
              && (!corrected && "CaseInsensitiveMap" !in before.classToTag && "CaseInsensitiveOrderedMap" !in before.classToTag ==>
                    "CaseInsensitiveMap" !in after.classToTag && "CaseInsensitiveOrderedMap" !in after.classToTag &&
                    WrittenAs(after, "CaseInsensitiveSet", "ooCOM"))
              && (corrected ==>
                    TagRoundTrips(after, "CaseInsensitiveSet", "oCS") && TagRoundTrips(after, "CaseInsensitiveOrderedSet", "oCOS") &&
                    TagRoundTrips(after, "CaseInsensitiveMap", "ooCM") && TagRoundTrips(after, "CaseInsensitiveOrderedMap", "ooCOM"))
  {
    var before := RunSteps(s, AllHeadSteps(corrected), true);
    if corrected {
      RunFourCalls(before, RegisterCaseInsensitiveSet, RegisterCaseInsensitiveOrderedSet,
        RegisterCaseInsensitiveMap, RegisterCaseInsensitiveOrderedMap, true);
      CaseInsensitiveTagged(before);
    } else {
      RunFourCalls(before, RegisterCaseInsensitiveSet, RegisterCaseInsensitiveOrderedSet,
        RegisterCaseInsensitiveMapAsWritten, RegisterCaseInsensitiveOrderedMapAsWritten, true);
      if "CaseInsensitiveMap" !in before.classToTag && "CaseInsensitiveOrderedMap" !in before.classToTag {
        CaseInsensitiveTagsAsWritten(before);
      }
    }
  }

  /** The same for the filtered-string block, which runs right after the case-insensitive one. */
  lemma RegisterAllFilteredString(s: JsonState, corrected: bool)
    ensures var before := RunSteps(RunSteps(s, AllHeadSteps(corrected), true), CaseInsensitiveSteps(corrected), true);
            var after := RunSteps(before, FilteredStringSteps(corrected), true);
              && (!corrected && "FilteredStringMap" !in before.classToTag && "FilteredStringOrderedMap" !in before.classToTag ==>
                    "FilteredStringMap" !in after.classToTag && "FilteredStringOrderedMap" !in after.classToTag &&
                    WrittenAs(after, "FilteredStringSet", "ooFSOM"))
              && (corrected ==>
                    TagRoundTrips(after, "FilteredStringSet", "oFSS") && TagRoundTrips(after, "FilteredStringOrderedSet", "oFSOS") &&
                    TagRoundTrips(after, "FilteredStringMap", "ooFSM") && TagRoundTrips(after, "FilteredStringOrderedMap", "ooFSOM"))
  {
    var before := RunSteps(RunSteps(s, AllHeadSteps(corrected), true), CaseInsensitiveSteps(corrected), true);
    if corrected {
      RunFourCalls(before, RegisterFilteredStringSet, RegisterFilteredStringOrderedSet,
        RegisterFilteredStringMap, RegisterFilteredStringOrderedMap, true);
      FilteredStringTagged(before);
    } else {
      RunFourCalls(before, RegisterFilteredStringSet, RegisterFilteredStringOrderedSet,
        RegisterFilteredStringMapAsWritten, RegisterFilteredStringOrderedMapAsWritten, true);
      if "FilteredStringMap" !in before.classToTag && "FilteredStringOrderedMap" !in before.classToTag {
        FilteredStringTagsAsWritten(before);
      }
    }
  }

  // ---------------------------------------------------------------------------
  // Class tags with ADD_CLASS_TAGS off

  /** `registerInterpolator` adds "Inlr" whatever ADD_CLASS_TAGS says. */
  lemma InterpolatorAlwaysTagged(s: JsonState, addTags: bool)
    ensures Run(s, RegisterInterpolator, addTags) == WithSerializer(Tagged(s, "Inlr", "Interpolator"), "Interpolator")
    ensures TagRoundTrips(Run(s, RegisterInterpolator, addTags), "Interpolator", "Inlr")
  {
    RunTwoSteps(s, TagAlways("Inlr", "Interpolator"), Serializer("Interpolator"), addTags);
  }

  // ---------------------------------------------------------------------------
  // Early return

  /** `registerEnhancedRandom`, as written or corrected, installs its serializer and returns early from then on. */
  lemma EnhancedRandomIdempotent(s: JsonState, addTags: bool, corrected: bool)
    ensures "EnhancedRandom" in Run(s, RegisterEnhancedRandom(corrected), addTags).serializers
    ensures Run(Run(s, RegisterEnhancedRandom(corrected), addTags), RegisterEnhancedRandom(corrected), addTags) == Run(s, RegisterEnhancedRandom(corrected), addTags)
  {
    var steps := RegisterEnhancedRandom(corrected).steps;
    assert steps[|steps| - 1] == Serializer("EnhancedRandom");
    GuardedIdempotent(s, RegisterEnhancedRandom(corrected), addTags);
  }

  lemma DistributionIdempotent(s: JsonState, addTags: bool)
    ensures "Distribution" in Run(s, RegisterDistribution, addTags).serializers
    ensures Run(Run(s, RegisterDistribution, addTags), RegisterDistribution, addTags) == Run(s, RegisterDistribution, addTags)
  {
    var steps := RegisterDistribution.steps;
    assert steps[|steps| - 1] == Serializer("Distribution");
    GuardedIdempotent(s, RegisterDistribution, addTags);
  }

  lemma WrappersIdempotent(s: JsonState, addTags: bool, corrected: bool)
    ensures var r := RegisterReverseWrapper(corrected); Run(Run(s, r, addTags), r, addTags) == Run(s, r, addTags)
    ensures var r := RegisterArchivalWrapper(corrected); Run(Run(s, r, addTags), r, addTags) == Run(s, r, addTags)
    ensures var r := RegisterDistributedRandom(corrected); Run(Run(s, r, addTags), r, addTags) == Run(s, r, addTags)
    ensures var r := RegisterInterpolatedRandom(corrected); Run(Run(s, r, addTags), r, addTags) == Run(s, r, addTags)
  {
    assert RegisterReverseWrapper(corrected).steps[2] == Serializer("ReverseWrapper");
    GuardedIdempotent(s, RegisterReverseWrapper(corrected), addTags);
    assert RegisterArchivalWrapper(corrected).steps[3] == Serializer("ArchivalWrapper");
    GuardedIdempotent(s, RegisterArchivalWrapper(corrected), addTags);
    assert RegisterDistributedRandom(corrected).steps[3] == Serializer("DistributedRandom");
    GuardedIdempotent(s, RegisterDistributedRandom(corrected), addTags);
    assert RegisterInterpolatedRandom(corrected).steps[3] == Serializer("InterpolatedRandom");
    GuardedIdempotent(s, RegisterInterpolatedRandom(corrected), addTags);
  }

  lemma RandomXS128Idempotent(s: JsonState, addTags: bool)
    ensures "RandomXS128" in Run(s, RegisterRandomXS128, addTags).serializers
    ensures Run(Run(s, RegisterRandomXS128, addTags), RegisterRandomXS128, addTags) == Run(s, RegisterRandomXS128, addTags)
  {
    assert RegisterRandomXS128.steps[0] == Serializer("RandomXS128");
    GuardedIdempotent(s, RegisterRandomXS128, addTags);
  }

  // ---------------------------------------------------------------------------
  // Shared tags kept as written

  /**
   * `registerEnhancedRandom` registers Xoroshiro128StarStarRandom and then
   * Xoshiro256StarStarRandom, both under "XSSR": the first is still written as
   * "XSSR", which now reads back as the second.
   */
  lemma XssrNamesTwoClasses(s: JsonState)
    requires "Xoroshiro128StarStarRandom" !in s.serializers && "Xoshiro256StarStarRandom" !in s.serializers
    ensures var t := Run(Run(s, RegisterXoroshiro128StarStarRandom, true), RegisterXoshiro256StarStarRandom, true);
              WrittenAs(t, "Xoroshiro128StarStarRandom", "XSSR") && ReadsAs(t, "XSSR", "Xoshiro256StarStarRandom")
  {
    GuardedSimpleRun(s, "XSSR", "Xoroshiro128StarStarRandom", true);
    SimpleWithTags(s, "XSSR", "Xoroshiro128StarStarRandom");
    var mid := Run(s, RegisterXoroshiro128StarStarRandom, true);
    GuardedSimpleRun(mid, "XSSR", "Xoshiro256StarStarRandom", true);
    SimpleWithTags(mid, "XSSR", "Xoshiro256StarStarRandom");
  }

  /**
   * "XPPR" names three classes, registered in this order: afterwards
   * Xoshiro128PlusPlusRandom and Chip32Random are both still written as "XPPR",
   * which reads back as Xoshiro160RoadroxoRandom.
   */
  lemma XpprNamesThreeClasses(s: JsonState)
    requires "Xoshiro128PlusPlusRandom" !in s.serializers && "Chip32Random" !in s.serializers
    requires "Xoshiro160RoadroxoRandom" !in s.serializers
    ensures var t := Run(Run(Run(s, RegisterXoshiro128PlusPlusRandom, true), RegisterChip32Random, true), RegisterXoshiro160RoadroxoRandom, true);
              && WrittenAs(t, "Xoshiro128PlusPlusRandom", "XPPR") && WrittenAs(t, "Chip32Random", "XPPR")
              && WrittenAs(t, "Xoshiro160RoadroxoRandom", "XPPR") && ReadsAs(t, "XPPR", "Xoshiro160RoadroxoRandom")
  {
    var s1 := Run(s, RegisterXoshiro128PlusPlusRandom, true);
    GuardedSimpleFirstRun(s, "XPPR", "Xoshiro128PlusPlusRandom", "Chip32Random");
    var s2 := Run(s1, RegisterChip32Random, true);
    GuardedSimpleFirstRun(s1, "XPPR", "Chip32Random", "Xoshiro128PlusPlusRandom");
    GuardedSimpleFirstRun(s2, "XPPR", "Xoshiro160RoadroxoRandom", "Xoshiro128PlusPlusRandom");
    GuardedSimpleFirstRun(s2, "XPPR", "Xoshiro160RoadroxoRandom", "Chip32Random");
  }

  // ---------------------------------------------------------------------------
  // Tags bound to the wrong class: as written, then corrected

  /** As written, BooleanDeque gets no short tag and ObjectDeque is from then on written as "tQ". */
  lemma BooleanDequeTagAsWritten(s: JsonState)
    requires "BooleanDeque" !in s.classToTag
    ensures var t := Run(s, RegisterBooleanDequeAsWritten, true);
              "BooleanDeque" !in t.classToTag && WrittenAs(t, "ObjectDeque", "tQ")
  {
    RunTwoSteps(s, Tag("tQ", "ObjectDeque"), Serializer("BooleanDeque"), true);
  }

  /** Corrected, BooleanDeque reads back from "tQ" and every other class keeps its tag. */
  lemma BooleanDequeTagged(s: JsonState)
    ensures var t := Run(s, RegisterBooleanDeque, true);
              TagRoundTrips(t, "BooleanDeque", "tQ") &&
              forall c :: c in s.classToTag && c != "BooleanDeque" ==> WrittenAs(t, c, s.classToTag[c])
  {
    SimpleWithTags(s, "tQ", "BooleanDeque");
  }

  /** A registrar that tags `tagged` and installs a serializer for `served` binds `tagged` to `tag` in the write table. */
  lemma TagThenServeWrites(s: JsonState, tag: string, tagged: ClassName, served: ClassName)
    ensures Run(s, Registrar(None, [Tag(tag, tagged), Serializer(served)]), true).classToTag == s.classToTag[tagged := tag]
  {
    RunTwoSteps(s, Tag(tag, tagged), Serializer(served), true);
  }

  /** The four case-insensitive registrars in `registerAll`'s order. */
  function CaseInsensitiveRun(s: JsonState, map1: Registrar, map2: Registrar): JsonState {
    Run(Run(Run(Run(s, RegisterCaseInsensitiveSet, true), RegisterCaseInsensitiveOrderedSet, true), map1, true), map2, true)
  }

  /** As written, neither case-insensitive map gets a tag, and CaseInsensitiveSet ends up written as "ooCOM". */
  lemma CaseInsensitiveTagsAsWritten(s: JsonState)
    requires "CaseInsensitiveMap" !in s.classToTag && "CaseInsensitiveOrderedMap" !in s.classToTag
    ensures var t := CaseInsensitiveRun(s, RegisterCaseInsensitiveMapAsWritten, RegisterCaseInsensitiveOrderedMapAsWritten);
              "CaseInsensitiveMap" !in t.classToTag && "CaseInsensitiveOrderedMap" !in t.classToTag &&
              WrittenAs(t, "CaseInsensitiveSet", "ooCOM")
  {
    var s1 := Run(s, RegisterCaseInsensitiveSet, true);
    TagThenServeWrites(s, "oCS", "CaseInsensitiveSet", "CaseInsensitiveSet");
    var s2 := Run(s1, RegisterCaseInsensitiveOrderedSet, true);
    TagThenServeWrites(s1, "oCOS", "CaseInsensitiveOrderedSet", "CaseInsensitiveOrderedSet");
    var s3 := Run(s2, RegisterCaseInsensitiveMapAsWritten, true);
    TagThenServeWrites(s2, "ooCM", "CaseInsensitiveSet", "CaseInsensitiveMap");
    TagThenServeWrites(s3, "ooCOM", "CaseInsensitiveSet", "CaseInsensitiveOrderedMap");
  }

  /** Corrected, each of the four case-insensitive classes reads back from its own tag. */
  lemma CaseInsensitiveTagged(s: JsonState)
    ensures var t := CaseInsensitiveRun(s, RegisterCaseInsensitiveMap, RegisterCaseInsensitiveOrderedMap);
              TagRoundTrips(t, "CaseInsensitiveSet", "oCS") && TagRoundTrips(t, "CaseInsensitiveOrderedSet", "oCOS") &&
              TagRoundTrips(t, "CaseInsensitiveMap", "ooCM") && TagRoundTrips(t, "CaseInsensitiveOrderedMap", "ooCOM")
  {
    var s1 := Run(s, RegisterCaseInsensitiveSet, true);
    SimpleWithTags(s, "oCS", "CaseInsensitiveSet");
    var s2 := Run(s1, RegisterCaseInsensitiveOrderedSet, true);
    SimpleWithTags(s1, "oCOS", "CaseInsensitiveOrderedSet");
    var s3 := Run(s2, RegisterCaseInsensitiveMap, true);
    SimpleWithTags(s2, "ooCM", "CaseInsensitiveMap");
    SimpleWithTags(s3, "ooCOM", "CaseInsensitiveOrderedMap");
  }

  /** The four filtered-string registrars in `registerAll`'s order. */
  function FilteredStringRun(s: JsonState, map1: Registrar, map2: Registrar): JsonState {
    Run(Run(Run(Run(s, RegisterFilteredStringSet, true), RegisterFilteredStringOrderedSet, true), map1, true), map2, true)
  }

  /** As written, neither filtered-string map gets a tag, and FilteredStringSet ends up written as "ooFSOM". */
  lemma FilteredStringTagsAsWritten(s: JsonState)
    requires "FilteredStringMap" !in s.classToTag && "FilteredStringOrderedMap" !in s.classToTag
    ensures var t := FilteredStringRun(s, RegisterFilteredStringMapAsWritten, RegisterFilteredStringOrderedMapAsWritten);
              "FilteredStringMap" !in t.classToTag && "FilteredStringOrderedMap" !in t.classToTag &&
              WrittenAs(t, "FilteredStringSet", "ooFSOM")
  {
    var s1 := Run(s, RegisterFilteredStringSet, true);
    TagThenServeWrites(s, "oFSS", "FilteredStringSet", "FilteredStringSet");
    var s2 := Run(s1, RegisterFilteredStringOrderedSet, true);
    TagThenServeWrites(s1, "oFSOS", "FilteredStringOrderedSet", "FilteredStringOrderedSet");
    var s3 := Run(s2, RegisterFilteredStringMapAsWritten, true);
    TagThenServeWrites(s2, "ooFSM", "FilteredStringSet", "FilteredStringMap");
    TagThenServeWrites(s3, "ooFSOM", "FilteredStringSet", "FilteredStringOrderedMap");
  }

  /** Corrected, each of the four filtered-string classes reads back from its own tag. */
  lemma FilteredStringTagged(s: JsonState)
    ensures var t := FilteredStringRun(s, RegisterFilteredStringMap, RegisterFilteredStringOrderedMap);
              TagRoundTrips(t, "FilteredStringSet", "oFSS") && TagRoundTrips(t, "FilteredStringOrderedSet", "oFSOS") &&
              TagRoundTrips(t, "FilteredStringMap", "ooFSM") && TagRoundTrips(t, "FilteredStringOrderedMap", "ooFSOM")
  {
    var s1 := Run(s, RegisterFilteredStringSet, true);
    SimpleWithTags(s, "oFSS", "FilteredStringSet");
    var s2 := Run(s1, RegisterFilteredStringOrderedSet, true);
    SimpleWithTags(s1, "oFSOS", "FilteredStringOrderedSet");
    var s3 := Run(s2, RegisterFilteredStringMap, true);
    SimpleWithTags(s2, "ooFSM", "FilteredStringMap");
    SimpleWithTags(s3, "ooFSOM", "FilteredStringOrderedMap");
  }

  /** The enum map registrars with int, long and float values, in source order. */
  function EnumMapsRun(s: JsonState, intMap: Registrar, floatMap: Registrar): JsonState {
    Run(Run(Run(s, intMap, true), RegisterEnumLongMap, true), floatMap, true)
  }

  /** As written, EnumIntMap and EnumLongMap are both written as "elM", which reads back as EnumFloatMap. */
  lemma EnumMapTagsAsWritten(s: JsonState)
    ensures var t := EnumMapsRun(s, RegisterEnumIntMapAsWritten, RegisterEnumFloatMapAsWritten);
              WrittenAs(t, "EnumIntMap", "elM") && WrittenAs(t, "EnumLongMap", "elM") &&
              ReadsAs(t, "elM", "EnumFloatMap")
  {
    var s1 := Run(s, RegisterEnumIntMapAsWritten, true);
    SimpleWithTags(s, "elM", "EnumIntMap");
    var s2 := Run(s1, RegisterEnumLongMap, true);
    SimpleWithTags(s1, "elM", "EnumLongMap");
    SimpleWithTags(s2, "elM", "EnumFloatMap");
  }

  /** Corrected, each of the three enum maps reads back from its own tag. */
  lemma EnumMapTagged(s: JsonState)
    ensures var t := EnumMapsRun(s, RegisterEnumIntMap, RegisterEnumFloatMap);
              TagRoundTrips(t, "EnumIntMap", "eiM") && TagRoundTrips(t, "EnumLongMap", "elM") &&
              TagRoundTrips(t, "EnumFloatMap", "efM")
  {
    var s1 := Run(s, RegisterEnumIntMap, true);
    SimpleWithTags(s, "eiM", "EnumIntMap");
    var s2 := Run(s1, RegisterEnumLongMap, true);
    SimpleWithTags(s1, "elM", "EnumLongMap");
    SimpleWithTags(s2, "efM", "EnumFloatMap");
  }

  /** The ordered enum maps, in source order. */
  function EnumOrderedMapsRun(s: JsonState, intMap: Registrar, floatMap: Registrar): JsonState {
    Run(Run(Run(s, intMap, true), RegisterEnumLongOrderedMap, true), floatMap, true)
  }

  /** As written, EnumIntOrderedMap and EnumLongOrderedMap are both written as "elOM", which reads back as EnumFloatOrderedMap. */
  lemma EnumOrderedMapTagsAsWritten(s: JsonState)
    ensures var t := EnumOrderedMapsRun(s, RegisterEnumIntOrderedMapAsWritten, RegisterEnumFloatOrderedMapAsWritten);
              WrittenAs(t, "EnumIntOrderedMap", "elOM") && WrittenAs(t, "EnumLongOrderedMap", "elOM") &&
              ReadsAs(t, "elOM", "EnumFloatOrderedMap")
  {
    var s1 := Run(s, RegisterEnumIntOrderedMapAsWritten, true);
    SimpleWithTags(s, "elOM", "EnumIntOrderedMap");
    var s2 := Run(s1, RegisterEnumLongOrderedMap, true);
    SimpleWithTags(s1, "elOM", "EnumLongOrderedMap");
    SimpleWithTags(s2, "elOM", "EnumFloatOrderedMap");
  }

  /** Corrected, each of the three ordered enum maps reads back from its own tag. */
  lemma EnumOrderedMapTagged(s: JsonState)
    ensures var t := EnumOrderedMapsRun(s, RegisterEnumIntOrderedMap, RegisterEnumFloatOrderedMap);
              TagRoundTrips(t, "EnumIntOrderedMap", "eiOM") && TagRoundTrips(t, "EnumLongOrderedMap", "elOM") &&
              TagRoundTrips(t, "EnumFloatOrderedMap", "efOM")
  {
    var s1 := Run(s, RegisterEnumIntOrderedMap, true);
    SimpleWithTags(s, "eiOM", "EnumIntOrderedMap");
    var s2 := Run(s1, RegisterEnumLongOrderedMap, true);
    SimpleWithTags(s1, "elOM", "EnumLongOrderedMap");
    SimpleWithTags(s2, "efOM", "EnumFloatOrderedMap");
  }

  /**
   * As written, `registerEnhancedRandom` registers LowChangeQuasiRandom and then
   * VanDerCorputQuasiRandom under "VCQR": a LowChangeQuasiRandom reads back as a
   * VanDerCorputQuasiRandom.
   */
  lemma QuasiRandomTagsAsWritten(s: JsonState)
    requires "LowChangeQuasiRandom" !in s.serializers && "VanDerCorputQuasiRandom" !in s.serializers
    ensures var t := Run(Run(s, RegisterLowChangeQuasiRandomAsWritten, true), RegisterVanDerCorputQuasiRandom, true);
              WrittenAs(t, "LowChangeQuasiRandom", "VCQR") && ReadsAs(t, "VCQR", "VanDerCorputQuasiRandom")
  {
    GuardedSimpleRun(s, "VCQR", "LowChangeQuasiRandom", true);
    SimpleWithTags(s, "VCQR", "LowChangeQuasiRandom");
    var mid := Run(s, RegisterLowChangeQuasiRandomAsWritten, true);
    GuardedSimpleRun(mid, "VCQR", "VanDerCorputQuasiRandom", true);
    SimpleWithTags(mid, "VCQR", "VanDerCorputQuasiRandom");
  }

  /** Corrected, both quasi-random generators read back from their own tags. */
  lemma QuasiRandomTagged(s: JsonState)
    requires "LowChangeQuasiRandom" !in s.serializers && "VanDerCorputQuasiRandom" !in s.serializers
    ensures var t := Run(Run(s, RegisterLowChangeQuasiRandom, true), RegisterVanDerCorputQuasiRandom, true);
              TagRoundTrips(t, "LowChangeQuasiRandom", "LCQR") && TagRoundTrips(t, "VanDerCorputQuasiRandom", "VCQR")
  {
    GuardedSimpleRun(s, "LCQR", "LowChangeQuasiRandom", true);
    SimpleWithTags(s, "LCQR", "LowChangeQuasiRandom");
    var mid := Run(s, RegisterLowChangeQuasiRandom, true);
    GuardedSimpleRun(mid, "VCQR", "VanDerCorputQuasiRandom", true);
    SimpleWithTags(mid, "VCQR", "VanDerCorputQuasiRandom");
  }
}
