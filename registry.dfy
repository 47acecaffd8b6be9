/**
 * JsonSupport's configuration and its registration logic, with libGDX's Json
 * reduced to the two tables registration touches: the classes that have a
 * serializer, and the class tags (tag to class and class to tag, which
 * `addClassTag` sets together).
 *
 * Every `registerX` method is the same few statements in some order: return
 * early when a class already has a serializer, add a class tag when
 * ADD_CLASS_TAGS is on (or always), install a serializer, call another
 * registrar. A `Registrar` lists those statements as data, `Run` says what
 * running them does to the tables, and `JsonSupport.Register` is the one
 * method that runs any of them.
 */
module Registry {
  import opened Wrappers

  /** A Java class, by its simple name. */
  type ClassName = string

  datatype Step =
    | Tag(tag: string, cls: ClassName)         // if(ADD_CLASS_TAGS) json.addClassTag(tag, cls)
    | TagAlways(tag: string, cls: ClassName)   // json.addClassTag(tag, cls)
    | Serializer(cls: ClassName)               // json.setSerializer(cls, ...)
    | Call(callee: Registrar)                  // registerY(json)

  /** `guard`: the class whose registered serializer makes the method return at once. */
  datatype Registrar = Registrar(guard: Option<ClassName>, steps: seq<Step>)

  /** A registrar that tags `cls` and installs its serializer. */
  function Simple(tag: string, cls: ClassName): Registrar {
    Registrar(None, [Tag(tag, cls), Serializer(cls)])
  }

  /** `Simple`, returning first when `cls` already has a serializer. */
  function GuardedSimple(tag: string, cls: ClassName): Registrar {
    Registrar(Some(cls), [Tag(tag, cls), Serializer(cls)])
  }

  datatype JsonState = JsonState(serializers: set<ClassName>, tagToClass: map<string, ClassName>, classToTag: map<ClassName, string>)

  /** A Json object nothing has been registered with. */
  function Fresh(): JsonState {
    JsonState({}, map[], map[])
  }

  /** `addClassTag(tag, cls)`: both directions are overwritten. */
  function Tagged(s: JsonState, tag: string, cls: ClassName): (r: JsonState)
    ensures r.serializers == s.serializers
    ensures r.tagToClass.Keys == s.tagToClass.Keys + {tag} && r.tagToClass[tag] == cls
    ensures r.classToTag.Keys == s.classToTag.Keys + {cls} && r.classToTag[cls] == tag
    ensures forall t :: t in s.tagToClass && t != tag ==> r.tagToClass[t] == s.tagToClass[t]
    ensures forall c :: c in s.classToTag && c != cls ==> r.classToTag[c] == s.classToTag[c]
  {
    s.(tagToClass := s.tagToClass[tag := cls], classToTag := s.classToTag[cls := tag])
  }

  function WithSerializer(s: JsonState, cls: ClassName): JsonState {
    s.(serializers := s.serializers + {cls})
  }

  /** What running `r` does to the tables, with ADD_CLASS_TAGS equal to `addTags`. */
  function Run(s: JsonState, r: Registrar, addTags: bool): JsonState
    decreases r
  {
    if r.guard.Some? && r.guard.value in s.serializers then s
    else RunSteps(s, r.steps, addTags)
  }

  function RunSteps(s: JsonState, steps: seq<Step>, addTags: bool): JsonState
    decreases steps
  {
    if steps == [] then s
    else RunStep(RunSteps(s, steps[..|steps| - 1], addTags), steps[|steps| - 1], addTags)
  }

  function RunStep(s: JsonState, step: Step, addTags: bool): JsonState
    decreases step
  {
    match step
    case Tag(tag, cls) => if addTags then Tagged(s, tag, cls) else s
    case TagAlways(tag, cls) => Tagged(s, tag, cls)
    case Serializer(cls) => WithSerializer(s, cls)
    case Call(callee) => Run(s, callee, addTags)
  }

  /** Every class with a tag reads back as itself: the tag it is written with maps back to it. */
  ghost predicate TagsConsistent(s: JsonState) {
    forall c :: c in s.classToTag ==> s.classToTag[c] in s.tagToClass && s.tagToClass[s.classToTag[c]] == c
  }

  /** `cls` is written with tag `tag`. */
  predicate WrittenAs(s: JsonState, cls: ClassName, tag: string) {
    cls in s.classToTag && s.classToTag[cls] == tag
  }

  /** Tag `tag` is read back as `cls`. */
  predicate ReadsAs(s: JsonState, tag: string, cls: ClassName) {
    tag in s.tagToClass && s.tagToClass[tag] == cls
  }

  /** A class written with tag `tag` is read back as `cls`. */
  predicate TagRoundTrips(s: JsonState, cls: ClassName, tag: string) {
    cls in s.classToTag && s.classToTag[cls] == tag && tag in s.tagToClass && s.tagToClass[tag] == cls
  }

  /** The base numeral systems: BASE10, or another whose digits this model does not describe. */
  datatype Base = Base10 | OtherBase(name: string)

  /** libGDX's Json, as far as registration sees it. */
  class Json {
    var serializers: set<ClassName>
    var tagToClass: map<string, ClassName>
    var classToTag: map<ClassName, string>

    function State(): JsonState
      reads this
    {
      JsonState(serializers, tagToClass, classToTag)
    }

    constructor ()
      ensures State() == Fresh()
    {
      serializers := {};
      tagToClass := map[];
      classToTag := map[];
    }

    /** `getSerializer(cls) != null`. */
    function HasSerializer(cls: ClassName): (r: bool)
      reads this
      ensures r <==> cls in State().serializers
    {
      cls in serializers
    }

    method AddClassTag(tag: string, cls: ClassName)
      modifies this
      ensures State() == Tagged(old(State()), tag, cls)
    {
      tagToClass := tagToClass[tag := cls];
      classToTag := classToTag[cls := tag];
    }

    method SetSerializer(cls: ClassName)
      modifies this
      ensures State() == WithSerializer(old(State()), cls)
    {
      serializers := serializers + {cls};
    }
  }

  /** JsonSupport's static settings: BASE, LEGIBLE_FLOATS and ADD_CLASS_TAGS. */
  class JsonSupport {
    var base: Option<Base>
    var legibleFloats: bool
    var addClassTags: bool

    /** BASE is never null. */
    ghost predicate Valid()
      reads this
    {
      base.Some?
    }

    /** The initial values: BASE10, legible floats, short class tags. */
    constructor ()
      ensures Valid()
      ensures base == Some(Base10) && legibleFloats && addClassTags
    {
      base := Some(Base10);
      legibleFloats := true;
      addClassTags := true;
    }

    /** `getNumeralBase()`. */
    function NumeralBase(): (b: Base)
      requires Valid()
      reads this
      ensures base == Some(b)
    {
      base.value
    }

    /** `setNumeralBase(base)`: a null base is ignored. */
    method SetNumeralBase(b: Option<Base>)
      requires Valid()
      modifies this
      ensures Valid()
      ensures base == if b.Some? then b else old(base)
      ensures legibleFloats == old(legibleFloats) && addClassTags == old(addClassTags)
    {
      if b.Some? {
        base := b;
      }
    }

    method SetFloatsLegible(legible: bool)
      modifies this
      ensures legibleFloats == legible
      ensures base == old(base) && addClassTags == old(addClassTags)
    {
      legibleFloats := legible;
    }

    method SetAddClassTags(add: bool)
      modifies this
      ensures addClassTags == add
      ensures base == old(base) && legibleFloats == old(legibleFloats)
    {
      addClassTags := add;
    }

    /** Runs a registrar's statements against `json`. */
    method Register(json: Json, r: Registrar)
      modifies json
      ensures json.State() == Run(old(json.State()), r, addClassTags)
      decreases r
    {
      if r.guard.Some? && json.HasSerializer(r.guard.value) {
        return;
      }
      ghost var s0 := json.State();
      var i := 0;
      while i < |r.steps|
        invariant 0 <= i <= |r.steps|
        invariant json.State() == RunSteps(s0, r.steps[..i], addClassTags)
        decreases |r.steps| - i
      {
        assert r.steps[..i + 1][..i] == r.steps[..i];
        var step := r.steps[i];
        match step {
          case Tag(tag, cls) =>
            if addClassTags {
              json.AddClassTag(tag, cls);
            }
          case TagAlways(tag, cls) =>
            json.AddClassTag(tag, cls);
          case Serializer(cls) =>
            json.SetSerializer(cls);
          case Call(callee) =>
            Register(json, callee);
        }
        i := i + 1;
      }
      assert r.steps[..|r.steps|] == r.steps;
    }
  }

  // ---------------------------------------------------------------------------
  // Lemmas

  /** Registration never removes a serializer. */
  lemma {:induction false} RunKeepsSerializers(s: JsonState, r: Registrar, addTags: bool)
    ensures s.serializers <= Run(s, r, addTags).serializers
    decreases r
  {
    if !(r.guard.Some? && r.guard.value in s.serializers) {
      RunStepsKeepsSerializers(s, r.steps, addTags);
    }
  }

  lemma {:induction false} RunStepsKeepsSerializers(s: JsonState, steps: seq<Step>, addTags: bool)
    ensures s.serializers <= RunSteps(s, steps, addTags).serializers
    decreases steps
  {
    if steps != [] {
      RunStepsKeepsSerializers(s, steps[..|steps| - 1], addTags);
      RunStepKeepsSerializers(RunSteps(s, steps[..|steps| - 1], addTags), steps[|steps| - 1], addTags);
    }
  }

  lemma {:induction false} RunStepKeepsSerializers(s: JsonState, step: Step, addTags: bool)
    ensures s.serializers <= RunStep(s, step, addTags).serializers
    decreases step
  {
    if step.Call? {
      RunKeepsSerializers(s, step.callee, addTags);
    }
  }

  /** A serializer installed by one of the statements is there afterwards. */
  lemma {:induction false} RunStepsInstalls(s: JsonState, steps: seq<Step>, addTags: bool, cls: ClassName)
    requires Serializer(cls) in steps
    ensures cls in RunSteps(s, steps, addTags).serializers
    decreases |steps|
  {
    var init, last := steps[..|steps| - 1], steps[|steps| - 1];
    assert steps == init + [last];
    if last != Serializer(cls) {
      RunStepsInstalls(s, init, addTags, cls);
      RunStepKeepsSerializers(RunSteps(s, init, addTags), last, addTags);
    }
  }

  /** `r` leaves `cls` with a serializer whenever it runs: it installs it, and returns early only when `cls` has one. */
  predicate InstallsOwn(r: Registrar, cls: ClassName) {
    Serializer(cls) in r.steps && (r.guard.None? || r.guard.value == cls)
  }

  lemma RunInstallsOwn(s: JsonState, r: Registrar, addTags: bool, cls: ClassName)
    requires InstallsOwn(r, cls)
    ensures cls in Run(s, r, addTags).serializers
  {
    if !(r.guard.Some? && r.guard.value in s.serializers) {
      RunStepsInstalls(s, r.steps, addTags, cls);
    }
  }

  /** A call among the statements to a registrar that installs `cls` leaves `cls` with a serializer. */
  lemma {:induction false} RunStepsCallInstalls(s: JsonState, steps: seq<Step>, addTags: bool, r: Registrar, cls: ClassName)
    requires Call(r) in steps && InstallsOwn(r, cls)
    ensures cls in RunSteps(s, steps, addTags).serializers
    decreases |steps|
  {
    var init, last := steps[..|steps| - 1], steps[|steps| - 1];
    assert steps == init + [last];
    if last == Call(r) {
      RunInstallsOwn(RunSteps(s, init, addTags), r, addTags, cls);
    } else {
      RunStepsCallInstalls(s, init, addTags, r, cls);
      RunStepKeepsSerializers(RunSteps(s, init, addTags), last, addTags);
    }
  }

  /** Running `a + b` is running `a`, then `b`. */
  lemma {:induction false} RunStepsConcat(s: JsonState, a: seq<Step>, b: seq<Step>, addTags: bool)
    ensures RunSteps(s, a + b, addTags) == RunSteps(RunSteps(s, a, addTags), b, addTags)
    decreases |b|
  {
    if b == [] {
      assert a + b == a;
    } else {
      RunStepsConcat(s, a, b[..|b| - 1], addTags);
      assert (a + b)[..|a + b| - 1] == a + b[..|b| - 1];
    }
  }

  /**
   * A registrar that returns early once its own class has a serializer, and
   * installs that serializer, changes nothing when run a second time.
   */
  lemma GuardedIdempotent(s: JsonState, r: Registrar, addTags: bool)
    requires r.guard.Some? && Serializer(r.guard.value) in r.steps
    ensures r.guard.value in Run(s, r, addTags).serializers
    ensures Run(Run(s, r, addTags), r, addTags) == Run(s, r, addTags)
  {
    if r.guard.value !in s.serializers {
      RunStepsInstalls(s, r.steps, addTags, r.guard.value);
    }
  }

  /** Two statements run one after the other. */
  lemma RunTwoSteps(s: JsonState, first: Step, second: Step, addTags: bool)
    ensures RunSteps(s, [first, second], addTags) == RunStep(RunStep(s, first, addTags), second, addTags)
  {
    var both := [first, second];
    assert both[..1] == [first];
    assert [first][..0] == [];
    assert RunSteps(s, [first], addTags) == RunStep(s, first, addTags);
    assert RunSteps(s, both, addTags) == RunStep(RunSteps(s, [first], addTags), second, addTags);
  }

  /** A registrar that tags one class and installs its serializer gives the same tables when run twice. */
  lemma SimpleIdempotent(s: JsonState, tag: string, cls: ClassName, addTags: bool)
    ensures Run(Run(s, Simple(tag, cls), addTags), Simple(tag, cls), addTags) == Run(s, Simple(tag, cls), addTags)
  {
    var once := Run(s, Simple(tag, cls), addTags);
    RunTwoSteps(s, Tag(tag, cls), Serializer(cls), addTags);
    RunTwoSteps(once, Tag(tag, cls), Serializer(cls), addTags);
    if addTags {
      assert once.tagToClass[tag := cls] == once.tagToClass;
      assert once.classToTag[cls := tag] == once.classToTag;
    }
    assert once.serializers + {cls} == once.serializers;
  }

  /** With ADD_CLASS_TAGS off, a collection registrar installs its serializer and adds no tag. */
  lemma SimpleWithoutTags(s: JsonState, tag: string, cls: ClassName)
    ensures Run(s, Simple(tag, cls), false) == WithSerializer(s, cls)
    ensures Run(s, GuardedSimple(tag, cls), false) == if cls in s.serializers then s else WithSerializer(s, cls)
  {
    RunTwoSteps(s, Tag(tag, cls), Serializer(cls), false);
  }

  /** With ADD_CLASS_TAGS on, a collection registrar's class reads back from its tag. */
  lemma SimpleWithTags(s: JsonState, tag: string, cls: ClassName)
    ensures Run(s, Simple(tag, cls), true) == WithSerializer(Tagged(s, tag, cls), cls)
    ensures TagRoundTrips(Run(s, Simple(tag, cls), true), cls, tag)
  {
    RunTwoSteps(s, Tag(tag, cls), Serializer(cls), true);
  }

  /** A random-generator registrar: the first run tags and installs, any later run changes nothing. */
  lemma GuardedSimpleRun(s: JsonState, tag: string, cls: ClassName, addTags: bool)
    ensures cls !in s.serializers ==> Run(s, GuardedSimple(tag, cls), addTags) == Run(s, Simple(tag, cls), addTags)
    ensures cls in s.serializers ==> Run(s, GuardedSimple(tag, cls), addTags) == s
    ensures Run(Run(s, GuardedSimple(tag, cls), addTags), GuardedSimple(tag, cls), addTags) == Run(s, GuardedSimple(tag, cls), addTags)
  {
    GuardedIdempotent(s, GuardedSimple(tag, cls), addTags);
  }

  /**
   * A first run of a random-generator registrar binds `tag` to its class in
   * both directions, adds only that class's serializer, and leaves the tag of
   * any other class alone, even one written with the same tag.
   */
  lemma GuardedSimpleFirstRun(s: JsonState, tag: string, cls: ClassName, other: ClassName)
    requires cls !in s.serializers && other != cls
    ensures var t := Run(s, GuardedSimple(tag, cls), true);
              && t.serializers == s.serializers + {cls}
              && TagRoundTrips(t, cls, tag)
              && (WrittenAs(s, other, tag) ==> WrittenAs(t, other, tag))
  {
    GuardedSimpleRun(s, tag, cls, true);
    SimpleWithTags(s, tag, cls);
  }

  /** A registrar whose only statements are conditional tags and serializers. */
  predicate Flat(r: Registrar) {
    r.guard.None? && forall i :: 0 <= i < |r.steps| ==> r.steps[i].Tag? || r.steps[i].Serializer?
  }

  /** With ADD_CLASS_TAGS off, a flat registrar leaves both tag tables as they were. */
  lemma {:induction false} FlatStepsWithoutTags(s: JsonState, steps: seq<Step>)
    requires forall i :: 0 <= i < |steps| ==> steps[i].Tag? || steps[i].Serializer?
    ensures RunSteps(s, steps, false).tagToClass == s.tagToClass
    ensures RunSteps(s, steps, false).classToTag == s.classToTag
    decreases |steps|
  {
    if steps != [] {
      FlatStepsWithoutTags(s, steps[..|steps| - 1]);
    }
  }

  lemma FlatWithoutTags(s: JsonState, r: Registrar)
    requires Flat(r)
    ensures Run(s, r, false).tagToClass == s.tagToClass
    ensures Run(s, r, false).classToTag == s.classToTag
  {
    FlatStepsWithoutTags(s, r.steps);
  }

  /**
   * `addClassTag` keeps every tagged class readable when the tag is new or
   * already names the same class; a tag that another class is written with
   * strands that class.
   */
  lemma TaggedConsistent(s: JsonState, tag: string, cls: ClassName)
    requires TagsConsistent(s)
    ensures tag !in s.tagToClass || s.tagToClass[tag] == cls ==> TagsConsistent(Tagged(s, tag, cls))
    ensures forall other :: other in s.classToTag && s.classToTag[other] == tag && other != cls ==>
              !TagRoundTrips(Tagged(s, tag, cls), other, tag)
  {
  }
}
