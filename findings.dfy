/** Two things the source does that its callers would not expect.

    First, `_build_step` assigns the built branch back into the params dict it
    was given (lines 109 and 111), so the caller's definition is changed by
    the call: the children list under `steps` or `transformer_list` becomes
    the list of built (label, object) pairs, and a list passed as a
    container's params has its own container children rewritten the same
    way. Translating that definition again then fails. AfterStep computes
    the definition as a call leaves it.

    Second, `_build_branch` declares `constructor_class=Union[Pipeline, None]`
    (line 52): the typing expression is the parameter's default value, not
    its annotation, so a call that leaves the argument out calls that object
    instead of returning the raw pairs. */
module SourceFindings {
  import opened Definitions
  import opened Labels
  import opened Translator
  import opened TranslatorProperties

  // ----- the caller's definition after a call -----

  /** The step as `_build_step(step)` leaves it. Only container steps change. */
  function AfterStep(locate: Locator, step: Value): (after: Value)
    decreases Size(step), 0, 0
    ensures !step.Dict? ==> after == step
    ensures after.Dict? <==> step.Dict?
  {
    match step
    case Dict(es) =>
      if |es| != 1 then step
      else
        var e := es[0];
        EntrySmaller(es);
        var cls := locate(e.0);
        if cls.Some? && IsContainer(cls.value) then Dict([(e.0, AfterContainer(locate, cls.value, e.1))])
        else step
    case _ => step
  }

  /** The params of a container step after lines 108-116 ran on them. */
  function AfterContainer(locate: Locator, cls: TypeRef, params: Value): Value
    decreases Size(params), 3, 0
  {
    match Contains(params, "transformer_list")
    case Err(_) => params
    case Ok(true) => AfterChildrenParam(locate, params, "transformer_list")
    case Ok(false) =>
      match Contains(params, "steps")
      case Err(_) => params
      case Ok(true) => AfterChildrenParam(locate, params, "steps")
      case Ok(false) => if params.List? || params.Tuple? then AfterBranch(locate, params) else params
  }

  /** `params[key] = _build_branch(params[key], None)`: when the branch is
      built, the entry now holds it; when it fails, the assignment does not
      happen, but the children built before the failure stay changed. */
  function AfterChildrenParam(locate: Locator, params: Value, key: string): Value
    decreases Size(params), 2, 0
  {
    if params.Dict? && key in Keys(params.entries) then
      var children := Lookup(params.entries, key);
      LookupSmaller(params.entries, key);
      var branch := BuildBranch(locate, children, None);
      Dict(Update(params.entries, key, if branch.Ok? then branch.value else AfterBranch(locate, children)))
    else params
  }

  /** The iterable handed to `_build_branch`, after its children were built.
      Only lists and tuples hold children that can change; the strings a dict
      or a string yields cannot. */
  function AfterBranch(locate: Locator, definition: Value): Value
    decreases Size(definition), 1, 0
  {
    match definition
    case List(items) =>
      ListItemsSmaller(definition);
      NodesWeightAtMostSize(items);
      List(AfterSteps(locate, items))
    case Tuple(items) =>
      ListItemsSmaller(definition);
      NodesWeightAtMostSize(items);
      Tuple(AfterSteps(locate, items))
    case _ => definition
  }

  /** The children of a branch after the list comprehension: each built child
      as its build left it, then every child after the first failure as it
      was. */
  function AfterSteps(locate: Locator, defs: seq<Value>): (after: seq<Value>)
    decreases NodesWeight(defs), 4, |defs|
    ensures |after| == |defs|
  {
    if defs == [] then []
    else
      [if defs[0].Str? then defs[0] else AfterStep(locate, defs[0])]
      + (if Build(locate, defs[0]).Ok? then AfterSteps(locate, defs[1..]) else defs[1..])
  }

  /** `pipeline_from_definition` as written: the result, and the caller's
      definition as the call leaves it, for a definition in which no container
      subtree is the same object in two places. */
  function TranslateInPlace(locate: Locator, definition: Value): (out: (Result<Obj>, Value))
    ensures out.0 == PipelineFromDefinition(locate, definition)
    ensures !definition.Dict? ==> out.1 == definition
  {
    (Build(locate, definition), AfterStep(locate, definition))
  }

  /** Bare names and leaf components are left as they were. */
  lemma LeafStepsUntouched(locate: Locator, step: Value)
    requires step.Str? || (step.Dict? && |step.entries| == 1 &&
      !(locate(step.entries[0].0).Some? && IsContainer(locate(step.entries[0].0).value)))
    ensures AfterStep(locate, step) == step
  {
  }

  /** A container step whose children parameter held at least one child and
      that translated successfully leaves behind a definition that no longer
      translates: its children parameter now holds (label, object) tuples,
      and a tuple is not a step. */
  lemma SecondTranslationFails(locate: Locator, name: string, es: seq<(string, Value)>)
    requires locate(name).Some? && IsContainer(locate(name).value)
    requires ChildrenKey(es) in Keys(es)
    requires Build(locate, Dict([(name, Dict(es))])).Ok?
    requires Iterate(Lookup(es, ChildrenKey(es))).Ok? && Iterate(Lookup(es, ChildrenKey(es))).value != []
    ensures var again := Build(locate, AfterStep(locate, Dict([(name, Dict(es))])));
      again.Err? && again.error.NotStepShape? && again.error.step.Tuple?
  {
    var t := locate(name).value;
    var key := ChildrenKey(es);
    var children := Lookup(es, key);
    ContainerChildrenParamReplaced(locate, name, es);
    var v := BuildBranch(locate, children, None).value;
    assert v.List? && |v.items| > 0;
    var es2 := Update(es, key, v);
    assert AfterContainer(locate, t, Dict(es)) == AfterChildrenParam(locate, Dict(es), key);
    assert AfterStep(locate, Dict([(name, Dict(es))])) == Dict([(name, Dict(es2))]);
    UpdateKeys(es, key, v);
    UpdateLookup(es, key, v, key);
    assert ChildrenKey(es2) == key;
    ContainerChildrenParamReplaced(locate, name, es2);
    BranchLabelsInOrder(locate, v);
    var items := v.items;
    assert Iterate(v) == Ok(items);
    assert items[0].Tuple?;
    assert Build(locate, items[0]) == Err(NotStepShape(items[0]));
    var again := BuildBranch(locate, v, None);
    assert again.Err?;
    var k: nat :| FirstFailure(locate, items, k, again.error);
    assert k == 0;
  }

  /** The translation as intended: it works on a copy, so the caller's
      definition is the same after the call and translating it again gives
      the same result. */
  function TranslateOnCopy(locate: Locator, definition: Value): (out: (Result<Obj>, Value))
    ensures out.0 == PipelineFromDefinition(locate, definition)
    ensures out.1 == definition
  {
    (Build(locate, definition), definition)
  }

  lemma TranslateOnCopyRepeatable(locate: Locator, definition: Value)
    ensures TranslateOnCopy(locate, TranslateOnCopy(locate, definition).1) == TranslateOnCopy(locate, definition)
    ensures TranslateOnCopy(locate, definition).0 == TranslateInPlace(locate, definition).0
  {
  }

  // ----- the default of constructor_class -----

  /** `_build_branch(definition)` with the constructor left out, as line 52
      declares it: the default `Union[Pipeline, None]` is not None, so after
      the children are built it is called with them, and calling a
      `typing.Union` raises. */
  function BuildBranchDefaultAsWritten(locate: Locator, definition: Value): (r: Result<Value>)
    ensures r.Err?
  {
    match BuildBranch(locate, definition, None)
    case Err(e) => Err(e)
    case Ok(_) => Err(UnionNotInstantiable)
  }

  /** Whenever the children build, the declared default turns success into an error. */
  lemma DefaultConstructorAsWrittenFails(locate: Locator, definition: Value)
    requires BuildBranch(locate, definition, None).Ok?
    ensures BuildBranchDefaultAsWritten(locate, definition) == Err(UnionNotInstantiable)
  {
  }

  /** `_build_branch(definition)` with the default the docstring describes
      (None): the raw labelled pairs, as both callers in the file request
      explicitly. */
  function BuildBranchDefault(locate: Locator, definition: Value): (r: Result<Value>)
    ensures r.Ok? <==>
      (Iterate(definition).Ok? &&
       forall i :: 0 <= i < |Iterate(definition).value| ==> Build(locate, Iterate(definition).value[i]).Ok?)
    ensures r.Ok? ==> IsBranchOf(locate, Iterate(definition).value, r.value)
  {
    BranchLabelsInOrder(locate, definition);
    BuildBranch(locate, definition, None)
  }
}
