/** The translator of `pipeline_from_definition.py`: `_build_step` (Build and
    the three helpers it splits into), `_build_branch` (BuildBranch, with
    Steps for its list comprehension) and the entry point
    `pipeline_from_definition`. The registry lookup `pydoc.locate` is the
    parameter `locate`. Everything is a pure function of the definition;
    what the source does to the caller's definition in place is modelled in
    module SourceFindings. */
module Translator {
  import opened Definitions
  import opened Labels

  // ----- Python operations on decoded values -----

  /** `sub in s` for strings: a substring test. */
  predicate IsSubstring(sub: string, s: string)
  {
    sub <= s || (s != [] && IsSubstring(sub, s[1..]))
  }

  /** `key in v` for a string key: key membership on a dict, element
      membership on a list or tuple, substring on a string, TypeError on a
      scalar or an object. */
  function Contains(v: Value, key: string): (r: Result<bool>)
    ensures r.Err? <==> !(v.Dict? || v.List? || v.Tuple? || v.Str?)
    ensures v.Dict? ==> r == Ok(key in Keys(v.entries))
    ensures v.List? || v.Tuple? ==> r == Ok(Str(key) in v.items)
  {
    match v
    case Dict(es) => Ok(key in Keys(es))
    case List(items) => Ok(Str(key) in items)
    case Tuple(items) => Ok(Str(key) in items)
    case Str(s) => Ok(IsSubstring(key, s))
    case _ => Err(NotIterable(v))
  }

  /** The dict keys as string nodes, in order: what iterating a dict yields. */
  function KeyNodes(es: seq<(string, Value)>): (r: seq<Value>)
    ensures |r| == |es|
    ensures forall i :: 0 <= i < |es| ==> r[i] == Str(es[i].0)
  {
    if es == [] then [] else [Str(es[0].0)] + KeyNodes(es[1..])
  }

  /** One-character strings, in order: what iterating a string yields. */
  function CharNodes(s: string): (r: seq<Value>)
    ensures |r| == |s|
    ensures forall i :: 0 <= i < |s| ==> r[i] == Str([s[i]])
  {
    if s == [] then [] else [Str([s[0]])] + CharNodes(s[1..])
  }

  /** `enumerate(v)`: the elements a value yields when iterated. */
  function Iterate(v: Value): (r: Result<seq<Value>>)
    ensures r.Err? <==> !(v.Dict? || v.List? || v.Tuple? || v.Str?)
    ensures (v.List? || v.Tuple?) ==> r == Ok(v.items)
  {
    match v
    case List(items) => Ok(items)
    case Tuple(items) => Ok(items)
    case Dict(es) => Ok(KeyNodes(es))
    case Str(s) => Ok(CharNodes(s))
    case _ => Err(NotIterable(v))
  }

  /** The measure of a list of child definitions: bare names weigh nothing,
      because building one does not recurse. */
  function NodesWeight(defs: seq<Value>): nat
  {
    if defs == [] then 0
    else (if defs[0].Str? then 0 else Size(defs[0])) + NodesWeight(defs[1..])
  }

  lemma {:induction false} NodesWeightAtMostSize(items: seq<Value>)
    ensures NodesWeight(items) <= ItemsSize(items)
  {
    if items != [] {
      NodesWeightAtMostSize(items[1..]);
    }
  }

  lemma {:induction false} NamesWeighNothing(names: seq<Value>)
    requires forall i :: 0 <= i < |names| ==> names[i].Str?
    ensures NodesWeight(names) == 0
  {
    if names != [] {
      NamesWeighNothing(names[1..]);
    }
  }

  /** What iterating a value yields weighs less than the value. */
  lemma IterateSmaller(v: Value)
    requires Iterate(v).Ok?
    ensures NodesWeight(Iterate(v).value) < Size(v)
  {
    match v
    case Dict(es) => NamesWeighNothing(KeyNodes(es));
    case Str(s) => NamesWeighNothing(CharNodes(s));
    case List(items) => NodesWeightAtMostSize(items);
    case Tuple(items) => NodesWeightAtMostSize(items);
  }

  /** The list `[('step_0', o0), ('step_1', o1), ...]` a branch returns. */
  function PairsValue(objs: seq<Obj>): (v: Value)
    ensures v.List? && |v.items| == |objs|
    ensures forall i :: 0 <= i < |objs| ==> v.items[i] == Tuple([Str(Label(i)), Object(objs[i])])
  {
    List(seq(|objs|, i requires 0 <= i < |objs| => Tuple([Str(Label(i)), Object(objs[i])])))
  }

  // ----- _build_step and _build_branch -----

  /** `_build_step(step)`. */
  function Build(locate: Locator, step: Value): (r: Result<Obj>)
    decreases Size(step), 0, 0
    ensures r.Ok? ==> step.Str? || (step.Dict? && |step.entries| == 1)
    ensures r.Ok? && step.Str? ==> locate(step.s) == Some(r.value.cls)
    ensures r.Ok? && step.Dict? ==> locate(step.entries[0].0) == Some(r.value.cls)
    ensures r.Ok? && !IsContainer(r.value.cls) ==> r.value.args == []
  {
    match step
    case Dict(es) =>
      if |es| != 1 then Err(NotSingleKey(Keys(es)))
      else
        var name := es[0].0;
        var params := es[0].1;
        var cls := locate(name);
        if cls.Some? && IsContainer(cls.value) then
          assert Size(params) < Size(step) by {
            var e := es[0];
            assert e.1 < e;
          }
          BuildContainer(locate, cls.value, params)
        else Construct(name, cls, params)
    case Str(name) => BuildName(locate, name)
    case _ => Err(NotStepShape(step))
  }

  /** Lines 125-127: a bare name is resolved and called with no arguments. */
  function BuildName(locate: Locator, name: string): (r: Result<Obj>)
    ensures r.Ok? <==> locate(name).Some?
    ensures r.Ok? ==> r.value == Instance(locate(name).value, [], [])
    ensures r.Err? ==> r.error == NotCallable(name)
  {
    if locate(name).None? then Err(NotCallable(name)) else Ok(Instance(locate(name).value, [], []))
  }

  /** `StepClass(**params)` for a name that did not resolve to a container.
      The `**` unpacking is checked before the call is attempted. */
  function Construct(name: string, cls: Option<TypeRef>, params: Value): (r: Result<Obj>)
    ensures r.Ok? <==> params.Dict? && cls.Some?
    ensures r.Ok? ==> r.value == Instance(cls.value, [], params.entries)
    ensures !params.Dict? ==> r == Err(KwargsNotMapping(params))
  {
    if !params.Dict? then Err(KwargsNotMapping(params))
    else if cls.None? then Err(NotCallable(name))
    else Ok(Instance(cls.value, [], params.entries))
  }

  /** Lines 108-121: a container gets its children built, either from the
      `transformer_list` parameter (tested first), from the `steps`
      parameter, or from params that are themselves a list or tuple. */
  function BuildContainer(locate: Locator, cls: TypeRef, params: Value): (r: Result<Obj>)
    requires IsContainer(cls)
    decreases Size(params), 3, 0
    ensures r.Ok? ==> r.value.cls == cls
  {
    match Contains(params, "transformer_list")
    case Err(e) => Err(e)
    case Ok(true) => BuildChildrenParam(locate, cls, params, "transformer_list")
    case Ok(false) =>
      match Contains(params, "steps")
      case Err(e) => Err(e)
      case Ok(true) => BuildChildrenParam(locate, cls, params, "steps")
      case Ok(false) =>
        if params.List? || params.Tuple? then
          match BuildBranch(locate, params, None)
          case Err(e) => Err(e)
          case Ok(steps) => Ok(Instance(cls, [steps], []))
        else Err(InvalidContainerParams(cls, params))
  }

  /** `params[key] = _build_branch(params[key], None)` followed by
      `StepClass(**params)`. Subscripting a string, list or tuple with a
      string key raises before anything is built. */
  function BuildChildrenParam(locate: Locator, cls: TypeRef, params: Value, key: string): (r: Result<Obj>)
    decreases Size(params), 2, 0
    ensures r.Ok? ==> r.value.cls == cls && r.value.args == []
  {
    if params.Dict? && key in Keys(params.entries) then
      var children := Lookup(params.entries, key);
      LookupSmaller(params.entries, key);
      match BuildBranch(locate, children, None)
      case Err(e) => Err(e)
      case Ok(steps) => Ok(Instance(cls, [], Update(params.entries, key, steps)))
    else if params.Dict? then Err(InvalidContainerParams(cls, params))
    else Err(IndicesMustBeIntegers(params))
  }

  /** `_build_branch(definition, constructor_class)`: the children built in
      order and labelled by position; wrapped in one call of the constructor
      when one is given. */
  function BuildBranch(locate: Locator, definition: Value, ctor: Option<TypeRef>): (r: Result<Value>)
    decreases Size(definition), 1, 0
    ensures r.Ok? ==> Iterate(definition).Ok?
    ensures r.Ok? && ctor.None? ==> r.value.List? && |r.value.items| == |Iterate(definition).value|
  {
    match Iterate(definition)
    case Err(e) => Err(e)
    case Ok(defs) =>
      IterateSmaller(definition);
      match Steps(locate, defs)
      case Err(e) => Err(e)
      case Ok(objs) =>
        var steps := PairsValue(objs);
        if ctor.None? then Ok(steps) else Ok(Object(Instance(ctor.value, [steps], [])))
  }

  /** The list comprehension of line 58 without the labels: each definition
      built in order; the first failure ends it. A bare name goes straight to
      BuildName, which is what Build does with it. */
  function Steps(locate: Locator, defs: seq<Value>): (r: Result<seq<Obj>>)
    decreases NodesWeight(defs), 4, |defs|
    ensures r.Ok? ==> |r.value| == |defs|
  {
    if defs == [] then Ok([])
    else
      match (if defs[0].Str? then BuildName(locate, defs[0].s) else Build(locate, defs[0]))
      case Err(e) => Err(e)
      case Ok(o) =>
        match Steps(locate, defs[1..])
        case Err(e) => Err(e)
        case Ok(os) => Ok([o] + os)
  }

  /** `pipeline_from_definition(pipe_definition)`. */
  function PipelineFromDefinition(locate: Locator, definition: Value): (r: Result<Obj>)
    ensures r.Ok? ==> definition.Str? || (definition.Dict? && |definition.entries| == 1)
    ensures !definition.Str? && !definition.Dict? ==> r == Err(NotStepShape(definition))
  {
    Build(locate, definition)
  }
}
