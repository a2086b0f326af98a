/** Concrete translations against a small registry of sklearn names: a bare
    name, a parameterised leaf, a Pipeline with `steps`, a FeatureUnion given
    a bare list, the docstring example of `pipeline_from_definition` as it is
    written and as it is evidently meant, and the in-place change of a
    definition. */
module Scenarios {
  import opened Definitions
  import opened Labels
  import opened Translator
  import opened TranslatorProperties
  import opened SourceFindings

  const PipelineName: string := "sklearn.pipeline.Pipeline"
  const FeatureUnionName: string := "sklearn.pipeline.FeatureUnion"
  const PcaName: string := "sklearn.decomposition.PCA"
  const SvdName: string := "sklearn.decomposition.TruncatedSVD"
  const ScalerName: string := "sklearn.preprocessing.MinMaxScaler"
  const ForestName: string := "sklearn.ensemble.RandomForestClassifier"

  /** A registry that resolves the two containers and four components. */
  function SklearnLocate(name: string): (t: Option<TypeRef>)
    ensures t.Some? <==> name in [PipelineName, FeatureUnionName, PcaName, SvdName, ScalerName, ForestName]
  {
    if name == PipelineName then Some(Pipeline)
    else if name == FeatureUnionName then Some(FeatureUnion)
    else if name in [PcaName, SvdName, ScalerName, ForestName] then Some(Component(name))
    else None
  }

  function Pca(): Obj { Instance(Component(PcaName), [], []) }
  function PcaWith(n: int): Obj { Instance(Component(PcaName), [], [("n_components", Int(n))]) }

  lemma BareNameScenario()
    ensures Build(SklearnLocate, Str(PcaName)) == Ok(Pca())
    ensures Build(SklearnLocate, Str("sklearn.decomposition.NoSuchThing")) ==
      Err(NotCallable("sklearn.decomposition.NoSuchThing"))
  {
  }

  lemma LeafScenario()
    ensures Build(SklearnLocate, Dict([(PcaName, Dict([("n_components", Int(3))]))])) == Ok(PcaWith(3))
  {
  }

  /** The labelled pair lists of one, two and three objects. */
  lemma PairsOfTwo(a: Obj, b: Obj)
    ensures PairsValue([a, b]) == List([Tuple([Str("step_0"), Object(a)]), Tuple([Str("step_1"), Object(b)])])
  {
    assert Label(0) == "step_0" && Label(1) == "step_1";
  }

  lemma PairsOfThree(a: Obj, b: Obj, c: Obj)
    ensures PairsValue([a, b, c]) ==
      List([Tuple([Str("step_0"), Object(a)]), Tuple([Str("step_1"), Object(b)]), Tuple([Str("step_2"), Object(c)])])
  {
    assert Label(0) == "step_0" && Label(1) == "step_1" && Label(2) == "step_2";
  }

  /** A container whose params dict starts with `steps` and has no other
      children key: the container is called with the built pairs in place of
      the children and every other parameter as it was. */
  lemma StepsFirstBuilds(locate: Locator, name: string, children: seq<Value>,
                         rest: seq<(string, Value)>, objs: seq<Obj>)
    requires locate(name).Some? && IsContainer(locate(name).value)
    requires "transformer_list" !in Keys(rest) && "steps" !in Keys(rest)
    requires |objs| == |children|
    requires forall i :: 0 <= i < |children| ==> Build(locate, children[i]) == Ok(objs[i])
    ensures Build(locate, Dict([(name, Dict([("steps", List(children))] + rest))])) ==
      Ok(Instance(locate(name).value, [], [("steps", PairsValue(objs))] + rest))
  {
    var t := locate(name).value;
    var es := [("steps", List(children))] + rest;
    assert es[1..] == rest;
    assert Keys(es) == ["steps"] + Keys(rest);
    BranchFromBuilds(locate, children, objs);
    assert Lookup(es, "steps") == List(children);
    assert Build(locate, Dict([(name, Dict(es))])) == BuildContainer(locate, t, Dict(es));
    assert BuildContainer(locate, t, Dict(es)) == BuildChildrenParam(locate, t, Dict(es), "steps");
    UpdateAbsent(rest, "steps", PairsValue(objs));
    assert Update(es, "steps", PairsValue(objs)) == [("steps", PairsValue(objs))] + Update(rest, "steps", PairsValue(objs));
  }

  /** A container given a list of children, none of them the string
      `steps` or `transformer_list`, all of which build. */
  lemma ListParamsBuild(locate: Locator, name: string, children: seq<Value>, objs: seq<Obj>)
    requires locate(name).Some? && IsContainer(locate(name).value)
    requires Str("transformer_list") !in children && Str("steps") !in children
    requires |objs| == |children|
    requires forall i :: 0 <= i < |children| ==> Build(locate, children[i]) == Ok(objs[i])
    ensures Build(locate, Dict([(name, List(children))])) == Ok(Instance(locate(name).value, [PairsValue(objs)], []))
  {
    BranchFromBuilds(locate, children, objs);
    ContainerListPositional(locate, name, List(children));
  }

  /** `{Pipeline: {steps: [PCA, {PCA: {n_components: 1}}], memory: None}}`. */
  lemma StepsScenario()
    ensures Build(SklearnLocate,
      Dict([(PipelineName, Dict([
        ("steps", List([Str(PcaName), Dict([(PcaName, Dict([("n_components", Int(1))]))])])),
        ("memory", Null)]))]))
      == Ok(Instance(Pipeline, [], [
        ("steps", List([Tuple([Str("step_0"), Object(Pca())]), Tuple([Str("step_1"), Object(PcaWith(1))])])),
        ("memory", Null)]))
  {
    var c0 := Str(PcaName);
    var c1 := Dict([(PcaName, Dict([("n_components", Int(1))]))]);
    assert Build(SklearnLocate, c0) == Ok(Pca());
    assert Build(SklearnLocate, c1) == Ok(PcaWith(1));
    StepsFirstBuilds(SklearnLocate, PipelineName, [c0, c1], [("memory", Null)], [Pca(), PcaWith(1)]);
    PairsOfTwo(Pca(), PcaWith(1));
    var pairs := PairsValue([Pca(), PcaWith(1)]);
    assert [("steps", List([c0, c1]))] + [("memory", Null)] == [("steps", List([c0, c1])), ("memory", Null)];
    assert [("steps", pairs)] + [("memory", Null)] == [("steps", pairs), ("memory", Null)];
  }

  /** `{FeatureUnion: [{PCA: {}}, MinMaxScaler]}`: the children as one positional argument. */
  lemma BareListScenario()
    ensures Build(SklearnLocate, Dict([(FeatureUnionName, List([Dict([(PcaName, Dict([]))]), Str(ScalerName)]))]))
      == Ok(Instance(FeatureUnion, [
        List([Tuple([Str("step_0"), Object(Pca())]),
              Tuple([Str("step_1"), Object(Instance(Component(ScalerName), [], []))])])], []))
  {
    var c0 := Dict([(PcaName, Dict([]))]);
    var c1 := Str(ScalerName);
    var scaler := Instance(Component(ScalerName), [], []);
    assert Build(SklearnLocate, c0) == Ok(Pca());
    assert Build(SklearnLocate, c1) == Ok(scaler);
    ListParamsBuild(SklearnLocate, FeatureUnionName, [c0, c1], [Pca(), scaler]);
    PairsOfTwo(Pca(), scaler);
  }

  // ----- the docstring example -----

  /** The inner FeatureUnion of the docstring example. */
  function DoctestUnion(): Value
  {
    Dict([(FeatureUnionName, List([
      Dict([(PcaName, Dict([("n_components", Int(3))]))]),
      DoctestInner()]))])
  }

  /** The docstring's YAML as it decodes: `max_depth: 3` is indented like
      `steps:`, so it is a parameter of the outer Pipeline, and the
      RandomForestClassifier key has no value (None). */
  function DoctestAsWritten(): Value
  {
    Dict([(PipelineName, Dict([
      ("steps", List([
        Dict([(PcaName, Dict([("n_components", Int(3))]))]),
        DoctestUnion(),
        Dict([(ForestName, Null)])])),
      ("max_depth", Int(3))]))])
  }

  /** The same definition with `max_depth: 3` under RandomForestClassifier. */
  function DoctestAsIntended(): Value
  {
    Dict([(PipelineName, Dict([
      ("steps", List([
        Dict([(PcaName, Dict([("n_components", Int(3))]))]),
        DoctestUnion(),
        Dict([(ForestName, Dict([("max_depth", Int(3))]))])]))]))])
  }

  /** The inner `{Pipeline: [MinMaxScaler, {TruncatedSVD: {n_components: 2}}]}`. */
  function DoctestInner(): Value
  {
    Dict([(PipelineName, List([
      Str(ScalerName),
      Dict([(SvdName, Dict([("n_components", Int(2))]))])]))])
  }

  function DoctestInnerBuilt(): Obj
  {
    Instance(Pipeline, [List([
      Tuple([Str("step_0"), Object(Instance(Component(ScalerName), [], []))]),
      Tuple([Str("step_1"), Object(Instance(Component(SvdName), [], [("n_components", Int(2))]))])])], [])
  }

  function DoctestUnionBuilt(): Obj
  {
    Instance(FeatureUnion, [List([
      Tuple([Str("step_0"), Object(PcaWith(3))]),
      Tuple([Str("step_1"), Object(DoctestInnerBuilt())])])], [])
  }

  lemma DoctestInnerBuilds()
    ensures Build(SklearnLocate, DoctestInner()) == Ok(DoctestInnerBuilt())
  {
    var scaler := Instance(Component(ScalerName), [], []);
    var svd := Instance(Component(SvdName), [], [("n_components", Int(2))]);
    var c0 := Str(ScalerName);
    var c1 := Dict([(SvdName, Dict([("n_components", Int(2))]))]);
    assert Build(SklearnLocate, c0) == Ok(scaler);
    assert Build(SklearnLocate, c1) == Ok(svd);
    ListParamsBuild(SklearnLocate, PipelineName, [c0, c1], [scaler, svd]);
    PairsOfTwo(scaler, svd);
  }

  lemma DoctestUnionBuilds()
    ensures Build(SklearnLocate, DoctestUnion()) == Ok(DoctestUnionBuilt())
  {
    var c0 := Dict([(PcaName, Dict([("n_components", Int(3))]))]);
    assert Build(SklearnLocate, c0) == Ok(PcaWith(3));
    DoctestInnerBuilds();
    ListParamsBuild(SklearnLocate, FeatureUnionName, [c0, DoctestInner()], [PcaWith(3), DoctestInnerBuilt()]);
    PairsOfTwo(PcaWith(3), DoctestInnerBuilt());
  }

  /** As written, the example fails at the RandomForestClassifier step:
      `StepClass(**None)`. */
  lemma DoctestAsWrittenFails()
    ensures PipelineFromDefinition(SklearnLocate, DoctestAsWritten()) == Err(KwargsNotMapping(Null))
  {
    var c0 := Dict([(PcaName, Dict([("n_components", Int(3))]))]);
    var c2 := Dict([(ForestName, Null)]);
    var children := [c0, DoctestUnion(), c2];
    assert Build(SklearnLocate, c0).Ok?;
    DoctestUnionBuilds();
    assert Build(SklearnLocate, c2) == Err(KwargsNotMapping(Null));
    assert FirstFailure(SklearnLocate, children, 2, KwargsNotMapping(Null));
    BranchFailsAtFirstFailure(SklearnLocate, children, 2, KwargsNotMapping(Null));
    var es := [("steps", List(children)), ("max_depth", Int(3))];
    assert Keys(es) == ["steps", "max_depth"];
    assert ChildrenKey(es) == "steps";
    assert Lookup(es, "steps") == List(children);
    ContainerChildrenParamReplaced(SklearnLocate, PipelineName, es);
  }

  /** As intended, the example builds the documented three-step Pipeline. */
  lemma DoctestAsIntendedBuilds()
    ensures PipelineFromDefinition(SklearnLocate, DoctestAsIntended()) == Ok(Instance(Pipeline, [], [
      ("steps", List([
        Tuple([Str("step_0"), Object(PcaWith(3))]),
        Tuple([Str("step_1"), Object(DoctestUnionBuilt())]),
        Tuple([Str("step_2"), Object(Instance(Component(ForestName), [], [("max_depth", Int(3))]))])]))]))
  {
    var c0 := Dict([(PcaName, Dict([("n_components", Int(3))]))]);
    var c2 := Dict([(ForestName, Dict([("max_depth", Int(3))]))]);
    var forest := Instance(Component(ForestName), [], [("max_depth", Int(3))]);
    assert Build(SklearnLocate, c0) == Ok(PcaWith(3));
    DoctestUnionBuilds();
    assert Build(SklearnLocate, c2) == Ok(forest);
    StepsFirstBuilds(SklearnLocate, PipelineName, [c0, DoctestUnion(), c2], [], [PcaWith(3), DoctestUnionBuilt(), forest]);
    PairsOfThree(PcaWith(3), DoctestUnionBuilt(), forest);
    var pairs := PairsValue([PcaWith(3), DoctestUnionBuilt(), forest]);
    assert [("steps", List([c0, DoctestUnion(), c2]))] + [] == [("steps", List([c0, DoctestUnion(), c2]))];
    assert [("steps", pairs)] + [] == [("steps", pairs)];
  }

  // ----- the in-place change -----

  /** `{Pipeline: {steps: [PCA]}}` builds, is left holding the built pair in
      place of its steps, and then no longer builds. */
  lemma InPlaceScenario()
    ensures var d := Dict([(PipelineName, Dict([("steps", List([Str(PcaName)]))]))]);
      var after := Dict([(PipelineName, Dict([("steps", List([Tuple([Str("step_0"), Object(Pca())])]))]))]);
      && TranslateInPlace(SklearnLocate, d) == (Ok(Instance(Pipeline, [], [("steps", List([Tuple([Str("step_0"), Object(Pca())])]))])), after)
      && PipelineFromDefinition(SklearnLocate, after) == Err(NotStepShape(Tuple([Str("step_0"), Object(Pca())])))
  {
    var es := [("steps", List([Str(PcaName)]))];
    var d := Dict([(PipelineName, Dict(es))]);
    BranchFromBuilds(SklearnLocate, [Str(PcaName)], [Pca()]);
    var pair := Tuple([Str("step_0"), Object(Pca())]);
    assert Label(0) == "step_0";
    assert PairsValue([Pca()]) == List([pair]);
    assert Build(SklearnLocate, d) == BuildContainer(SklearnLocate, Pipeline, Dict(es));
    assert BuildContainer(SklearnLocate, Pipeline, Dict(es)) == BuildChildrenParam(SklearnLocate, Pipeline, Dict(es), "steps");
    assert AfterStep(SklearnLocate, d) == Dict([(PipelineName, AfterContainer(SklearnLocate, Pipeline, Dict(es)))]);
    assert AfterContainer(SklearnLocate, Pipeline, Dict(es)) == AfterChildrenParam(SklearnLocate, Dict(es), "steps");
    var es2 := [("steps", List([pair]))];
    assert Update(es, "steps", List([pair])) == es2;
    assert Build(SklearnLocate, pair) == Err(NotStepShape(pair));
    assert Steps(SklearnLocate, [pair]) == Err(NotStepShape(pair));
    assert Build(SklearnLocate, Dict([(PipelineName, Dict(es2))])) == BuildContainer(SklearnLocate, Pipeline, Dict(es2));
    assert BuildContainer(SklearnLocate, Pipeline, Dict(es2)) == BuildChildrenParam(SklearnLocate, Pipeline, Dict(es2), "steps");
  }
}
