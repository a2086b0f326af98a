/** What the translator guarantees: the labelling and ordering law of a
    branch, the wrapping rule, the per-shape rules of a step and its error
    cases, and that every definition written in the documented grammar with
    resolvable names translates. */
module TranslatorProperties {
  import opened Definitions
  import opened Labels
  import opened Translator

  // ----- _build_branch -----

  /** `Steps` stopped at child `k` with error `e`: that child failed with `e`
      and every child before it was built. */
  predicate FirstFailure(locate: Locator, defs: seq<Value>, k: nat, e: Error)
  {
    && k < |defs|
    && Build(locate, defs[k]) == Err(e)
    && forall j :: 0 <= j < k ==> Build(locate, defs[j]).Ok?
  }

  lemma BareNameIsBuildName(locate: Locator, step: Value)
    requires step.Str?
    ensures Build(locate, step) == BuildName(locate, step.s)
  {
  }

  /** The list comprehension builds every child, in order, or stops at the
      first child that fails. */
  lemma {:induction false} StepsInOrder(locate: Locator, defs: seq<Value>)
    ensures Steps(locate, defs).Ok? <==> forall i :: 0 <= i < |defs| ==> Build(locate, defs[i]).Ok?
    ensures Steps(locate, defs).Ok? ==>
      forall i :: 0 <= i < |defs| ==> Build(locate, defs[i]) == Ok(Steps(locate, defs).value[i])
    ensures Steps(locate, defs).Err? ==>
      exists k :: FirstFailure(locate, defs, k, Steps(locate, defs).error)
  {
    if defs != [] {
      StepsInOrder(locate, defs[1..]);
      var first := if defs[0].Str? then BuildName(locate, defs[0].s) else Build(locate, defs[0]);
      assert first == Build(locate, defs[0]);
      if first.Ok? {
        var rest := Steps(locate, defs[1..]);
        if rest.Ok? {
          forall i | 0 <= i < |defs| ensures Build(locate, defs[i]) == Ok(Steps(locate, defs).value[i]) {
            if i > 0 {
              assert defs[i] == defs[1..][i - 1];
            }
          }
        } else {
          var k: nat :| FirstFailure(locate, defs[1..], k, rest.error);
          assert defs[k + 1] == defs[1..][k];
          forall j | 0 <= j < k + 1 ensures Build(locate, defs[j]).Ok? {
            if j > 0 {
              assert defs[j] == defs[1..][j - 1];
            }
          }
          assert FirstFailure(locate, defs, k + 1, Steps(locate, defs).error);
        }
      } else {
        assert FirstFailure(locate, defs, 0, Steps(locate, defs).error);
      }
    }
  }

  /** `v` is the list `[('step_0', b0), ..., ('step_{n-1}', b{n-1})]` where
      `bi` is the object built from the i-th definition. */
  predicate IsBranchOf(locate: Locator, defs: seq<Value>, v: Value)
  {
    && v.List?
    && |v.items| == |defs|
    && forall i :: 0 <= i < |defs| ==>
         Build(locate, defs[i]).Ok? && v.items[i] == Tuple([Str(Label(i)), Object(Build(locate, defs[i]).value)])
  }

  /** A branch built from n definitions is the list of n pairs labelled
      `step_0` ... `step_{n-1}` in input order, the i-th holding the build of
      the i-th definition; it fails exactly when the definition cannot be
      iterated or some child fails, and then with the first such error. */
  lemma BranchLabelsInOrder(locate: Locator, definition: Value)
    ensures BuildBranch(locate, definition, None).Ok? <==>
      Iterate(definition).Ok? &&
      forall i :: 0 <= i < |Iterate(definition).value| ==> Build(locate, Iterate(definition).value[i]).Ok?
    ensures BuildBranch(locate, definition, None).Ok? ==>
      IsBranchOf(locate, Iterate(definition).value, BuildBranch(locate, definition, None).value)
    ensures BuildBranch(locate, definition, None).Err? ==>
      if Iterate(definition).Err? then BuildBranch(locate, definition, None).error == Iterate(definition).error
      else exists k :: FirstFailure(locate, Iterate(definition).value, k, BuildBranch(locate, definition, None).error)
  {
    if Iterate(definition).Ok? {
      StepsInOrder(locate, Iterate(definition).value);
    }
  }

  /** Conversely, when every child builds, the branch is exactly the
      labelled list of their builds. */
  lemma BranchFromBuilds(locate: Locator, items: seq<Value>, objs: seq<Obj>)
    requires |objs| == |items|
    requires forall i :: 0 <= i < |items| ==> Build(locate, items[i]) == Ok(objs[i])
    ensures Steps(locate, items) == Ok(objs)
    ensures BuildBranch(locate, List(items), None) == Ok(PairsValue(objs))
    ensures BuildBranch(locate, Tuple(items), None) == Ok(PairsValue(objs))
  {
    StepsInOrder(locate, items);
    assert Steps(locate, items).value == objs;
  }

  /** A branch whose k-th child is the first to fail fails with that
      child's error, whatever the children after it are. */
  lemma BranchFailsAtFirstFailure(locate: Locator, items: seq<Value>, k: nat, e: Error)
    requires FirstFailure(locate, items, k, e)
    ensures Steps(locate, items) == Err(e)
    ensures BuildBranch(locate, List(items), None) == Err(e)
    ensures BuildBranch(locate, Tuple(items), None) == Err(e)
  {
    StepsInOrder(locate, items);
    assert Build(locate, items[k]).Err?;
    var j: nat :| FirstFailure(locate, items, j, Steps(locate, items).error);
    assert j == k;
  }

  /** No two children of a branch carry the same label. */
  lemma BranchLabelsUnique(locate: Locator, defs: seq<Value>, v: Value, i: nat, j: nat)
    requires IsBranchOf(locate, defs, v)
    requires i < |defs| && j < |defs| && i != j
    ensures v.items[i].items[0] != v.items[j].items[0]
  {
    LabelsDistinct(i, j);
  }

  /** With no constructor the branch is the raw pair list; with one, it is
      that constructor applied to exactly that list, and nothing else. */
  lemma BranchWrapping(locate: Locator, definition: Value, t: TypeRef)
    ensures var raw := BuildBranch(locate, definition, None);
      BuildBranch(locate, definition, Some(t)) ==
        if raw.Ok? then Ok(Object(Instance(t, [raw.value], []))) else Err(raw.error)
  {
  }

  // ----- _build_step -----

  /** A dict step without exactly one key is rejected before any name is
      resolved, whatever the rest of it holds. */
  lemma MultipleKeysRejected(locate: Locator, es: seq<(string, Value)>)
    requires |es| != 1
    ensures Build(locate, Dict(es)) == Err(NotSingleKey(Keys(es)))
  {
  }

  /** A bare name is resolved and called with no arguments. */
  lemma BareNameDefaultConstructed(locate: Locator, name: string)
    ensures Build(locate, Str(name)) ==
      if locate(name).Some? then Ok(Instance(locate(name).value, [], [])) else Err(NotCallable(name))
  {
  }

  /** A single-key dict naming a component that is not a container: the
      component is called with the params as keyword arguments, unchanged and
      in order. */
  lemma LeafParamsPassedUnchanged(locate: Locator, name: string, params: Value)
    requires locate(name).Some? && !IsContainer(locate(name).value)
    requires params.Dict?
    ensures Build(locate, Dict([(name, params)])) == Ok(Instance(locate(name).value, [], params.entries))
  {
  }

  /** A leaf step whose params are not a mapping fails at `**params`. */
  lemma LeafParamsNotMappingRejected(locate: Locator, name: string, params: Value)
    requires !(locate(name).Some? && IsContainer(locate(name).value))
    requires !params.Dict?
    ensures Build(locate, Dict([(name, params)])) == Err(KwargsNotMapping(params))
  {
  }

  /** A name the registry does not resolve is never constructed. */
  lemma UnresolvedNameNeverConstructed(locate: Locator, name: string, params: Value)
    requires locate(name).None?
    ensures Build(locate, Str(name)) == Err(NotCallable(name))
    ensures Build(locate, Dict([(name, params)])).Err?
    ensures params.Dict? ==> Build(locate, Dict([(name, params)])) == Err(NotCallable(name))
  {
  }

  /** The children parameter of a container's params dict:
      `transformer_list` when present, else `steps`. */
  function ChildrenKey(es: seq<(string, Value)>): string
  {
    if "transformer_list" in Keys(es) then "transformer_list" else "steps"
  }

  /** A container whose params dict holds `transformer_list` or `steps`:
      exactly that one parameter is replaced by the branch built from its
      value, every other parameter is passed through unchanged, and the
      container is called with the result as keyword arguments. When both
      keys are present, `transformer_list` is the one replaced. */
  lemma ContainerChildrenParamReplaced(locate: Locator, name: string, es: seq<(string, Value)>)
    requires locate(name).Some? && IsContainer(locate(name).value)
    requires "transformer_list" in Keys(es) || "steps" in Keys(es)
    ensures
      var key := ChildrenKey(es);
      var r := Build(locate, Dict([(name, Dict(es))]));
      var branch := BuildBranch(locate, Lookup(es, key), None);
      && (r.Ok? <==> branch.Ok?)
      && (r.Err? ==> r.error == branch.error)
      && (r.Ok? ==>
            && r.value.cls == locate(name).value
            && r.value.args == []
            && Keys(r.value.kwargs) == Keys(es)
            && Lookup(r.value.kwargs, key) == branch.value
            && forall k :: k in Keys(es) && k != key ==> Lookup(r.value.kwargs, k) == Lookup(es, k))
  {
    var t := locate(name).value;
    var key := ChildrenKey(es);
    var branch := BuildBranch(locate, Lookup(es, key), None);
    assert Build(locate, Dict([(name, Dict(es))])) == BuildContainer(locate, t, Dict(es));
    assert BuildContainer(locate, t, Dict(es)) == BuildChildrenParam(locate, t, Dict(es), key);
    if branch.Ok? {
      UpdateKeys(es, key, branch.value);
      forall k | k in Keys(es)
        ensures Lookup(Update(es, key, branch.value), k) == if k == key then branch.value else Lookup(es, k)
      {
        UpdateLookup(es, key, branch.value, k);
      }
    }
  }

  /** A container whose params are a list or tuple of definitions: the
      container is called with one positional argument, the branch built
      from that list; that is, the branch built with the container as its
      constructor. */
  lemma ContainerListPositional(locate: Locator, name: string, params: Value)
    requires locate(name).Some? && IsContainer(locate(name).value)
    requires params.List? || params.Tuple?
    requires Str("transformer_list") !in params.items && Str("steps") !in params.items
    ensures var raw := BuildBranch(locate, params, None);
      Build(locate, Dict([(name, params)])) ==
        if raw.Ok? then Ok(Instance(locate(name).value, [raw.value], [])) else Err(raw.error)
    ensures var wrapped := BuildBranch(locate, params, Some(locate(name).value));
      Build(locate, Dict([(name, params)])) ==
        if wrapped.Ok? then Ok(wrapped.value.obj) else Err(wrapped.error)
  {
  }

  /** The rejected container shapes: params that are neither a list nor a
      dict holding a children key. A list, tuple or string for which the
      Python `in` test finds a children key fails when subscripted with it. */
  lemma ContainerParamsRejected(locate: Locator, name: string, params: Value)
    requires locate(name).Some? && IsContainer(locate(name).value)
    ensures var r := Build(locate, Dict([(name, params)]));
      && (params.Dict? && "transformer_list" !in Keys(params.entries) && "steps" !in Keys(params.entries) ==>
            r == Err(InvalidContainerParams(locate(name).value, params)))
      && (params.Str? && !IsSubstring("transformer_list", params.s) && !IsSubstring("steps", params.s) ==>
            r == Err(InvalidContainerParams(locate(name).value, params)))
      && (params.Str? && (IsSubstring("transformer_list", params.s) || IsSubstring("steps", params.s)) ==>
            r == Err(IndicesMustBeIntegers(params)))
      && ((params.List? || params.Tuple?) && (Str("transformer_list") in params.items || Str("steps") in params.items) ==>
            r == Err(IndicesMustBeIntegers(params)))
      && (params.Int? || params.Real? || params.Bool? || params.Null? || params.Object? ==>
            r == Err(NotIterable(params)))
  {
    var t := locate(name).value;
    assert Build(locate, Dict([(name, params)])) == BuildContainer(locate, t, params);
    if params.Str? || params.List? || params.Tuple? {
      assert BuildChildrenParam(locate, t, params, "transformer_list") == Err(IndicesMustBeIntegers(params));
      assert BuildChildrenParam(locate, t, params, "steps") == Err(IndicesMustBeIntegers(params));
    }
  }

  /** A step that is neither a dict nor a string is rejected. */
  lemma OtherShapesRejected(locate: Locator, step: Value)
    requires !step.Str? && !step.Dict?
    ensures Build(locate, step) == Err(NotStepShape(step))
  {
  }

  // ----- the documented grammar translates -----

  /** A step in the documented grammar whose every name resolves: a bare name;
      a single-key dict naming a component, with a params dict; or a
      single-key dict naming a container, with a list of steps either as its
      params or under its children key. */
  predicate WellFormed(locate: Locator, step: Value)
    decreases Size(step), 0
  {
    match step
    case Str(name) => locate(name).Some?
    case Dict(es) =>
      && |es| == 1
      && locate(es[0].0).Some?
      && var e := es[0];
         EntrySmaller(es);
         var params := e.1;
         if !IsContainer(locate(e.0).value) then params.Dict?
         else if params.Dict? then
           var key := ChildrenKey(params.entries);
           && key in Keys(params.entries)
           && Lookup(params.entries, key).List?
           && (LookupSmaller(params.entries, key);
               ListItemsSmaller(Lookup(params.entries, key));
               AllWellFormed(locate, Lookup(params.entries, key).items))
         else
           && params.List?
           && Str("transformer_list") !in params.items
           && Str("steps") !in params.items
           && AllWellFormed(locate, params.items)
    case _ => false
  }

  predicate AllWellFormed(locate: Locator, steps: seq<Value>)
    decreases ItemsSize(steps), 1
  {
    steps != [] ==> WellFormed(locate, steps[0]) && AllWellFormed(locate, steps[1..])
  }

  /** Every definition in the grammar whose names all resolve translates
      without error, at every depth. */
  lemma {:induction false} WellFormedBuilds(locate: Locator, step: Value)
    requires WellFormed(locate, step)
    decreases Size(step), 0
    ensures Build(locate, step).Ok?
  {
    if step.Dict? {
      var e := step.entries[0];
      EntrySmaller(step.entries);
      var params := e.1;
      var t := locate(e.0).value;
      if IsContainer(t) {
        assert Build(locate, step) == BuildContainer(locate, t, params);
        if params.Dict? {
          var key := ChildrenKey(params.entries);
          var children := Lookup(params.entries, key);
          LookupSmaller(params.entries, key);
          ListItemsSmaller(children);
          assert BuildContainer(locate, t, params) == BuildChildrenParam(locate, t, params, key);
          AllWellFormedBuild(locate, children.items);
          StepsInOrder(locate, children.items);
          BranchLabelsInOrder(locate, children);
        } else {
          ListItemsSmaller(params);
          AllWellFormedBuild(locate, params.items);
          StepsInOrder(locate, params.items);
          BranchLabelsInOrder(locate, params);
        }
      }
    }
  }

  lemma {:induction false} AllWellFormedBuild(locate: Locator, steps: seq<Value>)
    requires AllWellFormed(locate, steps)
    decreases ItemsSize(steps), 1
    ensures forall i :: 0 <= i < |steps| ==> Build(locate, steps[i]).Ok?
  {
    if steps != [] {
      WellFormedBuilds(locate, steps[0]);
      AllWellFormedBuild(locate, steps[1..]);
      forall i | 0 < i < |steps| ensures Build(locate, steps[i]).Ok? {
        assert steps[i] == steps[1..][i - 1];
      }
    }
  }
}
