# Pipeline translator model

A Dafny model of gordo-components' pipeline translator. The translator turns a decoded
configuration tree (the YAML/JSON structure a user writes) into a scikit-learn object graph:

- `pipeline_from_definition` is the entry point.
- `_build_step` resolves one node. A node is either a bare type name, which is constructed with no
  arguments, or a single-key mapping `{type name: params}`.
  - For the two containers `sklearn.pipeline.Pipeline` and `sklearn.pipeline.FeatureUnion`, the
    children are taken from the `transformer_list` or `steps` parameter, or from params that are
    themselves a list.
- `_build_branch` builds a list of child definitions, in order, into `('step_i', object)` pairs.

Module layout:

- `definitions.dfy` (module `Definitions`):
  - the decoded values (`Value`), where a Python dict is an ordered sequence of entries;
  - the type references a registry resolves names to (`TypeRef`);
  - the constructed objects (`Obj`, one constructor call with its positional and keyword
    arguments);
  - the errors;
  - dict reading and assignment.
- `labels.dfy` (module `Labels`): the `step_<i>` labels, with a decimal renderer and parser, and
  the proof that labels are distinct and can be read back.
- `translator.dfy` (module `Translator`): `_build_step` as `Build` with its helpers, `_build_branch`
  as `BuildBranch` and `Steps`, and the entry point as `PipelineFromDefinition`. It also models the
  Python semantics the code relies on:
  - `in` on a dict, a list or a string (a substring test);
  - iterating a dict, which yields its keys, or a string, which yields its characters;
  - subscripting with a string;
  - `**` unpacking.
- `properties.dfy` (module `TranslatorProperties`): the laws of the translator, covering labels and
  order, the first error, the wrapping rule, each step shape, and every error case. It also proves
  that every definition written in the documented grammar, with names that resolve, translates.
- `findings.dfy` (module `SourceFindings`): what a call does to the caller's definition, and the
  default value of `constructor_class`. Each comes as written and as intended.
- `scenarios.dfy` (module `Scenarios`): concrete translations against a small sklearn registry,
  including the docstring example.

`pydoc.locate` is the parameter `locate: string -> Option<TypeRef>`. A constructor call is recorded
as an `Obj` value rather than executed. Without the in-place change to the caller's definition, the
translator is a pure function of the definition and the registry. That change is modelled
separately, as a second output (`SourceFindings.TranslateInPlace`), for definitions in which no
container subtree is shared between two places (see "## Left out").

Behaviour of the code that the model keeps, where a reader might expect otherwise:

- `pydoc.locate` returns `None` for an unknown name and nothing checks it. A bare name then fails
  when `None` is called (line 127), a TypeError (`NotCallable`).
- For a dict step, `StepClass(**params)` (line 121) unpacks `params` before the call, so
  non-mapping params fail with a TypeError (`KwargsNotMapping`) even when the name did not
  resolve.
- `transformer_list` is tested before `steps` (lines 108-111) and wins when both are present.
- `step.get(import_str, dict())` (line 98) never uses its default, because the key is the dict's
  only key and is always present. A `None` value stays `None`.
- Container params without a children list fail in three ways:
  - scalar params in the `in` test of line 108 (`NotIterable`);
  - a string, list or tuple for which `in` finds a children key when subscripted with it
    (`IndicesMustBeIntegers`);
  - any other string, dict or shape with the ValueError of lines 118-120 (`InvalidContainerParams`).
- The docstring of `pipeline_from_definition` documents `pipe_definition: list - List of steps`
  (line 40). `_build_step` rejects a list at the top level with the ValueError of lines 129-131.
  `PipelineFromDefinition` keeps that rejection.
- Each call writes into the caller's definition, so translating the same definition twice does not
  give the same result: see the first finding.

## Model

| member | source | states |
|---|---|---|
| Definitions.UpdateKeys | gordo_components/pipeline_translator/pipeline_from_definition.py:109-111 | assigning a children key in place keeps the dict's key set and order |
| Definitions.UpdateLookup | gordo_components/pipeline_translator/pipeline_from_definition.py:109-111 | after `params[k] = v`, reading `k` gives `v` and every other key reads as before |
| Definitions.UpdateAbsent | gordo_components/pipeline_translator/pipeline_from_definition.py:109-111 | the entries of the other keys are not touched by the assignment |
| Labels.DecimalRoundTrip | gordo_components/pipeline_translator/pipeline_from_definition.py:58 | the decimal rendering of an index parses back to that index |
| Labels.ParseDecimalCanonical | gordo_components/pipeline_translator/pipeline_from_definition.py:58 | describes the label format only: every accepted digit string is the rendering of the number it denotes |
| Labels.LabelRoundTrip | gordo_components/pipeline_translator/pipeline_from_definition.py:58 | `step_<i>` read back gives `i` |
| Labels.LabelCanonical | gordo_components/pipeline_translator/pipeline_from_definition.py:58 | describes the label format only: a string read as a label is exactly that label |
| Labels.LabelsDistinct | gordo_components/pipeline_translator/pipeline_from_definition.py:58 | different positions get different labels |
| Translator.Build | gordo_components/pipeline_translator/pipeline_from_definition.py:62-131 | a step builds only when it is a name or a single-key dict; the object's type is what the name resolves to; a non-container gets no positional arguments |
| Translator.BuildContainer | gordo_components/pipeline_translator/pipeline_from_definition.py:103-120 | a built container has the container's type |
| Translator.BuildChildrenParam | gordo_components/pipeline_translator/pipeline_from_definition.py:108-111 | a container built from a children parameter gets keyword arguments only |
| Translator.BuildBranch | gordo_components/pipeline_translator/pipeline_from_definition.py:51-59 | a branch built without a constructor is a list with one pair per child of the iterated definition |
| Translator.Steps | gordo_components/pipeline_translator/pipeline_from_definition.py:58 | when the comprehension succeeds it yields one object per child |
| Translator.PipelineFromDefinition | gordo_components/pipeline_translator/pipeline_from_definition.py:13-48 | the entry point accepts only a name or a single-key dict and rejects every other shape with the step-shape error |
| TranslatorProperties.BareNameIsBuildName | gordo_components/pipeline_translator/pipeline_from_definition.py:125-127 | a string step is resolved by the bare-name path |
| TranslatorProperties.StepsInOrder | gordo_components/pipeline_translator/pipeline_from_definition.py:58 | the comprehension succeeds iff every child builds; the i-th object is the i-th child's build; on failure the error is that of the first failing child |
| TranslatorProperties.BranchLabelsInOrder | gordo_components/pipeline_translator/pipeline_from_definition.py:58 | a branch succeeds iff the definition iterates and every child builds; it is then the n pairs `step_0`..`step_{n-1}` in input order; otherwise it fails with the iteration error or the first child's error |
| TranslatorProperties.BranchFromBuilds | gordo_components/pipeline_translator/pipeline_from_definition.py:58 | children that all build give exactly the labelled list of their builds |
| TranslatorProperties.BranchFailsAtFirstFailure | gordo_components/pipeline_translator/pipeline_from_definition.py:58 | a branch whose k-th child is the first to fail fails with that child's error |
| TranslatorProperties.BranchLabelsUnique | gordo_components/pipeline_translator/pipeline_from_definition.py:58 | no two pairs of a branch carry the same label |
| TranslatorProperties.BranchWrapping | gordo_components/pipeline_translator/pipeline_from_definition.py:59 | with a constructor the branch is that constructor called once on exactly the raw pair list; without one it is the raw list |
| TranslatorProperties.MultipleKeysRejected | gordo_components/pipeline_translator/pipeline_from_definition.py:92-95 | a dict step without exactly one key fails with its key list, before any name is resolved |
| TranslatorProperties.BareNameDefaultConstructed | gordo_components/pipeline_translator/pipeline_from_definition.py:125-127 | a bare name is a no-argument call of the type it resolves to, or fails as a call of `None` |
| TranslatorProperties.LeafParamsPassedUnchanged | gordo_components/pipeline_translator/pipeline_from_definition.py:97-121 | a resolved non-container with mapping params is called with exactly those params as keyword arguments |
| TranslatorProperties.LeafParamsNotMappingRejected | gordo_components/pipeline_translator/pipeline_from_definition.py:121 | non-mapping params of a non-container fail the `**` unpacking |
| TranslatorProperties.UnresolvedNameNeverConstructed | gordo_components/pipeline_translator/pipeline_from_definition.py:100-127 | a name that does not resolve never produces an object, as a bare name or as a dict key |
| TranslatorProperties.ContainerChildrenParamReplaced | gordo_components/pipeline_translator/pipeline_from_definition.py:103-121 | a container with a children key succeeds iff its branch does; exactly that key (`transformer_list` first) is replaced by the branch and every other parameter is passed unchanged |
| TranslatorProperties.ContainerListPositional | gordo_components/pipeline_translator/pipeline_from_definition.py:115-116 | a container given a list or tuple is called with the branch as its one positional argument, the same as the branch built with that constructor |
| TranslatorProperties.ContainerParamsRejected | gordo_components/pipeline_translator/pipeline_from_definition.py:108-120 | each unusable shape of container params fails with its own error |
| TranslatorProperties.OtherShapesRejected | gordo_components/pipeline_translator/pipeline_from_definition.py:129-131 | a step that is neither a string nor a dict fails with the step-shape error |
| TranslatorProperties.WellFormedBuilds | gordo_components/pipeline_translator/pipeline_from_definition.py:62-131 | every step of the documented grammar whose names all resolve translates |
| TranslatorProperties.AllWellFormedBuild | gordo_components/pipeline_translator/pipeline_from_definition.py:58 | every child of a well-formed list translates |
| SourceFindings.AfterStep | gordo_components/pipeline_translator/pipeline_from_definition.py:108-111 | only a dict step can be changed by a call, and it stays a dict |
| SourceFindings.AfterSteps | gordo_components/pipeline_translator/pipeline_from_definition.py:58 | the children list keeps its length when its children are changed in place |
| SourceFindings.LeafStepsUntouched | gordo_components/pipeline_translator/pipeline_from_definition.py:92-127 | names and leaf components are left unchanged by a call |
| SourceFindings.SecondTranslationFails | gordo_components/pipeline_translator/pipeline_from_definition.py:109-111 | a successful translation of a container with a non-empty children parameter leaves a definition whose translation fails on a tuple |
| SourceFindings.TranslateOnCopyRepeatable | gordo_components/pipeline_translator/pipeline_from_definition.py:48 | translating the same definition again gives the same result and state, and the result agrees with the code as written |
| SourceFindings.BuildBranchDefaultAsWritten | gordo_components/pipeline_translator/pipeline_from_definition.py:52-59 | with the declared default, a branch call without a constructor always fails |
| SourceFindings.DefaultConstructorAsWrittenFails | gordo_components/pipeline_translator/pipeline_from_definition.py:52-59 | whenever the children build, the declared default turns the result into the call error of `typing.Union` |
| SourceFindings.BuildBranchDefault | gordo_components/pipeline_translator/pipeline_from_definition.py:51-59 | with a default of `None`, the call succeeds iff every child builds, with the labelled pairs |
| Scenarios.BareNameScenario | gordo_components/pipeline_translator/pipeline_from_definition.py:125-127 | `"PCA"` gives `PCA()`; an unknown name fails as a call of `None` |
| Scenarios.LeafScenario | gordo_components/pipeline_translator/pipeline_from_definition.py:97-121 | `{PCA: {n_components: 3}}` gives `PCA(n_components=3)` |
| Scenarios.StepsFirstBuilds | gordo_components/pipeline_translator/pipeline_from_definition.py:110-121 | a container whose params start with `steps` is called with the built pairs and the rest of its params unchanged |
| Scenarios.ListParamsBuild | gordo_components/pipeline_translator/pipeline_from_definition.py:115-116 | a container given a list of buildable children is called with their pairs as one positional argument |
| Scenarios.StepsScenario | gordo_components/pipeline_translator/pipeline_from_definition.py:110-121 | a Pipeline with `steps: [PCA, {PCA: {n_components: 1}}]` and `memory: None` gets the two labelled pairs and `memory` unchanged |
| Scenarios.BareListScenario | gordo_components/pipeline_translator/pipeline_from_definition.py:115-116 | a FeatureUnion given `[{PCA: {}}, MinMaxScaler]` is called with the two labelled pairs positionally |
| Scenarios.DoctestInnerBuilds | gordo_components/pipeline_translator/pipeline_from_definition.py:28-31 | the docstring's inner Pipeline builds into MinMaxScaler and TruncatedSVD pairs |
| Scenarios.DoctestUnionBuilds | gordo_components/pipeline_translator/pipeline_from_definition.py:25-31 | the docstring's FeatureUnion builds |
| Scenarios.DoctestAsWrittenFails | gordo_components/pipeline_translator/pipeline_from_definition.py:20-35 | the docstring example as its YAML decodes fails with `RandomForestClassifier(**None)` |
| Scenarios.DoctestAsIntendedBuilds | gordo_components/pipeline_translator/pipeline_from_definition.py:20-35 | with `max_depth: 3` under RandomForestClassifier, the example builds the three-step Pipeline |
| Scenarios.InPlaceScenario | gordo_components/pipeline_translator/pipeline_from_definition.py:109-111 | `{Pipeline: {steps: [PCA]}}` builds, is left holding the built pair, and then no longer builds |

## Left out

- Logging (line 87): `logger.debug` has no effect on the result.
- `pydoc.locate`: the registry is a parameter. Any resolved object other than `Pipeline` or
  `FeatureUnion` (compared by equality, so subclasses too) is treated as an ordinary callable
  component. A resolved object that is not callable is not modelled.
- The sklearn constructors are not run. A constructor call is recorded as the type with its
  positional and keyword arguments. Errors a constructor raises itself, such as invalid parameter
  names or values, are not modelled.
- YAML decoding (`yaml.load` in the docstring): the model starts from the decoded tree.
- Floating-point parameters are `real`. Dict keys are strings and are assumed distinct, as a
  decoder produces them.
- An already constructed object or other non-builtin value placed in the definition is treated as
  supporting neither `in` nor iteration.
- Aliasing: a container subtree that appears twice in a definition as the same Python object
  (for example through a YAML anchor and alias) is not modelled. In Python the first visit rewrites
  its children key into `(label, object)` tuples (lines 109 and 111). The second visit meets those
  tuples and fails with the ValueError of lines 129-131, so the first translation already fails.
  The model treats the two places as independent copies and builds both.
- Python's recursion limit on very deep definitions is not modelled.
- The pure translation is trivially deterministic. The only source of non-repeatability is the
  in-place change, which is modelled separately.
- Translator.BuildContainer: its own contract only fixes the container type. Its full behaviour is
  stated by `TranslatorProperties.ContainerChildrenParamReplaced`, `ContainerListPositional` and
  `ContainerParamsRejected`.

## Findings

| source | as written | input that shows it | evidently intended | confidence | as-written member | corrected member |
|---|---|---|---|---|---|---|
| gordo_components/pipeline_translator/pipeline_from_definition.py:109-111 | the built branch is assigned back into the caller's params dict, so the caller's definition now holds `(label, object)` tuples | `{Pipeline: {steps: [PCA]}}` translated twice: the second call fails because a tuple is not a step | translate without changing the definition, so that a second translation gives the same result | high, not executed | SourceFindings.SecondTranslationFails | SourceFindings.TranslateOnCopyRepeatable |
| gordo_components/pipeline_translator/pipeline_from_definition.py:52 | `constructor_class=Union[Pipeline, None]` makes the typing object the default value, so a call without the argument ends by calling `typing.Union` | `_build_branch(["sklearn.decomposition.PCA"])` | the annotation `constructor_class: Union[...] = None`, returning the raw pairs | high, latent because both callers in the file pass `None`; not executed | SourceFindings.DefaultConstructorAsWrittenFails | SourceFindings.BuildBranchDefault |
| gordo_components/pipeline_translator/pipeline_from_definition.py:32-33 | `max_depth: 3` is indented like `steps:`, so it becomes a Pipeline parameter and RandomForestClassifier gets `None` params | the docstring example: `RandomForestClassifier(**None)` raises | `max_depth: 3` nested under RandomForestClassifier | medium, not executed | Scenarios.DoctestAsWrittenFails | Scenarios.DoctestAsIntendedBuilds |
