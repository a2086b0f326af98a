/** The values the pipeline translator works on: a decoded configuration tree
    (the shapes a YAML/JSON decoder or a Python caller hands over), the type
    references a registry resolves names to, the constructed objects, and the
    errors a translation can end in. */
module Definitions {

  datatype Option<T> = None | Some(value: T)

  /** What a type name resolves to. The two sklearn containers are told apart
      by identity; every other callable (including a subclass of a container)
      is an ordinary component. */
  datatype TypeRef = Pipeline | FeatureUnion | Component(path: string)

  predicate IsContainer(t: TypeRef)
  {
    t.Pipeline? || t.FeatureUnion?
  }

  /** The registry: a dotted type path resolves to a type, or to nothing. */
  type Locator = string -> Option<TypeRef>

  /** A decoded definition node or parameter value. A Python dict is an
      ordered sequence of (key, value) entries whose keys are distinct, as a
      decoder produces them. `Object` is an already constructed object placed
      in the tree. */
  datatype Value =
    | Str(s: string)
    | Int(i: int)
    | Real(r: real)
    | Bool(b: bool)
    | Null
    | List(items: seq<Value>)
    | Tuple(items: seq<Value>)
    | Dict(entries: seq<(string, Value)>)
    | Object(obj: Obj)

  /** One constructor call: the type called, its positional arguments and its
      keyword arguments, in order. */
  datatype Obj = Instance(cls: TypeRef, args: seq<Value>, kwargs: seq<(string, Value)>)

  datatype Error =
      /** ValueError: a dict step does not have exactly one key. */
    | NotSingleKey(keys: seq<string>)
      /** ValueError: a container was named without a usable children list. */
    | InvalidContainerParams(cls: TypeRef, params: Value)
      /** ValueError: a step that is neither a dict nor a string. */
    | NotStepShape(step: Value)
      /** TypeError: the name did not resolve, and the resulting None is called. */
    | NotCallable(name: string)
      /** TypeError: `**params` applied to something that is not a mapping. */
    | KwargsNotMapping(params: Value)
      /** TypeError: `in` or iteration applied to a scalar. */
    | NotIterable(v: Value)
      /** TypeError: a string, list or tuple subscripted with a string key. */
    | IndicesMustBeIntegers(v: Value)
      /** TypeError: calling the `typing.Union` object used as a default value. */
    | UnionNotInstantiable

  datatype Result<T> = Ok(value: T) | Err(error: Error)

  // ----- dict entries -----

  /** The keys of a dict, in insertion order. */
  function Keys(es: seq<(string, Value)>): (ks: seq<string>)
    ensures |ks| == |es|
    ensures forall i :: 0 <= i < |es| ==> ks[i] == es[i].0
  {
    if es == [] then [] else [es[0].0] + Keys(es[1..])
  }

  /** `d[k]` for a key that is present. */
  function Lookup(es: seq<(string, Value)>, k: string): Value
    requires k in Keys(es)
  {
    if es[0].0 == k then es[0].1 else Lookup(es[1..], k)
  }

  /** `d[k] = v` for a key that is present: the entry keeps its place. */
  function Update(es: seq<(string, Value)>, k: string, v: Value): seq<(string, Value)>
  {
    if es == [] then []
    else [if es[0].0 == k then (k, v) else es[0]] + Update(es[1..], k, v)
  }

  lemma {:induction false} UpdateKeys(es: seq<(string, Value)>, k: string, v: Value)
    ensures Keys(Update(es, k, v)) == Keys(es)
  {
    if es != [] {
      UpdateKeys(es[1..], k, v);
    }
  }

  /** Assigning a key that is not present changes nothing here: the model
      only assigns keys that are present. */
  lemma {:induction false} UpdateAbsent(es: seq<(string, Value)>, k: string, v: Value)
    requires k !in Keys(es)
    ensures Update(es, k, v) == es
  {
    if es != [] {
      assert Keys(es)[0] == es[0].0;
      assert Keys(es[1..]) == Keys(es)[1..];
      UpdateAbsent(es[1..], k, v);
    }
  }

  /** After `d[k] = v`, reading `k` gives `v` and every other key reads as before. */
  lemma {:induction false} UpdateLookup(es: seq<(string, Value)>, k: string, v: Value, j: string)
    requires j in Keys(es)
    ensures j in Keys(Update(es, k, v))
    ensures Lookup(Update(es, k, v), j) == if j == k then v else Lookup(es, j)
  {
    UpdateKeys(es, k, v);
    if es[0].0 != j {
      UpdateLookup(es[1..], k, v, j);
    }
  }

  // ----- a size measure for termination -----

  /** A measure that every nested child definition is smaller than. */
  function Size(v: Value): (n: nat)
    ensures n >= 1
  {
    match v
    case List(items) => 1 + ItemsSize(items)
    case Tuple(items) => 1 + ItemsSize(items)
    case Dict(es) => 1 + EntriesSize(es)
    case _ => 1
  }

  function ItemsSize(items: seq<Value>): nat
  {
    if items == [] then 0 else Size(items[0]) + ItemsSize(items[1..])
  }

  function EntriesSize(es: seq<(string, Value)>): nat
  {
    if es == [] then 0
    else
      var e := es[0];
      assert e.1 < e;
      Size(e.1) + EntriesSize(es[1..])
  }

  lemma EntrySmaller(es: seq<(string, Value)>)
    requires es != []
    ensures Size(es[0].1) < Size(Dict(es))
  {
  }

  lemma ListItemsSmaller(v: Value)
    requires v.List? || v.Tuple?
    ensures ItemsSize(v.items) < Size(v)
  {
  }

  lemma {:induction false} LookupSmaller(es: seq<(string, Value)>, k: string)
    requires k in Keys(es)
    ensures Size(Lookup(es, k)) <= EntriesSize(es)
  {
    if es[0].0 != k {
      LookupSmaller(es[1..], k);
    }
  }
}
