/** Layered configuration: packages/core/src/template.ts. */
module ConfigLayers {
  import opened JsonValues

  datatype Strategy = Override | MergeItems | Prepend | Append

  type Strategies = map<string, Strategy>

  function StrategyAt(strategies: Strategies, path: string): Strategy {
    if path in strategies then strategies[path] else Override
  }

  function Dotted(path: string, key: string): string {
    if path == "" then key else path + "." + key
  }

  // ---- deepMerge as a function -----------------------------------------------

  function MergeArray(target: Json, items: seq<Json>, strategy: Strategy): Json {
    if !target.Arr? then Arr(items)
    else match strategy
      case Append => Arr(target.items + items)
      case MergeItems => Arr(target.items + items)
      case Prepend => Arr(items + target.items)
      case Override => Arr(items)
  }

  /** The record a non-array source is merged into. */
  function Base(target: Json): Record {
    if target.Arr? || target.Obj? then Spread(target) else map[]
  }

  function Merge(target: Json, source: Json, strategies: Strategies, path: string): Json
    decreases source, 0
  {
    if !Live(source) then target
    else if source.Arr? then MergeArray(target, source.items, StrategyAt(strategies, path))
    else if !source.Obj? then source
    else
      var tgt := Base(target);
      Obj(map key | key in tgt.Keys + source.fields.Keys ::
            if key in source.fields
            then MergeField(Get(tgt, key), source.fields[key], strategies, Dotted(path, key))
            else tgt[key])
  }

  /** One round of the key loop: the new value of `result[key]`. */
  function MergeField(target: Json, source: Json, strategies: Strategies, path: string): Json
    decreases source, 1
  {
    if source.Arr? then MergeArray(target, source.items, StrategyAt(strategies, path))
    else if StrategyAt(strategies, path) == MergeItems && TypeofObject(target) && TypeofObject(source)
    then Merge(if Truthy(target) then target else Obj(map[]), source, strategies, path)
    else Merge(target, source, strategies, path)
  }

  // ---- deepMerge as the source runs it ---------------------------------------

  /** The state of the key loop: keys of `src` outside `left` hold their merged
      value, all other keys still hold the target's. */
  ghost predicate Merged(result: Record, tgt: Record, src: Record, left: set<string>,
                         strategies: Strategies, path: string)
  {
    && result.Keys == tgt.Keys + (src.Keys - left)
    && forall key | key in result ::
         result[key] == if key in src && key !in left
                        then MergeField(Get(tgt, key), src[key], strategies, Dotted(path, key))
                        else Get(tgt, key)
  }

  lemma LoopEnd(result: Record, target: Json, source: Json, strategies: Strategies, path: string)
    requires source.Obj?
    requires Merged(result, Base(target), source.fields, {}, strategies, path)
    ensures Obj(result) == Merge(target, source, strategies, path)
  {
    MergeFields(target, source, strategies, path);
    var merged := Merge(target, source, strategies, path).fields;
    assert result.Keys == merged.Keys;
    forall key | key in result ensures result[key] == merged[key] {
    }
  }

  lemma MergeFields(target: Json, source: Json, strategies: Strategies, path: string)
    requires source.Obj?
    ensures var merged := Merge(target, source, strategies, path);
            && merged.Obj? && merged.fields.Keys == Base(target).Keys + source.fields.Keys
            && forall key | key in merged.fields ::
                 var held := Get(Base(target), key);
                 merged.fields[key] == if key in source.fields
                                       then MergeField(held, source.fields[key], strategies, Dotted(path, key))
                                       else held
  {
  }

  /** The loop visits the keys of `source` in an order the specification does not
      depend on, so it picks any key that is left. */
  method DeepMerge(target: Json, source: Json, strategies: Strategies, path: string) returns (r: Json)
    ensures r == Merge(target, source, strategies, path)
    decreases source
  {
    if !Live(source) {
      return target;
    }
    if source.Arr? {
      return MergeArray(target, source.items, StrategyAt(strategies, path));
    }
    if !source.Obj? {
      return source;
    }
    var src := source.fields;
    ghost var tgt := Base(target);
    var result := Base(target);
    var left := src.Keys;
    while left != {}
      invariant left <= src.Keys
      invariant Merged(result, tgt, src, left, strategies, path)
      decreases |left|
    {
      var key :| key in left;
      var current := Dotted(path, key);
      var held := Get(result, key);
      assert held == Get(tgt, key);
      if src[key].Arr? {
        held := MergeArray(held, src[key].items, StrategyAt(strategies, current));
      } else if StrategyAt(strategies, current) == MergeItems && TypeofObject(held) && TypeofObject(src[key]) {
        held := DeepMerge(if Truthy(held) then held else Obj(map[]), src[key], strategies, current);
      } else {
        held := DeepMerge(held, src[key], strategies, current);
      }
      assert held == MergeField(Get(tgt, key), src[key], strategies, current);
      result := result[key := held];
      left := left - {key};
    }
    LoopEnd(result, target, source, strategies, path);
    r := Obj(result);
  }

  // ---- Priority order ---------------------------------------------------------

  datatype Layer = Layer(priority: int, config: Record)

  predicate Ordered(layers: seq<Layer>) {
    forall i, j | 0 <= i < j < |layers| :: layers[i].priority <= layers[j].priority
  }

  function OfPriority(layers: seq<Layer>, priority: int): seq<Layer> {
    if layers == [] then []
    else (if layers[0].priority == priority then [layers[0]] else []) + OfPriority(layers[1..], priority)
  }

  function Insert(layer: Layer, sorted: seq<Layer>): seq<Layer> {
    if sorted == [] || layer.priority <= sorted[0].priority then [layer] + sorted
    else [sorted[0]] + Insert(layer, sorted[1..])
  }

  /** `[...layers].sort((a, b) => a.priority - b.priority)`, a stable sort. */
  function ByPriority(layers: seq<Layer>): seq<Layer> {
    if layers == [] then [] else Insert(layers[0], ByPriority(layers[1..]))
  }

  function Fold(layers: seq<Layer>, strategies: Strategies): Json {
    if layers == [] then Obj(map[])
    else Merge(Fold(layers[..|layers| - 1], strategies), Obj(layers[|layers| - 1].config), strategies, "")
  }

  method ResolveConfig(layers: seq<Layer>, strategies: Strategies) returns (result: Json)
    ensures result == Fold(ByPriority(layers), strategies)
  {
    var sorted := ByPriority(layers);
    result := Obj(map[]);
    for i := 0 to |sorted|
      invariant result == Fold(sorted[..i], strategies)
    {
      assert sorted[..i + 1][..i] == sorted[..i];
      result := DeepMerge(result, Obj(sorted[i].config), strategies, "");
    }
    assert sorted[..|sorted|] == sorted;
  }
}
