/** What `resolveConfig` of packages/core/src/template.ts gives at a path for any layers at
    all: also where a layer puts an object over an array, which opens the array, so that
    its elements stand under their indices. */
module ConfigAnyPath {
  import opened JsonValues
  import opened ConfigLayers
  import opened ConfigLayerLaws

  // ---- One merge ------------------------------------------------------------------------

  /** What the target has at a path, with its arrays opened where the source has objects. */
  function Reach(target: Json, source: Json, keys: seq<string>): Json
    decreases |keys|
  {
    if keys == [] then target
    else if source.Obj? then Reach(Get(Base(target), keys[0]), Get(source.fields, keys[0]), keys[1..])
    else Descend(target, keys)
  }

  /** What the source contributes to a value held there: a null counts where the strategy
      is "merge". */
  function Contribute(held: Json, source: Json, keys: seq<string>, strategy: Strategy): Json {
    if strategy == MergeItems && held.Null? && Descend(source, keys).Null? then Obj(map[])
    else Step(held, See(source, keys), strategy)
  }

  lemma FieldContributes(target: Json, source: Json, strategies: Strategies, path: string)
    ensures Face(MergeField(target, source, strategies, path))
            == Contribute(Face(target), source, [], StrategyAt(strategies, path))
  {
    SpecialBranch(target, source, strategies, path);
  }

  lemma BelowSpecial(target: Json, source: Json, strategies: Strategies, path: string, keys: seq<string>)
    requires keys != []
    ensures At(MergeField(target, source, strategies, path), keys) == At(Merge(target, source, strategies, path), keys)
  {
    SpecialBranch(target, source, strategies, path);
    UndefinedBelow(keys[1..]);
  }

  /** One merge of any two documents, seen at one path. */
  lemma {:induction false} MergeAtAny(target: Json, source: Json, strategies: Strategies, path: string,
                                      keys: seq<string>)
    requires keys != []
    ensures At(Merge(target, source, strategies, path), keys)
            == Contribute(Face(Reach(target, source, keys)), source, keys,
                          StrategyAt(strategies, DottedPath(path, keys)))
    decreases |keys|
  {
    var key, rest := keys[0], keys[1..];
    if source.Obj? {
      var held, given := Get(Base(target), key), Get(source.fields, key);
      FieldOfMerge(target, source, strategies, path, key);
      assert At(Merge(target, source, strategies, path), keys)
             == At(MergeField(held, given, strategies, Dotted(path, key)), rest);
      assert DottedPath(path, keys) == DottedPath(Dotted(path, key), rest);
      assert Reach(target, source, keys) == Reach(held, given, rest);
      assert Descend(source, keys) == Descend(given, rest) && See(source, keys) == See(given, rest);
      if rest == [] {
        FieldContributes(held, given, strategies, Dotted(path, key));
      } else {
        BelowSpecial(held, given, strategies, Dotted(path, key), rest);
        MergeAtAny(held, given, strategies, Dotted(path, key), rest);
      }
    } else {
      UndefinedBelow(keys);
      UndefinedBelow(rest);
    }
  }

  // ---- Any layers -----------------------------------------------------------------------

  /** The value of one path of a resolved configuration: what the layers below come to
      there, opened by the last layer, and what that layer contributes. */
  function PathValue(layers: seq<Layer>, strategies: Strategies, keys: seq<string>): Json
    decreases |layers|, 1, 0
  {
    if layers == [] then
      if keys == [] then Obj(map[]) else Undefined
    else
      var top := Doc(layers[|layers| - 1]);
      Contribute(Held(layers, strategies, [], keys), top, keys, StrategyAt(strategies, DottedPath("", keys)))
  }

  /** What the layers below the last have at a path.  Coming down it, the first array that
      stands where the last layer has an object is opened; before that, and if there is
      none, each path has its own value. */
  function Held(layers: seq<Layer>, strategies: Strategies, keys: seq<string>, rest: seq<string>): Json
    requires layers != []
    decreases |layers|, 0, |rest|
  {
    var below, top := layers[..|layers| - 1], Doc(layers[|layers| - 1]);
    var here := PathValue(below, strategies, keys);
    if rest == [] then here
    else if here.Arr? && Descend(top, keys).Obj? then Face(Reach(here, Descend(top, keys), rest))
    else Held(layers, strategies, keys + [rest[0]], rest[1..])
  }

  lemma {:induction false} DescendMore(doc: Json, keys: seq<string>, key: string)
    ensures Descend(doc, keys + [key])
            == if Descend(doc, keys).Obj? then Get(Descend(doc, keys).fields, key) else Undefined
    decreases |keys|
  {
    if keys == [] {
      assert ([] + [key])[1..] == [];
      assert [] + [key] == [key] && [key][1..] == [];
    } else {
      assert (keys + [key])[0] == keys[0] && (keys + [key])[1..] == keys[1..] + [key];
      if doc.Obj? {
        DescendMore(Get(doc.fields, keys[0]), keys[1..], key);
      }
    }
  }

  lemma {:induction false} HeldReaches(layers: seq<Layer>, strategies: Strategies, keys: seq<string>,
                                       rest: seq<string>)
    requires layers != []
    ensures var below, top := Fold(layers[..|layers| - 1], strategies), Doc(layers[|layers| - 1]);
            Held(layers, strategies, keys, rest) == Face(Reach(Descend(below, keys), Descend(top, keys), rest))
    decreases |layers|, 0, |rest|
  {
    var below, top := Fold(layers[..|layers| - 1], strategies), Doc(layers[|layers| - 1]);
    ResolvedAnyPath(layers[..|layers| - 1], strategies, keys);
    if rest != [] {
      var held, given := Descend(below, keys), Descend(top, keys);
      if !(held.Arr? && given.Obj?) {
        HeldReaches(layers, strategies, keys + [rest[0]], rest[1..]);
        DescendMore(below, keys, rest[0]);
        DescendMore(top, keys, rest[0]);
        ReachMore(held, given, rest);
      }
    }
  }

  /** One key further, where no array is opened. */
  lemma ReachMore(held: Json, given: Json, rest: seq<string>)
    requires rest != [] && !(held.Arr? && given.Obj?)
    ensures var next := if held.Obj? then Get(held.fields, rest[0]) else Undefined;
            var more := if given.Obj? then Get(given.fields, rest[0]) else Undefined;
            Reach(held, given, rest) == Reach(next, more, rest[1..])
  {
    UndefinedBelow(rest[1..]);
    if !given.Obj? {
      var next := if held.Obj? then Get(held.fields, rest[0]) else Undefined;
      assert Reach(held, given, rest) == Descend(held, rest) == Descend(next, rest[1..]);
      assert Reach(next, Undefined, rest[1..]) == Descend(next, rest[1..]);
    } else {
      assert Get(Base(held), rest[0]) == if held.Obj? then Get(held.fields, rest[0]) else Undefined;
    }
  }

  /** `resolveConfig`, path by path, for any layers whatever. */
  lemma {:induction false} ResolvedAnyPath(layers: seq<Layer>, strategies: Strategies, keys: seq<string>)
    ensures At(Fold(layers, strategies), keys) == PathValue(layers, strategies, keys)
    decreases |layers|, 1, 0
  {
    if layers == [] {
      if keys != [] { UndefinedBelow(keys[1..]); }
    } else if keys == [] {
      FoldIsObject(layers, strategies);
    } else {
      HeldReaches(layers, strategies, [], keys);
      MergeAtAny(Fold(layers[..|layers| - 1], strategies), Doc(layers[|layers| - 1]), strategies, "", keys);
    }
  }

  /** Where no array is opened on the way, this is the closed form of `ResolvedPath`. */
  lemma ClosedForm(layers: seq<Layer>, strategies: Strategies, keys: seq<string>)
    requires Unopened(layers, strategies, keys) && keys != []
    ensures PathValue(layers, strategies, keys)
            == PathSpec(Sights(layers, keys), StrategyAt(strategies, DottedPath("", keys)))
  {
    ResolvedAnyPath(layers, strategies, keys);
    ResolvedPath(layers, strategies, keys);
  }
}
