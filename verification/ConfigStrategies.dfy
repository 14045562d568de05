/** Resolved configs with their strategies written out: the table's entry at the dotted
    path, and override where the table has none (packages/core/src/template.ts). */
module ConfigStrategies {
  import opened Basics
  import opened JsonValues
  import opened ConfigLayers
  import opened ConfigLayerLaws
  import opened ConfigLayerOrder
  import opened ConfigAnyPath
  import opened PatchPaths

  /** A path without the empty keys it begins with: as long as the path so far is empty, the
      next key starts it anew. */
  function Named(keys: seq<string>): seq<string> {
    if keys != [] && keys[0] == "" then Named(keys[1..]) else keys
  }

  lemma {:induction false} JoinFrom(path: string, keys: seq<string>)
    requires path != ""
    ensures DottedPath(path, keys) == JoinDots([path] + keys)
    decreases |keys|
  {
    var all := [path] + keys;
    if keys == [] {
      assert all == [path];
    } else {
      assert all[1..] == keys;
      JoinFrom(path + "." + keys[0], keys[1..]);
      JoinTwo(path, keys);
    }
  }

  lemma JoinMore(first: string, rest: seq<string>)
    requires rest != []
    ensures JoinDots([first] + rest) == first + "." + JoinDots(rest)
  {
    assert ([first] + rest)[1..] == rest;
  }

  lemma JoinTwo(path: string, keys: seq<string>)
    requires keys != []
    ensures JoinDots([path + "." + keys[0]] + keys[1..]) == path + "." + JoinDots(keys)
    ensures JoinDots([path] + keys) == path + "." + JoinDots(keys)
  {
    JoinMore(path, keys);
    if |keys| == 1 {
      assert [path + "." + keys[0]] + keys[1..] == [path + "." + keys[0]];
    } else {
      JoinMore(path + "." + keys[0], keys[1..]);
      JoinMore(keys[0], keys[1..]);
      assert [keys[0]] + keys[1..] == keys;
      Regroup(path + ".", keys[0], "." + JoinDots(keys[1..]));
      Regroup(path + "." + keys[0], ".", JoinDots(keys[1..]));
      Regroup(keys[0], ".", JoinDots(keys[1..]));
    }
  }

  /** The path under which a strategy is looked up is the keys joined by dots. */
  lemma {:induction false} PathIsJoin(keys: seq<string>)
    ensures DottedPath("", keys) == JoinDots(Named(keys))
    decreases |keys|
  {
    if keys != [] {
      if keys[0] == "" {
        PathIsJoin(keys[1..]);
      } else {
        JoinFrom(keys[0], keys[1..]);
        assert [keys[0]] + keys[1..] == keys;
      }
    }
  }

  /** The strategies that the table gives to a path. */
  predicate Chosen(strategies: Strategies, keys: seq<string>, strategy: Strategy) {
    var path := JoinDots(Named(keys));
    strategy == if path in strategies then strategies[path] else Override
  }

  lemma ChosenIsAt(strategies: Strategies, keys: seq<string>)
    ensures Chosen(strategies, keys, StrategyAt(strategies, DottedPath("", keys)))
  {
    PathIsJoin(keys);
  }

  /** For layers that agree in shape, in whatever order they are listed: a path has a value
      if some layer gives it one; a scalar is the last layer's, by priority; and so is an
      array, unless the table has an entry for the path, which says how the layers' arrays
      are put together. */
  lemma {:induction false} AgreeingValues(layers: seq<Layer>, strategies: Strategies, keys: seq<string>)
    requires AllFit(layers) && keys != []
    ensures var vs := ShownValues(Sights(ByPriority(layers), keys));
            var r, path := At(Fold(ByPriority(layers), strategies), keys), JoinDots(Named(keys));
            && (r == Undefined <==> vs == [])
            && (vs != [] ==>
                  var last := vs[|vs| - 1];
                  r == if !last.Arr? || path !in strategies || strategies[path] == Override then last
                       else if strategies[path] == Prepend then Arr(ConcatBackwards(Items(vs)))
                       else Arr(Concat(Items(vs))))
  {
    AgreeingConfig(layers, strategies, keys);
    ChosenIsAt(strategies, keys);
  }

  /** Without a table, then, every array is that of the last layer that gives one. */
  lemma {:induction false} NoTable(layers: seq<Layer>, keys: seq<string>)
    requires AllFit(layers) && keys != [] && ShownValues(Sights(ByPriority(layers), keys)) != []
    ensures var vs := ShownValues(Sights(ByPriority(layers), keys));
            At(Fold(ByPriority(layers), map[]), keys) == vs[|vs| - 1]
  {
    AgreeingValues(layers, map[], keys);
  }

  /** And for any layers, with whichever strategy the table gives the path. */
  lemma {:induction false} AnyValues(layers: seq<Layer>, strategies: Strategies, keys: seq<string>, strategy: Strategy)
    requires layers != [] && Chosen(strategies, keys, strategy)
    ensures At(Fold(layers, strategies), keys)
            == Contribute(Held(layers, strategies, [], keys), Doc(layers[|layers| - 1]), keys, strategy)
  {
    ResolvedAnyPath(layers, strategies, keys);
    ChosenIsAt(strategies, keys);
  }

  /** What an object leaves of a value it is merged over, at a key that it does not have: the
      member of that name of an object, the element of that number of an array, and nothing of
      a string or another scalar. */
  lemma {:induction false} ObjectOver(target: Json, source: Json, strategies: Strategies, path: string, n: nat)
    requires source.Obj? && Decimal(n) !in source.fields
    ensures Prop(Merge(target, source, strategies, path), Decimal(n))
            == match target
               case Obj(m) => Get(m, Decimal(n))
               case Arr(xs) => if n < |xs| then xs[n] else Undefined
               case _ => Undefined
  {
    MergeFields(target, source, strategies, path);
    if target.Arr? { ElementAt(target.items, "", n); }
  }
}
