/** The special "merge" branch of deepMerge, packages/core/src/template.ts, and exactly when
    it makes a difference. */
module ConfigPlainMerge {
  import opened JsonValues
  import opened ConfigLayers
  import opened ConfigLayerLaws

  /** deepMerge without its special "merge" branch for object values. */
  function PlainMerge(target: Json, source: Json, strategies: Strategies, path: string): Json
    decreases source
  {
    if !Live(source) then target
    else if source.Arr? then MergeArray(target, source.items, StrategyAt(strategies, path))
    else if !source.Obj? then source
    else
      var tgt := Base(target);
      Obj(map key | key in tgt.Keys + source.fields.Keys ::
            if key in source.fields
            then PlainMerge(Get(tgt, key), source.fields[key], strategies, Dotted(path, key))
            else tgt[key])
  }

  function PlainFold(layers: seq<Layer>, strategies: Strategies): Json {
    if layers == [] then Obj(map[])
    else PlainMerge(PlainFold(layers[..|layers| - 1], strategies), Doc(layers[|layers| - 1]), strategies, "")
  }

  // ---- One merge ------------------------------------------------------------------------

  /** A null of the source comes over a null of the target, at a path with strategy
      "merge". */
  predicate NullMeetsNull(target: Json, source: Json, strategies: Strategies, path: string)
    decreases source
  {
    source.Obj? && exists key | key in source.fields ::
      var held, given := Get(Base(target), key), source.fields[key];
      || (StrategyAt(strategies, Dotted(path, key)) == MergeItems && held.Null? && given.Null?)
      || NullMeetsNull(held, given, strategies, Dotted(path, key))
  }

  /** What the source has at this key makes a difference. */
  predicate FieldMeets(target: Json, source: Json, strategies: Strategies, path: string, key: string)
    requires source.Obj? && key in source.fields
  {
    var held, given := Get(Base(target), key), source.fields[key];
    || (StrategyAt(strategies, Dotted(path, key)) == MergeItems && held.Null? && given.Null?)
    || NullMeetsNull(held, given, strategies, Dotted(path, key))
  }

  lemma MeetsAtKey(target: Json, source: Json, strategies: Strategies, path: string)
    requires source.Obj?
    ensures NullMeetsNull(target, source, strategies, path)
            <==> exists key | key in source.fields :: FieldMeets(target, source, strategies, path, key)
  {
  }

  lemma PlainFields(target: Json, source: Json, strategies: Strategies, path: string)
    requires source.Obj?
    ensures var plain := PlainMerge(target, source, strategies, path);
            && plain.Obj? && plain.fields.Keys == Base(target).Keys + source.fields.Keys
            && forall key | key in plain.fields ::
                 var held := Get(Base(target), key);
                 plain.fields[key] == if key in source.fields
                                      then PlainMerge(held, source.fields[key], strategies, Dotted(path, key))
                                      else held
  {
  }

  /** The special branch changes the merged document if and only if null meets null. */
  lemma {:induction false} PlainExactly(target: Json, source: Json, strategies: Strategies, path: string)
    ensures Merge(target, source, strategies, path) == PlainMerge(target, source, strategies, path)
            <==> !NullMeetsNull(target, source, strategies, path)
    decreases source
  {
    if source.Obj? {
      MergeFields(target, source, strategies, path);
      PlainFields(target, source, strategies, path);
      MeetsAtKey(target, source, strategies, path);
      var merged, plain := Merge(target, source, strategies, path), PlainMerge(target, source, strategies, path);
      forall key | key in source.fields
        ensures merged.fields[key] == plain.fields[key] <==> !FieldMeets(target, source, strategies, path, key)
      {
        var held, given := Get(Base(target), key), source.fields[key];
        SpecialBranch(held, given, strategies, Dotted(path, key));
        PlainExactly(held, given, strategies, Dotted(path, key));
      }
      assert merged == plain <==> forall key | key in source.fields :: merged.fields[key] == plain.fields[key];
    }
  }

  // ---- A stack of layers ------------------------------------------------------------------

  /** Up to each layer, the plain merge resolves alike. */
  ghost predicate PlainThroughout(layers: seq<Layer>, strategies: Strategies) {
    forall k: nat | k <= |layers| :: Agrees(layers[..k], strategies)
  }

  ghost predicate Agrees(layers: seq<Layer>, strategies: Strategies) {
    Fold(layers, strategies) == PlainFold(layers, strategies)
  }

  ghost predicate LayerMeets(layers: seq<Layer>, strategies: Strategies, j: nat) {
    j < |layers| && NullMeetsNull(Fold(layers[..j], strategies), Doc(layers[j]), strategies, "")
  }

  ghost predicate Unmet(layers: seq<Layer>, strategies: Strategies) {
    forall j: nat :: !LayerMeets(layers, strategies, j)
  }

  lemma {:induction false} ThroughoutPrefix(layers: seq<Layer>, strategies: Strategies)
    requires layers != []
    ensures PlainThroughout(layers, strategies)
            <==> PlainThroughout(layers[..|layers| - 1], strategies) && Agrees(layers, strategies)
  {
    var below := layers[..|layers| - 1];
    assert layers[..|layers|] == layers;
    if PlainThroughout(layers, strategies) {
      forall k: nat | k <= |below| ensures Agrees(below[..k], strategies) {
        assert below[..k] == layers[..k];
      }
    }
    if PlainThroughout(below, strategies) && Agrees(layers, strategies) {
      forall k: nat | k <= |layers| ensures Agrees(layers[..k], strategies) {
        if k <= |below| { assert below[..k] == layers[..k]; }
      }
    }
  }

  lemma {:induction false} UnmetPrefix(layers: seq<Layer>, strategies: Strategies)
    requires layers != []
    ensures Unmet(layers, strategies)
            <==> Unmet(layers[..|layers| - 1], strategies) && !LayerMeets(layers, strategies, |layers| - 1)
  {
    var below := layers[..|layers| - 1];
    forall j: nat | j < |below| ensures LayerMeets(below, strategies, j) <==> LayerMeets(layers, strategies, j) {
      assert below[..j] == layers[..j] && below[j] == layers[j];
    }
    forall j: nat | j != |below| ensures LayerMeets(below, strategies, j) <==> LayerMeets(layers, strategies, j) {
    }
  }

  lemma {:induction false} LastAgrees(layers: seq<Layer>, strategies: Strategies)
    requires layers != []
    requires Agrees(layers[..|layers| - 1], strategies)
    ensures Agrees(layers, strategies) <==> !LayerMeets(layers, strategies, |layers| - 1)
  {
    PlainExactly(Fold(layers[..|layers| - 1], strategies), Doc(layers[|layers| - 1]), strategies, "");
  }

  /** That is so if and only if no layer has a null where the layers below it resolve to
      null, at a path with strategy "merge". */
  lemma {:induction false} ResolvePlainlyExactly(layers: seq<Layer>, strategies: Strategies)
    ensures PlainThroughout(layers, strategies) <==> Unmet(layers, strategies)
  {
    if layers != [] {
      var below := layers[..|layers| - 1];
      ResolvePlainlyExactly(below, strategies);
      ThroughoutPrefix(layers, strategies);
      UnmetPrefix(layers, strategies);
      if PlainThroughout(below, strategies) {
        assert below[..|below|] == below;
        LastAgrees(layers, strategies);
      }
    }
  }

  // ---- Layers that never open an array -----------------------------------------------------

  ghost predicate SmoothAll(target: Json, source: Json) {
    forall keys :: Smooth(target, source, keys)
  }

  lemma SmoothField(target: Json, source: Json, key: string, keys: seq<string>)
    requires source.Obj? && SmoothAll(target, source)
    ensures Smooth(Get(Base(target), key), Get(source.fields, key), keys)
  {
    var p := [key] + keys;
    assert Smooth(target, source, p) && p[..0] == [] && p[1..] == keys;
    if target.Obj? {
      SmoothTail(target, source, p);
    } else {
      SmoothUndefined(Get(source.fields, key), keys);
    }
  }

  /** Where a merge is smooth, null does not meet null. */
  lemma {:induction false} PlainBranch(target: Json, source: Json, strategies: Strategies, path: string)
    requires SmoothAll(target, source)
    ensures !NullMeetsNull(target, source, strategies, path)
    decreases source
  {
    if source.Obj? {
      MeetsAtKey(target, source, strategies, path);
      forall key | key in source.fields ensures !FieldMeets(target, source, strategies, path, key) {
        SmoothBelow(target, source, key);
        PlainBranch(Get(Base(target), key), source.fields[key], strategies, Dotted(path, key));
      }
    }
  }

  lemma SmoothBelow(target: Json, source: Json, key: string)
    requires source.Obj? && key in source.fields && SmoothAll(target, source)
    ensures SmoothAll(Get(Base(target), key), source.fields[key]) && !Get(Base(target), key).Null?
  {
    var held, given := Get(Base(target), key), source.fields[key];
    forall keys ensures Smooth(held, given, keys) {
      SmoothField(target, source, key, keys);
    }
    var here: seq<string> := [];
    assert Smooth(held, given, here) && here[..0] == [];
  }

  /** No layer puts an object over an array that stands. */
  ghost predicate NeverOpened(layers: seq<Layer>, strategies: Strategies) {
    forall keys :: Unopened(layers, strategies, keys)
  }

  lemma {:induction false} BelowSmooth(layers: seq<Layer>, strategies: Strategies)
    requires layers != [] && NeverOpened(layers, strategies)
    ensures NeverOpened(layers[..|layers| - 1], strategies)
    ensures SmoothAll(Fold(layers[..|layers| - 1], strategies), Doc(layers[|layers| - 1]))
  {
    var k := |layers| - 1;
    forall keys ensures Unopened(layers[..k], strategies, keys) {
      assert Unopened(layers, strategies, keys) && keys[..|keys|] == keys;
      UnopenedPrefix(layers, strategies, keys, k, |keys|);
    }
    forall keys ensures Smooth(Fold(layers[..k], strategies), Doc(layers[k]), keys) {
      assert Unopened(layers, strategies, keys);
      ResolvedSmooth(layers, strategies, keys);
    }
  }

  /** So, starting from the empty object, the special branch never changes the result, as
      long as no layer puts an object over an array that stands. */
  lemma {:induction false} ResolvePlainly(layers: seq<Layer>, strategies: Strategies)
    requires NeverOpened(layers, strategies)
    ensures Fold(layers, strategies) == PlainFold(layers, strategies)
    decreases |layers|
  {
    if layers != [] {
      var below, top := layers[..|layers| - 1], layers[|layers| - 1];
      BelowSmooth(layers, strategies);
      ResolvePlainly(below, strategies);
      PlainBranch(Fold(below, strategies), Doc(top), strategies, "");
      PlainExactly(Fold(below, strategies), Doc(top), strategies, "");
    }
  }

  lemma MergeOne(target: Json, key: string, v: Json, strategies: Strategies, path: string)
    requires Base(target).Keys <= {key}
    ensures Merge(target, Obj(map[key := v]), strategies, path)
            == Obj(map[key := MergeField(Get(Base(target), key), v, strategies, Dotted(path, key))])
  {
    MergeFields(target, Obj(map[key := v]), strategies, path);
    assert Merge(target, Obj(map[key := v]), strategies, path).fields.Keys == {key};
  }

  lemma PlainMergeOne(target: Json, key: string, v: Json, strategies: Strategies, path: string)
    requires Base(target).Keys <= {key}
    ensures PlainMerge(target, Obj(map[key := v]), strategies, path)
            == Obj(map[key := PlainMerge(Get(Base(target), key), v, strategies, Dotted(path, key))])
  {
    assert PlainMerge(target, Obj(map[key := v]), strategies, path).fields.Keys == {key};
  }

  const NULL_ITEM := Arr([Null])
  const NULL_FIELD := Obj(map["0" := Null])

  lemma NullItemSpread()
    ensures Base(NULL_ITEM) == map["0" := Null]
  {
    assert [Null][..0] == [] && Decimal(0) == "0";
  }

  lemma OverNullItem(strategies: Strategies)
    requires StrategyAt(strategies, "k.0") == MergeItems && StrategyAt(strategies, "k") == Override
    ensures MergeField(NULL_ITEM, NULL_FIELD, strategies, "k") == Obj(map["0" := Obj(map[])])
  {
    NullItemSpread();
    MergeOne(NULL_ITEM, "0", Null, strategies, "k");
    assert Dotted("k", "0") == "k.0";
  }

  lemma PlainOverNullItem(strategies: Strategies)
    ensures PlainMerge(NULL_ITEM, NULL_FIELD, strategies, "k") == NULL_FIELD
  {
    NullItemSpread();
    PlainMergeOne(NULL_ITEM, "0", Null, strategies, "k");
  }

  lemma FoldTwo(lower: Layer, upper: Layer, strategies: Strategies)
    ensures Fold([lower, upper], strategies)
            == Merge(Merge(Obj(map[]), Doc(lower), strategies, ""), Doc(upper), strategies, "")
    ensures PlainFold([lower, upper], strategies)
            == PlainMerge(PlainMerge(Obj(map[]), Doc(lower), strategies, ""), Doc(upper), strategies, "")
  {
    var none: seq<Layer> := [];
    assert [lower, upper][..1] == [lower] && [lower][..0] == none;
    assert Fold(none, strategies) == PlainFold(none, strategies) == Obj(map[]);
    assert Fold([lower], strategies) == Merge(Obj(map[]), Doc(lower), strategies, "");
    assert PlainFold([lower], strategies) == PlainMerge(Obj(map[]), Doc(lower), strategies, "");
  }

  lemma LayerOverItem(strategies: Strategies)
    requires StrategyAt(strategies, "k.0") == MergeItems && StrategyAt(strategies, "k") == Override
    ensures Merge(Merge(Obj(map[]), Obj(map["k" := NULL_ITEM]), strategies, ""), Obj(map["k" := NULL_FIELD]),
                  strategies, "")
            == Obj(map["k" := Obj(map["0" := Obj(map[])])])
  {
    MergeOne(Obj(map[]), "k", NULL_ITEM, strategies, "");
    MergeOne(Obj(map["k" := NULL_ITEM]), "k", NULL_FIELD, strategies, "");
    OverNullItem(strategies);
  }

  lemma PlainLayerOverItem(strategies: Strategies)
    ensures PlainMerge(PlainMerge(Obj(map[]), Obj(map["k" := NULL_ITEM]), strategies, ""), Obj(map["k" := NULL_FIELD]),
                       strategies, "")
            == Obj(map["k" := NULL_FIELD])
  {
    PlainMergeOne(Obj(map[]), "k", NULL_ITEM, strategies, "");
    PlainMergeOne(Obj(map["k" := NULL_ITEM]), "k", NULL_FIELD, strategies, "");
    PlainOverNullItem(strategies);
  }

  /** Over an array it can: here an object is merged over the array `[null]`. */
  lemma {:induction false} PlainNeedsNoArray(strategies: Strategies)
    requires StrategyAt(strategies, "k.0") == MergeItems && StrategyAt(strategies, "k") == Override
    ensures var layers := [Layer(0, map["k" := NULL_ITEM]), Layer(1, map["k" := NULL_FIELD])];
            && Fold(layers, strategies) == Obj(map["k" := Obj(map["0" := Obj(map[])])])
            && PlainFold(layers, strategies) == Obj(map["k" := NULL_FIELD])
  {
    FoldTwo(Layer(0, map["k" := NULL_ITEM]), Layer(1, map["k" := NULL_FIELD]), strategies);
    LayerOverItem(strategies);
    PlainLayerOverItem(strategies);
  }
}
