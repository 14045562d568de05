/** Layers as a whole: their order and their grouping. */
module ConfigLayerOrder {
  import opened JsonValues
  import opened ConfigLayers
  import opened ConfigLayerLaws

  // ---- Stable priority order ---------------------------------------------------------

  lemma {:induction false} InsertMembers(layer: Layer, sorted: seq<Layer>)
    ensures multiset(Insert(layer, sorted)) == multiset([layer] + sorted)
  {
    if sorted != [] && layer.priority > sorted[0].priority {
      InsertMembers(layer, sorted[1..]);
      assert sorted == [sorted[0]] + sorted[1..];
    }
  }

  lemma {:induction false} InsertAbove(layer: Layer, sorted: seq<Layer>, floor: int)
    requires layer.priority >= floor && forall i | 0 <= i < |sorted| :: sorted[i].priority >= floor
    ensures forall x | x in Insert(layer, sorted) :: floor <= x.priority
  {
    InsertMembers(layer, sorted);
    forall x | x in Insert(layer, sorted) ensures floor <= x.priority {
      assert x in multiset(Insert(layer, sorted)) && x in [layer] + sorted;
    }
  }

  lemma {:induction false} InsertOrdered(layer: Layer, sorted: seq<Layer>)
    requires Ordered(sorted)
    ensures Ordered(Insert(layer, sorted))
  {
    if sorted != [] && layer.priority > sorted[0].priority {
      InsertOrdered(layer, sorted[1..]);
      InsertAbove(layer, sorted[1..], sorted[0].priority);
      OrderedCons(sorted[0], Insert(layer, sorted[1..]));
    }
  }

  lemma OrderedCons(first: Layer, tail: seq<Layer>)
    requires Ordered(tail) && forall x | x in tail :: first.priority <= x.priority
    ensures Ordered([first] + tail)
  {
    var all := [first] + tail;
    assert forall i | 0 < i < |all| :: all[i] == tail[i - 1] && all[i] in tail;
  }

  lemma {:induction false} InsertStable(layer: Layer, sorted: seq<Layer>, priority: int)
    ensures OfPriority(Insert(layer, sorted), priority) == OfPriority([layer] + sorted, priority)
  {
    assert ([layer] + sorted)[1..] == sorted;
    if sorted != [] && layer.priority > sorted[0].priority {
      InsertStable(layer, sorted[1..], priority);
      assert ([layer] + sorted[1..])[1..] == sorted[1..];
    }
  }

  /** Sorting keeps every layer, orders by priority, and leaves layers of equal
      priority in the order they came. */
  lemma {:induction false} PriorityOrder(layers: seq<Layer>, priority: int)
    ensures Ordered(ByPriority(layers))
    ensures multiset(ByPriority(layers)) == multiset(layers)
    ensures OfPriority(ByPriority(layers), priority) == OfPriority(layers, priority)
  {
    if layers != [] {
      var rest := ByPriority(layers[1..]);
      PriorityOrder(layers[1..], priority);
      InsertMembers(layers[0], rest);
      InsertOrdered(layers[0], rest);
      InsertStable(layers[0], rest, priority);
      assert layers == [layers[0]] + layers[1..];
      assert ([layers[0]] + rest)[1..] == rest;
    }
  }

  lemma OfPriorityMember(layers: seq<Layer>, priority: int)
    ensures (exists i | 0 <= i < |layers| :: layers[i].priority == priority) <==> OfPriority(layers, priority) != []
    ensures forall x | x in OfPriority(layers, priority) :: x in layers && x.priority == priority
  {
    if layers != [] {
      OfPriorityMember(layers[1..], priority);
      if i :| 0 <= i < |layers| && layers[i].priority == priority {
        assert i > 0 ==> layers[1..][i - 1].priority == priority;
      }
      if i :| 0 <= i < |layers[1..]| && layers[1..][i].priority == priority {
        assert layers[i + 1].priority == priority;
      }
    }
  }

  lemma {:induction false} OrderDetermined(a: seq<Layer>, b: seq<Layer>)
    requires Ordered(a) && Ordered(b)
    requires forall p :: OfPriority(a, p) == OfPriority(b, p)
    ensures a == b
  {
    if a == [] || b == [] {
      if a != [] { OfPriorityMember(a, a[0].priority); }
      if b != [] { OfPriorityMember(b, b[0].priority); }
    } else {
      OfPriorityMember(a, b[0].priority);
      OfPriorityMember(b, b[0].priority);
      OfPriorityMember(a, a[0].priority);
      OfPriorityMember(b, a[0].priority);
      assert OfPriority(a, a[0].priority) == OfPriority(b, a[0].priority);
      assert OfPriority(a, b[0].priority) == OfPriority(b, b[0].priority);
      assert a[0].priority == b[0].priority;
      assert OfPriority(a, a[0].priority)[0] == a[0];
      forall p ensures OfPriority(a[1..], p) == OfPriority(b[1..], p) {
        assert OfPriority(a, p) == OfPriority(b, p);
        var one := if a[0].priority == p then [a[0]] else [];
        assert OfPriority(a, p)[|one|..] == OfPriority(a[1..], p);
        assert OfPriority(b, p)[|one|..] == OfPriority(b[1..], p);
      }
      OrderDetermined(a[1..], b[1..]);
    }
  }

  ghost predicate SamePicks(a: seq<Layer>, b: seq<Layer>) {
    forall p: int :: OfPriority(a, p) == OfPriority(b, p)
  }

  /** Two layer lists are sorted alike exactly when they hold the same layers of
      each priority in the same order; then they resolve alike. */
  lemma SortedAlike(a: seq<Layer>, b: seq<Layer>)
    ensures SamePicks(a, b) <==> ByPriority(a) == ByPriority(b)
  {
    PriorityOrder(a, 0);
    PriorityOrder(b, 0);
    forall p: int
      ensures OfPriority(ByPriority(a), p) == OfPriority(a, p)
      ensures OfPriority(ByPriority(b), p) == OfPriority(b, p)
    {
      PriorityOrder(a, p);
      PriorityOrder(b, p);
    }
    if SamePicks(a, b) {
      OrderDetermined(ByPriority(a), ByPriority(b));
    }
  }

  predicate DistinctPriorities(layers: seq<Layer>) {
    forall i, j | 0 <= i < j < |layers| :: layers[i].priority != layers[j].priority
  }

  lemma {:induction false} OnePerPriority(layers: seq<Layer>, priority: int)
    requires DistinctPriorities(layers)
    ensures |OfPriority(layers, priority)| <= 1
  {
    if layers != [] {
      OnePerPriority(layers[1..], priority);
      OfPriorityMember(layers[1..], priority);
      if OfPriority(layers[1..], priority) != [] {
        var i :| 0 <= i < |layers[1..]| && layers[1..][i].priority == priority;
        assert layers[i + 1].priority == priority;
      }
    }
  }

  lemma OneOfPriority(layers: seq<Layer>, x: Layer, y: Layer)
    requires DistinctPriorities(layers) && x in layers && y in layers && x.priority == y.priority
    ensures x == y
  {
  }

  lemma OnlyPick(layers: seq<Layer>, x: Layer)
    requires DistinctPriorities(layers) && x in layers
    ensures OfPriority(layers, x.priority) == [x]
  {
    var picks := OfPriority(layers, x.priority);
    OnePerPriority(layers, x.priority);
    OfPriorityMember(layers, x.priority);
    assert picks != [] && picks[0] in picks;
    OneOfPriority(layers, x, picks[0]);
  }

  lemma SamePick(a: seq<Layer>, b: seq<Layer>, priority: int)
    requires DistinctPriorities(b) && multiset(a) == multiset(b) && |OfPriority(a, priority)| == 1
    ensures OfPriority(b, priority) == OfPriority(a, priority)
  {
    OfPriorityMember(a, priority);
    var x := OfPriority(a, priority)[0];
    assert x in OfPriority(a, priority) && x in multiset(b);
    OnlyPick(b, x);
  }

  /** With distinct priorities the order in which layers are listed does not matter. */
  lemma PermutedLayers(a: seq<Layer>, b: seq<Layer>, strategies: Strategies)
    requires DistinctPriorities(a) && DistinctPriorities(b) && multiset(a) == multiset(b)
    ensures Fold(ByPriority(a), strategies) == Fold(ByPriority(b), strategies)
  {
    forall p ensures OfPriority(a, p) == OfPriority(b, p) {
      OnePerPriority(a, p);
      OnePerPriority(b, p);
      if OfPriority(a, p) != [] { SamePick(a, b, p); }
      if OfPriority(b, p) != [] { SamePick(b, a, p); }
    }
    SortedAlike(a, b);
  }

  // ---- Layers that agree in shape, in priority order ---------------------------------------

  lemma {:induction false} FitsSymmetric(a: Json, b: Json)
    requires Fits(a, b)
    ensures Fits(b, a)
    decreases a
  {
    if a.Obj? && b.Obj? {
      forall key | key in a.fields && key in b.fields ensures Fits(b.fields[key], a.fields[key]) {
        FitsSymmetric(a.fields[key], b.fields[key]);
      }
    }
  }

  lemma {:induction false} InsertFits(layer: Layer, sorted: seq<Layer>)
    requires AllFit(sorted)
    requires forall x | x in sorted :: Fits(Doc(layer), Doc(x)) && Fits(Doc(x), Doc(layer))
    ensures AllFit(Insert(layer, sorted))
  {
    if sorted != [] && layer.priority > sorted[0].priority {
      var tail := Insert(layer, sorted[1..]);
      assert forall i | 0 <= i < |sorted[1..]| :: sorted[1..][i] == sorted[i + 1];
      InsertFits(layer, sorted[1..]);
      InsertMembers(layer, sorted[1..]);
      forall j | 0 <= j < |tail| ensures Fits(Doc(sorted[0]), Doc(tail[j])) {
        assert tail[j] in multiset(tail) && tail[j] in [layer] + sorted[1..];
      }
      FitsCons(sorted[0], tail);
    }
  }

  lemma FitsCons(first: Layer, tail: seq<Layer>)
    requires AllFit(tail) && forall j | 0 <= j < |tail| :: Fits(Doc(first), Doc(tail[j]))
    ensures AllFit([first] + tail)
  {
  }

  lemma {:induction false} SortedFit(layers: seq<Layer>)
    requires AllFit(layers)
    ensures AllFit(ByPriority(layers))
  {
    if layers != [] {
      var rest := ByPriority(layers[1..]);
      assert forall i | 0 <= i < |layers[1..]| :: layers[1..][i] == layers[i + 1];
      SortedFit(layers[1..]);
      PriorityOrder(layers[1..], 0);
      forall x | x in rest ensures Fits(Doc(layers[0]), Doc(x)) && Fits(Doc(x), Doc(layers[0])) {
        assert x in multiset(rest) && x in layers[1..];
        FitsSymmetric(Doc(layers[0]), Doc(x));
      }
      InsertFits(layers[0], rest);
    }
  }

  /** What `resolveConfig` gives for layers that agree in shape, in whatever order they
      are listed: `AgreeingLayers`, with "highest" meaning last in `PriorityOrder`. */
  lemma {:induction false} AgreeingConfig(layers: seq<Layer>, strategies: Strategies, keys: seq<string>)
    requires AllFit(layers) && keys != []
    ensures var sorted := ByPriority(layers);
            var vs := ShownValues(Sights(sorted, keys));
            var r := At(Fold(sorted, strategies), keys);
            var strategy := StrategyAt(strategies, DottedPath("", keys));
            && (r == Undefined <==> vs == [])
            && (vs != [] && (!vs[|vs| - 1].Arr? || strategy.Override?) ==> r == vs[|vs| - 1])
            && (vs != [] && vs[|vs| - 1].Arr? && (strategy.Append? || strategy.MergeItems?) ==>
                  r == Arr(Concat(Items(vs))))
            && (vs != [] && vs[|vs| - 1].Arr? && strategy.Prepend? ==>
                  r == Arr(ConcatBackwards(Items(vs))))
  {
    SortedFit(layers);
    AgreeingLayers(ByPriority(layers), strategies, keys);
  }

  // ---- Grouping layers -----------------------------------------------------------------

  /** Null-free layers that agree in shape. */
  ghost predicate Good(layers: seq<Layer>) {
    AllFit(layers) && forall i | 0 <= i < |layers| :: NullFree(Doc(layers[i]))
  }

  lemma {:induction false} MergeFits(a: Json, b: Json, c: Json, strategies: Strategies, path: string)
    requires NullFree(a) && NullFree(b) && !a.Null? && !b.Null?
    requires Fits(a, b) && Fits(a, c) && Fits(b, c)
    ensures Fits(MergeField(a, b, strategies, path), c)
    decreases c
  {
    if a.Undefined? {
      MergeIntoNothing(b, strategies, path);
    } else if a.Obj? && b.Obj? && c.Obj? {
      SpecialBranch(a, b, strategies, path);
      var ab := Merge(a, b, strategies, path);
      forall key | key in ab.fields && key in c.fields
        ensures Fits(ab.fields[key], c.fields[key])
      {
        FieldOfMerge(a, b, strategies, path, key);
        MergeFits(Get(a.fields, key), Get(b.fields, key), c.fields[key], strategies, Dotted(path, key));
      }
    }
  }

  lemma {:induction false} FoldSound(layers: seq<Layer>, c: Json, strategies: Strategies)
    requires c.Obj? && Good(layers) && forall i | 0 <= i < |layers| :: Fits(Doc(layers[i]), c)
    ensures Fold(layers, strategies).Obj? && NullFree(Fold(layers, strategies)) && Fits(Fold(layers, strategies), c)
    decreases |layers|
  {
    if layers != [] {
      var below, top := layers[..|layers| - 1], layers[|layers| - 1];
      FoldSound(below, c, strategies);
      FoldSound(below, Doc(top), strategies);
      var f := Fold(below, strategies);
      SpecialBranch(f, Doc(top), strategies, "");
      MergeNullFree(f, Doc(top), strategies, "");
      MergeFits(f, Doc(top), c, strategies, "");
    }
  }

  lemma FoldLast(below: seq<Layer>, top: Layer, strategies: Strategies)
    ensures Fold(below + [top], strategies) == Merge(Fold(below, strategies), Doc(top), strategies, "")
  {
    assert (below + [top])[..|below|] == below;
  }

  lemma MergeNothing(m: Record, strategies: Strategies)
    ensures Merge(Obj(m), Obj(map[]), strategies, "") == Obj(m)
  {
    assert Merge(Obj(m), Obj(map[]), strategies, "").fields == m;
  }

  lemma GroupsFit(low: seq<Layer>, mid: seq<Layer>, top: Layer, strategies: Strategies)
    requires Good(low + mid + [top])
    ensures Fold(low, strategies).Obj? && Fold(mid, strategies).Obj?
    ensures NullFree(Fold(low, strategies)) && NullFree(Fold(mid, strategies)) && NullFree(Doc(top))
    ensures Fits(Fold(low, strategies), Fold(mid, strategies))
    ensures Fits(Fold(low, strategies), Doc(top)) && Fits(Fold(mid, strategies), Doc(top))
  {
    var all := low + mid + [top];
    assert forall i | 0 <= i < |low| :: all[i] == low[i];
    assert forall j | 0 <= j < |mid| :: all[|low| + j] == mid[j];
    assert all[|low| + |mid|] == top;
    assert Good(low) && Good(mid);
    FoldSound(low, Doc(top), strategies);
    FoldSound(mid, Doc(top), strategies);
    forall i | 0 <= i < |low| ensures Fits(Doc(low[i]), Fold(mid, strategies)) {
      forall j | 0 <= j < |mid| ensures Fits(Doc(mid[j]), Doc(low[i])) {
        assert Fits(Doc(all[i]), Doc(all[|low| + j]));
        FitsSymmetric(Doc(low[i]), Doc(mid[j]));
      }
      FoldSound(mid, Doc(low[i]), strategies);
      FitsSymmetric(Fold(mid, strategies), Doc(low[i]));
    }
    FoldSound(low, Fold(mid, strategies), strategies);
  }

  /** Lower and upper layers may be resolved separately and merged afterwards. */
  lemma {:induction false} ResolveInGroups(low: seq<Layer>, high: seq<Layer>, strategies: Strategies)
    requires Good(low + high)
    ensures Fold(low + high, strategies) == Merge(Fold(low, strategies), Fold(high, strategies), strategies, "")
    decreases |high|
  {
    if high == [] {
      assert low + high == low;
      FoldIsObject(low, strategies);
      MergeNothing(Fold(low, strategies).fields, strategies);
    } else {
      var mid, top := high[..|high| - 1], high[|high| - 1];
      assert low + high == low + mid + [top] && high == mid + [top];
      assert forall i | 0 <= i < |low + mid| :: (low + mid)[i] == (low + high)[i];
      ResolveInGroups(low, mid, strategies);
      FoldLast(low + mid, top, strategies);
      FoldLast(mid, top, strategies);
      GroupsFit(low, mid, top, strategies);
      MergeAssociative(Fold(low, strategies).fields, Fold(mid, strategies).fields, top.config, strategies);
    }
  }
}
