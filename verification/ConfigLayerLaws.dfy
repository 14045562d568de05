/** What layered configuration means, path by path, and the algebra of deepMerge. */
module ConfigLayerLaws {
  import opened JsonValues
  import opened ConfigLayers

  // ---- One key ----------------------------------------------------------------

  lemma FieldOfMerge(target: Json, source: Json, strategies: Strategies, path: string, key: string)
    requires source.Obj?
    ensures Merge(target, source, strategies, path).Obj?
    ensures key in Merge(target, source, strategies, path).fields <==> key in Base(target) || key in source.fields
    ensures Get(Merge(target, source, strategies, path).fields, key)
         == MergeField(Get(Base(target), key), Get(source.fields, key), strategies, Dotted(path, key))
  {
  }

  /** The loop's special "merge" branch gives another result than its plain branch
      exactly where null is merged over null. */
  lemma SpecialBranch(target: Json, source: Json, strategies: Strategies, path: string)
    ensures MergeField(target, source, strategies, path) == Merge(target, source, strategies, path)
       <==> !(StrategyAt(strategies, path) == MergeItems && target.Null? && source.Null?)
  {
  }

  // ---- What a path shows --------------------------------------------------------

  /** The value at the end of a path through objects only. */
  function Descend(doc: Json, path: seq<string>): Json
    decreases |path|
  {
    if path == [] then doc
    else if doc.Obj? then Descend(Get(doc.fields, path[0]), path[1..])
    else Undefined
  }

  /** A value seen from its own path: objects are told apart by their members only. */
  function Face(v: Json): Json {
    if v.Obj? then Obj(map[]) else v
  }

  function At(doc: Json, path: seq<string>): Json {
    Face(Descend(doc, path))
  }

  /** What a layer contributes to a path: nothing, a value, or a non-object on the
      way that wipes out whatever lower layers had there. */
  datatype Sight = Silent | Wiped | Shows(v: Json)

  function See(layer: Json, path: seq<string>): Sight
    decreases |path|
  {
    if !Live(layer) then Silent
    else if path == [] then Shows(Face(layer))
    else if layer.Obj? then See(Get(layer.fields, path[0]), path[1..])
    else Wiped
  }

  function DottedPath(path: string, keys: seq<string>): string
    decreases |keys|
  {
    if keys == [] then path else DottedPath(Dotted(path, keys[0]), keys[1..])
  }

  function Step(held: Json, sight: Sight, strategy: Strategy): Json {
    match sight
    case Silent => held
    case Wiped => Undefined
    case Shows(v) => if v.Arr? then MergeArray(held, v.items, strategy) else v
  }

  /** No null in the target anywhere along the path, and no array under an object of the
      source on the way. */
  ghost predicate Smooth(target: Json, source: Json, path: seq<string>) {
    forall n | 0 <= n <= |path| ::
      && !At(target, path[..n]).Null?
      && (n < |path| ==> !(At(target, path[..n]).Arr? && See(source, path[..n]) == Shows(Obj(map[]))))
  }

  lemma SmoothTail(target: Json, source: Json, path: seq<string>)
    requires path != [] && Smooth(target, source, path)
    requires target.Obj? && source.Obj?
    ensures Smooth(Get(target.fields, path[0]), Get(source.fields, path[0]), path[1..])
  {
    forall n | 0 <= n <= |path[1..]|
      ensures At(Get(target.fields, path[0]), path[1..][..n]) == At(target, path[..n + 1])
      ensures See(Get(source.fields, path[0]), path[1..][..n]) == See(source, path[..n + 1])
    {
      assert path[..n + 1][1..] == path[1..][..n];
    }
  }

  lemma UndefinedBelow(path: seq<string>)
    ensures Descend(Undefined, path) == Undefined
  {
  }

  lemma SmoothUndefined(source: Json, path: seq<string>)
    ensures Smooth(Undefined, source, path)
  {
    forall n | 0 <= n <= |path| { UndefinedBelow(path[..n]); }
  }

  /** One merge, one path: the merged document shows what the target showed there,
      updated by what the source contributes. */
  lemma {:induction false} MergeAt(target: Json, source: Json, strategies: Strategies,
                                   path: string, keys: seq<string>)
    requires Smooth(target, source, keys)
    ensures At(Merge(target, source, strategies, path), keys)
         == Step(At(target, keys), See(source, keys), StrategyAt(strategies, DottedPath(path, keys)))
    decreases |keys|
  {
    assert keys[..0] == [];
    if Live(source) && keys != [] {
      var key, rest := keys[0], keys[1..];
      if source.Obj? {
        var held, given := Get(Base(target), key), Get(source.fields, key);
        FieldOfMerge(target, source, strategies, path, key);
        assert !target.Arr?;
        if target.Obj? {
          SmoothTail(target, source, keys);
        } else {
          UndefinedBelow(rest);
          SmoothUndefined(given, rest);
        }
        assert rest[..0] == [];
        SpecialBranch(held, given, strategies, Dotted(path, key));
        MergeAt(held, given, strategies, Dotted(path, key), rest);
      } else {
        UndefinedBelow(keys);
      }
    }
  }

  // ---- The whole stack of layers ------------------------------------------------

  function Doc(layer: Layer): Json { Obj(layer.config) }

  function Sights(layers: seq<Layer>, keys: seq<string>): seq<Sight> {
    seq(|layers|, i requires 0 <= i < |layers| => See(Doc(layers[i]), keys))
  }

  /** The values that no later layer wipes out, lowest layer first. */
  function Standing(sights: seq<Sight>): seq<Json> {
    if sights == [] then []
    else
      var below := Standing(sights[..|sights| - 1]);
      match sights[|sights| - 1]
      case Silent => below
      case Wiped => []
      case Shows(v) => below + [v]
  }

  /** The arrays that end the list, without a break. */
  function ArrayRun(vs: seq<Json>): seq<seq<Json>> {
    if vs == [] || !vs[|vs| - 1].Arr? then []
    else ArrayRun(vs[..|vs| - 1]) + [vs[|vs| - 1].items]
  }

  function Concat(runs: seq<seq<Json>>): seq<Json> {
    if runs == [] then [] else Concat(runs[..|runs| - 1]) + runs[|runs| - 1]
  }

  function ConcatBackwards(runs: seq<seq<Json>>): seq<Json> {
    if runs == [] then [] else runs[|runs| - 1] + ConcatBackwards(runs[..|runs| - 1])
  }

  /** What the values standing come to: the last of them, or for arrays all arrays of
      the run it ends. */
  function Outcome(vs: seq<Json>, strategy: Strategy): Json {
    if vs == [] then Undefined
    else
      var last := vs[|vs| - 1];
      if !last.Arr? then last
      else match strategy
        case Override => last
        case Append => Arr(Concat(ArrayRun(vs)))
        case MergeItems => Arr(Concat(ArrayRun(vs)))
        case Prepend => Arr(ConcatBackwards(ArrayRun(vs)))
  }

  /** The value of one path of a resolved configuration, from what each layer shows
      there. */
  function PathSpec(sights: seq<Sight>, strategy: Strategy): Json {
    Outcome(Standing(sights), strategy)
  }

  lemma RunStep(vs: seq<Json>, v: Json)
    requires v.Arr?
    ensures ArrayRun(vs + [v]) == ArrayRun(vs) + [v.items]
    ensures Concat(ArrayRun(vs) + [v.items]) == Concat(ArrayRun(vs)) + v.items
    ensures ConcatBackwards(ArrayRun(vs) + [v.items]) == v.items + ConcatBackwards(ArrayRun(vs))
  {
    var run := ArrayRun(vs);
    assert (vs + [v])[..|vs|] == vs && (run + [v.items])[..|run|] == run;
  }

  lemma OutcomeStep(vs: seq<Json>, v: Json, strategy: Strategy)
    requires Live(v)
    ensures Outcome(vs + [v], strategy) == Step(Outcome(vs, strategy), Shows(v), strategy)
  {
    if !v.Arr? {
    } else if vs != [] && vs[|vs| - 1].Arr? {
      RunGrows(vs, v, strategy);
    } else {
      RunBegins(vs, v, strategy);
    }
  }

  lemma RunGrows(vs: seq<Json>, v: Json, strategy: Strategy)
    requires v.Arr? && vs != [] && vs[|vs| - 1].Arr?
    ensures Outcome(vs + [v], strategy) == MergeArray(Outcome(vs, strategy), v.items, strategy)
  {
    RunStep(vs, v);
  }

  lemma RunBegins(vs: seq<Json>, v: Json, strategy: Strategy)
    requires v.Arr? && (vs == [] || !vs[|vs| - 1].Arr?)
    ensures Outcome(vs + [v], strategy) == v
  {
    RunStep(vs, v);
    assert ArrayRun(vs) == [] && [] + v.items == v.items && v.items + [] == v.items;
  }

  lemma SpecStep(sights: seq<Sight>, sight: Sight, strategy: Strategy)
    requires sight.Shows? ==> Live(sight.v)
    ensures PathSpec(sights + [sight], strategy) == Step(PathSpec(sights, strategy), sight, strategy)
  {
    assert (sights + [sight])[..|sights|] == sights;
    if sight.Shows? {
      OutcomeStep(Standing(sights), sight.v, strategy);
    }
  }

  lemma SeenIsLive(layer: Json, keys: seq<string>)
    ensures See(layer, keys).Shows? ==> Live(See(layer, keys).v)
    decreases |keys|
  {
  }

  /** On the way to this path, no layer puts an object over an array that stands. */
  ghost predicate Unopened(layers: seq<Layer>, strategies: Strategies, keys: seq<string>) {
    forall j, n | 0 <= j < |layers| && 0 <= n < |keys| ::
      !(PathSpec(Sights(layers[..j], keys[..n]), StrategyAt(strategies, DottedPath("", keys[..n]))).Arr?
        && See(Doc(layers[j]), keys[..n]) == Shows(Obj(map[])))
  }

  lemma {:induction false} UnopenedPrefix(layers: seq<Layer>, strategies: Strategies, keys: seq<string>, k: nat, n: nat)
    requires Unopened(layers, strategies, keys) && k <= |layers| && n <= |keys|
    ensures Unopened(layers[..k], strategies, keys[..n])
  {
    forall j, m | 0 <= j < k && 0 <= m < n
      ensures !(PathSpec(Sights(layers[..k][..j], keys[..n][..m]),
                         StrategyAt(strategies, DottedPath("", keys[..n][..m]))).Arr?
                && See(Doc(layers[..k][j]), keys[..n][..m]) == Shows(Obj(map[])))
    {
      assert layers[..k][..j] == layers[..j] && keys[..n][..m] == keys[..m];
    }
  }

  lemma {:induction false} SpecLive(sights: seq<Sight>, strategy: Strategy)
    requires forall s | s in sights :: s.Shows? ==> Live(s.v)
    ensures !PathSpec(sights, strategy).Null?
  {
    if sights != [] {
      var below, top := sights[..|sights| - 1], sights[|sights| - 1];
      assert sights == below + [top];
      SpecLive(below, strategy);
      SpecStep(below, top, strategy);
    }
  }

  lemma {:induction false} SpecSource(sights: seq<Sight>, strategy: Strategy) returns (i: nat)
    requires forall s | s in sights :: s.Shows? ==> Live(s.v)
    requires PathSpec(sights, strategy).Arr?
    ensures i < |sights| && sights[i].Shows? && sights[i].v.Arr?
  {
    i := |sights| - 1;
    var below, top := sights[..i], sights[i];
    assert sights == below + [top];
    SpecStep(below, top, strategy);
    if top.Silent? {
      i := SpecSource(below, strategy);
    }
  }

  lemma {:induction false} SpecNotNull(layers: seq<Layer>, keys: seq<string>, strategy: Strategy)
    ensures !PathSpec(Sights(layers, keys), strategy).Null?
  {
    var sights := Sights(layers, keys);
    forall s | s in sights ensures s.Shows? ==> Live(s.v) {
      var i :| 0 <= i < |sights| && sights[i] == s;
      SeenIsLive(Doc(layers[i]), keys);
    }
    SpecLive(sights, strategy);
  }

  lemma {:induction false} ResolvedNext(layers: seq<Layer>, strategies: Strategies, keys: seq<string>)
    requires layers != []
    requires Smooth(Fold(layers[..|layers| - 1], strategies), Doc(layers[|layers| - 1]), keys)
    requires At(Fold(layers[..|layers| - 1], strategies), keys)
             == PathSpec(Sights(layers[..|layers| - 1], keys), StrategyAt(strategies, DottedPath("", keys)))
    ensures At(Fold(layers, strategies), keys)
         == PathSpec(Sights(layers, keys), StrategyAt(strategies, DottedPath("", keys)))
  {
    var below, top := layers[..|layers| - 1], layers[|layers| - 1];
    MergeAt(Fold(below, strategies), Doc(top), strategies, "", keys);
    assert Sights(layers, keys) == Sights(below, keys) + [See(Doc(top), keys)];
    SeenIsLive(Doc(top), keys);
    SpecStep(Sights(below, keys), See(Doc(top), keys), StrategyAt(strategies, DottedPath("", keys)));
  }

  /** `resolveConfig`, path by path, whatever the layers hold: nulls, values of
      different kinds, and any strategy. */
  lemma {:induction false} ResolvedPath(layers: seq<Layer>, strategies: Strategies, keys: seq<string>)
    requires Unopened(layers, strategies, keys) && keys != []
    ensures At(Fold(layers, strategies), keys)
         == PathSpec(Sights(layers, keys), StrategyAt(strategies, DottedPath("", keys)))
    decreases |layers|, 1
  {
    if layers == [] {
      UndefinedBelow(keys[1..]);
    } else {
      ResolvedSmooth(layers, strategies, keys);
      UnopenedPrefix(layers, strategies, keys, |layers| - 1, |keys|);
      assert keys[..|keys|] == keys;
      ResolvedPath(layers[..|layers| - 1], strategies, keys);
      ResolvedNext(layers, strategies, keys);
    }
  }

  /** What the layers below the last resolve to takes it smoothly. */
  lemma {:induction false} ResolvedSmooth(layers: seq<Layer>, strategies: Strategies, keys: seq<string>)
    requires layers != [] && Unopened(layers, strategies, keys)
    ensures Smooth(Fold(layers[..|layers| - 1], strategies), Doc(layers[|layers| - 1]), keys)
    decreases |layers|, 0
  {
    var k := |layers| - 1;
    forall n | 0 <= n <= |keys|
      ensures !At(Fold(layers[..k], strategies), keys[..n]).Null?
      ensures n < |keys| ==> !(At(Fold(layers[..k], strategies), keys[..n]).Arr?
                               && See(Doc(layers[k]), keys[..n]) == Shows(Obj(map[])))
    {
      FoldIsObject(layers[..k], strategies);
      if n > 0 {
        UnopenedPrefix(layers, strategies, keys, k, n);
        ResolvedPath(layers[..k], strategies, keys[..n]);
        SpecNotNull(layers[..k], keys[..n], StrategyAt(strategies, DottedPath("", keys[..n])));
      }
    }
  }

  lemma FoldIsObject(layers: seq<Layer>, strategies: Strategies)
    ensures Fold(layers, strategies).Obj?
  {
  }

  // ---- Layers that agree in shape -------------------------------------------------

  predicate SameKind(a: Json, b: Json) {
    (Scalar(a) && Scalar(b)) || (a.Arr? && b.Arr?) || (a.Obj? && b.Obj?)
  }

  /** Scalar against scalar, array against array, object against object, at every
      path both documents reach; null and undefined fit anything. */
  predicate Fits(a: Json, b: Json) {
    (Live(a) && Live(b)) ==>
      && SameKind(a, b)
      && (a.Obj? ==> forall key | key in a.fields && key in b.fields :: Fits(a.fields[key], b.fields[key]))
  }

  ghost predicate AllFit(layers: seq<Layer>) {
    forall i, j | 0 <= i < j < |layers| :: Fits(Doc(layers[i]), Doc(layers[j]))
  }

  lemma FitsEverywhere(a: Json, b: Json, keys: seq<string>)
    requires Fits(a, b)
    ensures See(a, keys).Shows? && See(b, keys).Shows? ==> SameKind(See(a, keys).v, See(b, keys).v)
    ensures !(See(a, keys).Wiped? && See(b, keys).Shows?) && !(See(a, keys).Shows? && See(b, keys).Wiped?)
    decreases |keys|
  {
    if keys != [] && a.Obj? && b.Obj? {
      FitsEverywhere(Get(a.fields, keys[0]), Get(b.fields, keys[0]), keys[1..]);
    }
  }

  function ShownValues(sights: seq<Sight>): seq<Json> {
    if sights == [] then []
    else ShownValues(sights[..|sights| - 1])
         + (if sights[|sights| - 1].Shows? then [sights[|sights| - 1].v] else [])
  }

  function Items(vs: seq<Json>): seq<seq<Json>> {
    seq(|vs|, i requires 0 <= i < |vs| => if vs[i].Arr? then vs[i].items else [])
  }

  ghost predicate Uniform(sights: seq<Sight>) {
    forall i, j | 0 <= i < j < |sights| ::
      && (sights[i].Shows? && sights[j].Shows? ==> SameKind(sights[i].v, sights[j].v))
      && !(sights[i].Wiped? && sights[j].Shows?) && !(sights[i].Shows? && sights[j].Wiped?)
  }

  lemma {:induction false} UniformStanding(sights: seq<Sight>)
    requires Uniform(sights)
    ensures Standing(sights) == ShownValues(sights)
    ensures forall v | v in ShownValues(sights) :: exists i | 0 <= i < |sights| :: sights[i] == Shows(v)
  {
    if sights != [] {
      var below := sights[..|sights| - 1];
      assert forall i | 0 <= i < |below| :: sights[i] == below[i];
      UniformStanding(below);
      assert |ShownValues(below)| > 0 ==> ShownValues(below)[0] in ShownValues(below);
    }
  }

  lemma {:induction false} FullRun(vs: seq<Json>)
    requires forall v | v in vs :: v.Arr?
    ensures ArrayRun(vs) == Items(vs)
  {
    if vs != [] {
      FullRun(vs[..|vs| - 1]);
      assert Items(vs) == Items(vs[..|vs| - 1]) + [vs[|vs| - 1].items];
    }
  }

  lemma {:induction false} ArraySource(layers: seq<Layer>, keys: seq<string>, strategy: Strategy) returns (i: nat)
    requires PathSpec(Sights(layers, keys), strategy).Arr?
    ensures i < |layers| && See(Doc(layers[i]), keys).Shows? && See(Doc(layers[i]), keys).v.Arr?
  {
    var sights := Sights(layers, keys);
    forall s | s in sights ensures s.Shows? ==> Live(s.v) {
      var k :| 0 <= k < |sights| && sights[k] == s;
      SeenIsLive(Doc(layers[k]), keys);
    }
    i := SpecSource(sights, strategy);
  }

  lemma {:induction false} FittingUnopened(layers: seq<Layer>, strategies: Strategies, keys: seq<string>)
    requires AllFit(layers)
    ensures Unopened(layers, strategies, keys)
  {
    forall j, n | 0 <= j < |layers| && 0 <= n < |keys|
      ensures !(PathSpec(Sights(layers[..j], keys[..n]), StrategyAt(strategies, DottedPath("", keys[..n]))).Arr?
                && See(Doc(layers[j]), keys[..n]) == Shows(Obj(map[])))
    {
      var p := keys[..n];
      var strategy := StrategyAt(strategies, DottedPath("", p));
      if PathSpec(Sights(layers[..j], p), strategy).Arr? {
        var i := ArraySource(layers[..j], p, strategy);
        FitsEverywhere(Doc(layers[i]), Doc(layers[j]), p);
      }
    }
  }

  lemma FittingLayers(layers: seq<Layer>, keys: seq<string>)
    requires AllFit(layers)
    ensures Uniform(Sights(layers, keys))
  {
    forall i, j | 0 <= i < j < |layers|
      ensures See(Doc(layers[i]), keys).Shows? && See(Doc(layers[j]), keys).Shows?
              ==> SameKind(See(Doc(layers[i]), keys).v, See(Doc(layers[j]), keys).v)
      ensures !(See(Doc(layers[i]), keys).Wiped? && See(Doc(layers[j]), keys).Shows?)
      ensures !(See(Doc(layers[i]), keys).Shows? && See(Doc(layers[j]), keys).Wiped?)
    {
      FitsEverywhere(Doc(layers[i]), Doc(layers[j]), keys);
    }
  }

  /** For layers that agree in shape: a path exists when some layer gives it a
      non-null value; the highest layer decides a scalar or an overriding array;
      appended and merged arrays follow each other in layer order, prepended ones in
      the reverse order. */
  lemma AgreeingLayers(layers: seq<Layer>, strategies: Strategies, keys: seq<string>)
    requires AllFit(layers) && keys != []
    ensures var vs := ShownValues(Sights(layers, keys));
            var r := At(Fold(layers, strategies), keys);
            var strategy := StrategyAt(strategies, DottedPath("", keys));
            && (r == Undefined <==> vs == [])
            && (vs != [] && (!vs[|vs| - 1].Arr? || strategy.Override?) ==> r == vs[|vs| - 1])
            && (vs != [] && vs[|vs| - 1].Arr? && (strategy.Append? || strategy.MergeItems?) ==>
                  r == Arr(Concat(Items(vs))))
            && (vs != [] && vs[|vs| - 1].Arr? && strategy.Prepend? ==>
                  r == Arr(ConcatBackwards(Items(vs))))
  {
    FittingLayers(layers, keys);
    FittingUnopened(layers, strategies, keys);
    ResolvedPath(layers, strategies, keys);
    var sights := Sights(layers, keys);
    UniformStanding(sights);
    var vs := ShownValues(sights);
    forall v | v in vs ensures Live(v) {
      var i :| 0 <= i < |sights| && sights[i] == Shows(v);
      SeenIsLive(Doc(layers[i]), keys);
    }
    assert |vs| > 0 ==> vs[|vs| - 1] in vs;
    if vs != [] && vs[|vs| - 1].Arr? {
      ShownArrays(sights, vs[|vs| - 1]);
      FullRun(vs);
    }
  }

  /** Where one layer shows an array, all do. */
  lemma ShownArrays(sights: seq<Sight>, last: Json)
    requires Uniform(sights) && last in ShownValues(sights) && last.Arr?
    ensures forall v | v in ShownValues(sights) :: v.Arr?
  {
    UniformStanding(sights);
    var j :| 0 <= j < |sights| && sights[j] == Shows(last);
    forall v | v in ShownValues(sights) ensures v.Arr? {
      var i :| 0 <= i < |sights| && sights[i] == Shows(v);
      if i < j { assert SameKind(v, last); } else if j < i { assert SameKind(last, v); }
    }
  }

  // ---- Associativity -----------------------------------------------------------------

  /** No null and no undefined among the members, at any depth of objects. */
  predicate NullFree(v: Json) {
    v.Obj? ==> forall key | key in v.fields :: Live(v.fields[key]) && NullFree(v.fields[key])
  }

  lemma {:induction false} MergeIntoNothing(v: Json, strategies: Strategies, path: string)
    requires NullFree(v) && !v.Null?
    ensures MergeField(Undefined, v, strategies, path) == v
    ensures v.Obj? ==> Merge(Obj(map[]), v, strategies, path) == v
    decreases v
  {
    SpecialBranch(Undefined, v, strategies, path);
    if v.Obj? {
      forall key | key in v.fields
        ensures MergeField(Undefined, v.fields[key], strategies, Dotted(path, key)) == v.fields[key]
      {
        MergeIntoNothing(v.fields[key], strategies, Dotted(path, key));
      }
      assert Merge(Undefined, v, strategies, path).fields == v.fields;
      assert Merge(Obj(map[]), v, strategies, path).fields == v.fields;
    }
  }

  lemma {:induction false} MergeNullFree(a: Json, b: Json, strategies: Strategies, path: string)
    requires NullFree(a) && NullFree(b) && !a.Null? && !b.Null? && Fits(a, b)
    ensures NullFree(MergeField(a, b, strategies, path)) && !MergeField(a, b, strategies, path).Null?
    ensures Live(a) || Live(b) ==> Live(MergeField(a, b, strategies, path))
    decreases b
  {
    SpecialBranch(a, b, strategies, path);
    if b.Obj? {
      forall key | key in Base(a).Keys + b.fields.Keys
        ensures Live(MergeField(Get(Base(a), key), Get(b.fields, key), strategies, Dotted(path, key)))
        ensures NullFree(MergeField(Get(Base(a), key), Get(b.fields, key), strategies, Dotted(path, key)))
      {
        if key in b.fields {
          MergeNullFree(Get(Base(a), key), b.fields[key], strategies, Dotted(path, key));
        }
      }
    }
  }

  lemma LeftSideAtKey(a: Json, b: Json, c: Json, strategies: Strategies, path: string, key: string)
    requires a.Obj? && b.Obj? && c.Obj?
    ensures var x, y, z, p := Get(a.fields, key), Get(b.fields, key), Get(c.fields, key), Dotted(path, key);
            var left := Merge(Merge(a, b, strategies, path), c, strategies, path);
            && left.Obj?
            && Get(left.fields, key) == MergeField(MergeField(x, y, strategies, p), z, strategies, p)
            && (key in left.fields <==> key in a.fields || key in b.fields || key in c.fields)
  {
    FieldOfMerge(a, b, strategies, path, key);
    var ab := Merge(a, b, strategies, path);
    FieldOfMerge(ab, c, strategies, path, key);
  }

  lemma RightSideAtKey(a: Json, b: Json, c: Json, strategies: Strategies, path: string, key: string)
    requires a.Obj? && b.Obj? && c.Obj?
    ensures var x, y, z, p := Get(a.fields, key), Get(b.fields, key), Get(c.fields, key), Dotted(path, key);
            var right := Merge(a, Merge(b, c, strategies, path), strategies, path);
            && right.Obj?
            && Get(right.fields, key) == MergeField(x, MergeField(y, z, strategies, p), strategies, p)
            && (key in right.fields <==> key in a.fields || key in b.fields || key in c.fields)
  {
    FieldOfMerge(b, c, strategies, path, key);
    var bc := Merge(b, c, strategies, path);
    FieldOfMerge(a, bc, strategies, path, key);
  }

  lemma EqualRecords(m: Record, n: Record)
    requires forall key: string :: (key in m <==> key in n) && Get(m, key) == Get(n, key)
    ensures m == n
  {
    forall key | key in m ensures m[key] == n[key] {
      assert Get(m, key) == Get(n, key);
    }
  }

  lemma {:induction false} FieldAssociative(a: Json, b: Json, c: Json, strategies: Strategies, path: string)
    requires NullFree(a) && NullFree(b) && NullFree(c)
    requires !a.Null? && !b.Null? && !c.Null?
    requires Fits(a, b) && Fits(a, c) && Fits(b, c)
    ensures MergeField(MergeField(a, b, strategies, path), c, strategies, path)
         == MergeField(a, MergeField(b, c, strategies, path), strategies, path)
    decreases a
  {
    if a.Undefined? || b.Undefined? || c.Undefined? {
      AssociativeWithNothing(a, b, c, strategies, path);
    } else if a.Obj? {
      var left := Merge(Merge(a, b, strategies, path), c, strategies, path);
      var right := Merge(a, Merge(b, c, strategies, path), strategies, path);
      forall key: string
        ensures (key in left.fields <==> key in right.fields) && Get(left.fields, key) == Get(right.fields, key)
      {
        LeftSideAtKey(a, b, c, strategies, path, key);
        RightSideAtKey(a, b, c, strategies, path, key);
        var x, y, z := Get(a.fields, key), Get(b.fields, key), Get(c.fields, key);
        if key in a.fields {
          FieldAssociative(x, y, z, strategies, Dotted(path, key));
        } else {
          AssociativeWithNothing(x, y, z, strategies, Dotted(path, key));
        }
      }
      EqualRecords(left.fields, right.fields);
      NoSpecialBranches(a, b, c, strategies, path);
    }
  }

  lemma AssociativeWithNothing(a: Json, b: Json, c: Json, strategies: Strategies, path: string)
    requires a.Undefined? || b.Undefined? || c.Undefined?
    requires NullFree(a) && NullFree(b) && NullFree(c)
    requires !a.Null? && !b.Null? && !c.Null?
    requires Fits(a, b) && Fits(a, c) && Fits(b, c)
    ensures MergeField(MergeField(a, b, strategies, path), c, strategies, path)
         == MergeField(a, MergeField(b, c, strategies, path), strategies, path)
  {
    MergeNullFree(b, c, strategies, path);
    MergeIntoNothing(MergeField(b, c, strategies, path), strategies, path);
    MergeIntoNothing(b, strategies, path);
    MergeIntoNothing(c, strategies, path);
  }

  /** Between objects the special branch is the plain one. */
  lemma NoSpecialBranches(a: Json, b: Json, c: Json, strategies: Strategies, path: string)
    requires a.Obj? && b.Obj? && c.Obj?
    ensures MergeField(MergeField(a, b, strategies, path), c, strategies, path)
         == Merge(Merge(a, b, strategies, path), c, strategies, path)
    ensures MergeField(a, MergeField(b, c, strategies, path), strategies, path)
         == Merge(a, Merge(b, c, strategies, path), strategies, path)
  {
    SpecialBranch(a, b, strategies, path);
    SpecialBranch(b, c, strategies, path);
    SpecialBranch(Merge(a, b, strategies, path), c, strategies, path);
    SpecialBranch(a, Merge(b, c, strategies, path), strategies, path);
  }

  /** For a fixed strategy table deepMerge is associative on null-free documents
      that agree in shape, appended and prepended arrays included. */
  lemma MergeAssociative(a: Record, b: Record, c: Record, strategies: Strategies)
    requires NullFree(Obj(a)) && NullFree(Obj(b)) && NullFree(Obj(c))
    requires Fits(Obj(a), Obj(b)) && Fits(Obj(a), Obj(c)) && Fits(Obj(b), Obj(c))
    ensures Merge(Merge(Obj(a), Obj(b), strategies, ""), Obj(c), strategies, "")
         == Merge(Obj(a), Merge(Obj(b), Obj(c), strategies, ""), strategies, "")
  {
    NoSpecialBranches(Obj(a), Obj(b), Obj(c), strategies, "");
    FieldAssociative(Obj(a), Obj(b), Obj(c), strategies, "");
  }

  /** Shapes have to agree: an object, then a number, then an object without one of the
      first one's keys merge to different configs, depending on which two go first. */
  lemma {:induction false} ShapesMatter(key: string, x: Json, z: Json, left: string, strategies: Strategies)
    requires x.Obj? && left in x.fields && z.Obj? && NullFree(z) && left !in z.fields
    ensures var a, b, c := Obj(map[key := x]), Obj(map[key := Num(5.0)]), Obj(map[key := z]);
            Merge(Merge(a, b, strategies, ""), c, strategies, "")
            != Merge(a, Merge(b, c, strategies, ""), strategies, "")
  {
    var a, b, c := Obj(map[key := x]), Obj(map[key := Num(5.0)]), Obj(map[key := z]);
    LeftSideAtKey(a, b, c, strategies, "", key);
    RightSideAtKey(a, b, c, strategies, "", key);
    NumberBetween(x, z, left, strategies, Dotted("", key));
  }

  lemma NumberBetween(x: Json, z: Json, left: string, strategies: Strategies, path: string)
    requires x.Obj? && left in x.fields && z.Obj? && NullFree(z) && left !in z.fields
    ensures MergeField(MergeField(x, Num(5.0), strategies, path), z, strategies, path)
            != MergeField(x, MergeField(Num(5.0), z, strategies, path), strategies, path)
  {
    SpecialBranch(x, Num(5.0), strategies, path);
    OverNumber(z, strategies, path);
    SpecialBranch(x, z, strategies, path);
    FieldOfMerge(x, z, strategies, path, left);
  }

  /** An object replaces a number. */
  lemma OverNumber(source: Json, strategies: Strategies, path: string)
    requires source.Obj? && NullFree(source)
    ensures MergeField(Num(5.0), source, strategies, path) == source
  {
    SpecialBranch(Num(5.0), source, strategies, path);
    MergeIntoNothing(source, strategies, path);
    assert Base(Num(5.0)) == Base(Obj(map[]));
  }
}
