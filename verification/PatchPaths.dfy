/** Patches for one dotted field: `buildMergePatch` of
    apps/api/src/security/security-audit.service.ts and what applying its result does. */
module PatchPaths {
  import opened JsonValues
  import opened MergePatch

  // ---- Dotted fields ------------------------------------------------------------------

  /** `field.split(".")`. */
  function Split(field: string): seq<string>
    ensures |Split(field)| > 0
  {
    if field == "" then [""]
    else if field[0] == '.' then [""] + Split(field[1..])
    else var rest := Split(field[1..]); [[field[0]] + rest[0]] + rest[1..]
  }

  function JoinDots(parts: seq<string>): string {
    if parts == [] then "" else if |parts| == 1 then parts[0] else parts[0] + "." + JoinDots(parts[1..])
  }

  /** Splitting loses nothing and leaves no dot inside a part. */
  lemma {:induction false} SplitJoin(field: string)
    ensures JoinDots(Split(field)) == field
    ensures forall part | part in Split(field) :: '.' !in part
  {
    if field != "" {
      SplitJoin(field[1..]);
      var rest := Split(field[1..]);
      if field[0] == '.' {
        assert Split(field)[1..] == rest;
      } else {
        assert Split(field)[1..] == rest[1..];
        assert forall part | part in rest[1..] :: part in rest;
      }
    }
  }

  /** The only dot-free parts a field can be joined from are those it is split into. */
  lemma {:induction false} JoinSplit(parts: seq<string>)
    requires parts != [] && forall part | part in parts :: '.' !in part
    ensures Split(JoinDots(parts)) == parts
    decreases |parts|, |parts[0]|
  {
    var field := JoinDots(parts);
    if parts[0] == "" {
      if |parts| > 1 {
        assert field[1..] == JoinDots(parts[1..]);
        assert forall part | part in parts[1..] :: part in parts;
        JoinSplit(parts[1..]);
      }
    } else {
      var shorter := [parts[0][1..]] + parts[1..];
      assert parts[0] in parts && parts[0][0] in parts[0];
      assert shorter[1..] == parts[1..];
      assert field == [parts[0][0]] + JoinDots(shorter);
      assert field[1..] == JoinDots(shorter);
      assert forall part | part in shorter :: part in parts || part == parts[0][1..];
      JoinSplit(shorter);
      assert [parts[0][0]] + shorter[0] == parts[0];
    }
  }

  /** The patch for a path: one object inside the other, `value` innermost. */
  function PatchFor(parts: seq<string>, value: Json): Json
    requires parts != []
  {
    Obj(map[parts[0] := if |parts| == 1 then value else PatchFor(parts[1..], value)])
  }

  // ---- buildMergePatch as the source runs it ------------------------------------------------

  datatype Slot = Leaf(v: Json) | Ref(o: JsObject)

  class JsObject {
    var members: map<string, Slot>

    constructor ()
      ensures members == map[]
    {
      members := map[];
    }
  }

  /** The value an object graph stands for; references out of `repr` read as undefined. */
  ghost function Freeze(o: JsObject, repr: set<JsObject>): Json
    reads o, repr
    decreases repr
  {
    Obj(map key | key in o.members ::
          match o.members[key]
          case Leaf(v) => v
          case Ref(child) => if o in repr && child in repr - {o} then Freeze(child, repr - {o}) else Undefined)
  }

  ghost predicate Linked(chain: seq<JsObject>, parts: seq<string>, n: nat)
    requires n < |chain| && n <= |parts|
    reads chain
  {
    forall i | 0 <= i < n :: chain[i].members == map[parts[i] := Ref(chain[i + 1])]
  }

  ghost predicate Distinct(chain: seq<JsObject>) {
    forall i, j | 0 <= i < j < |chain| :: chain[i] != chain[j]
  }

  ghost function Nodes(chain: seq<JsObject>): set<JsObject> {
    set o | o in chain
  }

  lemma {:induction false} ChainFreezes(chain: seq<JsObject>, parts: seq<string>, value: Json)
    requires |chain| == |parts| > 0 && Distinct(chain) && Linked(chain, parts, |parts| - 1)
    requires chain[|chain| - 1].members == map[parts[|parts| - 1] := Leaf(value)]
    ensures Freeze(chain[0], Nodes(chain)) == PatchFor(parts, value)
  {
    if |parts| > 1 {
      var rest := chain[1..];
      assert rest[|rest| - 1] == chain[|chain| - 1];
      assert Linked(rest, parts[1..], |parts| - 2) by {
        forall i | 0 <= i < |parts| - 2 ensures rest[i].members == map[parts[1..][i] := Ref(rest[i + 1])] {
          assert chain[i + 1].members == map[parts[i + 1] := Ref(chain[i + 2])];
        }
      }
      ChainFreezes(rest, parts[1..], value);
      assert Nodes(rest) == Nodes(chain) - {chain[0]} by {
        forall o | o in Nodes(chain) - {chain[0]} ensures o in rest {
          var i :| 0 <= i < |chain| && chain[i] == o;
          assert rest[i - 1] == o;
        }
        forall o | o in rest ensures o in chain && o != chain[0] {
          var i :| 0 <= i < |rest| && rest[i] == o;
          assert chain[i + 1] == o;
        }
      }
      assert chain[0].members == map[parts[0] := Ref(chain[1])];
      assert chain[1] in Nodes(rest) && rest[0] == chain[1];
    } else {
      assert chain[0].members == map[parts[0] := Leaf(value)];
    }
    assert Freeze(chain[0], Nodes(chain)).fields == PatchFor(parts, value).fields;
  }

  /** Walks `current` down the objects it creates. */
  method BuildMergePatch(field: string, value: Json) returns (patch: JsObject, ghost repr: set<JsObject>)
    ensures fresh(repr) && patch in repr
    ensures Freeze(patch, repr) == if field == "" then Obj(map[]) else PatchFor(Split(field), value)
  {
    patch := new JsObject();
    if field == "" {
      repr := {patch};
      assert Freeze(patch, repr).fields == map[];
      return;
    }
    var parts := Split(field);
    var current := patch;
    ghost var chain := [patch];
    var i := 0;
    while i < |parts| - 1
      invariant 0 <= i < |parts|
      invariant |chain| == i + 1 && chain[0] == patch && chain[i] == current
      invariant Distinct(chain) && fresh(Nodes(chain)) && fresh(current)
      invariant Linked(chain, parts, i)
      invariant current.members == map[]
    {
      var child := new JsObject();
      assert child !in Nodes(chain);
      current.members := current.members[parts[i] := Ref(child)];
      assert current.members == map[parts[i] := Ref(child)];
      current := child;
      ghost var longer := chain + [child];
      assert Linked(longer, parts, i + 1) by {
        forall j | 0 <= j < i + 1 ensures longer[j].members == map[parts[j] := Ref(longer[j + 1])] {
          if j < i { assert chain[j] != chain[i]; }
        }
      }
      assert Nodes(longer) == Nodes(chain) + {child};
      chain := longer;
      i := i + 1;
    }
    assert forall j | 0 <= j < i :: chain[j] != current;
    current.members := current.members[parts[|parts| - 1] := Leaf(value)];
    assert current.members == map[parts[|parts| - 1] := Leaf(value)];
    repr := Nodes(chain);
    ChainFreezes(chain, parts, value);
  }

  // ---- What one path's patch does -------------------------------------------------------------

  /** Neither path leads through the other. */
  predicate Diverge(p: seq<string>, q: seq<string>) {
    p != [] && q != [] && (p[0] != q[0] || Diverge(p[1..], q[1..]))
  }

  lemma LookupAfter(target: Json, parts: seq<string>, value: Json, key: string)
    requires parts != []
    ensures Prop(Obj(Apply(Spread(target), PatchFor(parts, value))), key)
         == if key != parts[0] then Prop(target, key)
            else if |parts| == 1 then Delivered(Prop(target, key), value)
            else Obj(Apply(Spread(Prop(target, key)), PatchFor(parts[1..], value)))
  {
    AtKey(Spread(target), PatchFor(parts, value), key);
  }

  /** Applying the patch built for a path delivers the value there, through whatever
      the target holds on the way, and makes objects of all that lies above it. */
  lemma {:induction false} PathSet(target: Json, parts: seq<string>, value: Json, n: nat)
    requires parts != [] && n < |parts|
    ensures var result := Obj(Apply(Spread(target), PatchFor(parts, value)));
            && Lookup(result, parts) == Delivered(Lookup(target, parts), value)
            && Lookup(result, parts[..n]).Obj?
    decreases |parts|
  {
    LookupAfter(target, parts, value, parts[0]);
    if |parts| > 1 {
      PathSet(Prop(target, parts[0]), parts[1..], value, if n == 0 then 0 else n - 1);
      if n > 0 {
        assert parts[..n][1..] == parts[1..][..n - 1];
      }
    }
  }

  /** Applying the patch built for a path changes nothing off that path. */
  lemma {:induction false} OffPathUnchanged(target: Json, parts: seq<string>, value: Json, other: seq<string>)
    requires Diverge(parts, other)
    ensures Lookup(Obj(Apply(Spread(target), PatchFor(parts, value))), other) == Lookup(target, other)
    decreases |parts|
  {
    LookupAfter(target, parts, value, other[0]);
    if other[0] == parts[0] {
      OffPathUnchanged(Prop(target, parts[0]), parts[1..], value, other[1..]);
    }
  }

  /** A scalar fix for a dotted field: the field has the value, every path that does
      not meet the field has what it had. */
  lemma ScalarFix(config: Record, field: string, value: Json, other: seq<string>)
    requires field != "" && Scalar(value)
    ensures var fixed := Obj(Apply(config, PatchFor(Split(field), value)));
            && Lookup(fixed, Split(field)) == value
            && (Diverge(Split(field), other) ==> Lookup(fixed, other) == Lookup(Obj(config), other))
  {
    PathSet(Obj(config), Split(field), value, 0);
    if Diverge(Split(field), other) {
      OffPathUnchanged(Obj(config), Split(field), value, other);
    }
  }
}
