/** JSON merge patches: apps/api/src/security/security-audit.service.ts. */
module MergePatch {
  import opened JsonValues

  // ---- applyMergePatch -----------------------------------------------------------

  /** `patch` is an object.  A null member deletes, an object member patches what
      `{...(result[key] || {})}` copies from the old value, anything else replaces. */
  function Apply(target: Record, patch: Json): Record
    requires patch.Obj?
    decreases patch
  {
    map key | key in target.Keys + patch.fields.Keys && !Get(patch.fields, key).Null? ::
      if key !in patch.fields then target[key]
      else if patch.fields[key].Obj? then Obj(Apply(Spread(Get(target, key)), patch.fields[key]))
      else patch.fields[key]
  }

  /** What one member of a patch turns an old value into. */
  function Delivered(held: Json, value: Json): Json {
    if value.Null? then Undefined
    else if value.Obj? then Obj(Apply(Spread(held), value))
    else value
  }

  lemma AtKey(target: Record, patch: Json, key: string)
    requires patch.Obj?
    ensures key in Apply(target, patch)
       <==> if key in patch.fields then !patch.fields[key].Null? else key in target
    ensures Get(Apply(target, patch), key)
         == if key !in patch.fields then Get(target, key) else Delivered(Get(target, key), patch.fields[key])
  {
  }

  /** The state of the entry loop: members outside `left` have been delivered. */
  ghost predicate Patched(result: Record, target: Record, entries: Record, left: set<string>) {
    forall key: string ::
      if key in entries && key !in left
      then (key in result <==> !entries[key].Null?) && Get(result, key) == Delivered(Get(target, key), entries[key])
      else (key in result <==> key in target) && Get(result, key) == Get(target, key)
  }

  lemma PatchedAll(result: Record, target: Record, patch: Json)
    requires patch.Obj? && Patched(result, target, patch.fields, {})
    ensures result == Apply(target, patch)
  {
    var full := Apply(target, patch);
    forall key ensures (key in result <==> key in full) && Get(result, key) == Get(full, key) {
      AtKey(target, patch, key);
    }
    assert forall key | key in result :: Get(result, key) == result[key] == Get(full, key) == full[key];
  }

  lemma OrEmpty(v: Json)
    ensures Spread(if Truthy(v) then v else Obj(map[])) == Spread(v)
  {
  }

  method ApplyMergePatch(target: Json, patch: Json) returns (result: Record)
    requires patch.Obj?
    ensures result == Apply(Spread(target), patch)
    decreases patch
  {
    result := Spread(target);
    var entries := patch.fields;
    var left := entries.Keys;
    while left != {}
      invariant left <= entries.Keys
      invariant Patched(result, Spread(target), entries, left)
      decreases |left|
    {
      var key :| key in left;
      var value := entries[key];
      var held := Get(result, key);
      if value.Null? {
        result := result - {key};
      } else if value.Obj? {
        OrEmpty(held);
        var member := ApplyMergePatch(if Truthy(held) then held else Obj(map[]), value);
        result := result[key := Obj(member)];
      } else {
        result := result[key := value];
      }
      left := left - {key};
    }
    PatchedAll(result, Spread(target), patch);
  }

  /** Applying a patch twice is applying it once. */
  lemma {:induction false} ApplyIdempotent(target: Record, patch: Json)
    requires patch.Obj?
    ensures Apply(Apply(target, patch), patch) == Apply(target, patch)
    decreases patch
  {
    var once := Apply(target, patch);
    var twice := Apply(once, patch);
    assert once.Keys == twice.Keys;
    forall key | key in once ensures twice[key] == once[key] {
      if key in patch.fields && patch.fields[key].Obj? {
        ApplyIdempotent(Spread(Get(target, key)), patch.fields[key]);
      }
    }
  }

  // ---- Against RFC 7396 ------------------------------------------------------------

  /** MergePatch of section 2 of RFC 7396. */
  function Rfc7396(target: Json, patch: Json): Json
    decreases patch
  {
    if !patch.Obj? then patch
    else
      var base := if target.Obj? then target.fields else map[];
      Obj(map key | key in base.Keys + patch.fields.Keys && !Get(patch.fields, key).Null? ::
            if key !in patch.fields then base[key] else Rfc7396(Get(base, key), patch.fields[key]))
  }

  /** The patch overwrites or deletes everything that spreading left behind. */
  predicate Covers(patch: Json, leftover: Record)
    requires patch.Obj?
    decreases patch
  {
    forall key | key in leftover ::
      && key in patch.fields
      && (patch.fields[key].Obj? ==> Covers(patch.fields[key], Spread(leftover[key])))
  }

  /** Wherever an object patches something that is not an object, it covers the
      characters or elements that value spreads into. */
  predicate Conforming(target: Record, patch: Json)
    requires patch.Obj?
    decreases patch
  {
    forall key | key in patch.fields && patch.fields[key].Obj? ::
      var held := Get(target, key);
      if held.Obj? then Conforming(held.fields, patch.fields[key]) else Covers(patch.fields[key], Spread(held))
  }

  lemma {:induction false} CoverExact(leftover: Record, patch: Json)
    requires patch.Obj?
    ensures Obj(Apply(leftover, patch)) == Rfc7396(Undefined, patch) <==> Covers(patch, leftover)
    decreases patch
  {
    var ours, rfc := Apply(leftover, patch), Rfc7396(Undefined, patch).fields;
    forall key | key in patch.fields && patch.fields[key].Obj? {
      CoverExact(Spread(Get(leftover, key)), patch.fields[key]);
    }
    assert rfc.Keys <= ours.Keys;
    if Covers(patch, leftover) {
      assert ours.Keys == rfc.Keys;
      forall key | key in ours ensures ours[key] == rfc[key] {
        assert key in patch.fields && rfc[key] == Rfc7396(Undefined, patch.fields[key]);
        if patch.fields[key].Obj? {
          assert Covers(patch.fields[key], Spread(Get(leftover, key)));
        }
      }
    } else {
      var key :| key in leftover
                 && !(key in patch.fields
                      && (patch.fields[key].Obj? ==> Covers(patch.fields[key], Spread(leftover[key]))));
      if key in patch.fields {
        assert ours[key] != rfc[key];
      } else {
        assert key in ours && key !in rfc;
      }
    }
  }

  /** Exactly when applyMergePatch computes the MergePatch of RFC 7396. */
  lemma {:induction false} RfcExact(target: Record, patch: Json)
    requires patch.Obj?
    ensures Obj(Apply(target, patch)) == Rfc7396(Obj(target), patch) <==> Conforming(target, patch)
    decreases patch
  {
    var ours, rfc := Apply(target, patch), Rfc7396(Obj(target), patch).fields;
    assert ours.Keys == rfc.Keys;
    forall key | key in patch.fields && patch.fields[key].Obj?
      ensures var held := Get(target, key);
              ours[key] == rfc[key] <==>
                if held.Obj? then Conforming(held.fields, patch.fields[key])
                else Covers(patch.fields[key], Spread(held))
    {
      var held := Get(target, key);
      if held.Obj? {
        RfcExact(held.fields, patch.fields[key]);
      } else {
        CoverExact(Spread(held), patch.fields[key]);
        assert Rfc7396(held, patch.fields[key]) == Rfc7396(Undefined, patch.fields[key]);
      }
    }
    if Conforming(target, patch) {
      forall key | key in ours ensures ours[key] == rfc[key] {
        assert key in patch.fields ==> rfc[key] == Rfc7396(Get(target, key), patch.fields[key]);
      }
    } else {
      var key :| key in patch.fields && patch.fields[key].Obj?
                 && !(var held := Get(target, key);
                      if held.Obj? then Conforming(held.fields, patch.fields[key])
                      else Covers(patch.fields[key], Spread(held)));
      assert ours[key] != rfc[key];
    }
  }

  /** No object of the patch meets a non-empty string or array. */
  predicate NoTextOrList(target: Record, patch: Json)
    requires patch.Obj?
    decreases patch
  {
    forall key | key in patch.fields && patch.fields[key].Obj? ::
      match Get(target, key)
      case Str(s) => s == ""
      case Arr(xs) => xs == []
      case Obj(m) => NoTextOrList(m, patch.fields[key])
      case _ => true
  }

  lemma {:induction false} RfcOnObjects(target: Record, patch: Json)
    requires patch.Obj? && NoTextOrList(target, patch)
    ensures Obj(Apply(target, patch)) == Rfc7396(Obj(target), patch)
  {
    NoTextConforms(target, patch);
    RfcExact(target, patch);
  }

  lemma {:induction false} NoTextConforms(target: Record, patch: Json)
    requires patch.Obj? && NoTextOrList(target, patch)
    ensures Conforming(target, patch)
    decreases patch
  {
    forall key | key in patch.fields && patch.fields[key].Obj?
      ensures var held := Get(target, key);
              if held.Obj? then Conforming(held.fields, patch.fields[key]) else Covers(patch.fields[key], Spread(held))
    {
      if Get(target, key).Obj? { NoTextConforms(Get(target, key).fields, patch.fields[key]); }
    }
  }

  /** What an object patch leaves under a numeral that it does not name: a list has kept its
      elements as members, a string its characters, and other scalars have left nothing. */
  lemma {:induction false} PartsKept(target: Record, patch: Json, key: string, n: nat)
    requires patch.Obj? && key in patch.fields && patch.fields[key].Obj? && Decimal(n) !in patch.fields[key].fields
    ensures Prop(Get(Apply(target, patch), key), Decimal(n))
            == match Get(target, key)
               case Obj(m) => Get(m, Decimal(n))
               case Arr(xs) => if n < |xs| then xs[n] else Undefined
               case Str(s) => if n < |s| then Str([s[n]]) else Undefined
               case _ => Undefined
  {
    AtKey(target, patch, key);
    var held := Get(target, key);
    AtKey(Spread(held), patch.fields[key], Decimal(n));
    match held
    case Arr(xs) => ElementAt(xs, "", n);
    case Str(s) => ElementAt(seq(|s|, i requires 0 <= i < |s| => Str([s[i]])), "", n);
    case _ =>
  }

  /** A string under an object patch keeps its characters: not RFC 7396. */
  lemma TextSurvives(target: Record, patch: Json)
    requires target == map["host" := Str("x")]
    requires patch == Obj(map["host" := Obj(map["port" := Num(1.0)])])
    ensures Apply(target, patch) == map["host" := Obj(map["0" := Str("x"), "port" := Num(1.0)])]
    ensures Rfc7396(Obj(target), patch) == patch
    ensures !Conforming(target, patch)
  {
    TextSpreads();
    RfcDropsText(target, patch);
    RfcExact(target, patch);
    assert "0" in Apply(target, patch)["host"].fields;
  }

  lemma TextSpreads()
    ensures Spread(Str("x")) == map["0" := Str("x")]
    ensures Apply(map["0" := Str("x")], Obj(map["port" := Num(1.0)])) == map["0" := Str("x"), "port" := Num(1.0)]
  {
    assert seq(1, i requires 0 <= i < 1 => Str(["x"[i]])) == [Str("x")];
    assert Decimal(0) == "0";
    assert Indexed([Str("x")][..0]) == map[];
  }

  lemma RfcDropsText(target: Record, patch: Json)
    requires target == map["host" := Str("x")]
    requires patch == Obj(map["host" := Obj(map["port" := Num(1.0)])])
    ensures Rfc7396(Obj(target), patch) == patch
  {
    var member := patch.fields["host"];
    assert Rfc7396(Str("x"), member).fields == member.fields;
    assert Rfc7396(Obj(target), patch).fields == patch.fields;
  }
}
