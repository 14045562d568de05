/** JavaScript values of the kind the services read from and write to JSON.

    An object is a map: two objects with the same keys and values are the same
    value, whatever order their keys were inserted in.  Documents with a key
    order are in module SortedDocs. */
module JsonValues {

  datatype Json =
    | Undefined
    | Null
    | Bool(b: bool)
    | Num(n: real)
    | Str(s: string)
    | Arr(items: seq<Json>)
    | Obj(fields: map<string, Json>)

  type Record = map<string, Json>

  /** Neither null nor undefined: what `??` and `?.` test for. */
  predicate Live(v: Json) {
    !v.Undefined? && !v.Null?
  }

  predicate Scalar(v: Json) {
    v.Bool? || v.Num? || v.Str?
  }

  predicate Truthy(v: Json) {
    match v
    case Undefined => false
    case Null => false
    case Bool(b) => b
    case Num(n) => n != 0.0
    case Str(s) => s != ""
    case Arr(_) => true
    case Obj(_) => true
  }

  /** `typeof v === "object"`, which holds of null as well. */
  predicate TypeofObject(v: Json) {
    v.Null? || v.Arr? || v.Obj?
  }

  function Get(m: Record, key: string): Json {
    if key in m then m[key] else Undefined
  }

  /** Decimal numeral of an array index, the property name of that element. */
  function Decimal(n: nat): string {
    if n < 10 then ['0' + n as char] else Decimal(n / 10) + ['0' + (n % 10) as char]
  }

  predicate Numeral(s: string) {
    forall i | 0 <= i < |s| :: '0' <= s[i] <= '9'
  }

  function Value(s: string): nat
    requires Numeral(s)
  {
    if s == "" then 0
    else 10 * Value(s[..|s| - 1]) + (s[|s| - 1] as int - '0' as int)
  }

  /** The numeral of a number has that value, and no zero in front. */
  lemma {:induction false} DecimalValue(n: nat)
    ensures var s := Decimal(n); s != "" && Numeral(s) && Value(s) == n && (s[0] == '0' ==> n == 0 && s == "0")
  {
    var s := Decimal(n);
    if n < 10 {
      assert s[..0] == "";
    } else {
      DecimalValue(n / 10);
      assert s[..|s| - 1] == Decimal(n / 10) && s[0] == Decimal(n / 10)[0];
    }
  }

  function Indexed(items: seq<Json>): Record {
    if items == [] then map[]
    else Indexed(items[..|items| - 1])[Decimal(|items| - 1) := items[|items| - 1]]
  }

  /** Element `i` stands under the numeral of `i`, and nothing else is there. */
  lemma {:induction false} ElementAt(items: seq<Json>, key: string, n: nat)
    ensures Get(Indexed(items), Decimal(n)) == if n < |items| then items[n] else Undefined
    ensures key in Indexed(items) <==> exists i: nat :: i < |items| && key == Decimal(i)
  {
    if items != [] {
      var last := |items| - 1;
      ElementAt(items[..last], key, n);
      DecimalValue(n);
      DecimalValue(last);
      assert key == Decimal(last) || key in Indexed(items[..last]) <==> key in Indexed(items);
    }
  }

  /** The own properties `{...v}` copies.  Strings spread one character at a
      time, arrays by index; numbers, booleans, null and undefined spread nothing. */
  function Spread(v: Json): Record {
    match v
    case Obj(m) => m
    case Arr(xs) => Indexed(xs)
    case Str(s) => Indexed(seq(|s|, i requires 0 <= i < |s| => Str([s[i]])))
    case _ => map[]
  }

  /** `v?.key`, restricted to own properties. */
  function Prop(v: Json, key: string): Json {
    Get(Spread(v), key)
  }

  /** The value at the end of a property path. */
  function Lookup(v: Json, path: seq<string>): Json
    decreases |path|
  {
    if path == [] then v else Lookup(Prop(v, path[0]), path[1..])
  }
}
