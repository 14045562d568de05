/** The text that is hashed: `JSON.stringify` of a key-sorted config, for
    `generateConfigHash` of apps/api/src/reconciler/config-generator.service.ts. */
module JsonText {
  import opened JsonValues
  import opened SortedDocs

  // ---- What stringify leaves out --------------------------------------------------------

  /** Members that hold undefined are dropped, undefined elements become null. */
  function Clean(d: Doc): Doc
    decreases d
  {
    match d
    case Atom(v) => if v.Undefined? then Atom(Null) else d
    case List(xs) => List(seq(|xs|, i requires 0 <= i < |xs| => Clean(xs[i])))
    case Rec(es) => Rec(CleanEntries(es))
  }

  function CleanEntries(es: seq<Entry>): seq<Entry>
    decreases es
  {
    if es == [] then []
    else (if es[0].value == Atom(Undefined) then [] else [Entry(es[0].key, Clean(es[0].value))]) + CleanEntries(es[1..])
  }

  function CleanJson(v: Json): Json {
    match v
    case Undefined => Null
    case Arr(xs) => Arr(seq(|xs|, i requires 0 <= i < |xs| => CleanJson(xs[i])))
    case Obj(m) => Obj(map key | key in m && !m[key].Undefined? :: CleanJson(m[key]))
    case _ => v
  }

  lemma {:induction false} CleanMembers(es: seq<Entry>)
    ensures forall e | e in es && e.value != Atom(Undefined) :: Entry(e.key, Clean(e.value)) in CleanEntries(es)
    ensures forall f | f in CleanEntries(es) ::
              exists e | e in es :: e.value != Atom(Undefined) && f == Entry(e.key, Clean(e.value))
  {
    if es != [] {
      CleanMembers(es[1..]);
      assert es == [es[0]] + es[1..];
    }
  }

  lemma {:induction false} CleanSorted(es: seq<Entry>)
    requires SortedBy(es)
    ensures SortedBy(CleanEntries(es))
  {
    if es != [] {
      CleanSorted(es[1..]);
      CleanMembers(es[1..]);
      var rest := CleanEntries(es[1..]);
      forall j | 0 <= j < |rest| ensures KeyBefore(es[0].key, rest[j].key) {
        assert rest[j] in rest;
        var e :| e in es[1..] && rest[j] == Entry(e.key, Clean(e.value));
        var i :| 0 <= i < |es[1..]| && es[1..][i] == e;
        assert es[i + 1] == e;
      }
    }
  }

  lemma {:induction false} CleanDistinct(es: seq<Entry>)
    requires DistinctKeys(es)
    ensures DistinctKeys(CleanEntries(es))
  {
    if es != [] {
      CleanDistinct(es[1..]);
      CleanMembers(es[1..]);
      var rest := CleanEntries(es[1..]);
      forall j | 0 <= j < |rest| ensures es[0].key != rest[j].key {
        assert rest[j] in rest;
        var e :| e in es[1..] && rest[j] == Entry(e.key, Clean(e.value));
        var i :| 0 <= i < |es[1..]| && es[1..][i] == e;
        assert es[i + 1] == e;
      }
    }
  }

  /** Leaving things out commutes with forgetting the order of keys. */
  lemma {:induction false} CleanMeaning(d: Doc)
    requires WellFormed(d)
    ensures WellFormed(Clean(d)) && Meaning(Clean(d)) == CleanJson(Meaning(d))
    ensures DeepSorted(d) ==> DeepSorted(Clean(d))
    decreases d
  {
    match d
    case Atom(_) =>
    case List(xs) =>
      forall x | x in xs
        ensures WellFormed(Clean(x)) && Meaning(Clean(x)) == CleanJson(Meaning(x))
        ensures DeepSorted(x) ==> DeepSorted(Clean(x))
      {
        CleanMeaning(x);
      }
      var ys := Clean(d).items;
      assert forall i | 0 <= i < |xs| :: ys[i] == Clean(xs[i]) && xs[i] in xs;
    case Rec(es) =>
      forall e | e in es
        ensures WellFormed(Clean(e.value)) && Meaning(Clean(e.value)) == CleanJson(Meaning(e.value))
        ensures DeepSorted(e.value) ==> DeepSorted(Clean(e.value))
      {
        CleanMeaning(e.value);
      }
      CleanRecord(es);
  }

  lemma CleanRecord(es: seq<Entry>)
    requires DistinctKeys(es)
    requires forall e | e in es ::
               && WellFormed(e.value) && WellFormed(Clean(e.value))
               && Meaning(Clean(e.value)) == CleanJson(Meaning(e.value))
               && (DeepSorted(e.value) ==> DeepSorted(Clean(e.value)))
    ensures WellFormed(Rec(CleanEntries(es))) && RecordOf(CleanEntries(es)) == CleanJson(Obj(RecordOf(es))).fields
    ensures DeepSorted(Rec(es)) ==> DeepSorted(Rec(CleanEntries(es)))
  {
    CleanDistinct(es);
    CleanMembers(es);
    if SortedBy(es) { CleanSorted(es); }
    CleanFields(es);
  }

  lemma CleanPut(m: Record, key: string, v: Json)
    requires key !in m
    ensures CleanJson(Obj(m[key := v])).fields
            == if v.Undefined? then CleanJson(Obj(m)).fields else CleanJson(Obj(m)).fields[key := CleanJson(v)]
  {
  }

  lemma HeadKeyNew(es: seq<Entry>)
    requires DistinctKeys(es) && es != []
    ensures DistinctKeys(es[1..]) && es[0].key !in RecordOf(es[1..])
  {
    RecordMembers(es[1..], es[0]);
    forall x | x in es[1..] ensures x.key != es[0].key {
      var i :| 0 <= i < |es[1..]| && es[1..][i] == x;
      assert es[i + 1] == x;
    }
  }

  lemma {:induction false} CleanFields(es: seq<Entry>)
    requires DistinctKeys(es) && forall e | e in es :: Meaning(Clean(e.value)) == CleanJson(Meaning(e.value))
    ensures RecordOf(CleanEntries(es)) == CleanJson(Obj(RecordOf(es))).fields
  {
    if es != [] {
      var v := es[0].value;
      HeadKeyNew(es);
      CleanFields(es[1..]);
      CleanPut(RecordOf(es[1..]), es[0].key, Meaning(v));
      if v != Atom(Undefined) {
        var first := Entry(es[0].key, Clean(v));
        assert CleanEntries(es) == [first] + CleanEntries(es[1..]);
        assert CleanEntries(es)[1..] == CleanEntries(es[1..]);
      } else {
        assert CleanEntries(es) == CleanEntries(es[1..]);
      }
    }
  }

  /** Exactly what is left out: members that hold undefined; an undefined element counts
      as null. */
  lemma {:induction false} LeftOut(d: Doc)
    requires WellFormed(d)
    ensures d.Rec? ==> forall e | e in d.entries ::
                         e.key in CleanJson(Meaning(d)).fields <==> e.value != Atom(Undefined)
    ensures d.List? ==> forall i | 0 <= i < |d.items| ::
                          CleanJson(Meaning(d)).items[i] == Null <==>
                            d.items[i] == Atom(Null) || d.items[i] == Atom(Undefined)
  {
    if d.Rec? {
      forall e | e in d.entries {
        RecordMembers(d.entries, e);
      }
    }
  }

  // ---- The text ---------------------------------------------------------------------------

  function HexDigit(n: int): char
    requires 0 <= n < 16
  {
    if n < 10 then '0' + n as char else 'a' + (n - 10) as char
  }

  /** QuoteJSONString of ECMA-262, section 25.5.2.3, one character at a time. */
  function QuoteChar(c: char): string {
    if c == '"' then "\\\""
    else if c == '\\' then "\\\\"
    else if c as int == 8 then "\\b"
    else if c as int == 9 then "\\t"
    else if c as int == 10 then "\\n"
    else if c as int == 12 then "\\f"
    else if c as int == 13 then "\\r"
    else if c as int < 32 then ['\\', 'u', '0', '0', HexDigit(c as int / 16), HexDigit(c as int % 16)]
    else [c]
  }

  /** A string from after its opening quote. */
  function Quoted(s: string): string {
    if s == "" then "\"" else QuoteChar(s[0]) + Quoted(s[1..])
  }

  type Numbers = real -> string

  /** `JSON.stringify` without indentation; the text of numbers is a parameter. */
  function Text(d: Doc, number: Numbers): string
    decreases d, 2
  {
    match d
    case Atom(v) =>
      (match v
       case Bool(b) => if b then "true" else "false"
       case Num(n) => number(n)
       case Str(s) => "\"" + Quoted(s)
       case _ => "null")
    case List(xs) => "[" + OpenList(xs, number)
    case Rec(es) => "{" + OpenRecord(es, number)
  }

  /** A list from after its bracket, or after a comma. */
  function OpenList(xs: seq<Doc>, number: Numbers): string
    decreases xs, 0
  {
    if xs == [] then "]" else Text(xs[0], number) + MoreItems(xs[1..], number)
  }

  function MoreItems(xs: seq<Doc>, number: Numbers): string
    decreases xs, 1
  {
    if xs == [] then "]" else "," + OpenList(xs, number)
  }

  function OpenRecord(es: seq<Entry>, number: Numbers): string
    decreases es, 0
  {
    if es == [] then "}"
    else "\"" + Quoted(es[0].key) + ":" + Text(es[0].value, number) + MoreEntries(es[1..], number)
  }

  function MoreEntries(es: seq<Entry>, number: Numbers): string
    decreases es, 1
  {
    if es == [] then "}" else "," + OpenRecord(es, number)
  }
}
