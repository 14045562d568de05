/** Documents with a key order, and the key sorting that precedes hashing:
    `sortKeys` of apps/api/src/reconciler/config-generator.service.ts. */
module SortedDocs {
  import opened JsonValues

  datatype Doc = Atom(v: Json) | List(items: seq<Doc>) | Rec(entries: seq<Entry>)

  /** The entries of an object in enumeration order. */
  datatype Entry = Entry(key: string, value: Doc)

  predicate DistinctKeys(es: seq<Entry>) {
    forall i, j | 0 <= i < j < |es| :: es[i].key != es[j].key
  }

  predicate WellFormed(d: Doc) {
    match d
    case Atom(v) => !v.Arr? && !v.Obj?
    case List(xs) => forall x | x in xs :: WellFormed(x)
    case Rec(es) => DistinctKeys(es) && forall e | e in es :: WellFormed(e.value)
  }

  /** The JSON value a document stands for; the order of keys is forgotten. */
  function Meaning(d: Doc): Json
    decreases d
  {
    match d
    case Atom(v) => v
    case List(xs) => Arr(seq(|xs|, i requires 0 <= i < |xs| => Meaning(xs[i])))
    case Rec(es) => Obj(RecordOf(es))
  }

  function RecordOf(es: seq<Entry>): Record
    decreases es
  {
    if es == [] then map[] else RecordOf(es[1..])[es[0].key := Meaning(es[0].value)]
  }

  // ---- The two orders of keys ---------------------------------------------------------

  /** A character as UTF-16 code units. */
  function CodeUnits(c: char): seq<int> {
    if c as int < 0x10000 then [c as int]
    else [0xD800 + (c as int - 0x10000) / 0x400, 0xDC00 + (c as int - 0x10000) % 0x400]
  }

  function Encoded(s: string): seq<int> {
    if s == "" then [] else CodeUnits(s[0]) + Encoded(s[1..])
  }

  /** The order of `Array.prototype.sort()`. */
  predicate UnitsBefore(a: seq<int>, b: seq<int>) {
    b != [] && (a == [] || a[0] < b[0] || (a[0] == b[0] && UnitsBefore(a[1..], b[1..])))
  }

  /** The surrogates of a character beyond the first plane come before the last 8192
      characters of that plane. */
  function Rank(c: char): int {
    if 0xE000 <= c as int < 0x10000 then c as int + 0x110000 else c as int
  }

  /** The same order, told from the characters. */
  predicate Lex(a: string, b: string) {
    b != "" && (a == "" || Rank(a[0]) < Rank(b[0]) || (a[0] == b[0] && Lex(a[1..], b[1..])))
  }

  lemma RankDistinct(c: char, d: char)
    requires Rank(c) == Rank(d)
    ensures c == d
  {
    assert c as int == d as int;
    assert c == c as int as char;
  }

  lemma OneUnit(c: char, x: seq<int>)
    requires |CodeUnits(c)| == 1
    ensures (CodeUnits(c) + x)[0] == c as int && (CodeUnits(c) + x)[1..] == x
  {
  }

  lemma TwoUnits(c: char, x: seq<int>)
    requires |CodeUnits(c)| == 2
    ensures var u, m := CodeUnits(c) + x, c as int - 0x10000;
            && u[0] == 0xD800 + m / 0x400 && |u[1..]| > 0 && u[1..][0] == 0xDC00 + m % 0x400 && u[1..][1..] == x
            && m == m / 0x400 * 0x400 + m % 0x400
  {
  }

  lemma CharOrder(c: char, d: char, x: seq<int>, y: seq<int>)
    ensures UnitsBefore(CodeUnits(c) + x, CodeUnits(d) + y)
            <==> Rank(c) < Rank(d) || (c == d && UnitsBefore(x, y))
  {
    if |CodeUnits(c)| == 2 { TwoUnits(c, x); } else { OneUnit(c, x); }
    if |CodeUnits(d)| == 2 { TwoUnits(d, y); } else { OneUnit(d, y); }
    if Rank(c) == Rank(d) { RankDistinct(c, d); }
  }

  /** Comparing characters by rank is comparing strings by code units. */
  lemma {:induction false} LexIsUnitOrder(a: string, b: string)
    ensures Lex(a, b) <==> UnitsBefore(Encoded(a), Encoded(b))
  {
    if a != "" && b != "" {
      LexIsUnitOrder(a[1..], b[1..]);
      CharOrder(a[0], b[0], Encoded(a[1..]), Encoded(b[1..]));
    }
  }

  const MAX_INDEX := 0xFFFF_FFFE

  /** Array-index keys, which objects enumerate before all others, by value. */
  predicate IsIndex(s: string) {
    s != "" && Numeral(s) && (s[0] == '0' ==> s == "0") && Value(s) <= MAX_INDEX
  }

  /** The key is the numeral of this number, and the number below 2^32 - 1. */
  predicate NamesIndex(key: string, n: nat) {
    key == Decimal(n) && n <= 4294967294
  }

  /** Array-index keys are the numerals of the numbers below 2^32 - 1. */
  lemma {:induction false} IndexKeys(s: string)
    ensures IsIndex(s) <==> exists n: nat :: NamesIndex(s, n)
    ensures IsIndex(s) ==> NamesIndex(s, Value(s))
  {
    if IsIndex(s) {
      DecimalValue(Value(s));
      IndexDistinct(s, Decimal(Value(s)));
      assert NamesIndex(s, Value(s));
    }
    forall n: nat | NamesIndex(s, n) ensures IsIndex(s) {
      DecimalValue(n);
    }
  }

  /** The enumeration order of an object whose other keys were added in `Lex` order. */
  predicate KeyBefore(a: string, b: string) {
    if IsIndex(a) then IsIndex(b) ==> Value(a) < Value(b)
    else !IsIndex(b) && Lex(a, b)
  }

  lemma LexTotal(a: string, b: string)
    ensures a == b || Lex(a, b) || Lex(b, a)
    ensures !(Lex(a, b) && Lex(b, a)) && !Lex(a, a)
  {
    if a != "" && b != "" && Rank(a[0]) == Rank(b[0]) {
      RankDistinct(a[0], b[0]);
      LexTotal(a[1..], b[1..]);
      assert a == [a[0]] + a[1..] && b == [b[0]] + b[1..];
    }
    if a != "" { LexTotal(a[1..], a[1..]); }
  }

  lemma LexTransitive(a: string, b: string, c: string)
    requires Lex(a, b) && Lex(b, c)
    ensures Lex(a, c)
  {
    if a != "" && a[0] == b[0] && b[0] == c[0] { LexTransitive(a[1..], b[1..], c[1..]); }
  }

  lemma {:induction false} PositiveValue(s: string)
    requires s != "" && Numeral(s) && s[0] != '0'
    ensures Value(s) > 0
  {
    if |s| > 1 {
      PositiveValue(s[..|s| - 1]);
    }
  }

  lemma {:induction false} NumeralsDistinct(a: string, b: string)
    requires Numeral(a) && Numeral(b) && Value(a) == Value(b)
    requires (a != "" ==> a[0] != '0') && (b != "" ==> b[0] != '0')
    ensures a == b
  {
    if a == "" || b == "" {
      if a != "" { PositiveValue(a); }
      if b != "" { PositiveValue(b); }
    } else {
      var p, q := a[..|a| - 1], b[..|b| - 1];
      NumeralsDistinct(p, q);
      assert a == p + [a[|a| - 1]] && b == q + [b[|b| - 1]];
    }
  }

  lemma IndexDistinct(a: string, b: string)
    requires IsIndex(a) && IsIndex(b) && Value(a) == Value(b)
    ensures a == b
  {
    if a[0] != '0' && b[0] != '0' {
      NumeralsDistinct(a, b);
    } else {
      assert Value("0"[..0]) == 0;
      assert Value("0") == 0;
      if a[0] != '0' { PositiveValue(a); }
      if b[0] != '0' { PositiveValue(b); }
    }
  }

  lemma KeyOrder(a: string, b: string, c: string)
    ensures a == b || KeyBefore(a, b) || KeyBefore(b, a)
    ensures !(KeyBefore(a, b) && KeyBefore(b, a)) && !KeyBefore(a, a)
    ensures KeyBefore(a, b) && KeyBefore(b, c) ==> KeyBefore(a, c)
  {
    LexTotal(a, b);
    LexTotal(a, a);
    if IsIndex(a) && IsIndex(b) && Value(a) == Value(b) { IndexDistinct(a, b); }
    if Lex(a, b) && Lex(b, c) { LexTransitive(a, b, c); }
  }

  // ---- sortKeys as a function ------------------------------------------------------------

  /** Adds a property the way an object orders its own: an index key among the index
      keys, any other key at the end. */
  function Put(es: seq<Entry>, e: Entry): seq<Entry> {
    if !IsIndex(e.key) then es + [e]
    else if es == [] || KeyBefore(e.key, es[0].key) then [e] + es
    else [es[0]] + Put(es[1..], e)
  }

  function PutAll(es: seq<Entry>): seq<Entry> {
    if es == [] then [] else Put(PutAll(es[..|es| - 1]), es[|es| - 1])
  }

  function LexInsert(e: Entry, es: seq<Entry>): seq<Entry> {
    if es == [] || Lex(e.key, es[0].key) then [e] + es else [es[0]] + LexInsert(e, es[1..])
  }

  function LexSort(es: seq<Entry>): seq<Entry> {
    if es == [] then [] else LexInsert(es[0], LexSort(es[1..]))
  }

  function SortKeys(d: Doc): Doc
    decreases d
  {
    match d
    case Atom(v) => d
    case List(xs) => List(seq(|xs|, i requires 0 <= i < |xs| => SortKeys(xs[i])))
    case Rec(es) => Rec(PutAll(LexSort(SortValues(es))))
  }

  function SortValues(es: seq<Entry>): seq<Entry>
    decreases es
  {
    seq(|es|, i requires 0 <= i < |es| => Entry(es[i].key, SortKeys(es[i].value)))
  }

  // ---- Arranging the entries of one object ---------------------------------------------------

  predicate SortedBy(es: seq<Entry>) {
    forall i, j | 0 <= i < j < |es| :: KeyBefore(es[i].key, es[j].key)
  }

  predicate LexSorted(es: seq<Entry>) {
    forall i, j | 0 <= i < j < |es| :: Lex(es[i].key, es[j].key)
  }

  ghost predicate SameMembers(a: seq<Entry>, b: seq<Entry>) {
    forall e: Entry :: e in a <==> e in b
  }

  lemma LexInserted(e: Entry, es: seq<Entry>)
    requires LexSorted(es) && forall x | x in es :: x.key != e.key
    ensures LexSorted(LexInsert(e, es)) && SameMembers(LexInsert(e, es), [e] + es)
  {
    if es != [] {
      LexTotal(e.key, es[0].key);
      if Lex(e.key, es[0].key) {
        forall j | 0 <= j < |es| ensures Lex(e.key, es[j].key) {
          if j > 0 { LexTransitive(e.key, es[0].key, es[j].key); }
        }
      } else {
        LexInserted(e, es[1..]);
        var tail := LexInsert(e, es[1..]);
        assert es[0] in es;
        forall j | 0 <= j < |tail| ensures Lex(es[0].key, tail[j].key) {
          assert tail[j] in [e] + es[1..];
        }
        assert es == [es[0]] + es[1..];
      }
    }
  }

  lemma {:induction false} LexSortSorts(es: seq<Entry>)
    requires DistinctKeys(es)
    ensures LexSorted(LexSort(es)) && SameMembers(LexSort(es), es)
  {
    if es != [] {
      LexSortSorts(es[1..]);
      assert es == [es[0]] + es[1..];
      forall x | x in LexSort(es[1..]) ensures x.key != es[0].key {
        assert x in es[1..];
        var i :| 0 <= i < |es[1..]| && es[1..][i] == x;
        assert es[i + 1] == x;
      }
      LexInserted(es[0], LexSort(es[1..]));
    }
  }

  lemma {:induction false} PutSorts(es: seq<Entry>, e: Entry)
    requires SortedBy(es) && forall x | x in es :: x.key != e.key && (!IsIndex(x.key) ==> Lex(x.key, e.key))
    ensures SortedBy(Put(es, e)) && SameMembers(Put(es, e), [e] + es)
  {
    if !IsIndex(e.key) {
      assert forall i | 0 <= i < |es| :: es[i] in es;
    } else if es != [] {
      KeyOrder(e.key, es[0].key, e.key);
      assert es[0] in es;
      if KeyBefore(e.key, es[0].key) {
        forall j | 0 <= j < |es| ensures KeyBefore(e.key, es[j].key) {
          if j > 0 { KeyOrder(e.key, es[0].key, es[j].key); }
        }
      } else {
        PutSorts(es[1..], e);
        var tail := Put(es[1..], e);
        forall j | 0 <= j < |tail| ensures KeyBefore(es[0].key, tail[j].key) {
          assert tail[j] in [e] + es[1..];
        }
        assert es == [es[0]] + es[1..];
      }
    }
  }

  lemma {:induction false} PutAllSorts(es: seq<Entry>)
    requires LexSorted(es)
    ensures SortedBy(PutAll(es)) && SameMembers(PutAll(es), es)
  {
    if es != [] {
      var init, last := es[..|es| - 1], es[|es| - 1];
      PutAllSorts(init);
      forall x | x in PutAll(init) ensures x.key != last.key && Lex(x.key, last.key) {
        assert x in init;
        var i :| 0 <= i < |init| && init[i] == x;
        assert es[i] == x;
        LexTotal(x.key, last.key);
      }
      PutSorts(PutAll(init), last);
      assert es == init + [last];
    }
  }

  lemma Arranged(es: seq<Entry>)
    requires DistinctKeys(es)
    ensures SortedBy(PutAll(LexSort(es))) && SameMembers(PutAll(LexSort(es)), es)
  {
    LexSortSorts(es);
    PutAllSorts(LexSort(es));
  }

  /** A sorted entry list is determined by its members. */
  lemma {:induction false} SortedUnique(a: seq<Entry>, b: seq<Entry>)
    requires SortedBy(a) && SortedBy(b) && SameMembers(a, b)
    ensures a == b
  {
    assert |a| > 0 ==> a[0] in a;
    assert |b| > 0 ==> b[0] in b;
    if a != [] && b != [] {
      HeadsAgree(a, b);
      assert a == [a[0]] + a[1..] && b == [b[0]] + b[1..];
      forall e ensures e in a[1..] <==> e in b[1..] {
        KeyOrder(a[0].key, a[0].key, a[0].key);
        assert e in a <==> e in b;
      }
      SortedUnique(a[1..], b[1..]);
    }
  }

  lemma HeadsAgree(a: seq<Entry>, b: seq<Entry>)
    requires a != [] && b != [] && SortedBy(a) && SortedBy(b) && SameMembers(a, b)
    ensures a[0] == b[0]
  {
    assert a[0] in b && b[0] in a;
    var i :| 0 <= i < |b| && b[i] == a[0];
    var j :| 0 <= j < |a| && a[j] == b[0];
    KeyOrder(a[0].key, b[0].key, a[0].key);
  }

  // ---- Meaning ---------------------------------------------------------------------------------

  lemma {:induction false} RecordMembers(es: seq<Entry>, e: Entry)
    requires DistinctKeys(es)
    ensures e in es ==> e.key in RecordOf(es) && RecordOf(es)[e.key] == Meaning(e.value)
    ensures e.key in RecordOf(es) ==> exists x | x in es :: x.key == e.key
  {
    if es != [] {
      RecordMembers(es[1..], e);
      if e in es[1..] {
        var i :| 0 <= i < |es[1..]| && es[1..][i] == e;
        assert es[i + 1].key != es[0].key;
      }
    }
  }

  /** Two entry lists mean the same record exactly when each entry of one has an
      entry of the same key and meaning in the other. */
  ghost predicate Mirrors(a: seq<Entry>, b: seq<Entry>) {
    forall e | e in a :: exists f | f in b :: f.key == e.key && Meaning(f.value) == Meaning(e.value)
  }

  lemma SameRecord(a: seq<Entry>, b: seq<Entry>)
    requires DistinctKeys(a) && DistinctKeys(b)
    ensures RecordOf(a) == RecordOf(b) <==> Mirrors(a, b) && Mirrors(b, a)
  {
    if RecordOf(a) == RecordOf(b) {
      MirrorOfEqual(a, b);
      MirrorOfEqual(b, a);
    }
    if Mirrors(a, b) && Mirrors(b, a) {
      SubRecord(a, b);
      SubRecord(b, a);
      assert RecordOf(a).Keys == RecordOf(b).Keys;
    }
  }

  lemma MirrorOfEqual(a: seq<Entry>, b: seq<Entry>)
    requires DistinctKeys(a) && DistinctKeys(b) && RecordOf(a) == RecordOf(b)
    ensures Mirrors(a, b)
  {
    forall e | e in a ensures exists f | f in b :: f.key == e.key && Meaning(f.value) == Meaning(e.value) {
      RecordMembers(a, e);
      RecordMembers(b, e);
      var f :| f in b && f.key == e.key;
      RecordMembers(b, f);
    }
  }

  lemma SubRecord(a: seq<Entry>, b: seq<Entry>)
    requires DistinctKeys(a) && DistinctKeys(b) && Mirrors(a, b)
    ensures forall key | key in RecordOf(a) :: key in RecordOf(b) && RecordOf(b)[key] == RecordOf(a)[key]
  {
    forall key | key in RecordOf(a) ensures key in RecordOf(b) && RecordOf(b)[key] == RecordOf(a)[key] {
      RecordMembers(a, Entry(key, Atom(Null)));
      var e :| e in a && e.key == key;
      RecordMembers(a, e);
      var f :| f in b && f.key == e.key && Meaning(f.value) == Meaning(e.value);
      RecordMembers(b, f);
    }
  }

  lemma SortedValues(es: seq<Entry>)
    requires DistinctKeys(es)
    ensures DistinctKeys(SortValues(es))
    ensures forall e | e in es :: Entry(e.key, SortKeys(e.value)) in SortValues(es)
    ensures forall f | f in SortValues(es) :: exists e | e in es :: f == Entry(e.key, SortKeys(e.value))
  {
    var fs := SortValues(es);
    forall e | e in es ensures Entry(e.key, SortKeys(e.value)) in fs {
      var i :| 0 <= i < |es| && es[i] == e;
      assert fs[i] == Entry(e.key, SortKeys(e.value));
    }
    forall f | f in fs ensures exists e | e in es :: f == Entry(e.key, SortKeys(e.value)) {
      var i :| 0 <= i < |fs| && fs[i] == f;
      assert es[i] in es;
    }
  }

  lemma MembersDistinct(a: seq<Entry>)
    requires SortedBy(a)
    ensures DistinctKeys(a)
  {
    forall i, j | 0 <= i < j < |a| ensures a[i].key != a[j].key {
      KeyOrder(a[i].key, a[j].key, a[i].key);
    }
  }

  // ---- The canonical form -------------------------------------------------------------------------

  predicate DeepSorted(d: Doc) {
    match d
    case Atom(_) => true
    case List(xs) => forall x | x in xs :: DeepSorted(x)
    case Rec(es) => SortedBy(es) && forall e | e in es :: DeepSorted(e.value)
  }

  /** Sorting orders every object at every depth and keeps what the document says. */
  lemma {:induction false} SortKeepsMeaning(d: Doc)
    requires WellFormed(d)
    ensures WellFormed(SortKeys(d)) && DeepSorted(SortKeys(d))
    ensures Meaning(SortKeys(d)) == Meaning(d)
    decreases d
  {
    match d
    case Atom(_) =>
    case List(xs) =>
      forall x | x in xs
        ensures WellFormed(SortKeys(x)) && DeepSorted(SortKeys(x)) && Meaning(SortKeys(x)) == Meaning(x)
      {
        SortKeepsMeaning(x);
      }
      var ys := SortKeys(d).items;
      assert forall i | 0 <= i < |xs| :: ys[i] == SortKeys(xs[i]) && xs[i] in xs;
    case Rec(es) =>
      forall e | e in es
        ensures WellFormed(SortKeys(e.value)) && DeepSorted(SortKeys(e.value))
        ensures Meaning(SortKeys(e.value)) == Meaning(e.value)
      {
        SortKeepsMeaning(e.value);
      }
      SortRecord(es);
  }

  lemma SortRecord(es: seq<Entry>)
    requires DistinctKeys(es)
    requires forall e | e in es ::
               && WellFormed(SortKeys(e.value)) && DeepSorted(SortKeys(e.value))
               && Meaning(SortKeys(e.value)) == Meaning(e.value)
    ensures var out := PutAll(LexSort(SortValues(es)));
            && SortedBy(out) && DistinctKeys(out) && RecordOf(out) == RecordOf(es)
            && forall f | f in out :: WellFormed(f.value) && DeepSorted(f.value)
  {
    var fs := SortValues(es);
    var out := PutAll(LexSort(fs));
    SortedValues(es);
    Arranged(fs);
    MembersDistinct(out);
    forall e | e in es ensures exists f | f in out :: f.key == e.key && Meaning(f.value) == Meaning(e.value) {
      assert Entry(e.key, SortKeys(e.value)) in fs;
    }
    forall f | f in out
      ensures WellFormed(f.value) && DeepSorted(f.value)
      ensures exists e | e in es :: e.key == f.key && Meaning(e.value) == Meaning(f.value)
    {
      assert f in fs;
      var e :| e in es && f == Entry(e.key, SortKeys(e.value));
    }
    SameRecord(out, es);
  }

  /** Two deep-sorted documents that say the same are the same. */
  lemma {:induction false} SortedFormUnique(a: Doc, b: Doc)
    requires WellFormed(a) && WellFormed(b) && DeepSorted(a) && DeepSorted(b) && Meaning(a) == Meaning(b)
    ensures a == b
    decreases a
  {
    match a
    case Atom(_) =>
    case List(xs) =>
      var ys := b.items;
      assert |xs| == |Meaning(a).items| == |Meaning(b).items| == |ys|;
      forall i | 0 <= i < |xs| ensures xs[i] == ys[i] {
        assert Meaning(a).items[i] == Meaning(b).items[i];
        SortedFormUnique(xs[i], ys[i]);
      }
    case Rec(es) =>
      var fs := b.entries;
      SameRecord(es, fs);
      forall e, f | e in es && f in fs && Meaning(e.value) == Meaning(f.value) ensures e.value == f.value {
        SortedFormUnique(e.value, f.value);
      }
      forall e ensures e in es <==> e in fs {
        if e in es {
          var f :| f in fs && f.key == e.key && Meaning(f.value) == Meaning(e.value);
          assert e == f;
        }
        if e in fs {
          var f :| f in es && f.key == e.key && Meaning(f.value) == Meaning(e.value);
          assert e == f;
        }
      }
      SortedUnique(es, fs);
  }

  /** Two documents sort to the same form exactly when they agree up to the order of
      keys at every depth. */
  lemma SortCanonical(a: Doc, b: Doc)
    requires WellFormed(a) && WellFormed(b)
    ensures SortKeys(a) == SortKeys(b) <==> Meaning(a) == Meaning(b)
  {
    SortKeepsMeaning(a);
    SortKeepsMeaning(b);
    if Meaning(a) == Meaning(b) {
      SortedFormUnique(SortKeys(a), SortKeys(b));
    }
  }

  /** Sorting leaves alone exactly the documents that are sorted already; in
      particular sorting twice is sorting once. */
  lemma SortFixpoint(d: Doc)
    requires WellFormed(d)
    ensures SortKeys(d) == d <==> DeepSorted(d)
    ensures SortKeys(SortKeys(d)) == SortKeys(d)
  {
    SortKeepsMeaning(d);
    SortKeepsMeaning(SortKeys(d));
    SortedFormUnique(SortKeys(SortKeys(d)), SortKeys(d));
    if DeepSorted(d) { SortedFormUnique(SortKeys(d), d); }
  }

  /** A sequence is a beginning of the other one, or less where they first differ. */
  ghost predicate First(a: seq<int>, b: seq<int>) {
    exists k :: 0 <= k <= |a| && k < |b| && a[..k] == b[..k] && (k == |a| || a[k] < b[k])
  }

  lemma {:induction false} UnitsFirst(a: seq<int>, b: seq<int>)
    requires UnitsBefore(a, b)
    ensures First(a, b)
  {
    if a != [] && a[0] == b[0] {
      UnitsFirst(a[1..], b[1..]);
      var k :| 0 <= k <= |a[1..]| && k < |b[1..]| && a[1..][..k] == b[1..][..k]
               && (k == |a[1..]| || a[1..][k] < b[1..][k]);
      assert a[..k + 1] == [a[0]] + a[1..][..k] && b[..k + 1] == [b[0]] + b[1..][..k];
    } else {
      assert a[..0] == b[..0];
    }
  }

  /** Numerals of array indices come first, by value; the other keys follow in the order of
      their UTF-16 code units. */
  ghost predicate Enumerated(p: string, q: string) {
    if exists n: nat :: NamesIndex(q, n) then exists m: nat, n: nat :: m < n && NamesIndex(p, m) && NamesIndex(q, n)
    else (exists m: nat :: NamesIndex(p, m)) || First(Encoded(p), Encoded(q))
  }

  lemma {:induction false} KeysEnumerated(p: string, q: string)
    requires KeyBefore(p, q)
    ensures Enumerated(p, q)
  {
    IndexKeys(p);
    IndexKeys(q);
    if !IsIndex(p) {
      LexIsUnitOrder(p, q);
      UnitsFirst(Encoded(p), Encoded(q));
    }
  }

  /** The order in which a sorted object has its keys, at whatever depth it stands. */
  lemma {:induction false} SortedOrder(es: seq<Entry>, i: nat, j: nat)
    requires DistinctKeys(es) && i < j < |SortKeys(Rec(es)).entries|
    ensures Enumerated(SortKeys(Rec(es)).entries[i].key, SortKeys(Rec(es)).entries[j].key)
  {
    SortedValues(es);
    Arranged(SortValues(es));
    KeysEnumerated(SortKeys(Rec(es)).entries[i].key, SortKeys(Rec(es)).entries[j].key);
  }

  // ---- sortKeys as the source runs it -----------------------------------------------------------

  lemma InsertSortedValue(e: Entry, es: seq<Entry>)
    ensures LexInsert(Entry(e.key, SortKeys(e.value)), SortValues(es)) == SortValues(LexInsert(e, es))
  {
    if es != [] && !Lex(e.key, es[0].key) {
      InsertSortedValue(e, es[1..]);
      assert SortValues(es)[1..] == SortValues(es[1..]);
    }
  }

  lemma SortThenMap(es: seq<Entry>)
    ensures LexSort(SortValues(es)) == SortValues(LexSort(es))
  {
    if es != [] {
      SortThenMap(es[1..]);
      assert SortValues(es)[1..] == SortValues(es[1..]);
      InsertSortedValue(es[0], LexSort(es[1..]));
    }
  }

  method Sort(d: Doc) returns (r: Doc)
    requires WellFormed(d)
    ensures r == SortKeys(d)
    decreases d
  {
    match d
    case Atom(_) =>
      r := d;
    case List(xs) =>
      var ys := SortItems(xs);
      r := List(ys);
    case Rec(es) =>
      var sorted := SortEntries(es);
      r := Rec(sorted);
  }

  method SortItems(xs: seq<Doc>) returns (ys: seq<Doc>)
    requires WellFormed(List(xs))
    ensures List(ys) == SortKeys(List(xs))
    decreases xs
  {
    ys := [];
    for i := 0 to |xs|
      invariant ys == SortKeys(List(xs)).items[..i]
    {
      var y := Sort(xs[i]);
      ys := ys + [y];
    }
  }

  method SortEntries(es: seq<Entry>) returns (sorted: seq<Entry>)
    requires WellFormed(Rec(es))
    ensures Rec(sorted) == SortKeys(Rec(es))
    decreases es
  {
    var order := LexSort(es);
    LexSortSorts(es);
    SortThenMap(es);
    sorted := [];
    for i := 0 to |order|
      invariant sorted == PutAll(SortValues(order)[..i])
    {
      assert order[i] in order;
      var value := Sort(order[i].value);
      sorted := Put(sorted, Entry(order[i].key, value));
      assert SortValues(order)[..i + 1][..i] == SortValues(order)[..i];
    }
    assert SortValues(order)[..|order|] == SortValues(order);
  }
}
