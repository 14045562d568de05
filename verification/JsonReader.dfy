/** Reading back what `JSON.stringify` prints: the grammar of RFC 8259 without white space,
    which stringify puts nowhere. */
module JsonReader {
  import opened Basics
  import opened Options
  import opened SortedDocs
  import opened JsonText
  import opened JsonValues

  // ---- Strings ---------------------------------------------------------------------------

  function HexValue(c: char): (n: int)
    ensures -1 <= n < 16
  {
    if '0' <= c <= '9' then c as int - '0' as int
    else if 'a' <= c <= 'f' then c as int - 'a' as int + 10
    else if 'A' <= c <= 'F' then c as int - 'A' as int + 10
    else -1
  }

  /** The character that four hexadecimal digits name, surrogates aside. */
  function HexChar(digits: string): Option<char>
    requires |digits| == 4
  {
    var a, b, c, d := HexValue(digits[0]), HexValue(digits[1]), HexValue(digits[2]), HexValue(digits[3]);
    var n := 4096 * a + 256 * b + 16 * c + d;
    if a < 0 || b < 0 || c < 0 || d < 0 || 0xD800 <= n < 0xE000 then None else Some(n as char)
  }

  /** What one letter after a backslash stands for. */
  function Escaped(c: char): Option<char> {
    if c == '"' || c == '\\' || c == '/' then Some(c)
    else if c == 'b' then Some(8 as char)
    else if c == 't' then Some(9 as char)
    else if c == 'n' then Some(10 as char)
    else if c == 'f' then Some(12 as char)
    else if c == 'r' then Some(13 as char)
    else None
  }

  /** One character of a string, and how many it takes in the text. */
  function ReadChar(s: string): Option<(char, nat)>
    requires s != ""
  {
    if s[0] == '\\' then
      if |s| >= 6 && s[1] == 'u' then
        var c := HexChar(s[2..6]);
        if c.None? then None else Some((c.value, 6))
      else if |s| >= 2 then
        var c := Escaped(s[1]);
        if c.None? then None else Some((c.value, 2))
      else None
    else if s[0] as int < 32 then None
    else Some((s[0], 1))
  }

  /** A string from after its opening quote, and the rest. */
  function ReadString(s: string): (r: Option<(string, string)>)
    ensures r.Some? ==> |r.value.1| < |s|
    decreases |s|
  {
    if s == "" then None
    else if s[0] == '"' then Some(("", s[1..]))
    else
      var c := ReadChar(s);
      if c.None? || c.value.1 > |s| || c.value.1 == 0 then None
      else
        var more := ReadString(s[c.value.1..]);
        if more.None? then None else Some(([c.value.0] + more.value.0, more.value.1))
  }

  lemma HexDigits(n: int)
    requires 0 <= n < 16
    ensures HexValue(HexDigit(n)) == n
  {
  }

  lemma ControlHex(c: char)
    requires c as int < 32
    ensures HexChar(['0', '0', HexDigit(c as int / 16), HexDigit(c as int % 16)]) == Some(c)
  {
    HexDigits(c as int / 16);
    HexDigits(c as int % 16);
    var n := 16 * (c as int / 16) + c as int % 16;
    assert n == c as int && n as char == c;
  }

  lemma QuotedChar(c: char, x: string)
    ensures ReadChar(QuoteChar(c) + x) == Some((c, |QuoteChar(c)|)) && QuoteChar(c)[0] != '"'
    ensures (QuoteChar(c) + x)[|QuoteChar(c)|..] == x
  {
    var s := QuoteChar(c) + x;
    if |QuoteChar(c)| == 6 {
      assert s[2..6] == ['0', '0', HexDigit(c as int / 16), HexDigit(c as int % 16)];
      ControlHex(c);
    } else if |QuoteChar(c)| == 2 {
      assert s[1] == QuoteChar(c)[1];
      assert c as int as char == c;
    }
  }

  /** Of all ways to write a character in a string, stringify takes the shortest one, with
      hexadecimal digits in lower case. */
  lemma {:induction false} ShortestQuote(c: char, s: string, n: nat)
    requires s != "" && s[0] != '"' && ReadChar(s) == Some((c, n)) && n <= |s|
    ensures |QuoteChar(c)| <= n
    ensures n == |QuoteChar(c)| && (forall i | 0 <= i < n :: !(n == 6 && 'A' <= s[i] <= 'F')) ==> s[..n] == QuoteChar(c)
  {
    if n == 6 && |QuoteChar(c)| == 6 && forall i | 0 <= i < 6 :: !('A' <= s[i] <= 'F') {
      HexSpelled(s[2..6], c);
    }
  }

  lemma HexSpelled(digits: string, c: char)
    requires |digits| == 4 && HexChar(digits) == Some(c) && c as int < 32
    requires forall i | 0 <= i < 4 :: !('A' <= digits[i] <= 'F')
    ensures digits == ['0', '0', HexDigit(c as int / 16), HexDigit(c as int % 16)]
  {
    var a, b, x, y := HexValue(digits[0]), HexValue(digits[1]), HexValue(digits[2]), HexValue(digits[3]);
    assert a == 0 && b == 0 && 16 * x + y == c as int;
  }

  /** A quoted string reads back, whatever follows it. */
  lemma {:induction false} StringReads(t: string, x: string)
    ensures ReadString(Quoted(t) + x) == Some((t, x))
  {
    if t == "" {
      assert (Quoted(t) + x)[1..] == x;
    } else {
      var more := Quoted(t[1..]) + x;
      Regroup(QuoteChar(t[0]), Quoted(t[1..]), x);
      QuotedChar(t[0], more);
      StringReads(t[1..], x);
      assert (Quoted(t) + x)[0] == QuoteChar(t[0])[0];
      assert t == [t[0]] + t[1..];
    }
  }

  // ---- Values ----------------------------------------------------------------------------

  predicate NumeralChar(c: char) {
    '0' <= c <= '9' || c == '-' || c == '+' || c == '.' || c == 'e' || c == 'E'
  }

  /** The text of a number begins with a digit or a minus sign. */
  predicate Numeric(s: string) {
    s != "" && ('0' <= s[0] <= '9' || s[0] == '-') && forall i | 0 <= i < |s| :: NumeralChar(s[i])
  }

  function NumeralLength(s: string): (n: nat)
    ensures n <= |s|
  {
    if s == "" || !NumeralChar(s[0]) then 0 else 1 + NumeralLength(s[1..])
  }

  type Read<T> = Option<(T, string)>

  function ReadWord(s: string, word: string, v: Json): Read<Doc> {
    if word <= s then Some((Atom(v), s[|word|..])) else None
  }

  /** A value, and the rest.  What a numeral stands for is a parameter. */
  function ReadValue(s: string, numeral: string -> real): (r: Read<Doc>)
    ensures r.Some? ==> |r.value.1| < |s|
    decreases |s|, 0
  {
    if s == "" then None
    else if s[0] == 'n' then ReadWord(s, "null", Null)
    else if s[0] == 't' then ReadWord(s, "true", Bool(true))
    else if s[0] == 'f' then ReadWord(s, "false", Bool(false))
    else if s[0] == '"' then
      var t := ReadString(s[1..]);
      if t.None? then None else Some((Atom(Str(t.value.0)), t.value.1))
    else if s[0] == '[' then
      if |s| > 1 && s[1] == ']' then Some((List([]), s[2..]))
      else
        var xs := ReadItems(s[1..], numeral);
        if xs.None? then None else Some((List(xs.value.0), xs.value.1))
    else if s[0] == '{' then
      if |s| > 1 && s[1] == '}' then Some((Rec([]), s[2..]))
      else
        var es := ReadEntries(s[1..], numeral);
        if es.None? then None else Some((Rec(es.value.0), es.value.1))
    else if '0' <= s[0] <= '9' || s[0] == '-' then
      var n := NumeralLength(s);
      Some((Atom(Num(numeral(s[..n]))), s[n..]))
    else None
  }

  /** The elements of a list, one at least, up to its bracket. */
  function ReadItems(s: string, numeral: string -> real): (r: Read<seq<Doc>>)
    ensures r.Some? ==> |r.value.1| < |s|
    decreases |s|, 1
  {
    var d := ReadValue(s, numeral);
    if d.None? || d.value.1 == "" then None
    else
      var (x, rest) := d.value;
      if rest[0] == ']' then Some(([x], rest[1..]))
      else if rest[0] != ',' then None
      else
        var more := ReadItems(rest[1..], numeral);
        if more.None? then None else Some(([x] + more.value.0, more.value.1))
  }

  /** The members of an object, one at least, up to its brace. */
  function ReadEntries(s: string, numeral: string -> real): (r: Read<seq<Entry>>)
    ensures r.Some? ==> |r.value.1| < |s|
    decreases |s|, 1
  {
    var e := ReadEntry(s, numeral);
    if e.None? || e.value.1 == "" then None
    else
      var (x, rest) := e.value;
      if rest[0] == '}' then Some(([x], rest[1..]))
      else if rest[0] != ',' then None
      else
        var more := ReadEntries(rest[1..], numeral);
        if more.None? then None else Some(([x] + more.value.0, more.value.1))
  }

  function ReadEntry(s: string, numeral: string -> real): (r: Read<Entry>)
    ensures r.Some? ==> |r.value.1| < |s|
    decreases |s|, 0
  {
    if s == "" || s[0] != '"' then None
    else
      var key := ReadString(s[1..]);
      if key.None? || key.value.1 == "" || key.value.1[0] != ':' then None
      else
        var d := ReadValue(key.value.1[1..], numeral);
        if d.None? then None else Some((Entry(key.value.0, d.value.0), d.value.1))
  }

  // ---- The round trip ------------------------------------------------------------------------

  function NumbersIn(d: Doc): set<real>
    decreases d
  {
    match d
    case Atom(v) => if v.Num? then {v.n} else {}
    case List(xs) => NumbersOf(xs)
    case Rec(es) => NumbersOfEntries(es)
  }

  function NumbersOf(xs: seq<Doc>): set<real>
    decreases xs
  {
    if xs == [] then {} else NumbersIn(xs[0]) + NumbersOf(xs[1..])
  }

  function NumbersOfEntries(es: seq<Entry>): set<real>
    decreases es
  {
    if es == [] then {} else NumbersIn(es[0].value) + NumbersOfEntries(es[1..])
  }

  /** A document without undefined. */
  predicate Plain(d: Doc) {
    match d
    case Atom(v) => !v.Arr? && !v.Obj? && !v.Undefined?
    case List(xs) => forall x | x in xs :: Plain(x)
    case Rec(es) => forall e | e in es :: Plain(e.value)
  }

  /** What may follow a value. */
  predicate Ends(s: string) {
    s == "" || s[0] == ',' || s[0] == ']' || s[0] == '}'
  }

  /** These numbers are printed as numerals, and read back. */
  predicate Legible(number: Numbers, numeral: string -> real, rs: set<real>) {
    forall r | r in rs :: Numeric(number(r)) && numeral(number(r)) == r
  }

  lemma {:induction false} NumeralEnds(p: string, x: string)
    requires Ends(x) && forall i | 0 <= i < |p| :: NumeralChar(p[i])
    ensures NumeralLength(p + x) == |p|
  {
    if p != "" {
      assert (p + x)[1..] == p[1..] + x && (p + x)[0] == p[0];
      NumeralEnds(p[1..], x);
    } else {
      assert p + x == x;
    }
  }

  /** What reading these texts gives, folded: asserting `Unfold(s)` brings it up. */
  ghost predicate ValueIs(s: string, numeral: string -> real, d: Doc, x: string) {
    forall u: string {:trigger Unfold(u)} :: Unfold(u) && u == s ==> ReadValue(s, numeral) == Some((d, x))
  }

  ghost predicate ItemsAre(s: string, numeral: string -> real, xs: seq<Doc>, x: string) {
    forall u: string {:trigger Unfold(u)} :: Unfold(u) && u == s ==> ReadItems(s, numeral) == Some((xs, x))
  }

  ghost predicate EntryIs(s: string, numeral: string -> real, e: Entry, x: string) {
    forall u: string {:trigger Unfold(u)} :: Unfold(u) && u == s ==> ReadEntry(s, numeral) == Some((e, x))
  }

  ghost predicate EntriesAre(s: string, numeral: string -> real, es: seq<Entry>, x: string) {
    forall u: string {:trigger Unfold(u)} :: Unfold(u) && u == s ==> ReadEntries(s, numeral) == Some((es, x))
  }

  lemma NumberReads(n: real, number: Numbers, numeral: string -> real, x: string)
    requires Ends(x) && Legible(number, numeral, {n})
    ensures ValueIs(number(n) + x, numeral, Atom(Num(n)), x)
  {
    var s := number(n) + x;
    NumeralEnds(number(n), x);
    assert s[..|number(n)|] == number(n) && s[|number(n)|..] == x && s[0] == number(n)[0];
  }

  lemma AtomReads(v: Json, number: Numbers, numeral: string -> real, x: string)
    requires Plain(Atom(v)) && Ends(x) && Legible(number, numeral, NumbersIn(Atom(v)))
    ensures ValueIs(Text(Atom(v), number) + x, numeral, Atom(v), x)
  {
    var s := Text(Atom(v), number) + x;
    match v
    case Num(n) => NumberReads(n, number, numeral, x);
    case Str(t) =>
      assert s[0] == '"' && s[1..] == Quoted(t) + x;
      StringReads(t, x);
    case Bool(_) =>
      assert s[|Text(Atom(v), number)|..] == x && s[0] == Text(Atom(v), number)[0];
    case Null =>
      assert s[4..] == x && s[0] == 'n';
  }

  // Lists

  lemma ListReads(inner: string, numeral: string -> real, xs: seq<Doc>, x: string)
    requires ItemsAre(inner, numeral, xs, x) && inner != "" && inner[0] != ']'
    ensures ValueIs("[" + inner, numeral, List(xs), x)
  {
    assert Unfold(inner) && ("[" + inner)[1..] == inner;
  }

  lemma NoItems(numeral: string -> real, x: string)
    ensures ValueIs("[" + ("]" + x), numeral, List([]), x)
  {
    assert ("[" + ("]" + x))[2..] == x;
  }

  lemma LastItem(s: string, numeral: string -> real, d: Doc, x: string)
    requires ValueIs(s, numeral, d, "]" + x)
    ensures ItemsAre(s, numeral, [d], x)
  {
    assert Unfold(s) && ("]" + x)[1..] == x;
  }

  lemma NextItem(s: string, numeral: string -> real, d: Doc, t: string, xs: seq<Doc>, x: string)
    requires ValueIs(s, numeral, d, "," + t) && ItemsAre(t, numeral, xs, x)
    ensures ItemsAre(s, numeral, [d] + xs, x)
  {
    assert Unfold(s) && Unfold(t) && ("," + t)[1..] == t;
  }

  lemma ListShape(xs: seq<Doc>, number: Numbers, x: string)
    ensures OpenList(xs, number) + x
            == if xs == [] then "]" + x
               else Text(xs[0], number)
                    + if |xs| == 1 then "]" + x else "," + (OpenList(xs[1..], number) + x)
  {
    if xs != [] { Regroup(Text(xs[0], number), MoreItems(xs[1..], number), x); }
    if |xs| > 1 { Regroup(",", OpenList(xs[1..], number), x); }
  }

  lemma OneItemReads(xs: seq<Doc>, number: Numbers, numeral: string -> real, x: string)
    requires |xs| == 1 && ValueIs(Text(xs[0], number) + ("]" + x), numeral, xs[0], "]" + x)
    ensures ItemsAre(OpenList(xs, number) + x, numeral, xs, x)
  {
    ListShape(xs, number, x);
    LastItem(OpenList(xs, number) + x, numeral, xs[0], x);
    assert xs == [xs[0]];
  }

  lemma MoreItemsRead(xs: seq<Doc>, number: Numbers, numeral: string -> real, more: string, x: string)
    requires |xs| > 1 && more == OpenList(xs[1..], number) + x && ItemsAre(more, numeral, xs[1..], x)
    requires ValueIs(Text(xs[0], number) + ("," + more), numeral, xs[0], "," + more)
    ensures ItemsAre(OpenList(xs, number) + x, numeral, xs, x)
  {
    ListShape(xs, number, x);
    NextItem(OpenList(xs, number) + x, numeral, xs[0], more, xs[1..], x);
    assert xs == [xs[0]] + xs[1..];
  }

  // Records

  lemma RecordReads(inner: string, numeral: string -> real, es: seq<Entry>, x: string)
    requires EntriesAre(inner, numeral, es, x) && inner != "" && inner[0] != '}'
    ensures ValueIs("{" + inner, numeral, Rec(es), x)
  {
    assert Unfold(inner) && ("{" + inner)[1..] == inner;
  }

  lemma NoEntries(numeral: string -> real, x: string)
    ensures ValueIs("{" + ("}" + x), numeral, Rec([]), x)
  {
    assert ("{" + ("}" + x))[2..] == x;
  }

  lemma EntryReads(e: Entry, number: Numbers, numeral: string -> real, x: string)
    requires ValueIs(Text(e.value, number) + x, numeral, e.value, x)
    ensures EntryIs("\"" + Quoted(e.key) + ":" + Text(e.value, number) + x, numeral, e, x)
  {
    var s := "\"" + Quoted(e.key) + ":" + Text(e.value, number) + x;
    var value := Text(e.value, number) + x;
    var rest := ":" + value;
    assert s[1..] == Quoted(e.key) + rest;
    StringReads(e.key, rest);
    assert Unfold(value) && rest[1..] == value;
  }

  lemma LastEntry(s: string, numeral: string -> real, e: Entry, x: string)
    requires EntryIs(s, numeral, e, "}" + x)
    ensures EntriesAre(s, numeral, [e], x)
  {
    assert Unfold(s) && ("}" + x)[1..] == x;
  }

  lemma NextEntry(s: string, numeral: string -> real, e: Entry, t: string, es: seq<Entry>, x: string)
    requires EntryIs(s, numeral, e, "," + t) && EntriesAre(t, numeral, es, x)
    ensures EntriesAre(s, numeral, [e] + es, x)
  {
    assert Unfold(s) && Unfold(t) && ("," + t)[1..] == t;
  }

  lemma RecordShape(es: seq<Entry>, number: Numbers, x: string)
    ensures OpenRecord(es, number) + x
            == if es == [] then "}" + x
               else "\"" + Quoted(es[0].key) + ":" + Text(es[0].value, number)
                    + if |es| == 1 then "}" + x else "," + (OpenRecord(es[1..], number) + x)
  {
    if es != [] {
      Regroup("\"" + Quoted(es[0].key) + ":" + Text(es[0].value, number), MoreEntries(es[1..], number), x);
    }
    if |es| > 1 { Regroup(",", OpenRecord(es[1..], number), x); }
  }

  lemma OneEntryReads(es: seq<Entry>, number: Numbers, numeral: string -> real, x: string)
    requires |es| == 1 && ValueIs(Text(es[0].value, number) + ("}" + x), numeral, es[0].value, "}" + x)
    ensures EntriesAre(OpenRecord(es, number) + x, numeral, es, x)
  {
    EntryReads(es[0], number, numeral, "}" + x);
    RecordShape(es, number, x);
    LastEntry(OpenRecord(es, number) + x, numeral, es[0], x);
    assert es == [es[0]];
  }

  lemma MoreEntriesRead(es: seq<Entry>, number: Numbers, numeral: string -> real, more: string, x: string)
    requires |es| > 1 && more == OpenRecord(es[1..], number) + x && EntriesAre(more, numeral, es[1..], x)
    requires ValueIs(Text(es[0].value, number) + ("," + more), numeral, es[0].value, "," + more)
    ensures EntriesAre(OpenRecord(es, number) + x, numeral, es, x)
  {
    EntryReads(es[0], number, numeral, "," + more);
    RecordShape(es, number, x);
    NextEntry(OpenRecord(es, number) + x, numeral, es[0], more, es[1..], x);
    assert es == [es[0]] + es[1..];
  }

  // Documents

  lemma TextStarts(d: Doc, number: Numbers, numeral: string -> real)
    requires Plain(d) && Legible(number, numeral, NumbersIn(d))
    ensures Text(d, number) != "" && Text(d, number)[0] != ']'
  {
    assert d.Atom? && d.v.Num? ==> d.v.n in NumbersIn(d);
  }

  lemma ListStarts(xs: seq<Doc>, number: Numbers, numeral: string -> real, x: string)
    requires xs != [] && Plain(xs[0]) && Legible(number, numeral, NumbersOf(xs))
    ensures OpenList(xs, number) + x != "" && (OpenList(xs, number) + x)[0] != ']'
  {
    TextStarts(xs[0], number, numeral);
  }

  lemma {:induction false} ValueReads(d: Doc, number: Numbers, numeral: string -> real, x: string)
    requires Plain(d) && Ends(x) && Legible(number, numeral, NumbersIn(d))
    ensures ValueIs(Text(d, number) + x, numeral, d, x)
    decreases d, 2
  {
    match d
    case Atom(v) => AtomReads(v, number, numeral, x);
    case List(xs) =>
      Regroup("[", OpenList(xs, number), x);
      if xs == [] {
        ListShape(xs, number, x);
        NoItems(numeral, x);
      } else {
        ListStarts(xs, number, numeral, x);
        ItemsRead(xs, number, numeral, x);
        ListReads(OpenList(xs, number) + x, numeral, xs, x);
      }
    case Rec(es) =>
      Regroup("{", OpenRecord(es, number), x);
      RecordShape(es, number, x);
      if es == [] {
        NoEntries(numeral, x);
      } else {
        EntriesRead(es, number, numeral, x);
        RecordReads(OpenRecord(es, number) + x, numeral, es, x);
      }
  }

  lemma {:induction false} ItemsRead(xs: seq<Doc>, number: Numbers, numeral: string -> real, x: string)
    requires xs != [] && (forall d | d in xs :: Plain(d)) && Ends(x) && Legible(number, numeral, NumbersOf(xs))
    ensures ItemsAre(OpenList(xs, number) + x, numeral, xs, x)
    decreases xs, 0
  {
    if |xs| == 1 {
      ValueReads(xs[0], number, numeral, "]" + x);
      OneItemReads(xs, number, numeral, x);
    } else {
      ValueReads(xs[0], number, numeral, "," + (OpenList(xs[1..], number) + x));
      ItemsRead(xs[1..], number, numeral, x);
      MoreItemsRead(xs, number, numeral, OpenList(xs[1..], number) + x, x);
    }
  }

  lemma {:induction false} EntriesRead(es: seq<Entry>, number: Numbers, numeral: string -> real, x: string)
    requires es != [] && (forall e | e in es :: Plain(e.value)) && Ends(x)
    requires Legible(number, numeral, NumbersOfEntries(es))
    ensures EntriesAre(OpenRecord(es, number) + x, numeral, es, x)
    decreases es, 0
  {
    if |es| == 1 {
      ValueReads(es[0].value, number, numeral, "}" + x);
      OneEntryReads(es, number, numeral, x);
    } else {
      ValueReads(es[0].value, number, numeral, "," + (OpenRecord(es[1..], number) + x));
      EntriesRead(es[1..], number, numeral, x);
      MoreEntriesRead(es, number, numeral, OpenRecord(es[1..], number) + x, x);
    }
  }

  /** Reading what stringify prints of a document gives that document and leaves what
      follows it, if the numbers in it read back. */
  lemma {:induction false} ReadsBack(d: Doc, number: Numbers, numeral: string -> real, x: string)
    requires Plain(d) && Ends(x) && Legible(number, numeral, NumbersIn(d))
    ensures ReadValue(Text(d, number) + x, numeral) == Some((d, x))
  {
    ValueReads(d, number, numeral, x);
    assert Unfold(Text(d, number) + x);
  }

  // ---- Different documents have different texts ----------------------------------------------

  /** Among these numbers, different ones have different texts. */
  ghost predicate TellsApart(number: Numbers, rs: set<real>) {
    && (forall r | r in rs :: Numeric(number(r)))
    && (forall r, t | r in rs && t in rs && number(r) == number(t) :: r == t)
  }

  /** A reading of numerals for numbers that are told apart. */
  ghost function NumeralOf(number: Numbers, rs: set<real>, s: string): real {
    if exists r :: r in rs && number(r) == s then var r :| r in rs && number(r) == s; r else 0.0
  }

  /** A text determines its document, and where it ends. */
  lemma {:induction false} TextsApart(a: Doc, b: Doc, number: Numbers, x: string, y: string)
    requires Plain(a) && Plain(b) && Ends(x) && Ends(y)
    requires TellsApart(number, NumbersIn(a) + NumbersIn(b))
    requires Text(a, number) + x == Text(b, number) + y
    ensures a == b && x == y
  {
    var rs := NumbersIn(a) + NumbersIn(b);
    ghost var numeral: string -> real := s => NumeralOf(number, rs, s);
    ReadsBack(a, number, numeral, x);
    ReadsBack(b, number, numeral, y);
  }
}
