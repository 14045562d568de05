/** Embedding a string in a generated script: `escapeJsString` of
    apps/api/src/bot-teams/delegation-skill-generator.service.ts, against the string
    literals of ECMA-262, section 12.9.4.  Strings are sequences of UTF-16 code units. */
module JsEscape {
  import opened Basics
  import opened Options

  type Unit = x: int | 0 <= x < 0x10000
  type Text = seq<Unit>

  const TAB: Unit := 9
  const LF: Unit := 10
  const CR: Unit := 13
  const QUOTE: Unit := 34
  const BACKSLASH: Unit := 92
  const LETTER_N: Unit := 110
  const LETTER_R: Unit := 114
  const LETTER_T: Unit := 116

  // ---- The escaper -----------------------------------------------------------------------

  /** `replace` of every occurrence of one code unit. */
  function Replace(s: Text, unit: Unit, into: Text): Text {
    if s == [] then [] else (if s[0] == unit then into else [s[0]]) + Replace(s[1..], unit, into)
  }

  function EscapeJsString(s: Text): Text {
    Replace(Replace(Replace(Replace(Replace(s, BACKSLASH, [BACKSLASH, BACKSLASH]),
                                    QUOTE, [BACKSLASH, QUOTE]),
                            LF, [BACKSLASH, LETTER_N]),
                    CR, [BACKSLASH, LETTER_R]),
            TAB, [BACKSLASH, LETTER_T])
  }

  function EscapeUnit(x: Unit): Text {
    if x == BACKSLASH then [BACKSLASH, BACKSLASH]
    else if x == QUOTE then [BACKSLASH, QUOTE]
    else if x == LF then [BACKSLASH, LETTER_N]
    else if x == CR then [BACKSLASH, LETTER_R]
    else if x == TAB then [BACKSLASH, LETTER_T]
    else [x]
  }

  function EscapeUnits(s: Text): Text {
    if s == [] then [] else EscapeUnit(s[0]) + EscapeUnits(s[1..])
  }

  lemma {:induction false} ReplaceConcat(a: Text, b: Text, unit: Unit, into: Text)
    ensures Replace(a + b, unit, into) == Replace(a, unit, into) + Replace(b, unit, into)
  {
    if a == [] {
      assert a + b == b;
    } else {
      ReplaceConcat(a[1..], b, unit, into);
      var first := if a[0] == unit then into else [a[0]];
      assert (a + b)[0] == a[0] && (a + b)[1..] == a[1..] + b;
      assert Replace(a + b, unit, into) == first + Replace(a[1..] + b, unit, into);
      Regroup(first, Replace(a[1..], unit, into), Replace(b, unit, into));
    }
  }

  lemma ReplaceTwo(x: Unit, y: Unit, unit: Unit, into: Text)
    ensures Replace([x], unit, into) == if x == unit then into else [x]
    ensures x != unit && y != unit ==> Replace([x, y], unit, into) == [x, y]
  {
    assert [x][1..] == [] && [x, y][1..] == [y] && [y][1..] == [];
    assert Replace([y], unit, into) == if y == unit then into else [y];
    assert Replace([x, y], unit, into) == (if x == unit then into else [x]) + Replace([y], unit, into);
  }

  lemma EscapeOne(x: Unit)
    ensures EscapeJsString([x]) == EscapeUnit(x)
  {
    var p1 := Replace([x], BACKSLASH, [BACKSLASH, BACKSLASH]);
    ReplaceTwo(x, x, BACKSLASH, [BACKSLASH, BACKSLASH]);
    var p2 := Replace(p1, QUOTE, [BACKSLASH, QUOTE]);
    ReplaceTwo(x, x, QUOTE, [BACKSLASH, QUOTE]);
    ReplaceTwo(BACKSLASH, BACKSLASH, QUOTE, [BACKSLASH, QUOTE]);
    assert p2 == if x == BACKSLASH || x == QUOTE then EscapeUnit(x) else [x];
    var p3 := Replace(p2, LF, [BACKSLASH, LETTER_N]);
    ReplaceTwo(x, x, LF, [BACKSLASH, LETTER_N]);
    ReplaceTwo(BACKSLASH, x, LF, [BACKSLASH, LETTER_N]);
    assert p3 == if x == BACKSLASH || x == QUOTE || x == LF then EscapeUnit(x) else [x];
    var p4 := Replace(p3, CR, [BACKSLASH, LETTER_R]);
    ReplaceTwo(x, x, CR, [BACKSLASH, LETTER_R]);
    ReplaceTwo(BACKSLASH, x, CR, [BACKSLASH, LETTER_R]);
    ReplaceTwo(BACKSLASH, LETTER_N, CR, [BACKSLASH, LETTER_R]);
    assert p4 == if x == TAB then [x] else EscapeUnit(x);
    LastPass(x);
  }

  lemma LastPass(x: Unit)
    ensures Replace(if x == TAB then [x] else EscapeUnit(x), TAB, [BACKSLASH, LETTER_T]) == EscapeUnit(x)
  {
    ReplaceTwo(x, x, TAB, [BACKSLASH, LETTER_T]);
    ReplaceTwo(BACKSLASH, x, TAB, [BACKSLASH, LETTER_T]);
    ReplaceTwo(BACKSLASH, LETTER_N, TAB, [BACKSLASH, LETTER_T]);
    ReplaceTwo(BACKSLASH, LETTER_R, TAB, [BACKSLASH, LETTER_T]);
  }

  lemma EscapeConcat(a: Text, b: Text)
    ensures EscapeJsString(a + b) == EscapeJsString(a) + EscapeJsString(b)
  {
    var a1, b1 := Replace(a, BACKSLASH, [BACKSLASH, BACKSLASH]), Replace(b, BACKSLASH, [BACKSLASH, BACKSLASH]);
    ReplaceConcat(a, b, BACKSLASH, [BACKSLASH, BACKSLASH]);
    var a2, b2 := Replace(a1, QUOTE, [BACKSLASH, QUOTE]), Replace(b1, QUOTE, [BACKSLASH, QUOTE]);
    ReplaceConcat(a1, b1, QUOTE, [BACKSLASH, QUOTE]);
    var a3, b3 := Replace(a2, LF, [BACKSLASH, LETTER_N]), Replace(b2, LF, [BACKSLASH, LETTER_N]);
    ReplaceConcat(a2, b2, LF, [BACKSLASH, LETTER_N]);
    var a4, b4 := Replace(a3, CR, [BACKSLASH, LETTER_R]), Replace(b3, CR, [BACKSLASH, LETTER_R]);
    ReplaceConcat(a3, b3, CR, [BACKSLASH, LETTER_R]);
    ReplaceConcat(a4, b4, TAB, [BACKSLASH, LETTER_T]);
  }

  /** The five passes, one after another over each other's output, do the work of one
      pass that maps each code unit by itself. */
  lemma {:induction false} FivePassesAreOne(s: Text)
    ensures EscapeJsString(s) == EscapeUnits(s)
  {
    if s == [] {
      assert EscapeJsString([]) == [];
    } else {
      EscapeOne(s[0]);
      FivePassesAreOne(s[1..]);
      EscapeConcat([s[0]], s[1..]);
      assert [s[0]] + s[1..] == s;
    }
  }

  // ---- String literals ---------------------------------------------------------------------

  function HexValue(x: Unit): Option<nat> {
    if 48 <= x <= 57 then Some(x - 48)
    else if 65 <= x <= 70 then Some(x - 55)
    else if 97 <= x <= 102 then Some(x - 87)
    else None
  }

  predicate LineTerminator(x: Unit) {
    x == LF || x == CR || x == 0x2028 || x == 0x2029
  }

  /** SingleEscapeCharacter. */
  function SingleEscape(x: Unit): Option<Unit> {
    if x == 39 || x == QUOTE || x == BACKSLASH then Some(x)
    else if x == 98 then Some(8)
    else if x == 102 then Some(12)
    else if x == LETTER_N then Some(LF)
    else if x == LETTER_R then Some(CR)
    else if x == LETTER_T then Some(TAB)
    else if x == 118 then Some(11)
    else None
  }

  /** The value of an escape sequence after its backslash, and its length.  Code point
      escapes in braces and legacy octal escapes are left out. */
  function EscapeValue(s: Text): Option<(Text, nat)> {
    if s == [] then None
    else if SingleEscape(s[0]).Some? then Some(([SingleEscape(s[0]).value], 1))
    else if s[0] == 48 && (|s| == 1 || !(48 <= s[1] <= 57)) then Some(([0], 1))
    else if 48 <= s[0] <= 57 then None
    else if s[0] == 120 then
      if |s| >= 3 && HexValue(s[1]).Some? && HexValue(s[2]).Some?
      then Some(([16 * HexValue(s[1]).value + HexValue(s[2]).value], 3)) else None
    else if s[0] == 117 then
      if |s| >= 5 && HexValue(s[1]).Some? && HexValue(s[2]).Some? && HexValue(s[3]).Some? && HexValue(s[4]).Some?
      then Some(([4096 * HexValue(s[1]).value + 256 * HexValue(s[2]).value + 16 * HexValue(s[3]).value
                  + HexValue(s[4]).value], 5)) else None
    else if s[0] == CR && |s| >= 2 && s[1] == LF then Some(([], 2))
    else if LineTerminator(s[0]) then Some(([], 1))
    else Some(([s[0]], 1))
  }

  /** Reads a double-quoted literal from after its opening quote to its closing one: its
      value and what follows it. */
  function Read(s: Text): Option<(Text, Text)> {
    if s == [] then None
    else if s[0] == QUOTE then Some(([], s[1..]))
    else if s[0] == LF || s[0] == CR then None
    else if s[0] == BACKSLASH then
      var escape := EscapeValue(s[1..]);
      if escape.None? || 1 + escape.value.1 > |s| || escape.value.1 == 0 then None
      else Prepend(escape.value.0, Read(s[1 + escape.value.1..]))
    else Prepend([s[0]], Read(s[1..]))
  }

  function Prepend(value: Text, read: Option<(Text, Text)>): Option<(Text, Text)> {
    if read.None? then None else Some((value + read.value.0, read.value.1))
  }

  /** The value of a source text that is one double-quoted literal. */
  function LiteralValue(s: Text): Option<Text> {
    if s == [] || s[0] != QUOTE then None
    else
      var read := Read(s[1..]);
      if read.Some? && read.value.1 == [] then Some(read.value.0) else None
  }

  lemma ReadUnit(x: Unit, rest: Text)
    ensures Read(EscapeUnit(x) + rest) == Prepend([x], Read(rest))
  {
    var s := EscapeUnit(x) + rest;
    if |EscapeUnit(x)| == 1 {
      assert s[1..] == rest;
    } else {
      assert s[1..] == [EscapeUnit(x)[1]] + rest;
      assert s[2..] == rest;
      assert EscapeValue(s[1..]) == Some(([x], 1));
    }
  }

  /** Whatever comes after the closing quote, the literal is read up to there, and its
      value is the original string. */
  lemma {:induction false} ReadsBack(s: Text, rest: Text)
    ensures Read(EscapeJsString(s) + [QUOTE] + rest) == Some((s, rest))
  {
    FivePassesAreOne(s);
    if s == [] {
      assert EscapeUnits(s) + [QUOTE] + rest == [QUOTE] + rest;
      assert ([QUOTE] + rest)[1..] == rest;
    } else {
      ReadsBack(s[1..], rest);
      FivePassesAreOne(s[1..]);
      var tail := EscapeUnits(s[1..]) + [QUOTE] + rest;
      Regroup(EscapeUnit(s[0]), EscapeUnits(s[1..]), [QUOTE]);
      Regroup(EscapeUnit(s[0]), EscapeUnits(s[1..]) + [QUOTE], rest);
      ReadUnit(s[0], tail);
      assert [s[0]] + s[1..] == s;
    }
  }

  /** For every string, the literal built from it denotes it. */
  lemma {:induction false} LiteralRoundTrip(s: Text)
    ensures LiteralValue([QUOTE] + EscapeJsString(s) + [QUOTE]) == Some(s)
  {
    ReadsBack(s, []);
    var literal := [QUOTE] + EscapeJsString(s) + [QUOTE];
    assert literal[1..] == EscapeJsString(s) + [QUOTE] + [];
  }

  /** No quote, line feed or carriage return stands outside an escape, and no escape
      continues the line. */
  predicate Unbroken(body: Text) {
    if body == [] then true
    else if body[0] == BACKSLASH then |body| >= 2 && !LineTerminator(body[1]) && Unbroken(body[2..])
    else body[0] != QUOTE && body[0] != LF && body[0] != CR && Unbroken(body[1..])
  }

  lemma {:induction false} BodyUnbroken(s: Text)
    ensures Unbroken(EscapeJsString(s))
  {
    FivePassesAreOne(s);
    if s != [] {
      BodyUnbroken(s[1..]);
      FivePassesAreOne(s[1..]);
      var body := EscapeUnits(s);
      assert body[|EscapeUnit(s[0])|..] == EscapeUnits(s[1..]);
    }
  }

  // ---- The order of the passes ---------------------------------------------------------------

  /** The five passes with that of the backslashes last. */
  function EscapeLate(s: Text): Text {
    Replace(Replace(Replace(Replace(Replace(s, QUOTE, [BACKSLASH, QUOTE]),
                                    LF, [BACKSLASH, LETTER_N]),
                            CR, [BACKSLASH, LETTER_R]),
                    TAB, [BACKSLASH, LETTER_T]),
            BACKSLASH, [BACKSLASH, BACKSLASH])
  }

  /** The units that are escaped, other than the backslash. */
  predicate Named(x: Unit) {
    x == QUOTE || x == LF || x == CR || x == TAB
  }

  function LateUnit(x: Unit): Text {
    if Named(x) then [BACKSLASH] + EscapeUnit(x) else EscapeUnit(x)
  }

  function LateUnits(s: Text): Text {
    if s == [] then [] else LateUnit(s[0]) + LateUnits(s[1..])
  }

  /** What the reader makes of it, as long as there is no quote: the named units have
      become a backslash and a letter. */
  function Misread(s: Text): Text {
    if s == [] then [] else (if Named(s[0]) then EscapeUnit(s[0]) else [s[0]]) + Misread(s[1..])
  }

  lemma LateOne(x: Unit)
    ensures EscapeLate([x]) == LateUnit(x)
  {
    var p1 := Replace([x], QUOTE, [BACKSLASH, QUOTE]);
    ReplaceTwo(x, x, QUOTE, [BACKSLASH, QUOTE]);
    var p2 := Replace(p1, LF, [BACKSLASH, LETTER_N]);
    ReplaceTwo(x, x, LF, [BACKSLASH, LETTER_N]);
    ReplaceTwo(BACKSLASH, x, LF, [BACKSLASH, LETTER_N]);
    assert p2 == if x == QUOTE || x == LF then EscapeUnit(x) else [x];
    var p3 := Replace(p2, CR, [BACKSLASH, LETTER_R]);
    ReplaceTwo(x, x, CR, [BACKSLASH, LETTER_R]);
    ReplaceTwo(BACKSLASH, x, CR, [BACKSLASH, LETTER_R]);
    ReplaceTwo(BACKSLASH, LETTER_N, CR, [BACKSLASH, LETTER_R]);
    assert p3 == if x == QUOTE || x == LF || x == CR then EscapeUnit(x) else [x];
    LateTabs(x);
    LateBackslashes(x);
  }

  lemma LateTabs(x: Unit)
    ensures Replace(if x == QUOTE || x == LF || x == CR then EscapeUnit(x) else [x], TAB, [BACKSLASH, LETTER_T])
            == if Named(x) then EscapeUnit(x) else [x]
  {
    ReplaceTwo(x, x, TAB, [BACKSLASH, LETTER_T]);
    ReplaceTwo(BACKSLASH, x, TAB, [BACKSLASH, LETTER_T]);
    ReplaceTwo(BACKSLASH, LETTER_N, TAB, [BACKSLASH, LETTER_T]);
    ReplaceTwo(BACKSLASH, LETTER_R, TAB, [BACKSLASH, LETTER_T]);
  }

  lemma LateBackslashes(x: Unit)
    ensures Replace(if Named(x) then EscapeUnit(x) else [x], BACKSLASH, [BACKSLASH, BACKSLASH]) == LateUnit(x)
  {
    ReplaceTwo(x, x, BACKSLASH, [BACKSLASH, BACKSLASH]);
    if Named(x) {
      var letter := EscapeUnit(x)[1];
      assert EscapeUnit(x) == [BACKSLASH] + [letter];
      ReplaceConcat([BACKSLASH], [letter], BACKSLASH, [BACKSLASH, BACKSLASH]);
      ReplaceTwo(BACKSLASH, BACKSLASH, BACKSLASH, [BACKSLASH, BACKSLASH]);
      ReplaceTwo(letter, letter, BACKSLASH, [BACKSLASH, BACKSLASH]);
    }
  }

  lemma LateConcat(a: Text, b: Text)
    ensures EscapeLate(a + b) == EscapeLate(a) + EscapeLate(b)
  {
    var a1, b1 := Replace(a, QUOTE, [BACKSLASH, QUOTE]), Replace(b, QUOTE, [BACKSLASH, QUOTE]);
    ReplaceConcat(a, b, QUOTE, [BACKSLASH, QUOTE]);
    var a2, b2 := Replace(a1, LF, [BACKSLASH, LETTER_N]), Replace(b1, LF, [BACKSLASH, LETTER_N]);
    ReplaceConcat(a1, b1, LF, [BACKSLASH, LETTER_N]);
    var a3, b3 := Replace(a2, CR, [BACKSLASH, LETTER_R]), Replace(b2, CR, [BACKSLASH, LETTER_R]);
    ReplaceConcat(a2, b2, CR, [BACKSLASH, LETTER_R]);
    var a4, b4 := Replace(a3, TAB, [BACKSLASH, LETTER_T]), Replace(b3, TAB, [BACKSLASH, LETTER_T]);
    ReplaceConcat(a3, b3, TAB, [BACKSLASH, LETTER_T]);
    ReplaceConcat(a4, b4, BACKSLASH, [BACKSLASH, BACKSLASH]);
  }

  lemma {:induction false} LatePassesAreOne(s: Text)
    ensures EscapeLate(s) == LateUnits(s)
  {
    if s == [] {
      assert EscapeLate([]) == [];
    } else {
      LateOne(s[0]);
      LatePassesAreOne(s[1..]);
      LateConcat([s[0]], s[1..]);
      assert [s[0]] + s[1..] == s;
    }
  }

  lemma ReadTwo(x: Unit, y: Unit, rest: Text)
    requires y != QUOTE && y != LF && y != CR && y != BACKSLASH
    ensures Read(EscapeUnit(x) + ([y] + rest)) == Prepend([x, y], Read(rest))
  {
    ReadUnit(x, [y] + rest);
    ReadPlain(y, rest);
    PrependTwice(x, y, Read(rest));
  }

  lemma ReadPlain(y: Unit, rest: Text)
    requires y != QUOTE && y != LF && y != CR && y != BACKSLASH
    ensures Read([y] + rest) == Prepend([y], Read(rest))
  {
    assert ([y] + rest)[1..] == rest;
  }

  lemma PrependTwice(x: Unit, y: Unit, read: Option<(Text, Text)>)
    ensures Prepend([x], Prepend([y], read)) == Prepend([x, y], read)
  {
    if read.Some? {
      assert [x] + ([y] + read.value.0) == [x, y] + read.value.0;
    }
  }

  lemma ReadLateUnit(x: Unit, rest: Text)
    ensures Read(LateUnit(x) + rest)
            == if x == QUOTE then Some(([BACKSLASH], rest))
               else Prepend(if Named(x) then EscapeUnit(x) else [x], Read(rest))
  {
    if Named(x) {
      var letter := EscapeUnit(x)[1];
      assert LateUnit(x) + rest == EscapeUnit(BACKSLASH) + ([letter] + rest);
      if x == QUOTE {
        ReadUnit(BACKSLASH, [QUOTE] + rest);
        assert ([QUOTE] + rest)[1..] == rest && [BACKSLASH] + [] == [BACKSLASH];
      } else {
        ReadTwo(BACKSLASH, letter, rest);
      }
    } else {
      ReadUnit(x, rest);
    }
  }

  /** Read back, a string without quotes is misread, and one with quotes ends too soon. */
  ghost predicate ReadsWrong(s: Text, read: Option<(Text, Text)>) {
    read.Some? && if QUOTE in s then read.value.1 != [] else read.value == (Misread(s), [])
  }

  lemma WrongMore(s: Text, read: Option<(Text, Text)>)
    requires s != [] && s[0] != QUOTE && ReadsWrong(s[1..], read)
    ensures ReadsWrong(s, Prepend(if Named(s[0]) then EscapeUnit(s[0]) else [s[0]], read))
  {
    assert s == [s[0]] + s[1..];
  }

  lemma {:induction false} LateReads(s: Text)
    ensures ReadsWrong(s, Read(LateUnits(s) + [QUOTE]))
  {
    if s == [] {
      assert LateUnits(s) + [QUOTE] == [QUOTE] && [QUOTE][1..] == [];
    } else {
      var tail := LateUnits(s[1..]) + [QUOTE];
      LateReads(s[1..]);
      assert LateUnits(s) + [QUOTE] == LateUnit(s[0]) + tail;
      ReadLateUnit(s[0], tail);
      if s[0] != QUOTE {
        WrongMore(s, Read(tail));
      } else {
        assert s[0] in s && |tail| > 0 && Read(LateUnits(s) + [QUOTE]) == Some(([BACKSLASH], tail));
      }
    }
  }

  lemma {:induction false} MisreadLonger(s: Text)
    ensures |Misread(s)| >= |s|
    ensures if exists x | x in s :: Named(x) then |Misread(s)| > |s| else Misread(s) == s
  {
    if s != [] {
      MisreadLonger(s[1..]);
      assert s == [s[0]] + s[1..];
    }
  }

  /** The backslashes have to go first: with that pass last, the literal denotes the string
      if and only if the string holds no quote, line feed, carriage return or tab. */
  lemma {:induction false} BackslashesFirst(s: Text)
    ensures LiteralValue([QUOTE] + EscapeLate(s) + [QUOTE]) == Some(s) <==> forall x | x in s :: !Named(x)
  {
    LatePassesAreOne(s);
    LateReads(s);
    MisreadLonger(s);
    var literal := [QUOTE] + EscapeLate(s) + [QUOTE];
    assert literal[1..] == LateUnits(s) + [QUOTE];
    assert QUOTE in s ==> Named(QUOTE);
  }
}
