/** `parse_dice_notation`: text such as `2d6+3`, `d20`, `3d8-2` or a bare `4` read as
    (count, sides, modifier). Bounds are not checked here; each tool checks its own. */
module Notation {
  import opened Wrappers
  import opened PyText

  datatype DiceExpr = DiceExpr(count: int, sides: int, modifier: int)

  /** The count and sides pieces of an `XdY` body; an empty count means one die. The
      modifier is attached afterwards by `WithModifier`. */
  function DicePieces(count: string, sides: string): Option<DiceExpr> {
    var n := if count == "" then Some(1) else ParseInt(count);
    var s := ParseInt(sides);
    if n.Some? && s.Some? then Some(DiceExpr(n.value, s.value, 0)) else None
  }

  /** The `XdY` part (or a bare `Y`), after any modifier has been split off. */
  function ParseDice(body: string): Option<DiceExpr> {
    var low := Lower(body);
    if 'd' in low then
      var parts := Split(low, 'd');
      DicePieces(parts[0], parts[1])
    else
      match ParseInt(body)
      case Some(n) => Some(DiceExpr(1, n, 0))
      case None => None
  }

  /** The body with the modifier read from the text after the sign, negated after a `-`;
      `None` when either part fails to read. */
  function WithModifier(dice: Option<DiceExpr>, m: Option<int>, negate: bool): Option<DiceExpr> {
    if dice.Some? && m.Some? then
      Some(dice.value.(modifier := if negate then -m.value else m.value))
    else None
  }

  /** `parse_dice_notation(notation)`; `None` for `(None, None, None)`. A `+` is looked for
      before a `-`, and only the piece after the first separator is read as the modifier. */
  function Parse(notation: string): Option<DiceExpr> {
    if '+' in notation then
      var parts := Split(notation, '+');
      WithModifier(ParseDice(parts[0]), ParseInt(parts[1]), false)
    else if '-' in notation then
      var parts := Split(notation, '-');
      WithModifier(ParseDice(parts[0]), ParseInt(parts[1]), true)
    else ParseDice(notation)
  }

  // ---- how the parser takes a notation apart ----

  /** The text before the first `+` is the body, the text after it the modifier. */
  lemma {:induction false} ParseAtPlus(body: string, m: string)
    requires '+' !in body && '+' !in m
    ensures Parse(body + "+" + m) == WithModifier(ParseDice(body), ParseInt(m), false)
  {
    var s := body + "+" + m;
    assert Split(s, '+') == [body, m] by {
      SplitFirst(body, '+', m);
    }
    assert '+' in s by {
      assert s[|body|] == '+';
    }
  }

  /** Only the text up to the second `+` is the modifier. */
  lemma {:induction false} ParseAtPlusRest(body: string, m: string, rest: string)
    requires '+' !in body && '+' !in m
    ensures Parse(body + "+" + m + "+" + rest) == WithModifier(ParseDice(body), ParseInt(m), false)
  {
    var t := body + "+" + m + "+" + rest;
    SplitTwo(body, m, rest, '+');
    assert '+' in t by {
      assert t[|body|] == '+';
    }
  }

  /** Without a `+`, the text before the first `-` is the body and the text after it the
      modifier, negated. */
  lemma {:induction false} ParseAtMinus(body: string, m: string)
    requires '+' !in body && '+' !in m && '-' !in body && '-' !in m
    ensures '+' !in body + "-" + m && '-' in body + "-" + m
    ensures Split(body + "-" + m, '-') == [body, m]
    ensures Parse(body + "-" + m) == WithModifier(ParseDice(body), ParseInt(m), true)
  {
    var s := body + "-" + m;
    assert '+' !in s by {
      NotInConcat(body, "-", '+');
      NotInConcat(body + "-", m, '+');
    }
    assert Split(s, '-') == [body, m] by {
      SplitFirst(body, '-', m);
    }
    assert '-' in s by {
      assert s[|body|] == '-';
    }
  }

  /** A body with its `d` before `sides`, and no `d` after. */
  lemma {:induction false} ParseDiceAt(count: string, sides: string)
    requires 'd' !in count && 'd' !in sides
    requires Lower(count) == count && Lower(sides) == sides
    ensures ParseDice(count + "d" + sides) == DicePieces(count, sides)
  {
    var body := count + "d" + sides;
    assert Lower(body) == body by {
      LowerConcat(count, "d");
      LowerConcat(count + "d", sides);
    }
    assert Split(body, 'd') == [count, sides] by {
      SplitFirst(count, 'd', sides);
    }
    assert 'd' in body by {
      assert body[|count|] == 'd';
    }
  }

  /** The same with a capital `D`, which the parser lowers first. */
  lemma {:induction false} ParseDiceAtUpper(count: string, sides: string)
    requires 'd' !in count && 'd' !in sides
    requires Lower(count) == count && Lower(sides) == sides
    ensures ParseDice(count + "D" + sides) == DicePieces(count, sides)
  {
    var body := count + "d" + sides;
    var upper := count + "D" + sides;
    assert Lower(upper) == body by {
      LowerConcat(count, "D");
      LowerConcat(count + "D", sides);
    }
    assert Split(body, 'd') == [count, sides] by {
      SplitFirst(count, 'd', sides);
    }
    assert 'd' in Lower(upper) by {
      assert body[|count|] == 'd';
    }
  }

  /** Two separator-free pieces followed by anything: the split begins with both. */
  lemma {:induction false} SplitTwo(a: string, b: string, rest: string, sep: char)
    requires sep !in a && sep !in b
    ensures var parts := Split(a + [sep] + b + [sep] + rest, sep);
      |parts| >= 2 && parts[0] == a && parts[1] == b
  {
    var s := a + [sep] + b + [sep] + rest;
    assert s == a + [sep] + (b + [sep] + rest);
    SplitFirst(a, sep, b + [sep] + rest);
    SplitFirst(b, sep, rest);
  }

  lemma {:induction false} LowerFive(a: string, b: string, c: string, d: string, e: string)
    requires Lower(a) == a && Lower(b) == b && Lower(c) == c && Lower(d) == d && Lower(e) == e
    ensures Lower(a + b + c + d + e) == a + b + c + d + e
  {
    LowerConcat(a, b);
    LowerConcat(a + b, c);
    LowerConcat(a + b + c, d);
    LowerConcat(a + b + c + d, e);
  }

  /** A second `d` ends the sides: only the first two pieces are read. */
  lemma {:induction false} ParseDiceAtMoreD(count: string, sides: string, rest: string)
    requires 'd' !in count && 'd' !in sides
    requires Lower(count) == count && Lower(sides) == sides && Lower(rest) == rest
    ensures ParseDice(count + "d" + sides + "d" + rest) == DicePieces(count, sides)
  {
    var body := count + "d" + sides + "d" + rest;
    assert Lower(body) == body by {
      LowerFive(count, "d", sides, "d", rest);
    }
    SplitTwo(count, sides, rest, 'd');
    assert 'd' in body by {
      assert body[|count|] == 'd';
    }
  }

  /** A body with no `d` at all is the sides of a single die. */
  lemma {:induction false} ParseDiceBare(n: string)
    requires 'd' !in n && Lower(n) == n
    ensures ParseDice(n) == if ParseInt(n).Some? then Some(DiceExpr(1, ParseInt(n).value, 0)) else None
  {
  }

  /** Digit runs hold no separator and are unchanged by lowering. */
  lemma {:induction false} NumeralFacts(s: string)
    requires AllDigits(s)
    ensures '+' !in s && '-' !in s && 'd' !in s && Lower(s) == s
  {
    NotInDigits(s, '+');
    NotInDigits(s, '-');
    NotInDigits(s, 'd');
    LowerDigits(s);
  }

  /** `X d Y` built from digit runs holds no `+` or `-`. */
  lemma {:induction false} BodySignFree(x: string, y: string)
    requires AllDigits(x) && AllDigits(y)
    ensures '+' !in x + "d" + y && '-' !in x + "d" + y
  {
    NumeralFacts(x);
    NumeralFacts(y);
    NotInThree(x, "d", y, '+');
    NotInThree(x, "d", y, '-');
  }

  /** `X d Y` for digit runs reads as `X` dice of `Y` sides. */
  lemma {:induction false} ParseDiceNumerals(x: string, y: string)
    requires Numeral(x) && Numeral(y)
    ensures ParseDice(x + "d" + y) == Some(DiceExpr(DigitsValue(x), DigitsValue(y), 0))
  {
    NumeralFacts(x);
    NumeralFacts(y);
    ParseNumeral(x);
    ParseNumeral(y);
    ParseDiceAt(x, y);
  }

  // ---- the accepted forms ----

  /** `XdY+M` gives `(X, Y, M)`. */
  lemma {:induction false} ParsePlusModifier(x: string, y: string, m: string)
    requires Numeral(x) && Numeral(y) && Numeral(m)
    ensures Parse(x + "d" + y + "+" + m)
         == Some(DiceExpr(DigitsValue(x), DigitsValue(y), DigitsValue(m)))
  {
    BodySignFree(x, y);
    NumeralFacts(m);
    ParseAtPlus(x + "d" + y, m);
    ParseNumeral(m);
    ParseDiceNumerals(x, y);
  }

  /** After a `-`, a digit run is read as a negative modifier. */
  lemma {:induction false} ParseAtMinusNumeral(body: string, m: string)
    requires '+' !in body && '-' !in body && Numeral(m)
    ensures '+' !in body + "-" + m && '-' in body + "-" + m
    ensures Split(body + "-" + m, '-') == [body, m]
    ensures Parse(body + "-" + m) == WithModifier(ParseDice(body), Some(DigitsValue(m) as int), true)
  {
    NumeralFacts(m);
    ParseAtMinus(body, m);
    ParseNumeral(m);
  }

  /** `XdY-M` gives `(X, Y, -M)`. */
  lemma {:induction false} ParseMinusModifier(x: string, y: string, m: string)
    requires Numeral(x) && Numeral(y) && Numeral(m)
    ensures Parse(x + "d" + y + "-" + m)
         == Some(DiceExpr(DigitsValue(x), DigitsValue(y), -(DigitsValue(m) as int)))
  {
    BodySignFree(x, y);
    ParseAtMinusNumeral(x + "d" + y, m);
    ParseDiceNumerals(x, y);
  }

  /** `XdY` gives `(X, Y, 0)`. */
  lemma {:induction false} ParseNoModifier(x: string, y: string)
    requires Numeral(x) && Numeral(y)
    ensures Parse(x + "d" + y) == Some(DiceExpr(DigitsValue(x), DigitsValue(y), 0))
  {
    BodySignFree(x, y);
    ParseDiceNumerals(x, y);
  }

  /** An empty count means one die: `dY` gives `(1, Y, 0)`. */
  lemma {:induction false} ParseDefaultCount(y: string)
    requires Numeral(y)
    ensures Parse("d" + y) == Some(DiceExpr(1, DigitsValue(y), 0))
  {
    NumeralFacts(y);
    BodySignFree("", y);
    assert "" + "d" + y == "d" + y;
    ParseNumeral(y);
    ParseDiceAt("", y);
  }

  /** A bare number `N` is one die of `N` sides. */
  lemma {:induction false} ParseBareNumber(n: string)
    requires Numeral(n)
    ensures Parse(n) == Some(DiceExpr(1, DigitsValue(n), 0))
  {
    NumeralFacts(n);
    ParseNumeral(n);
    ParseDiceBare(n);
  }

  /** The case of the `d` does not matter: `XDY` reads as `XdY`. */
  lemma {:induction false} ParseUpperD(x: string, y: string)
    requires Numeral(x) && Numeral(y)
    ensures Parse(x + "D" + y) == Some(DiceExpr(DigitsValue(x), DigitsValue(y), 0))
  {
    NumeralFacts(x);
    NumeralFacts(y);
    assert '+' !in x + "D" + y && '-' !in x + "D" + y by {
      NotInConcat(x, "D", '+');
      NotInConcat(x + "D", y, '+');
      NotInConcat(x, "D", '-');
      NotInConcat(x + "D", y, '-');
    }
    ParseNumeral(x);
    ParseNumeral(y);
    ParseDiceAtUpper(x, y);
  }

  // ---- the forms it rejects or reads only in part ----

  /** Only the piece between the first and second `+` is the modifier: `XdY+M+...` gives
      `(X, Y, M)` whatever follows. */
  lemma {:induction false} ParseLaterPlusIgnored(x: string, y: string, m: string, rest: string)
    requires Numeral(x) && Numeral(y) && Numeral(m)
    ensures Parse(x + "d" + y + "+" + m + "+" + rest)
         == Some(DiceExpr(DigitsValue(x), DigitsValue(y), DigitsValue(m)))
  {
    BodySignFree(x, y);
    NumeralFacts(m);
    ParseAtPlusRest(x + "d" + y, m, rest);
    ParseNumeral(m);
    ParseDiceNumerals(x, y);
  }

  /** `X d Y d rest` holds no sign when `rest` holds none. */
  lemma {:induction false} MoreDSignFree(x: string, y: string, rest: string)
    requires AllDigits(x) && AllDigits(y)
    requires '+' !in rest && '-' !in rest
    ensures '+' !in x + "d" + y + "d" + rest && '-' !in x + "d" + y + "d" + rest
  {
    BodySignFree(x, y);
    NotInConcat(x + "d" + y, "d", '+');
    NotInConcat(x + "d" + y + "d", rest, '+');
    NotInConcat(x + "d" + y, "d", '-');
    NotInConcat(x + "d" + y + "d", rest, '-');
  }

  /** A second `d` ends the sides: `XdYd...` gives `(X, Y, 0)` when no sign or capital
      letter follows. */
  lemma {:induction false} ParseLaterDIgnored(x: string, y: string, rest: string)
    requires Numeral(x) && Numeral(y)
    requires '+' !in rest && '-' !in rest
    requires forall i :: 0 <= i < |rest| ==> !('A' <= rest[i] <= 'Z')
    ensures Parse(x + "d" + y + "d" + rest) == Some(DiceExpr(DigitsValue(x), DigitsValue(y), 0))
  {
    MoreDSignFree(x, y, rest);
    NumeralFacts(x);
    NumeralFacts(y);
    LowerUnchanged(rest);
    ParseNumeral(x);
    ParseNumeral(y);
    ParseDiceAtMoreD(x, y, rest);
  }

  /** The sides piece `Y-M` is not an integer: a sign may only lead. */
  lemma {:induction false} InnerSignNotInt(y: string, m: string)
    requires Numeral(y) && Numeral(m)
    ensures ParseInt(y + "-" + m) == None
  {
    var sides := y + "-" + m;
    DigitsAt(y);
    DigitsAt(m);
    StripUnspaced(sides);
    assert sides[|y|] == '-';
    if AllDigits(sides) {
      DigitsAt(sides);
    }
  }

  /** `Y-M` holds no `+` or `d` and is unchanged by lowering. */
  lemma {:induction false} SignedSidesFacts(y: string, m: string)
    requires AllDigits(y) && AllDigits(m)
    ensures '+' !in y + "-" + m && 'd' !in y + "-" + m && Lower(y + "-" + m) == y + "-" + m
  {
    NumeralFacts(y);
    NumeralFacts(m);
    NotInThree(y, "-", m, '+');
    NotInThree(y, "-", m, 'd');
    LowerThree(y, "-", m);
  }

  /** `+` is split on first, so a `-` before it stays inside the sides: `XdY-M+K` fails. */
  lemma {:induction false} ParseMinusBeforePlusFails(x: string, y: string, m: string, k: string)
    requires Numeral(x) && Numeral(y) && Numeral(m) && Numeral(k)
    ensures Parse(x + "d" + y + "-" + m + "+" + k) == None
  {
    var sides := y + "-" + m;
    var body := x + "d" + sides;
    assert x + "d" + y + "-" + m + "+" + k == body + "+" + k;
    NumeralFacts(x);
    NumeralFacts(k);
    SignedSidesFacts(y, m);
    assert '+' !in body by {
      NotInConcat(x, "d", '+');
      NotInConcat(x + "d", sides, '+');
    }
    ParseAtPlus(body, k);
    InnerSignNotInt(y, m);
    ParseDiceAt(x, sides);
  }

  /** A leading `-` leaves nothing before it, so `-N` (and any `-...` without `+`) fails. */
  lemma {:induction false} ParseLeadingMinusFails(rest: string)
    requires '+' !in rest
    ensures Parse("-" + rest) == None
  {
    var s := "-" + rest;
    assert s == "" + ['-'] + rest;
    SplitFirst("", '-', rest);
  }

  /** Empty sides fail: `Xd` gives `None`. */
  lemma {:induction false} ParseEmptySidesFails(x: string)
    requires Numeral(x)
    ensures Parse(x + "d") == None
  {
    NumeralFacts(x);
    BodySignFree(x, "");
    assert x + "d" + "" == x + "d";
    ParseDiceAt(x, "");
  }

  // ---- the examples of the tool's documentation and the edge cases of the code ----

  lemma {:induction false} ExampleDefaultCount()
    ensures Parse("d20") == Some(DiceExpr(1, 20, 0))
  {
    assert DigitsValue("20") == 20 by {
      assert "20"[..1] == "2";
    }
    assert "d20" == "d" + "20";
    ParseDefaultCount("20");
  }

  lemma {:induction false} ExampleBare()
    ensures Parse("4") == Some(DiceExpr(1, 4, 0))
  {
    ParseBareNumber("4");
  }

  lemma {:induction false} ExampleUpper()
    ensures Parse("2D6") == Some(DiceExpr(2, 6, 0))
  {
    assert DigitsValue("2") == 2 && DigitsValue("6") == 6;
    ParseUpperD("2", "6");
    assert "2" + "D" + "6" == "2D6";
  }

  lemma {:induction false} ExampleMinusThenPlus()
    ensures Parse("1d6-2+1") == None
  {
    assert "1d6-2+1" == "1" + "d" + "6" + "-" + "2" + "+" + "1";
    ParseMinusBeforePlusFails("1", "6", "2", "1");
  }

  lemma {:induction false} ExampleLeadingMinus()
    ensures Parse("-3") == None
  {
    assert "-3" == "-" + "3";
    ParseLeadingMinusFails("3");
  }

  lemma {:induction false} ExampleEmptySides()
    ensures Parse("2d") == None
  {
    ParseEmptySidesFails("2");
  }

  /** Text that is no number and holds no `d` fails: `abc` gives `None`. */
  lemma {:induction false} ExampleWordFails()
    ensures Parse("abc") == None
  {
    var w := "abc";
    StripUnspaced(w);
    assert !IsDigit(w[|w| - 1]);
    assert Lower(w) == w by {
      LowerUnchanged(w);
    }
    assert w[0] != 'd' && w[1] != 'd' && w[2] != 'd';
  }

  lemma {:induction false} ExampleSecondD()
    ensures Parse("2d6d8") == Some(DiceExpr(2, 6, 0))
  {
    assert DigitsValue("2") == 2 && DigitsValue("6") == 6;
    assert forall i :: 0 <= i < |"8"| ==> !('A' <= "8"[i] <= 'Z');
    ParseLaterDIgnored("2", "6", "8");
    assert "2" + "d" + "6" + "d" + "8" == "2d6d8";
  }
}
