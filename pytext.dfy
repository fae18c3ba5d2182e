/** The few Python text operations the dice engine relies on: `str.strip()`, `int()`,
    `str()` of an integer, `str.lower()`, `str.split(sep)` and `str.join`. */
module PyText {
  import opened Wrappers

  /** The characters `int()` skips around a number: space, tab, `\n`, `\v`, `\f` and `\r`. */
  predicate IsIntSpace(c: char) {
    c == ' ' || c == '\t' || c == '\n' || c == '\r' || c == '\U{B}' || c == '\U{C}'
  }

  /** The ASCII characters `str.strip()` removes: those six and the separators `\x1c` to
      `\x1f`, which `int()` does not skip. */
  predicate IsSpace(c: char) {
    IsIntSpace(c) || ('\U{1C}' <= c <= '\U{1F}')
  }

  /** Whitespace of `int()` when `forInt`, else of `str.strip()`. */
  predicate Skipped(c: char, forInt: bool) {
    if forInt then IsIntSpace(c) else IsSpace(c)
  }

  function TrimLeft(s: string, forInt: bool): string {
    if s != [] && Skipped(s[0], forInt) then TrimLeft(s[1..], forInt) else s
  }

  function TrimRight(s: string, forInt: bool): string {
    if s != [] && Skipped(s[|s| - 1], forInt) then TrimRight(s[..|s| - 1], forInt) else s
  }

  /** `s.strip()` */
  function Strip(s: string): string {
    TrimRight(TrimLeft(s, false), false)
  }

  /** The text `int(s)` reads: `s` without the whitespace `int()` skips at either end. */
  function IntStrip(s: string): string {
    TrimRight(TrimLeft(s, true), true)
  }

  /** `not s.strip()`: the argument counts as omitted. */
  predicate IsBlank(s: string) {
    Strip(s) == ""
  }

  /** `TrimLeft` keeps a suffix that starts with a non-space. */
  lemma {:induction false} TrimLeftSuffix(s: string, forInt: bool)
    ensures |TrimLeft(s, forInt)| <= |s| && TrimLeft(s, forInt) == s[|s| - |TrimLeft(s, forInt)|..]
    ensures TrimLeft(s, forInt) != [] ==> !Skipped(TrimLeft(s, forInt)[0], forInt)
  {
    if s != [] && Skipped(s[0], forInt) {
      TrimLeftSuffix(s[1..], forInt);
    }
  }

  /** What `TrimLeft` drops is spaces. */
  lemma {:induction false} TrimLeftDropsSpaces(s: string, forInt: bool)
    ensures forall i :: 0 <= i < |s| - |TrimLeft(s, forInt)| ==> Skipped(s[i], forInt)
  {
    if s != [] && Skipped(s[0], forInt) {
      TrimLeftDropsSpaces(s[1..], forInt);
    }
  }

  /** `TrimRight` keeps a prefix that ends with a non-space. */
  lemma {:induction false} TrimRightPrefix(s: string, forInt: bool)
    ensures |TrimRight(s, forInt)| <= |s| && TrimRight(s, forInt) == s[..|TrimRight(s, forInt)|]
    ensures TrimRight(s, forInt) != [] ==>
              !Skipped(TrimRight(s, forInt)[|TrimRight(s, forInt)| - 1], forInt)
  {
    if s != [] && Skipped(s[|s| - 1], forInt) {
      TrimRightPrefix(s[..|s| - 1], forInt);
    }
  }

  /** What `TrimRight` drops is spaces. */
  lemma {:induction false} TrimRightDropsSpaces(s: string, forInt: bool)
    ensures forall i :: |TrimRight(s, forInt)| <= i < |s| ==> Skipped(s[i], forInt)
  {
    if s != [] && Skipped(s[|s| - 1], forInt) {
      TrimRightDropsSpaces(s[..|s| - 1], forInt);
    }
  }

  /** A blank argument is exactly one made of whitespace only. */
  lemma BlankIffAllSpace(s: string)
    ensures IsBlank(s) <==> forall i :: 0 <= i < |s| ==> IsSpace(s[i])
  {
    TrimLeftSuffix(s, false);
    TrimLeftDropsSpaces(s, false);
    TrimRightPrefix(TrimLeft(s, false), false);
    TrimRightDropsSpaces(TrimLeft(s, false), false);
  }

  /** Text with no whitespace at either end is left as it is by `strip()` and by `int()`. */
  lemma StripUnspaced(s: string)
    requires s != [] && !IsSpace(s[0]) && !IsSpace(s[|s| - 1])
    ensures Strip(s) == s && IntStrip(s) == s
  {
  }

  /** `int()` does not skip the separators `\x1c` to `\x1f`: a number after one is refused,
      though `strip()` would remove the separator. */
  lemma {:induction false} SeparatorNotSkipped(c: char, digits: string)
    requires '\U{1C}' <= c <= '\U{1F}' && Numeral(digits)
    ensures Strip([c] + digits) == digits
    ensures ParseInt([c] + digits) == None
  {
    var s := [c] + digits;
    DigitsAt(digits);
    assert s[1..] == digits;
    assert TrimLeft(s, false) == digits;
    StripUnspaced(digits);
    assert s[|s| - 1] == digits[|digits| - 1];
    assert IntStrip(s) == s;
    DigitsFirst(s);
  }

  /** A digit run starts with a digit. */
  lemma {:induction false} DigitsFirst(s: string)
    requires s != []
    ensures AllDigits(s) ==> IsDigit(s[0])
  {
    if |s| > 1 {
      DigitsFirst(s[..|s| - 1]);
    }
  }

  predicate IsDigit(c: char) {
    '0' <= c <= '9'
  }

  predicate AllDigits(s: string) {
    s == [] || (IsDigit(s[|s| - 1]) && AllDigits(s[..|s| - 1]))
  }

  lemma {:induction false} DigitsAt(s: string)
    requires AllDigits(s)
    ensures forall i :: 0 <= i < |s| ==> IsDigit(s[i])
  {
    if s != [] {
      DigitsAt(s[..|s| - 1]);
    }
  }

  function DigitValue(c: char): (d: nat)
    requires IsDigit(c)
    ensures d < 10
  {
    c as int - '0' as int
  }

  function DigitChar(d: nat): (c: char)
    requires d < 10
    ensures IsDigit(c) && DigitValue(c) == d
  {
    ('0' as int + d) as char
  }

  /** The value of a string of decimal digits, most significant first. */
  function DigitsValue(s: string): nat
    requires AllDigits(s)
  {
    if s == [] then 0 else DigitsValue(s[..|s| - 1]) * 10 + DigitValue(s[|s| - 1])
  }

  /** A non-empty run of decimal digits. */
  predicate Numeral(s: string) {
    s != [] && AllDigits(s)
  }

  /** `int(t)` on text with no surrounding whitespace: an optional sign, then one or more digits. */
  function ParseSigned(t: string): Option<int> {
    if t != [] && (t[0] == '+' || t[0] == '-') then
      var digits := t[1..];
      if digits != [] && AllDigits(digits) then
        var v: int := DigitsValue(digits);
        Some(if t[0] == '-' then -v else v)
      else None
    else if t != [] && AllDigits(t) then Some(DigitsValue(t))
    else None
  }

  /** `int(s)`: `None` where Python raises `ValueError`. */
  function ParseInt(s: string): Option<int> {
    ParseSigned(IntStrip(s))
  }

  /** `str(n)` for a non-negative integer: no leading zeros. */
  function ShowNat(n: nat): (r: string)
    ensures r != [] && AllDigits(r)
    ensures r[0] == '0' ==> n == 0
  {
    if n < 10 then [DigitChar(n)] else ShowNat(n / 10) + [DigitChar(n % 10)]
  }

  /** `str(n)` */
  function ShowInt(n: int): (r: string)
    ensures r != [] && !IsSpace(r[0]) && !IsSpace(r[|r| - 1])
    ensures r[0] == '-' <==> n < 0
  {
    var digits := if n < 0 then -n else n;
    DigitsAt(ShowNat(digits));
    if n < 0 then "-" + ShowNat(-n) else ShowNat(n)
  }

  lemma {:induction false} DigitsOfShowNat(n: nat)
    ensures DigitsValue(ShowNat(n)) == n
  {
    if n >= 10 {
      var s := ShowNat(n / 10);
      assert (s + [DigitChar(n % 10)])[..|s|] == s;
      DigitsOfShowNat(n / 10);
    }
  }

  /** `int(str(n)) == n`: printing an integer and reading it back is the identity. */
  lemma ParseShowInt(n: int)
    ensures ParseInt(ShowInt(n)) == Some(n)
  {
    if n < 0 {
      var digits := ShowNat(-n);
      var r := "-" + digits;
      assert r[1..] == digits;
      DigitsAt(digits);
      StripUnspaced(r);
      DigitsOfShowNat(-n);
    } else {
      ParseNumeral(ShowNat(n));
      DigitsOfShowNat(n);
    }
  }

  /** `int()` reads a run of digits as its decimal value, leading zeros included. */
  lemma ParseNumeral(s: string)
    requires Numeral(s)
    ensures ParseInt(s) == Some(DigitsValue(s))
  {
    DigitsAt(s);
    StripUnspaced(s);
  }

  lemma NotInDigits(s: string, c: char)
    requires AllDigits(s) && !IsDigit(c)
    ensures c !in s
  {
    DigitsAt(s);
  }

  /** `int()` ignores a leading space, as in the `", "`-joined roll lists. */
  lemma ParseSpacedShowInt(n: int)
    ensures ParseInt(" " + ShowInt(n)) == Some(n)
  {
    var r := ShowInt(n);
    assert TrimLeft(" " + r, true) == TrimLeft(r, true) by {
      assert (" " + r)[1..] == r;
    }
    ParseShowInt(n);
  }

  function LowerChar(c: char): char {
    if 'A' <= c <= 'Z' then (c as int + 32) as char else c
  }

  /** `s.lower()` on ASCII letters. */
  function Lower(s: string): (r: string)
    ensures |r| == |s|
  {
    if s == [] then [] else [LowerChar(s[0])] + Lower(s[1..])
  }

  lemma {:induction false} LowerConcat(a: string, b: string)
    ensures Lower(a + b) == Lower(a) + Lower(b)
  {
    if a == [] {
      assert a + b == b;
    } else {
      assert (a + b)[1..] == a[1..] + b;
      LowerConcat(a[1..], b);
    }
  }

  lemma LowerThree(a: string, b: string, c: string)
    requires Lower(a) == a && Lower(b) == b && Lower(c) == c
    ensures Lower(a + b + c) == a + b + c
  {
    LowerConcat(a, b);
    LowerConcat(a + b, c);
  }

  /** Lowering leaves every character but `A`..`Z` alone. */
  lemma {:induction false} LowerUnchanged(s: string)
    requires forall i :: 0 <= i < |s| ==> !('A' <= s[i] <= 'Z')
    ensures Lower(s) == s
  {
    if s != [] {
      LowerUnchanged(s[1..]);
    }
  }

  lemma LowerDigits(s: string)
    requires AllDigits(s)
    ensures Lower(s) == s
  {
    DigitsAt(s);
    LowerUnchanged(s);
  }

  /** Position of the first occurrence of `c` in `s`. */
  function IndexOf(s: string, c: char): (k: nat)
    requires c in s
    ensures k < |s| && s[k] == c && c !in s[..k]
  {
    if s[0] == c then 0 else assert s == [s[0]] + s[1..]; 1 + IndexOf(s[1..], c)
  }

  /** `s.split(sep)` for a one-character separator: the pieces between separators,
      empty pieces included. */
  function Split(s: string, sep: char): (parts: seq<string>)
    ensures |parts| >= 1
    ensures sep in s <==> |parts| >= 2
    decreases |s|
  {
    if sep !in s then [s]
    else
      var k := IndexOf(s, sep);
      [s[..k]] + Split(s[k + 1..], sep)
  }

  /** No piece of a split holds the separator. */
  lemma {:induction false} SplitPiecesFree(s: string, sep: char)
    ensures forall i :: 0 <= i < |Split(s, sep)| ==> sep !in Split(s, sep)[i]
    decreases |s|
  {
    if sep in s {
      var k := IndexOf(s, sep);
      SplitPiecesFree(s[k + 1..], sep);
    }
  }

  /** `sep.join(parts)` */
  function Join(parts: seq<string>, sep: string): string {
    if |parts| == 0 then ""
    else if |parts| == 1 then parts[0]
    else parts[0] + sep + Join(parts[1..], sep)
  }

  /** Splitting at the first separator: what precedes it is the first piece. */
  lemma SplitFirst(a: string, sep: char, b: string)
    requires sep !in a
    ensures Split(a + [sep] + b, sep) == [a] + Split(b, sep)
  {
    var s := a + [sep] + b;
    assert s[|a|] == sep;
    var k := IndexOf(s, sep);
    assert s[..k] == a;
    assert s[k + 1..] == b;
  }

  /** Joining the pieces of a split restores the text. */
  lemma {:induction false} JoinSplit(s: string, sep: char)
    ensures Join(Split(s, sep), [sep]) == s
    decreases |s|
  {
    if sep in s {
      var k := IndexOf(s, sep);
      var rest := s[k + 1..];
      JoinSplit(rest, sep);
      assert s == s[..k] + [sep] + rest;
      assert Split(s, sep)[1..] == Split(rest, sep);
    }
  }

  /** Splitting a join of separator-free pieces gives the pieces back. */
  lemma {:induction false} SplitJoin(parts: seq<string>, sep: char)
    requires |parts| >= 1
    requires forall i :: 0 <= i < |parts| ==> sep !in parts[i]
    ensures Split(Join(parts, [sep]), sep) == parts
  {
    if |parts| > 1 {
      SplitJoin(parts[1..], sep);
      SplitFirst(parts[0], sep, Join(parts[1..], [sep]));
      assert parts == [parts[0]] + parts[1..];
    }
  }

  lemma NotInConcat(a: string, b: string, c: char)
    requires c !in a && c !in b
    ensures c !in a + b
  {
  }

  lemma NotInThree(a: string, b: string, c: string, ch: char)
    requires ch !in a && ch !in b && ch !in c
    ensures ch !in a + b + c
  {
    NotInConcat(a, b, ch);
    NotInConcat(a + b, c, ch);
  }
}
