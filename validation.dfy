/** The argument handling every tool starts with: an omitted (blank) argument takes the
    tool's default, anything else goes through `int()` or the notation parser, and the value
    must then lie within inclusive bounds. The error cases are values here; the tools turn
    them into their `❌ Error: ...` replies. */
module Validation {
  import opened Wrappers
  import opened PyText
  import opened Notation

  /** Why a tool refused its arguments, one constructor per kind of reply. */
  datatype ToolError =
    | InvalidNumber(arg: string)           // `int()` raised `ValueError`
    | InvalidNotation(notation: string)    // the parser returned `(None, None, None)`
    | InvalidPoolInput                     // one of the three pool arguments is not a number
    | CountOutOfRange(lo: int, hi: int)    // number of coins, dice or pool size
    | SidesOutOfRange(lo: int, hi: int)    // number of sides
    | TargetOutOfRange(lo: int, hi: int)   // pool target

  /** `int(arg) if arg.strip() else default`; `None` where `int()` raises. */
  function ArgOrDefault(arg: string, default: int): Option<int> {
    if IsBlank(arg) then Some(default) else ParseInt(arg)
  }

  /** The number read from `arg` when it lies in `lo..hi`; otherwise the error the tool
      reports: `InvalidNumber` when it is not a number, `outOfRange` when it is outside. */
  function ValidateArg(arg: string, default: int, lo: int, hi: int, outOfRange: ToolError)
    : (r: Result<int, ToolError>)
    ensures r.Ok? ==> lo <= r.value <= hi && ArgOrDefault(arg, default) == Some(r.value)
    ensures r.Ok? <==> ArgOrDefault(arg, default).Some? && lo <= ArgOrDefault(arg, default).value <= hi
    ensures ArgOrDefault(arg, default).None? ==> r == Err(InvalidNumber(arg))
    ensures ArgOrDefault(arg, default).Some? && r.Err? ==> r.error == outOfRange
  {
    match ArgOrDefault(arg, default)
    case None => Err(InvalidNumber(arg))
    case Some(n) => if n < lo || n > hi then Err(outOfRange) else Ok(n)
  }

  /** An omitted argument gives the default. */
  lemma {:induction false} ArgOrDefaultBlank(arg: string, default: int)
    requires forall i :: 0 <= i < |arg| ==> IsSpace(arg[i])
    ensures ArgOrDefault(arg, default) == Some(default)
  {
    BlankIffAllSpace(arg);
  }

  /** A printed integer is read back as itself. */
  lemma {:induction false} ArgOrDefaultShown(n: int, default: int)
    ensures ArgOrDefault(ShowInt(n), default) == Some(n)
  {
    var s := ShowInt(n);
    assert !IsBlank(s) by {
      BlankIffAllSpace(s);
    }
    ParseShowInt(n);
  }

  /** A printed integer is accepted exactly when it lies in the bounds. */
  lemma {:induction false} ValidateArgShown(n: int, default: int, lo: int, hi: int, outOfRange: ToolError)
    ensures ValidateArg(ShowInt(n), default, lo, hi, outOfRange)
         == if lo <= n <= hi then Ok(n) else Err(outOfRange)
  {
    ArgOrDefaultShown(n, default);
  }

  /** An omitted argument is accepted as the default when the default is in bounds. */
  lemma {:induction false} ValidateArgBlank(arg: string, default: int, lo: int, hi: int, outOfRange: ToolError)
    requires forall i :: 0 <= i < |arg| ==> IsSpace(arg[i])
    requires lo <= default <= hi
    ensures ValidateArg(arg, default, lo, hi, outOfRange) == Ok(default)
  {
    ArgOrDefaultBlank(arg, default);
  }

  /** `notation = "1d6"` when the notation is blank. */
  /** A number after one of the separators `\x1c` to `\x1f` is not blank, since the digits
      remain after `strip()`, yet `int()` refuses it: the tool reports an invalid number. */
  lemma {:induction false} ValidateArgSeparator(c: char, digits: string, default: int, lo: int,
                                                hi: int, outOfRange: ToolError)
    requires '\U{1C}' <= c <= '\U{1F}' && Numeral(digits)
    ensures ValidateArg([c] + digits, default, lo, hi, outOfRange) == Err(InvalidNumber([c] + digits))
  {
    SeparatorNotSkipped(c, digits);
  }

  function EffectiveNotation(notation: string): string {
    if IsBlank(notation) then "1d6" else notation
  }

  /** The parsed notation, checked against the bounds in the order the tools check them. */
  function CheckBounds(d: DiceExpr, maxCount: int, maxSides: int): Result<DiceExpr, ToolError> {
    if d.count < 1 || d.count > maxCount then Err(CountOutOfRange(1, maxCount))
    else if d.sides < 2 || d.sides > maxSides then Err(SidesOutOfRange(2, maxSides))
    else Ok(d)
  }

  /** `roll_dice` and `roll_exploding`: parse the notation, then check the count against
      `1..maxCount` and then the sides against `2..maxSides`. */
  function ValidateNotation(notation: string, maxCount: int, maxSides: int)
    : (r: Result<DiceExpr, ToolError>)
    ensures r.Ok? ==> 1 <= r.value.count <= maxCount && 2 <= r.value.sides <= maxSides
    ensures r.Ok? ==> Parse(EffectiveNotation(notation)) == Some(r.value)
    ensures r.Err? ==> (r.error == InvalidNotation(EffectiveNotation(notation))
                        || r.error == CountOutOfRange(1, maxCount)
                        || r.error == SidesOutOfRange(2, maxSides))
    ensures r == Err(InvalidNotation(EffectiveNotation(notation)))
        <==> Parse(EffectiveNotation(notation)).None?
    ensures var p := Parse(EffectiveNotation(notation));
      r.Ok? <==> p.Some? && 1 <= p.value.count <= maxCount && 2 <= p.value.sides <= maxSides
    ensures var p := Parse(EffectiveNotation(notation));
      r == Err(CountOutOfRange(1, maxCount)) <==> p.Some? && !(1 <= p.value.count <= maxCount)
    ensures var p := Parse(EffectiveNotation(notation));
      (r == Err(SidesOutOfRange(2, maxSides))
       <==> p.Some? && 1 <= p.value.count <= maxCount && !(2 <= p.value.sides <= maxSides))
  {
    var effective := EffectiveNotation(notation);
    match Parse(effective)
    case None => Err(InvalidNotation(effective))
    case Some(d) => CheckBounds(d, maxCount, maxSides)
  }

  /** An omitted notation means `1d6`. */
  lemma {:induction false} ValidateNotationBlank(notation: string, maxCount: int, maxSides: int)
    requires forall i :: 0 <= i < |notation| ==> IsSpace(notation[i])
    ensures ValidateNotation(notation, maxCount, maxSides) == CheckBounds(DiceExpr(1, 6, 0), maxCount, maxSides)
  {
    BlankIffAllSpace(notation);
    assert "1d6" == "1" + "d" + "6";
    ParseNoModifier("1", "6");
  }

  /** Text holding a `d` is not blank. */
  lemma {:induction false} WithDNotBlank(x: string, y: string)
    ensures !IsBlank(x + "d" + y)
  {
    var s := x + "d" + y;
    assert s[|x|] == 'd';
    BlankIffAllSpace(s);
  }

  /** `XdY` for digit runs is checked as `(X, Y, 0)`. */
  lemma {:induction false} ValidateNotationNumerals(x: string, y: string, maxCount: int, maxSides: int)
    requires Numeral(x) && Numeral(y)
    ensures ValidateNotation(x + "d" + y, maxCount, maxSides)
         == CheckBounds(DiceExpr(DigitsValue(x), DigitsValue(y), 0), maxCount, maxSides)
  {
    WithDNotBlank(x, y);
    ParseNoModifier(x, y);
  }

  /** `XdY+M` for digit runs is checked as `(X, Y, M)`. */
  lemma {:induction false} ValidateNotationPlus(x: string, y: string, m: string, maxCount: int, maxSides: int)
    requires Numeral(x) && Numeral(y) && Numeral(m)
    ensures ValidateNotation(x + "d" + y + "+" + m, maxCount, maxSides)
         == CheckBounds(DiceExpr(DigitsValue(x), DigitsValue(y), DigitsValue(m)), maxCount, maxSides)
  {
    WithDNotBlank(x, y + "+" + m);
    assert x + "d" + (y + "+" + m) == x + "d" + y + "+" + m;
    ParsePlusModifier(x, y, m);
  }
}
