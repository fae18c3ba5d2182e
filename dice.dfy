/** `roll_dice`: roll the dice of a notation and add the modifier. */
module Dice {
  import opened Wrappers
  import opened PyText
  import opened RandomSource
  import opened SeqMath
  import opened Notation
  import opened Validation
  import opened Format

  datatype DiceRoll = DiceRoll(dice: DiceExpr, rolls: seq<int>, total: int, text: string)

  /** The notation `roll_dice` accepts: `1d6` when blank, at most 100 dice of 2 to 1000 sides. */
  function DiceNotation(notation: string): Result<DiceExpr, ToolError> {
    ValidateNotation(notation, 100, 1000)
  }

  /** The reply: the formatted roll, and the list of individual rolls when there is more than
      one die. */
  function DiceText(rolls: seq<int>, modifier: int, total: int): string {
    FormatRollResult(rolls, modifier, total)
      + (if |rolls| > 1 then "\nIndividual rolls: " + JoinInts(rolls) else "")
  }

  /** `roll_dice(notation)`: the dice are the calls at positions `0 .. count - 1`. */
  function RollDice(src: Source, notation: string): (r: Result<DiceRoll, ToolError>)
    ensures r.Ok? <==> DiceNotation(notation).Ok?
    ensures r.Err? ==> r.error == DiceNotation(notation).error
    ensures r.Ok? ==> (var d := r.value.dice;
                       && d == DiceNotation(notation).value
                       && |r.value.rolls| == d.count
                       && (forall k :: 0 <= k < d.count ==>
                             r.value.rolls[k] == RandInt(src, k, 1, d.sides))
                       && r.value.total == Sum(r.value.rolls) + d.modifier
                       && r.value.text == DiceText(r.value.rolls, d.modifier, r.value.total)
                       && d.count <= r.value.total - d.modifier <= d.count * d.sides)
  {
    match DiceNotation(notation)
    case Err(e) => Err(e)
    case Ok(d) =>
      var rolls := RollDiceSet(src, 0, d.count, d.sides);
      var total := Sum(rolls) + d.modifier;
      SumBounds(rolls, 1, d.sides);
      Ok(DiceRoll(d, rolls, total, DiceText(rolls, d.modifier, total)))
  }

  /** With several dice the reply ends with the individual rolls, which read back, split at the
      commas, as the rolls themselves. */
  lemma RollDiceListsRolls(src: Source, notation: string)
    requires RollDice(src, notation).Ok? && RollDice(src, notation).value.dice.count > 1
    ensures var r := RollDice(src, notation).value;
            exists list ::
              && r.text == FormatRollResult(r.rolls, r.dice.modifier, r.total)
                           + "\nIndividual rolls: " + list
              && ReadInts(Split(list, ',')) == Some(r.rolls)
  {
    var r := RollDice(src, notation).value;
    assert |r.rolls| > 1;
    JoinIntsReadsBack(r.rolls);
    var list := JoinInts(r.rolls);
    assert r.text == DiceText(r.rolls, r.dice.modifier, r.total);
    assert r.text == FormatRollResult(r.rolls, r.dice.modifier, r.total)
                     + "\nIndividual rolls: " + list;
  }

  /** `XdY+M` with digit runs in range is rolled as `X` dice of `Y` sides plus `M`. */
  lemma RollDiceAcceptsPlus(src: Source, x: string, y: string, m: string)
    requires Numeral(x) && Numeral(y) && Numeral(m)
    requires 1 <= DigitsValue(x) <= 100 && 2 <= DigitsValue(y) <= 1000
    ensures RollDice(src, x + "d" + y + "+" + m).Ok?
    ensures RollDice(src, x + "d" + y + "+" + m).value.dice
         == DiceExpr(DigitsValue(x), DigitsValue(y), DigitsValue(m))
  {
    ValidateNotationPlus(x, y, m, 100, 1000);
  }

  /** `XdY` is refused when the count is outside `1..100`, whatever the sides. */
  lemma RollDiceRejectsCount(src: Source, x: string, y: string)
    requires Numeral(x) && Numeral(y)
    requires DigitsValue(x) == 0 || DigitsValue(x) > 100
    ensures RollDice(src, x + "d" + y) == Err(CountOutOfRange(1, 100))
  {
    ValidateNotationNumerals(x, y, 100, 1000);
  }

  /** `XdY` with a count in range is refused when the sides are outside `2..1000`. */
  lemma RollDiceRejectsSides(src: Source, x: string, y: string)
    requires Numeral(x) && Numeral(y)
    requires 1 <= DigitsValue(x) <= 100
    requires DigitsValue(y) < 2 || DigitsValue(y) > 1000
    ensures RollDice(src, x + "d" + y) == Err(SidesOutOfRange(2, 1000))
  {
    ValidateNotationNumerals(x, y, 100, 1000);
  }
}
