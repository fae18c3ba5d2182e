/** `roll_advantage` and `roll_disadvantage`: roll the same die twice and keep the higher or the
    lower of the two. */
module TwoRoll {
  import opened Wrappers
  import opened RandomSource
  import opened Validation

  /** The two rolls, the one kept and the mark shown with it. */
  datatype TwoRolls = TwoRolls(sides: int, first: int, second: int, result: int, mark: Highlight)

  /** The die both tools accept: a d20 when omitted, otherwise `int(die_type)` sides within
      `2..1000`. */
  function DieSides(dieType: string): Result<int, ToolError> {
    ValidateArg(dieType, 20, 2, 1000, SidesOutOfRange(2, 1000))
  }

  /** `max(roll1, roll2)` */
  function Max(a: int, b: int): (m: int)
    ensures m >= a && m >= b && (m == a || m == b)
  {
    if a >= b then a else b
  }

  /** `min(roll1, roll2)` */
  function Min(a: int, b: int): (m: int)
    ensures m <= a && m <= b && (m == a || m == b)
  {
    if a <= b then a else b
  }

  /** `roll_advantage(die_type)`: the higher of the calls at positions 0 and 1. */
  function RollAdvantage(src: Source, dieType: string): (r: Result<TwoRolls, ToolError>)
    ensures r.Ok? <==> DieSides(dieType).Ok?
    ensures r.Err? ==> r.error == DieSides(dieType).error
    ensures r.Ok? ==> (var t := r.value;
                       && t.sides == DieSides(dieType).value
                       && t.first == RandInt(src, 0, 1, t.sides)
                       && t.second == RandInt(src, 1, 1, t.sides)
                       && t.result >= t.first && t.result >= t.second
                       && (t.result == t.first || t.result == t.second)
                       && 1 <= t.result <= t.sides
                       && (t.mark == Top <==> t.result == t.sides)
                       && (t.mark == High <==>
                             t.result != t.sides && t.result as real >= t.sides as real * 0.75))
  {
    match DieSides(dieType)
    case Err(e) => Err(e)
    case Ok(sides) =>
      var roll1 := RandInt(src, 0, 1, sides);
      var roll2 := RandInt(src, 1, 1, sides);
      var result := Max(roll1, roll2);
      Ok(TwoRolls(sides, roll1, roll2, result, AdvantageHighlight(result, sides)))
  }

  /** `roll_disadvantage(die_type)`: the lower of the calls at positions 0 and 1. */
  function RollDisadvantage(src: Source, dieType: string): (r: Result<TwoRolls, ToolError>)
    ensures r.Ok? <==> DieSides(dieType).Ok?
    ensures r.Err? ==> r.error == DieSides(dieType).error
    ensures r.Ok? ==> (var t := r.value;
                       && t.sides == DieSides(dieType).value
                       && t.first == RandInt(src, 0, 1, t.sides)
                       && t.second == RandInt(src, 1, 1, t.sides)
                       && t.result <= t.first && t.result <= t.second
                       && (t.result == t.first || t.result == t.second)
                       && 1 <= t.result <= t.sides
                       && (t.mark == Top <==> t.result == 1)
                       && (t.mark == High <==>
                             t.result != 1 && t.result as real <= t.sides as real * 0.25))
  {
    match DieSides(dieType)
    case Err(e) => Err(e)
    case Ok(sides) =>
      var roll1 := RandInt(src, 0, 1, sides);
      var roll2 := RandInt(src, 1, 1, sides);
      var result := Min(roll1, roll2);
      Ok(TwoRolls(sides, roll1, roll2, result, DisadvantageHighlight(result, sides)))
  }

  /** On the same two rolls, advantage keeps one and disadvantage the other: the advantage result
      is never below the disadvantage result, and together they are the two rolls. */
  lemma AdvantageCoversDisadvantage(src: Source, dieType: string)
    requires DieSides(dieType).Ok?
    ensures var adv := RollAdvantage(src, dieType).value;
            var dis := RollDisadvantage(src, dieType).value;
            && adv.first == dis.first && adv.second == dis.second
            && adv.result >= dis.result
            && adv.result + dis.result == adv.first + adv.second
  {
  }

  /** The mark the two tools put on a result: the best case, a good one, or neither. */
  datatype Highlight = Top | High | Plain

  /** The mark of `roll_advantage`: the top face, at least three quarters of the faces, or
      neither. The code compares with `sides * 0.75`; the integer comparison here is the same
      test. */
  function AdvantageHighlight(result: int, sides: int): (h: Highlight)
    ensures h == Top <==> result == sides
    ensures h == High <==> result != sides && result as real >= sides as real * 0.75
  {
    if result == sides then Top else if 4 * result >= 3 * sides then High else Plain
  }

  /** The highlight `roll_disadvantage` puts on its result: a 1, at most a quarter of the faces
      (the code's `sides * 0.25`), or neither. */
  function DisadvantageHighlight(result: int, sides: int): (h: Highlight)
    ensures h == Top <==> result == 1
    ensures h == High <==> result != 1 && result as real <= sides as real * 0.25
  {
    if result == 1 then Top else if 4 * result <= sides then High else Plain
  }
}
