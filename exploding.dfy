/** `roll_exploding`: every die that shows its top face is rolled again and the new roll is
    added to that die, for as long as it keeps showing the top face, but the explosions of all
    the dice together are capped at 10. */
module Exploding {
  import opened Wrappers
  import opened RandomSource
  import opened SeqMath
  import opened Notation
  import opened Validation

  /** The shared cap on explosions. */
  const MaxExplosions: nat := 10

  /** What rolling leaves behind: the rolls made, the position of the next call to `random` and
      the explosion counter. */
  datatype Chain = Chain(rolls: seq<int>, next: nat, explosions: nat)
  datatype Rolled = Rolled(dice: seq<seq<int>>, next: nat, explosions: nat)

  /** The inner `while roll == sides and explosions < 10` loop after a die showed `roll`:
      the extra rolls it makes, from position `pos` on. */
  function Explode(src: Source, sides: int, pos: nat, roll: int, explosions: nat): Chain
    requires sides >= 1 && explosions <= MaxExplosions
    decreases MaxExplosions - explosions
  {
    if roll == sides && explosions < MaxExplosions then
      var again := RandInt(src, pos, 1, sides);
      var rest := Explode(src, sides, pos + 1, again, explosions + 1);
      Chain([again] + rest.rolls, rest.next, rest.explosions)
    else
      Chain([], pos, explosions)
  }

  /** One die: its first roll at `pos`, then its explosions. */
  function RollDie(src: Source, sides: int, pos: nat, explosions: nat): Chain
    requires sides >= 1 && explosions <= MaxExplosions
  {
    var first := RandInt(src, pos, 1, sides);
    var rest := Explode(src, sides, pos + 1, first, explosions);
    Chain([first] + rest.rolls, rest.next, rest.explosions)
  }

  /** Every roll lies in `1..sides`. */
  predicate InRange(rolls: seq<int>, sides: int) {
    forall k :: 0 <= k < |rolls| ==> 1 <= rolls[k] <= sides
  }

  /** Each explosion makes one roll and adds one to the counter, which stops at the cap; every
      extra roll but the last shows the top face, and the last one does not unless the cap was
      reached. */
  lemma {:induction false} ExplodeFacts(src: Source, sides: int, pos: nat, roll: int, explosions: nat)
    requires sides >= 1 && explosions <= MaxExplosions
    ensures var c := Explode(src, sides, pos, roll, explosions);
      && explosions <= c.explosions <= MaxExplosions
      && |c.rolls| == c.explosions - explosions
      && c.next == pos + |c.rolls|
      && InRange(c.rolls, sides)
      && (forall k :: 0 <= k < |c.rolls| - 1 ==> c.rolls[k] == sides)
      && (roll == sides && explosions < MaxExplosions <==> c.rolls != [])
    decreases MaxExplosions - explosions
  {
    if roll == sides && explosions < MaxExplosions {
      var again := RandInt(src, pos, 1, sides);
      ExplodeFacts(src, sides, pos + 1, again, explosions + 1);
      var rest := Explode(src, sides, pos + 1, again, explosions + 1);
      assert rest.rolls != [] ==> again == sides;
    }
  }

  /** The chain ends on a roll below the top face unless the cap stopped it. */
  lemma {:induction false} ExplodeEnds(src: Source, sides: int, pos: nat, roll: int, explosions: nat)
    requires sides >= 1 && explosions <= MaxExplosions
    ensures var c := Explode(src, sides, pos, roll, explosions);
      var last := if c.rolls == [] then roll else c.rolls[|c.rolls| - 1];
      last == sides ==> c.explosions == MaxExplosions
    decreases MaxExplosions - explosions
  {
    if roll == sides && explosions < MaxExplosions {
      var again := RandInt(src, pos, 1, sides);
      ExplodeEnds(src, sides, pos + 1, again, explosions + 1);
      var rest := Explode(src, sides, pos + 1, again, explosions + 1);
      var c := Explode(src, sides, pos, roll, explosions);
      assert c.rolls == [again] + rest.rolls;
      if rest.rolls != [] {
        assert c.rolls[|c.rolls| - 1] == rest.rolls[|rest.rolls| - 1];
      }
    }
  }

  /** One die: a non-empty list of rolls in `1..sides`, every one but the last on the top face,
      one extra roll per explosion, and a last roll on the top face only if the cap was hit. */
  lemma {:induction false} RollDieFacts(src: Source, sides: int, pos: nat, explosions: nat)
    requires sides >= 1 && explosions <= MaxExplosions
    ensures var d := RollDie(src, sides, pos, explosions);
      && explosions <= d.explosions <= MaxExplosions
      && |d.rolls| >= 1
      && |d.rolls| - 1 == d.explosions - explosions
      && d.next == pos + |d.rolls|
      && InRange(d.rolls, sides)
      && (forall k :: 0 <= k < |d.rolls| - 1 ==> d.rolls[k] == sides)
      && (d.rolls[|d.rolls| - 1] == sides ==> d.explosions == MaxExplosions)
  {
    var first := RandInt(src, pos, 1, sides);
    ExplodeFacts(src, sides, pos + 1, first, explosions);
    ExplodeEnds(src, sides, pos + 1, first, explosions);
    var rest := Explode(src, sides, pos + 1, first, explosions);
    var d := RollDie(src, sides, pos, explosions);
    assert d.rolls == [first] + rest.rolls;
    if rest.rolls != [] {
      assert d.rolls[|d.rolls| - 1] == rest.rolls[|rest.rolls| - 1];
    }
  }

  /** The total number of rolls: `sum(len(die) for die in all_rolls)`. */
  function RollCount(dice: seq<seq<int>>): nat {
    if dice == [] then 0 else RollCount(dice[..|dice| - 1]) + |dice[|dice| - 1]|
  }

  /** The extra rolls: `sum(len(die) - 1 for die in all_rolls)`. */
  function ExtraRolls(dice: seq<seq<int>>): int {
    if dice == [] then 0 else ExtraRolls(dice[..|dice| - 1]) + |dice[|dice| - 1]| - 1
  }

  /** `sum(sum(die) for die in all_rolls)` */
  function SumAll(dice: seq<seq<int>>): int {
    if dice == [] then 0 else SumAll(dice[..|dice| - 1]) + Sum(dice[|dice| - 1])
  }

  lemma {:induction false} ExtraRollsCount(dice: seq<seq<int>>)
    ensures RollCount(dice) == |dice| + ExtraRolls(dice)
  {
    if dice != [] {
      ExtraRollsCount(dice[..|dice| - 1]);
    }
  }

  /** Each die is a list as `RollDieFacts` describes. */
  predicate WellRolled(dice: seq<seq<int>>, sides: int) {
    forall i :: 0 <= i < |dice| ==>
      && |dice[i]| >= 1
      && InRange(dice[i], sides)
      && (forall k :: 0 <= k < |dice[i]| - 1 ==> dice[i][k] == sides)
  }

  /** The outer `for` loop after `count` dice: each die starts where the previous one stopped,
      and all share one explosion counter, which stays within the cap. */
  function RollAllDice(src: Source, sides: int, count: nat): (r: Rolled)
    requires sides >= 1
    ensures r.explosions <= MaxExplosions
    decreases count
  {
    if count == 0 then Rolled([], 0, 0)
    else
      var before := RollAllDice(src, sides, count - 1);
      RollDieFacts(src, sides, before.next, before.explosions);
      var die := RollDie(src, sides, before.next, before.explosions);
      Rolled(before.dice + [die.rolls], die.next, die.explosions)
  }

  /** Adding one more die to the list. */
  lemma SnocCounts(dice: seq<seq<int>>, die: seq<int>)
    ensures RollCount(dice + [die]) == RollCount(dice) + |die|
    ensures ExtraRolls(dice + [die]) == ExtraRolls(dice) + |die| - 1
  {
    assert (dice + [die])[..|dice|] == dice;
  }

  lemma SnocWellRolled(dice: seq<seq<int>>, die: seq<int>, sides: int)
    requires WellRolled(dice, sides)
    requires |die| >= 1 && InRange(die, sides)
    requires forall k :: 0 <= k < |die| - 1 ==> die[k] == sides
    ensures WellRolled(dice + [die], sides)
  {
    forall i | 0 <= i < |dice| + 1
      ensures (dice + [die])[i] == if i < |dice| then dice[i] else die
    {
    }
  }

  /** All the dice: one list per die, the counter equal to the extra rolls, and every call to
      `random` used once, in order. */
  lemma {:induction false} RollAllDiceFacts(src: Source, sides: int, count: nat)
    requires sides >= 1
    ensures var r := RollAllDice(src, sides, count);
      && |r.dice| == count
      && WellRolled(r.dice, sides)
      && ExtraRolls(r.dice) == r.explosions
      && r.next == RollCount(r.dice)
    decreases count
  {
    if count > 0 {
      var before := RollAllDice(src, sides, count - 1);
      RollAllDiceFacts(src, sides, count - 1);
      RollDieFacts(src, sides, before.next, before.explosions);
      var die := RollDie(src, sides, before.next, before.explosions);
      SnocCounts(before.dice, die.rolls);
      SnocWellRolled(before.dice, die.rolls, sides);
    }
  }

  /** At most 10 explosions in all, and so at most `count + 10` rolls. */
  lemma RollAllDiceBounds(src: Source, sides: int, count: nat)
    requires sides >= 1
    ensures var r := RollAllDice(src, sides, count);
      && |r.dice| == count
      && WellRolled(r.dice, sides)
      && r.explosions <= MaxExplosions
      && r.explosions == ExtraRolls(r.dice)
      && count <= RollCount(r.dice) <= count + MaxExplosions
  {
    RollAllDiceFacts(src, sides, count);
    ExtraRollsCount(RollAllDice(src, sides, count).dice);
  }

  /** The body of the `for` loop: one die, its first roll and then the `while` loop of its
      explosions, which goes on while the die shows its top face and the shared counter is
      below the cap. */
  method RollExplodingDie(src: Source, sides: int, pos0: nat, explosions0: nat)
    returns (dieRolls: seq<int>, pos: nat, explosions: nat)
    requires sides >= 1 && explosions0 <= MaxExplosions
    ensures Chain(dieRolls, pos, explosions) == RollDie(src, sides, pos0, explosions0)
    ensures explosions <= MaxExplosions
  {
    ghost var die := RollDie(src, sides, pos0, explosions0);
    explosions := explosions0;
    var roll := RandInt(src, pos0, 1, sides);
    dieRolls := [roll];
    pos := pos0 + 1;
    while roll == sides && explosions < MaxExplosions
      invariant explosions <= MaxExplosions
      invariant dieRolls + Explode(src, sides, pos, roll, explosions).rolls == die.rolls
      invariant Explode(src, sides, pos, roll, explosions).next == die.next
      invariant Explode(src, sides, pos, roll, explosions).explosions == die.explosions
      decreases MaxExplosions - explosions
    {
      ghost var before := Explode(src, sides, pos, roll, explosions);
      roll := RandInt(src, pos, 1, sides);
      ghost var after := Explode(src, sides, pos + 1, roll, explosions + 1);
      assert before.rolls == [roll] + after.rolls;
      assert dieRolls + before.rolls == (dieRolls + [roll]) + after.rolls;
      dieRolls := dieRolls + [roll];
      pos := pos + 1;
      explosions := explosions + 1;
    }
    assert dieRolls + Explode(src, sides, pos, roll, explosions).rolls == dieRolls;
  }

  /** The two loops of `roll_exploding`, rolling `count` dice of `sides` sides. */
  method RollExplodingDice(src: Source, sides: int, count: nat)
    returns (allRolls: seq<seq<int>>, explosions: nat)
    requires sides >= 1
    ensures allRolls == RollAllDice(src, sides, count).dice
    ensures explosions == RollAllDice(src, sides, count).explosions
    ensures explosions <= MaxExplosions && explosions == ExtraRolls(allRolls)
    ensures WellRolled(allRolls, sides)
    ensures count <= RollCount(allRolls) <= count + MaxExplosions
  {
    allRolls, explosions := [], 0;
    var pos: nat := 0;
    for i := 0 to count
      invariant Rolled(allRolls, pos, explosions) == RollAllDice(src, sides, i)
    {
      var dieRolls;
      dieRolls, pos, explosions := RollExplodingDie(src, sides, pos, explosions);
      allRolls := allRolls + [dieRolls];
    }
    RollAllDiceBounds(src, sides, count);
  }

  datatype ExplodingRoll = ExplodingRoll(dice: DiceExpr, allRolls: seq<seq<int>>,
                                         explosions: nat, total: int)

  /** The notation `roll_exploding` accepts: `1d6` when blank, at most 20 dice of 2 to 100
      sides. */
  function ExplodingNotation(notation: string): Result<DiceExpr, ToolError> {
    ValidateNotation(notation, 20, 100)
  }

  /** `roll_exploding(notation)` */
  method RollExploding(src: Source, notation: string) returns (r: Result<ExplodingRoll, ToolError>)
    ensures r.Ok? <==> ExplodingNotation(notation).Ok?
    ensures r.Err? ==> r.error == ExplodingNotation(notation).error
    ensures r.Ok? ==> (var d := r.value.dice;
                       && d == ExplodingNotation(notation).value
                       && r.value.allRolls == RollAllDice(src, d.sides, d.count).dice
                       && |r.value.allRolls| == d.count
                       && r.value.explosions <= MaxExplosions
                       && r.value.explosions == ExtraRolls(r.value.allRolls)
                       && WellRolled(r.value.allRolls, d.sides)
                       && r.value.total == SumAll(r.value.allRolls) + d.modifier)
  {
    var checked := ExplodingNotation(notation);
    if checked.Err? {
      return Err(checked.error);
    }
    var d := checked.value;
    var allRolls, explosions := RollExplodingDice(src, d.sides, d.count);
    RollAllDiceFacts(src, d.sides, d.count);
    var total := SumAll(allRolls) + d.modifier;
    r := Ok(ExplodingRoll(d, allRolls, explosions, total));
  }
}
