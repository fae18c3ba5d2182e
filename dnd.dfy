/** `roll_dnd_stats`: six ability scores, each the best three of four six-sided dice
    ("4d6 drop lowest"), with the sum of the scores and the sum of their modifiers. */
module Dnd {
  import opened RandomSource
  import opened SeqMath

  const AbilityNames: seq<string> :=
    ["Strength", "Dexterity", "Constitution", "Intelligence", "Wisdom", "Charisma"]

  /** One line of the details: the four dice sorted high to low, the one dropped and the score. */
  datatype AbilityRoll = AbilityRoll(name: string, rolls: seq<int>, dropped: int, total: int)

  /** The four raw dice of ability `i`: the calls at positions `4 * i` to `4 * i + 3`. */
  function RawRolls(src: Source, i: nat): (rolls: seq<int>)
    ensures |rolls| == 4
    ensures forall k :: 0 <= k < 4 ==> 1 <= rolls[k] <= 6
  {
    RollDiceSet(src, 4 * i, 4, 6)
  }

  /** Ability `i` as the loop body works it out: sort descending, drop the last, keep three. */
  function RollAbility(src: Source, i: nat): AbilityRoll
    requires i < 6
  {
    var rolls := SortDesc(RawRolls(src, i));
    AbilityRoll(AbilityNames[i], rolls, rolls[3], Sum(rolls[..3]))
  }

  /** The last of the sorted dice is the smallest one rolled. */
  lemma {:induction false} DroppedIsLeast(raw: seq<int>)
    requires |raw| == 4
    ensures SortDesc(raw)[3] in raw
    ensures forall k :: 0 <= k < 4 ==> SortDesc(raw)[3] <= raw[k]
  {
    var rolls := SortDesc(raw);
    SortDescFacts(raw);
    assert rolls[3] in multiset(rolls);
    forall k | 0 <= k < 4
      ensures rolls[3] <= raw[k]
    {
      assert raw[k] in multiset(rolls);
    }
  }

  /** The kept dice and the dropped one are the four dice rolled, so the score is their sum
      less the dropped die. */
  lemma {:induction false} KeptAndDropped(raw: seq<int>)
    requires |raw| == 4
    ensures multiset(SortDesc(raw)[..3]) + multiset{SortDesc(raw)[3]} == multiset(raw)
    ensures Sum(SortDesc(raw)[..3]) == Sum(raw) - SortDesc(raw)[3]
  {
    var rolls := SortDesc(raw);
    SortDescFacts(raw);
    assert rolls == rolls[..3] + [rolls[3]];
    SumConcat(rolls[..3], [rolls[3]]);
    SumSortDesc(raw);
  }

  /** Three kept six-sided dice score `3..18`. */
  lemma {:induction false} KeptBounds(raw: seq<int>)
    requires |raw| == 4
    requires forall k :: 0 <= k < 4 ==> 1 <= raw[k] <= 6
    ensures 3 <= Sum(SortDesc(raw)[..3]) <= 18
  {
    var rolls := SortDesc(raw);
    SortDescFacts(raw);
    forall k | 0 <= k < 3
      ensures 1 <= rolls[..3][k] <= 6
    {
      assert rolls[k] in multiset(raw);
    }
    SumBounds(rolls[..3], 1, 6);
  }

  /** The score of an ability is the best three dice of its four: the dropped die is the smallest
      of the four, the kept and dropped dice are exactly the four dice rolled, and the score
      lies in `3..18`. */
  lemma {:induction false} RollAbilityFacts(src: Source, i: nat)
    requires i < 6
    ensures var a := RollAbility(src, i);
      && |a.rolls| == 4
      && multiset(a.rolls) == multiset(RawRolls(src, i))
      && SortedDesc(a.rolls)
      && a.dropped in RawRolls(src, i)
      && (forall k :: 0 <= k < 4 ==> a.dropped <= RawRolls(src, i)[k])
      && multiset(a.rolls[..3]) + multiset{a.dropped} == multiset(RawRolls(src, i))
      && a.total == Sum(RawRolls(src, i)) - a.dropped
      && 3 <= a.total <= 18
  {
    var raw := RawRolls(src, i);
    SortDescFacts(raw);
    DroppedIsLeast(raw);
    KeptAndDropped(raw);
    KeptBounds(raw);
  }

  /** `(stat - 10) // 2`: the D&D ability modifier, rounded down. */
  function AbilityModifier(stat: int): (m: int)
    ensures 2 * m <= stat - 10 < 2 * m + 2
  {
    (stat - 10) / 2
  }

  /** A score of `3..18` has a modifier of `-4..4`. */
  lemma AbilityModifierBounds(stat: int)
    requires 3 <= stat <= 18
    ensures -4 <= AbilityModifier(stat) <= 4
  {
  }

  /** `sum((stat - 10) // 2 for stat in stats)` */
  function ModifierSum(stats: seq<int>): int {
    if stats == [] then 0 else AbilityModifier(stats[0]) + ModifierSum(stats[1..])
  }

  lemma {:induction false} ModifierSumConcat(a: seq<int>, b: seq<int>)
    ensures ModifierSum(a + b) == ModifierSum(a) + ModifierSum(b)
  {
    if a != [] {
      assert (a + b)[1..] == a[1..] + b;
      ModifierSumConcat(a[1..], b);
    } else {
      assert a + b == b;
    }
  }

  /** Scores of `3..18` have modifiers summing to at most 4 per score either way. */
  lemma {:induction false} ModifierSumBounds(stats: seq<int>)
    requires forall k :: 0 <= k < |stats| ==> 3 <= stats[k] <= 18
    ensures -4 * |stats| <= ModifierSum(stats) <= 4 * |stats|
  {
    if stats != [] {
      AbilityModifierBounds(stats[0]);
      ModifierSumBounds(stats[1..]);
    }
  }

  /** Six scores of `3..18` total `18..108`, with modifiers totalling `-24..24`. */
  lemma {:induction false} SummaryBounds(stats: seq<int>)
    requires |stats| == 6
    requires forall k :: 0 <= k < 6 ==> 3 <= stats[k] <= 18
    ensures 18 <= Sum(stats) <= 108
    ensures -24 <= ModifierSum(stats) <= 24
  {
    SumBounds(stats, 3, 18);
    ModifierSumBounds(stats);
  }

  /** The body of the loop for ability `i`: roll four dice, sort them in place high to low,
      drop the last and add up the other three. */
  method RollOneAbility(src: Source, i: nat) returns (a: AbilityRoll)
    requires i < 6
    ensures a == RollAbility(src, i)
    ensures 3 <= a.total <= 18
  {
    var rolls := RollDiceSet(src, 4 * i, 4, 6);
    rolls := SortDesc(rolls);
    var dropped := rolls[3];
    var kept := rolls[..3];
    var total := Sum(kept);
    RollAbilityFacts(src, i);
    a := AbilityRoll(AbilityNames[i], rolls, dropped, total);
  }

  /** The loop over the six abilities and the summary after it: the list of scores, the
      details, the sum of the scores, the sum of the modifiers and the scores high to low. */
  method RollDndStats(src: Source)
    returns (stats: seq<int>, details: seq<AbilityRoll>, totalPoints: int, modifierTotal: int,
             ranked: seq<int>)
    ensures |stats| == 6 && |details| == 6
    ensures forall i :: 0 <= i < 6 ==> details[i] == RollAbility(src, i)
    ensures forall i :: 0 <= i < 6 ==> stats[i] == details[i].total && 3 <= stats[i] <= 18
    ensures totalPoints == Sum(stats) && 18 <= totalPoints <= 108
    ensures modifierTotal == ModifierSum(stats) && -24 <= modifierTotal <= 24
    ensures multiset(ranked) == multiset(stats) && SortedDesc(ranked)
  {
    stats, details := [], [];
    for i := 0 to 6
      invariant |stats| == i && |details| == i
      invariant forall k :: 0 <= k < i ==> details[k] == RollAbility(src, k)
      invariant forall k :: 0 <= k < i ==> stats[k] == details[k].total && 3 <= stats[k] <= 18
    {
      var ability := RollOneAbility(src, i);
      stats := stats + [ability.total];
      details := details + [ability];
    }
    SummaryBounds(stats);
    totalPoints := Sum(stats);
    modifierTotal := ModifierSum(stats);
    ranked := SortDesc(stats);
    SortDescFacts(stats);
  }
}
