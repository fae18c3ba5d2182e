/** `roll_percentile`: a tens die (`00` to `90`) and a ones die (`0` to `9`), read together
    as `1..100`, with `00` and `0` read as 100. */
module Percentile {
  import opened Wrappers
  import opened RandomSource
  import opened PyText

  /** The two dice, the result, the tens die as shown and the mark on the result. */
  datatype PercentileRoll =
    PercentileRoll(tens: int, ones: int, result: int, tensText: string, tier: Tier)

  /** `tens + ones if tens + ones > 0 else 100` */
  function PercentileOf(tens: int, ones: int): int {
    if tens + ones > 0 then tens + ones else 100
  }

  /** `roll_percentile()`: the tens die is the call at position 0, the ones die the call at 1. */
  function RollPercentile(src: Source): (r: PercentileRoll)
    ensures r.tens % 10 == 0 && 0 <= r.tens <= 90 && 0 <= r.ones <= 9
    ensures r.tens == 10 * RandInt(src, 0, 0, 9) && r.ones == RandInt(src, 1, 0, 9)
    ensures 1 <= r.result <= 100
    ensures r.result == 100 <==> r.tens == 0 && r.ones == 0
    ensures r.result != 100 ==> r.result == r.tens + r.ones
    ensures ParseInt(r.tensText) == Some(r.tens)
    ensures r.tier == Hundred <==> r.result == 100
    ensures r.tier == Star <==> 95 <= r.result < 100
    ensures r.tier == Sparkle <==> 90 <= r.result < 95
  {
    var tens := RandInt(src, 0, 0, 9) * 10;
    var ones := RandInt(src, 1, 0, 9);
    var result := PercentileOf(tens, ones);
    PercentileRoll(tens, ones, result, TensText(tens), PercentileTier(result))
  }

  /** Different faces give different results, so each of the hundred pairs of faces gives its
      own result. */
  lemma PercentileInjective(t1: int, o1: int, t2: int, o2: int)
    requires 0 <= t1 <= 9 && 0 <= o1 <= 9 && 0 <= t2 <= 9 && 0 <= o2 <= 9
    requires PercentileOf(10 * t1, o1) == PercentileOf(10 * t2, o2)
    ensures t1 == t2 && o1 == o2
  {
  }

  /** The faces that give the result `v`: every result in `1..100` comes from a pair of faces,
      so with the previous lemma the reading is a bijection from the hundred pairs onto
      `1..100`. */
  function FacesOf(v: int): (faces: (int, int))
    requires 1 <= v <= 100
    ensures 0 <= faces.0 <= 9 && 0 <= faces.1 <= 9
    ensures PercentileOf(10 * faces.0, faces.1) == v
  {
    if v == 100 then (0, 0) else (v / 10, v % 10)
  }

  /** The tens die as shown: `00` for zero, otherwise its value. */
  function TensText(tens: int): (s: string)
    requires 0 <= tens <= 90
    ensures ParseInt(s) == Some(tens)
    ensures s[0] != '-'
  {
    if tens > 0 then
      ParseShowInt(tens);
      ShowInt(tens)
    else
      assert DigitsValue("00") == 0 by {
        assert "00"[..1] == "0";
      }
      ParseNumeral("00");
      "00"
  }

  /** The mark `roll_percentile` puts on its result: a hundred, 95 and above, 90 and above, or
      none of these. */
  datatype Tier = Hundred | Star | Sparkle | Plain

  function PercentileTier(result: int): (t: Tier)
    ensures t == Hundred <==> result == 100
    ensures t == Star <==> result != 100 && result >= 95
    ensures t == Sparkle <==> 90 <= result < 95
    ensures t == Plain <==> result < 90
  {
    if result == 100 then Hundred
    else if result >= 95 then Star
    else if result >= 90 then Sparkle
    else Plain
  }
}
