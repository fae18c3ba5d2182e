/** The random generator, made an explicit input. A `Source` gives the raw draw behind the
    call at each position; the tools number their calls to `random` from 0 in the order the
    code makes them, so every result is a deterministic function of the source. */
module RandomSource {

  type Source = nat -> nat

  /** `random.randint(lo, hi)` as made by the call at position `pos`. */
  function RandInt(src: Source, pos: nat, lo: int, hi: int): (v: int)
    requires lo <= hi
    ensures lo <= v <= hi
  {
    lo + src(pos) % (hi - lo + 1)
  }

  /** Every value of the range is produced by some draw, so the model leaves no face out. */
  lemma RandIntReachesAll(pos: nat, lo: int, hi: int, v: int)
    requires lo <= v <= hi
    ensures RandInt(_ => (v - lo) as nat, pos, lo, hi) == v
  {
  }

  /** `roll_dice_set(count, sides)`: `count` calls of `randint(1, sides)` from position `pos`. */
  function RollDiceSet(src: Source, pos: nat, count: nat, sides: int): (rolls: seq<int>)
    requires sides >= 1
    ensures |rolls| == count
    ensures forall k :: 0 <= k < count ==> rolls[k] == RandInt(src, pos + k, 1, sides)
    ensures forall k :: 0 <= k < count ==> 1 <= rolls[k] <= sides
  {
    seq(count, k requires 0 <= k < count => RandInt(src, pos + k, 1, sides))
  }

  /** Rolling `a + b` dice is rolling `a` dice and then `b` more from where they stopped. */
  lemma RollDiceSetSplit(src: Source, pos: nat, a: nat, b: nat, sides: int)
    requires sides >= 1
    ensures RollDiceSet(src, pos, a + b, sides)
         == RollDiceSet(src, pos, a, sides) + RollDiceSet(src, pos + a, b, sides)
  {
  }
}
