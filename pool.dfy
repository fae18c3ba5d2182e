/** `roll_pool`: roll a pool of dice and count the successes (rolls at or above a target) and
    the critical rolls (the top face). */
module Pool {
  import opened Wrappers
  import opened PyText
  import opened RandomSource
  import opened SeqMath
  import opened Validation

  datatype PoolRoll = PoolRoll(size: int, sides: int, target: int, rolls: seq<int>,
                               successes: nat, criticals: nat, ranked: seq<int>,
                               verdict: Verdict)

  /** The three arguments as `int()` reads them, with defaults 5, 6 and 10; `None` when any of
      them is not a number, since one `ValueError` handler covers all three. */
  function PoolArgs(poolSize: string, target: string, dieType: string): Option<(int, int, int)> {
    match (ArgOrDefault(poolSize, 5), ArgOrDefault(target, 6), ArgOrDefault(dieType, 10))
    case (Some(size), Some(t), Some(sides)) => Some((size, t, sides))
    case _ => None
  }

  /** Printed integers are read back as themselves, whichever of the three they are. */
  lemma PoolArgsShown(size: int, t: int, sides: int)
    ensures PoolArgs(ShowInt(size), ShowInt(t), ShowInt(sides)) == Some((size, t, sides))
  {
    ArgOrDefaultShown(size, 5);
    ArgOrDefaultShown(t, 6);
    ArgOrDefaultShown(sides, 10);
  }

  /** The bounds, checked in the code's order: size, then sides, then the target against the
      sides. */
  function CheckPool(size: int, t: int, sides: int): (r: Result<(int, int, int), ToolError>)
    ensures r.Ok? <==> 1 <= size <= 50 && 2 <= sides <= 100 && 1 <= t <= sides
    ensures r.Ok? ==> r.value == (size, t, sides)
    ensures r == Err(CountOutOfRange(1, 50)) <==> !(1 <= size <= 50)
    ensures r == Err(SidesOutOfRange(2, 100)) <==> 1 <= size <= 50 && !(2 <= sides <= 100)
    ensures r == Err(TargetOutOfRange(1, sides))
        <==> 1 <= size <= 50 && 2 <= sides <= 100 && !(1 <= t <= sides)
  {
    if size < 1 || size > 50 then Err(CountOutOfRange(1, 50))
    else if sides < 2 || sides > 100 then Err(SidesOutOfRange(2, 100))
    else if t < 1 || t > sides then Err(TargetOutOfRange(1, sides))
    else Ok((size, t, sides))
  }

  /** `roll_pool(pool_size, target, die_type)`: the dice are the calls at positions
      `0 .. size - 1`. */
  function RollPool(src: Source, poolSize: string, target: string, dieType: string)
    : (r: Result<PoolRoll, ToolError>)
    ensures PoolArgs(poolSize, target, dieType).None? <==> r == Err(InvalidPoolInput)
    ensures PoolArgs(poolSize, target, dieType).Some? ==>
      (var (size, t, sides) := PoolArgs(poolSize, target, dieType).value;
       && (r.Ok? <==> CheckPool(size, t, sides).Ok?)
       && (r.Err? ==> r.error == CheckPool(size, t, sides).error))
    ensures r.Ok? ==> (var p := r.value;
      && 1 <= p.size <= 50 && 2 <= p.sides <= 100 && 1 <= p.target <= p.sides
      && p.rolls == RollDiceSet(src, 0, p.size, p.sides)
      && p.successes == CountAtLeast(p.rolls, p.target)
      && p.criticals == Count(p.rolls, p.sides)
      && p.criticals <= p.successes <= p.size
      && multiset(p.ranked) == multiset(p.rolls) && SortedDesc(p.ranked)
      && (p.verdict == Great <==> p.successes as real >= p.size as real * 0.75)
      && (p.verdict == Miss <==> p.successes == 0))
  {
    match PoolArgs(poolSize, target, dieType)
    case None => Err(InvalidPoolInput)
    case Some((size, t, sides)) =>
      match CheckPool(size, t, sides)
      case Err(e) => Err(e)
      case Ok(_) =>
        var rolls := RollDiceSet(src, 0, size, sides);
        CountBelowCountAtLeast(rolls, sides, t);
        SortDescFacts(rolls);
        var successes := CountAtLeast(rolls, t);
        Ok(PoolRoll(size, sides, t, rolls, successes, Count(rolls, sides),
                    SortDesc(rolls), PoolVerdict(successes, size)))
  }

  /** The rolls are shown sorted high to low; sorting does not change the successes, so they
      are exactly the first `successes` rolls shown. */
  lemma PoolRankedSuccesses(src: Source, poolSize: string, target: string, dieType: string)
    requires RollPool(src, poolSize, target, dieType).Ok?
    ensures var p := RollPool(src, poolSize, target, dieType).value;
      && CountAtLeast(p.ranked, p.target) == p.successes
      && (forall i :: 0 <= i < p.successes ==> p.ranked[i] >= p.target)
      && (forall i :: p.successes <= i < |p.ranked| ==> p.ranked[i] < p.target)
  {
    var p := RollPool(src, poolSize, target, dieType).value;
    CountAtLeastSortDesc(p.rolls, p.target);
    SortDescFacts(p.rolls);
    SortedCountAtLeast(p.ranked, p.target);
  }

  /** Only whether a roll reaches the target matters to the count, not where it lies. */
  lemma {:induction false} CountAtLeastInsert(x: int, s: seq<int>, t: int)
    ensures CountAtLeast(Insert(x, s), t) == (if x >= t then 1 else 0) + CountAtLeast(s, t)
  {
    if s != [] && x < s[0] {
      CountAtLeastInsert(x, s[1..], t);
    }
  }

  lemma {:induction false} CountAtLeastSortDesc(s: seq<int>, t: int)
    ensures CountAtLeast(SortDesc(s), t) == CountAtLeast(s, t)
  {
    if s != [] {
      CountAtLeastSortDesc(s[1..], t);
      CountAtLeastInsert(s[0], SortDesc(s[1..]), t);
    }
  }

  /** In a descending list the values reaching `t` come first. */
  lemma {:induction false} SortedCountAtLeast(s: seq<int>, t: int)
    requires SortedDesc(s)
    ensures CountAtLeast(s, t) <= |s|
    ensures forall i :: 0 <= i < CountAtLeast(s, t) ==> s[i] >= t
    ensures forall i :: CountAtLeast(s, t) <= i < |s| ==> s[i] < t
  {
    if s != [] {
      assert SortedDesc(s[1..]);
      SortedCountAtLeast(s[1..], t);
      if s[0] < t {
        assert forall i :: 0 <= i < |s| ==> s[i] <= s[0];
      }
    }
  }

  /** A target of 1 counts every roll a success. */
  lemma {:induction false} TargetOneAllSucceed(s: seq<int>)
    requires forall i :: 0 <= i < |s| ==> s[i] >= 1
    ensures CountAtLeast(s, 1) == |s|
  {
    if s != [] {
      TargetOneAllSucceed(s[1..]);
    }
  }

  /** The highlight on the result: at least three quarters of the pool succeeded (the code's
      `successes >= size * 0.75`), some succeeded, or none did. */
  datatype Verdict = Great | Fair | Miss

  function PoolVerdict(successes: int, size: int): (v: Verdict)
    ensures v == Great <==> successes as real >= size as real * 0.75
    ensures v == Fair <==> successes as real < size as real * 0.75 && successes > 0
  {
    if 4 * successes >= 3 * size then Great else if successes > 0 then Fair else Miss
  }
}
