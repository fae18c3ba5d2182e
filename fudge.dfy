/** `roll_fudge`: Fudge/Fate dice. Each die is `randint(-1, 1)`, shown as `+`, `◯` or `-`,
    and the running total adds up the draws. */
module Fudge {
  import opened Wrappers
  import opened RandomSource
  import opened SeqMath
  import opened Validation

  /** The draw of the die rolled by the call at position `i`. */
  function FudgeDraw(src: Source, i: nat): (v: int)
    ensures -1 <= v <= 1
  {
    RandInt(src, i, -1, 1)
  }

  /** The draws of `n` dice in call order. */
  function FudgeDraws(src: Source, n: nat): (draws: seq<int>)
    ensures |draws| == n
    ensures forall i :: 0 <= i < n ==> draws[i] == FudgeDraw(src, i)
  {
    seq(n, i requires 0 <= i < n => FudgeDraw(src, i))
  }

  /** The `symbols` table: `{1: "+", 0: "◯", -1: "-"}`. */
  function Symbol(roll: int): string
    requires -1 <= roll <= 1
  {
    if roll == 1 then "+" else if roll == 0 then "◯" else "-"
  }

  /** The draw a symbol stands for, `None` for anything the table does not produce. */
  function SymbolValue(symbol: string): Option<int> {
    if symbol == "+" then Some(1)
    else if symbol == "◯" then Some(0)
    else if symbol == "-" then Some(-1)
    else None
  }

  /** The table is one to one: each symbol tells its draw. */
  lemma SymbolReadsBack(roll: int)
    requires -1 <= roll <= 1
    ensures SymbolValue(Symbol(roll)) == Some(roll)
  {
  }

  /** A sum of draws from `{-1, 0, 1}` is the number of pluses less the number of minuses. */
  lemma {:induction false} FudgeSumCounts(draws: seq<int>)
    requires forall i :: 0 <= i < |draws| ==> -1 <= draws[i] <= 1
    ensures Sum(draws) == Count(draws, 1) - Count(draws, -1)
  {
    if draws != [] {
      FudgeSumCounts(draws[1..]);
    }
  }

  /** The rolling loop: one symbol per die, and `total += roll`. */
  method RollFudgeDice(src: Source, n: nat) returns (results: seq<string>, total: int)
    ensures |results| == n
    ensures forall i :: 0 <= i < n ==> SymbolValue(results[i]) == Some(FudgeDraws(src, n)[i])
    ensures total == Sum(FudgeDraws(src, n))
    ensures total == Count(FudgeDraws(src, n), 1) - Count(FudgeDraws(src, n), -1)
    ensures -(n as int) <= total <= n
  {
    results, total := [], 0;
    ghost var draws: seq<int> := [];
    for i := 0 to n
      invariant draws == FudgeDraws(src, i)
      invariant |results| == i
      invariant forall k :: 0 <= k < i ==> SymbolValue(results[k]) == Some(draws[k])
      invariant total == Sum(draws)
    {
      var roll := FudgeDraw(src, i);
      SymbolReadsBack(roll);
      SumConcat(draws, [roll]);
      results := results + [Symbol(roll)];
      draws := draws + [roll];
      total := total + roll;
    }
    FudgeSumCounts(draws);
    SumBounds(draws, -1, 1);
  }

  datatype FudgeRoll = FudgeRoll(results: seq<string>, total: int)

  /** The number of dice `roll_fudge` accepts: 4 when omitted, otherwise `int(count)` within
      `1..20`. */
  function FudgeCount(count: string): Result<int, ToolError> {
    ValidateArg(count, 4, 1, 20, CountOutOfRange(1, 20))
  }

  /** `roll_fudge(count)` */
  method RollFudge(src: Source, count: string) returns (r: Result<FudgeRoll, ToolError>)
    ensures r.Ok? <==> FudgeCount(count).Ok?
    ensures r.Err? ==> r.error == FudgeCount(count).error
    ensures r.Ok? ==> (var n := FudgeCount(count).value;
                       |r.value.results| == n
                       && (forall i :: 0 <= i < n ==>
                             SymbolValue(r.value.results[i]) == Some(FudgeDraws(src, n)[i]))
                       && r.value.total == Sum(FudgeDraws(src, n))
                       && -n <= r.value.total <= n)
  {
    var n := FudgeCount(count);
    if n.Err? {
      return Err(n.error);
    }
    var results, total := RollFudgeDice(src, n.value);
    r := Ok(FudgeRoll(results, total));
  }
}
