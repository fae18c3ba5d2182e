/** `flip_coin`: validate the number of coins, then flip them one after another, keeping the
    list of faces and a running count of heads and of tails. */
module Coin {
  import opened Wrappers
  import opened RandomSource
  import opened SeqMath
  import opened Validation

  datatype Face = Heads | Tails

  /** `random.choice(["Heads", "Tails"])` made by the call at position `i`. */
  function FlipAt(src: Source, i: nat): Face {
    if RandInt(src, i, 0, 1) == 0 then Heads else Tails
  }

  /** The faces of `n` flips in call order. */
  function Flips(src: Source, n: nat): (faces: seq<Face>)
    ensures |faces| == n
    ensures forall i :: 0 <= i < n ==> faces[i] == FlipAt(src, i)
  {
    seq(n, i requires 0 <= i < n => FlipAt(src, i))
  }

  /** Every face is heads or tails, so the two counts make up all the flips. */
  lemma {:induction false} HeadsPlusTails(faces: seq<Face>)
    ensures Count(faces, Heads) + Count(faces, Tails) == |faces|
  {
    if faces != [] {
      HeadsPlusTails(faces[1..]);
      assert Count(faces, Heads) == (if faces[0] == Heads then 1 else 0) + Count(faces[1..], Heads);
      assert Count(faces, Tails) == (if faces[0] == Tails then 1 else 0) + Count(faces[1..], Tails);
    }
  }

  /** The flipping loop: `results` gets one face per coin, and each face adds one to the
      count of its kind. */
  method FlipCoins(src: Source, n: nat) returns (results: seq<Face>, heads: nat, tails: nat)
    ensures results == Flips(src, n)
    ensures heads == Count(results, Heads) && tails == Count(results, Tails)
    ensures heads + tails == n == |results|
  {
    results, heads, tails := [], 0, 0;
    for i := 0 to n
      invariant |results| == i
      invariant forall k :: 0 <= k < i ==> results[k] == FlipAt(src, k)
      invariant heads == Count(results, Heads) && tails == Count(results, Tails)
      invariant heads + tails == i
    {
      var face := FlipAt(src, i);
      CountConcat(results, [face], Heads);
      CountConcat(results, [face], Tails);
      results := results + [face];
      if face == Heads {
        heads := heads + 1;
      } else {
        tails := tails + 1;
      }
    }
  }

  datatype CoinFlips = CoinFlips(results: seq<Face>, heads: nat, tails: nat)

  /** The number of coins `flip_coin` accepts: 1 when omitted, otherwise `int(count)` within
      `1..100`. */
  function CoinCount(count: string): Result<int, ToolError> {
    ValidateArg(count, 1, 1, 100, CountOutOfRange(1, 100))
  }

  /** `flip_coin(count)` */
  method FlipCoin(src: Source, count: string) returns (r: Result<CoinFlips, ToolError>)
    ensures r.Ok? <==> CoinCount(count).Ok?
    ensures r.Err? ==> r.error == CoinCount(count).error
    ensures r.Ok? ==> 1 <= |r.value.results| <= 100
    ensures r.Ok? ==> r.value.results == Flips(src, CoinCount(count).value)
    ensures r.Ok? ==> (r.value.heads == Count(r.value.results, Heads)
                       && r.value.tails == Count(r.value.results, Tails)
                       && r.value.heads + r.value.tails == |r.value.results|)
  {
    var n := CoinCount(count);
    if n.Err? {
      return Err(n.error);
    }
    var results, heads, tails := FlipCoins(src, n.value);
    r := Ok(CoinFlips(results, heads, tails));
  }
}
