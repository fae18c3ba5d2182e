# Dice roller: a verified model

This project models the core of a small dice-rolling tool server written in Python
(`dice_roller_server.py`). The server offers nine tools:

- a coin flipper;
- a dice roller using `XdY±M` notation;
- Dungeons & Dragons ability scores (4d6, drop the lowest);
- rolls with advantage and with disadvantage;
- a percentile roll;
- Fudge/Fate dice;
- exploding dice;
- a success-counting dice pool.

The model covers three helpers: the notation parser `parse_dice_notation`, the die roller
`roll_dice_set` and the text of a roll, `format_roll_result`. It also covers the argument
handling and the computation of each of the nine tools.

Randomness is an input. A `Source` is a function from the number of a call to
`random.randint` (counted from 0 in the order the code makes them) to an arbitrary natural
number. The call `randint(lo, hi)` at position `p` gives `lo + src(p) % (hi - lo + 1)`.
Every property below therefore holds for every possible sequence of random draws.

Modules:

| module | file | what it models |
|---|---|---|
| `Wrappers` | wrappers.dfy | `Option` and `Result` |
| `PyText` | pytext.dfy | `str.strip`, `int()`, `str()` of an integer, `str.lower`, `str.split`, `str.join` |
| `SeqMath` | seqmath.dfy | `sum`, counting, and `sort(reverse=True)` as an insertion sort |
| `RandomSource` | random_source.dfy | `random.randint` and `roll_dice_set` |
| `Notation` | notation.dfy | `parse_dice_notation` |
| `Validation` | validation.dfy | the "blank means default, else `int()`, then a range check" handling, and the notation checks |
| `Format` | format.dfy | `format_roll_result`, list display, the list of individual rolls |
| `Coin` | coin.dfy | `flip_coin` (imperative loop) |
| `Dice` | dice.dfy | `roll_dice` |
| `Dnd` | dnd.dfy | `roll_dnd_stats` (imperative loop) |
| `TwoRoll` | two_roll.dfy | `roll_advantage`, `roll_disadvantage` |
| `Percentile` | percentile.dfy | `roll_percentile` |
| `Fudge` | fudge.dfy | `roll_fudge` (imperative loop) |
| `Exploding` | exploding.dfy | `roll_exploding` (nested `for`/`while` loops) |
| `Pool` | pool.dfy | `roll_pool` |

The parser, advantage, disadvantage, percentile and pool code only compute values, so they are
functions. The coin, Fudge, D&D and exploding tools build their results in loops, so they are
methods with loops. Each loop is proved against a function giving the state after `i` rounds.

A tool's error reply is a `ToolError` value. Each tool checks its arguments in the same order
as the code, and the model returns the first error the code would report.

## Model

| member | source | states |
|---|---|---|
| `PyText.BlankIffAllSpace` | dice_roller_server.py:71 | an argument counts as omitted (`not s.strip()`) exactly when it is all whitespace |
| `PyText.StripUnspaced` | dice_roller_server.py:71 | `strip` leaves text without whitespace at either end unchanged |
| `PyText.SeparatorNotSkipped` | dice_roller_server.py:71 | after one of `\x1c`..`\x1f`, digits survive `strip()` but `int()` refuses the text |
| `PyText.ParseShowInt` | dice_roller_server.py:71 | `int(str(n)) == n` for every integer |
| `PyText.ParseNumeral` | dice_roller_server.py:41-42 | `int()` of a run of digits is its decimal value |
| `PyText.ParseSpacedShowInt` | dice_roller_server.py:59 | `int(" " + str(n)) == n`: the leading space `int()` tolerates |
| `PyText.DigitsOfShowNat` | dice_roller_server.py:130 | the digits `str(n)` prints have the value `n` |
| `PyText.Split` | dice_roller_server.py:30 | a split yields at least one piece, and at least two exactly when the separator occurs |
| `PyText.SplitPiecesFree` | dice_roller_server.py:30 | no piece of a split contains the separator |
| `PyText.SplitFirst` | dice_roller_server.py:30-31 | the piece before the first separator is `parts[0]` |
| `PyText.JoinSplit` | dice_roller_server.py:30 | joining the pieces of a split with the separator gives the text back |
| `PyText.SplitJoin` | dice_roller_server.py:130 | splitting a join of separator-free pieces gives the pieces back |
| `PyText.LowerConcat` | dice_roller_server.py:39-40 | `lower` works piece by piece |
| `PyText.LowerUnchanged` | dice_roller_server.py:39-40 | `lower` leaves text without capitals unchanged |
| `PyText.IndexOf` | dice_roller_server.py:30 | the first occurrence of a character |
| `SeqMath.SumConcat` | dice_roller_server.py:125 | `sum` of a concatenation is the sum of the sums |
| `SeqMath.SumBounds` | dice_roller_server.py:124-125 | the sum of `n` values in `lo..hi` lies in `n*lo .. n*hi` |
| `SeqMath.Count` | dice_roller_server.py:361-362 | a count is at most the length |
| `SeqMath.CountConcat` | dice_roller_server.py:82-85 | counts add over a concatenation |
| `SeqMath.CountBelowCountAtLeast` | dice_roller_server.py:361-362 | values equal to `v` are among those at least `t` when `t <= v`, so criticals ≤ successes ≤ size |
| `SeqMath.InsertPermutes` | dice_roller_server.py:149 | inserting adds exactly one element to the multiset |
| `SeqMath.InsertSorted` | dice_roller_server.py:149 | inserting into a descending list keeps it descending |
| `SeqMath.InsertBounded` | dice_roller_server.py:149 | inserting keeps an upper bound |
| `SeqMath.SortDescFacts` | dice_roller_server.py:149 | `sort(reverse=True)` is a permutation and is descending |
| `SeqMath.SumInsert` | dice_roller_server.py:152 | inserting adds the element to the sum |
| `SeqMath.SumSortDesc` | dice_roller_server.py:152 | sorting keeps the sum |
| `RandomSource.RandInt` | dice_roller_server.py:184 | `randint(lo, hi)` lies in `lo..hi` |
| `RandomSource.RandIntReachesAll` | dice_roller_server.py:184 | every value in `lo..hi` is produced by some source |
| `RandomSource.RollDiceSet` | dice_roller_server.py:50-52 | `count` rolls, the `k`-th being the `randint(1, sides)` call at position `pos + k`, each in `1..sides` |
| `RandomSource.RollDiceSetSplit` | dice_roller_server.py:50-52 | rolling `a + b` dice is rolling `a` and then `b` more |
| `Notation.ParseAtPlus` | dice_roller_server.py:29-32 | with a `+`, the text before it is the body and the text after it the modifier |
| `Notation.ParseAtPlusRest` | dice_roller_server.py:29-32 | only the piece after the first `+` is read as the modifier |
| `Notation.ParseAtMinus` | dice_roller_server.py:33-36 | without a `+`, a `-` introduces a negated modifier |
| `Notation.ParseDiceAt` | dice_roller_server.py:39-43 | `XdY` is read as count `X` and sides `Y` |
| `Notation.ParseDiceAtUpper` | dice_roller_server.py:39-43 | `XDY` reads the same as `XdY` |
| `Notation.ParseDiceAtMoreD` | dice_roller_server.py:40-42 | anything after a second `d` is ignored |
| `Notation.ParseDiceNumerals` | dice_roller_server.py:39-43 | `XdY` with digit runs has their values |
| `Notation.ParsePlusModifier` | dice_roller_server.py:24-48 | `XdY+M` parses to `(X, Y, M)` |
| `Notation.ParseAtMinusNumeral` | dice_roller_server.py:33-36 | `body-M` splits into exactly the body and `M` |
| `Notation.ParseMinusModifier` | dice_roller_server.py:24-48 | `XdY-M` parses to `(X, Y, -M)` |
| `Notation.ParseNoModifier` | dice_roller_server.py:38-43 | `XdY` parses to `(X, Y, 0)` |
| `Notation.ParseDefaultCount` | dice_roller_server.py:41 | `dY` is one die: `(1, Y, 0)` |
| `Notation.ParseBareNumber` | dice_roller_server.py:44-46 | a bare `N` is `(1, N, 0)` |
| `Notation.ParseUpperD` | dice_roller_server.py:39-40 | `XDY` parses like `XdY` |
| `Notation.ParseLaterPlusIgnored` | dice_roller_server.py:30-32 | `XdY+M+K` parses to `(X, Y, M)`: later `+` pieces are dropped |
| `Notation.ParseLaterDIgnored` | dice_roller_server.py:40-42 | `XdYdZ` parses to `(X, Y, 0)` |
| `Notation.InnerSignNotInt` | dice_roller_server.py:42 | `int("Y-M")` fails |
| `Notation.ParseMinusBeforePlusFails` | dice_roller_server.py:29-42 | `XdY-M+K` fails: the `+` is split first, leaving `Y-M` as the sides |
| `Notation.ParseLeadingMinusFails` | dice_roller_server.py:33-46 | a notation starting with `-` and without `+` fails, since its body is empty |
| `Notation.ParseEmptySidesFails` | dice_roller_server.py:42 | `Xd` fails: empty sides |
| `Notation.ExampleDefaultCount` | dice_roller_server.py:41 | `d20` is `(1, 20, 0)` |
| `Notation.ExampleBare` | dice_roller_server.py:46 | `4` is `(1, 4, 0)` |
| `Notation.ExampleUpper` | dice_roller_server.py:39-40 | `2D6` is `(2, 6, 0)` |
| `Notation.ExampleMinusThenPlus` | dice_roller_server.py:29-42 | `1d6-2+1` fails |
| `Notation.ExampleLeadingMinus` | dice_roller_server.py:33-46 | `-3` fails |
| `Notation.ExampleEmptySides` | dice_roller_server.py:42 | `2d` fails |
| `Notation.ExampleWordFails` | dice_roller_server.py:44-48 | `abc` fails |
| `Notation.ExampleSecondD` | dice_roller_server.py:40-42 | `2d6d8` is `(2, 6, 0)` |
| `Validation.ValidateArg` | dice_roller_server.py:71-73 | accepted exactly when `int(arg)` (or the default when blank) lies in `lo..hi`; a non-number is `InvalidNumber`, an out-of-range number the tool's range error |
| `Validation.ArgOrDefaultBlank` | dice_roller_server.py:71 | a blank argument takes the default |
| `Validation.ArgOrDefaultShown` | dice_roller_server.py:71 | a printed integer is read as itself |
| `Validation.ValidateArgShown` | dice_roller_server.py:71-73 | a printed integer is accepted exactly when in range |
| `Validation.ValidateArgBlank` | dice_roller_server.py:71-73 | a blank argument is accepted as the default |
| `Validation.ValidateArgSeparator` | dice_roller_server.py:71 | a number after one of `\x1c`..`\x1f` is an invalid number, not the default |
| `Validation.ValidateNotation` | dice_roller_server.py:110-122 | accepted exactly when the parser succeeds and the count lies in `1..maxCount` and the sides in `2..maxSides`, with what the parser returned; a parser failure gives exactly `InvalidNotation`, a count out of range exactly the count error, and a count in range with sides out of range exactly the sides error |
| `Validation.ValidateNotationBlank` | dice_roller_server.py:110-111 | a blank notation is rolled as `1d6` |
| `Validation.WithDNotBlank` | dice_roller_server.py:110 | `XdY` is never blank |
| `Validation.ValidateNotationNumerals` | dice_roller_server.py:113-122 | `XdY` is checked count first, then sides |
| `Validation.ValidateNotationPlus` | dice_roller_server.py:113-122 | `XdY+M` is checked count first, then sides, with modifier `M` |
| `Format.Shown` | dice_roller_server.py:130 | `map(str, xs)` has one piece per integer |
| `Format.ReadInts` | dice_roller_server.py:130 | reading back comma-separated pieces gives one integer per piece |
| `Format.ShowIntCommaFree` | dice_roller_server.py:130 | a printed integer has no comma |
| `Format.ModifierTextReadsBack` | dice_roller_server.py:57-59 | the modifier text is empty exactly for 0 and otherwise reads back as the signed modifier |
| `Format.Indent` | dice_roller_server.py:130 | one indented piece per piece |
| `Format.JoinIndent` | dice_roller_server.py:130 | joining with `", "` is joining indented pieces with `","` |
| `Format.JoinCommaSpace` | dice_roller_server.py:130 | the same, with the first piece not indented |
| `Format.ListPiecesJoin` | dice_roller_server.py:130 | `', '.join(map(str, xs))` is the join at `,` of the pieces `str(x)` and `" " + str(x)` |
| `Format.ListPiecesRead` | dice_roller_server.py:130 | each of those pieces reads back as its integer and holds no comma |
| `Format.ReadIntsEach` | dice_roller_server.py:130 | pieces that each read back give the whole list back |
| `Format.ReadPiece` | dice_roller_server.py:130 | a piece with a leading space reads back as its integer |
| `Format.JoinIntsReadsBack` | dice_roller_server.py:130 | the list of individual rolls, split at the commas and read with `int()`, is the rolls |
| `Coin.Flips` | dice_roller_server.py:79-81 | `n` faces, the `i`-th from the call at position `i` |
| `Coin.HeadsPlusTails` | dice_roller_server.py:82-85 | every face is heads or tails |
| `Coin.FlipCoins` | dice_roller_server.py:75-85 | the loop yields exactly the flips, and heads and tails are their counts, adding up to the number of flips |
| `Coin.FlipCoin` | dice_roller_server.py:66-99 | accepted exactly for a count in `1..100` (default 1), with the coin tool's errors otherwise; the results are the flips, counted correctly |
| `Dice.RollDice` | dice_roller_server.py:105-132 | accepted exactly when the notation passes the checks (at most 100 dice, 2..1000 sides); `count` rolls from positions `0..count-1`; total is sum plus modifier and lies in `count..count*sides` plus modifier; the reply is the formatted roll, followed by the individual rolls when there are several |
| `Dice.RollDiceListsRolls` | dice_roller_server.py:127-130 | with several dice the reply ends with a list that reads back as the rolls |
| `Dice.RollDiceAcceptsPlus` | dice_roller_server.py:113-124 | `XdY+M` in range is rolled as `(X, Y, M)` |
| `Dice.RollDiceRejectsCount` | dice_roller_server.py:118-119 | a count outside `1..100` is refused with the count error |
| `Dice.RollDiceRejectsSides` | dice_roller_server.py:121-122 | sides outside `2..1000` are refused with the sides error |
| `Dnd.RawRolls` | dice_roller_server.py:148 | four dice in `1..6` |
| `Dnd.DroppedIsLeast` | dice_roller_server.py:149-150 | the dropped die is the smallest rolled |
| `Dnd.KeptAndDropped` | dice_roller_server.py:149-152 | kept plus dropped is exactly the four dice, and the score is their sum less the dropped die |
| `Dnd.KeptBounds` | dice_roller_server.py:151-152 | a score lies in `3..18` |
| `Dnd.RollAbilityFacts` | dice_roller_server.py:148-152 | the shown rolls are the raw rolls sorted high to low; the dropped die is the least; kept are the three largest; the score lies in `3..18` |
| `Dnd.AbilityModifier` | dice_roller_server.py:157 | `(stat - 10) // 2` with Python's floor division |
| `Dnd.AbilityModifierBounds` | dice_roller_server.py:157 | a modifier of a score in `3..18` lies in `-4..4` |
| `Dnd.ModifierSumConcat` | dice_roller_server.py:157 | modifier sums add over a concatenation |
| `Dnd.ModifierSumBounds` | dice_roller_server.py:157 | a modifier sum lies in `-4n..4n` |
| `Dnd.SummaryBounds` | dice_roller_server.py:156-157 | total points in `18..108`, modifier total in `-24..24` |
| `Dnd.RollOneAbility` | dice_roller_server.py:148-153 | one round of the loop computes that ability's roll |
| `Dnd.RollDndStats` | dice_roller_server.py:139-167 | six abilities from positions `4i..4i+3`, each score in `3..18`, the totals in range, and the array a descending permutation of the scores |
| `TwoRoll.Max` | dice_roller_server.py:186 | `max` is an upper bound equal to one argument |
| `TwoRoll.Min` | dice_roller_server.py:214 | `min` is a lower bound equal to one argument |
| `TwoRoll.RollAdvantage` | dice_roller_server.py:174-196 | accepted exactly for sides in `2..1000` (default 20); the higher of the calls at positions 0 and 1, in `1..sides`; marked top exactly for the top face and high exactly for others at least `sides * 0.75` |
| `TwoRoll.RollDisadvantage` | dice_roller_server.py:202-224 | accepted exactly for sides in `2..1000` (default 20); the lower of the calls at positions 0 and 1, in `1..sides`; marked top exactly for a 1 and high exactly for others at most `sides * 0.25` |
| `TwoRoll.AdvantageCoversDisadvantage` | dice_roller_server.py:184-186 | on the same draws the two results are the two rolls, advantage the greater |
| `TwoRoll.AdvantageHighlight` | dice_roller_server.py:188 | the top face, then at least `sides * 0.75`, then neither |
| `TwoRoll.DisadvantageHighlight` | dice_roller_server.py:216 | a 1, then at most `sides * 0.25`, then neither |
| `Percentile.RollPercentile` | dice_roller_server.py:235-237 | a tens die in `00..90` and a ones die in `0..9`; result in `1..100`, equal to 100 exactly when both are zero, otherwise their sum; the tens die as shown reads back as its value; the mark is 100, 95 and up, or 90 and up exactly in those ranges |
| `Percentile.PercentileInjective` | dice_roller_server.py:237 | different faces give different results |
| `Percentile.FacesOf` | dice_roller_server.py:237 | every result in `1..100` comes from some faces |
| `Percentile.TensText` | dice_roller_server.py:242 | the tens die as shown (`00` for zero) reads back as its value |
| `Percentile.PercentileTier` | dice_roller_server.py:239 | 100, then 95 and up, then 90 and up, then the rest |
| `Fudge.FudgeDraw` | dice_roller_server.py:266 | a Fudge die is −1, 0 or +1 |
| `Fudge.FudgeDraws` | dice_roller_server.py:265-266 | `n` draws, the `i`-th from the call at position `i` |
| `Fudge.SymbolReadsBack` | dice_roller_server.py:263 | each symbol stands for exactly its value |
| `Fudge.FudgeSumCounts` | dice_roller_server.py:268 | the total is the pluses less the minuses |
| `Fudge.RollFudgeDice` | dice_roller_server.py:261-268 | one symbol per draw, standing for it; total is the sum of draws, lying in `-n..n` |
| `Fudge.RollFudge` | dice_roller_server.py:251-277 | accepted exactly for a count in `1..20` (default 4), with the tool's errors otherwise; then one symbol per draw, each standing for its draw, and the total is the sum of the draws, in `-n..n` |
| `Exploding.ExplodeFacts` | dice_roller_server.py:310-313 | the `while` loop: one roll per explosion, the counter stays within 10, every extra roll but the last shows the top face, and the loop runs iff the roll is top and the cap is not reached |
| `Exploding.ExplodeEnds` | dice_roller_server.py:310 | the loop stops on a non-top roll unless the cap is reached |
| `Exploding.RollDieFacts` | dice_roller_server.py:306-315 | each die has at least one roll, its extra rolls are its explosions, all rolls are in range, and all but its last show the top face |
| `Exploding.ExtraRollsCount` | dice_roller_server.py:317 | rolls made = dice + explosions |
| `Exploding.RollAllDice` | dice_roller_server.py:305-315 | the explosion counter never passes 10 |
| `Exploding.SnocCounts` | dice_roller_server.py:315 | appending a die adds its rolls and its extra rolls |
| `Exploding.SnocWellRolled` | dice_roller_server.py:315 | appending a well-formed die keeps all dice well formed |
| `Exploding.RollAllDiceFacts` | dice_roller_server.py:305-315 | `count` dice, each well formed, explosions equal to the extra rolls |
| `Exploding.RollAllDiceBounds` | dice_roller_server.py:305-315 | between `count` and `count + 10` rolls in all |
| `Exploding.RollExplodingDie` | dice_roller_server.py:306-315 | the inner loop computes one die's rolls |
| `Exploding.RollExplodingDice` | dice_roller_server.py:302-315 | the nested loops compute the dice; explosions at most 10 and equal to the extra rolls; `count..count+10` rolls |
| `Exploding.RollExploding` | dice_roller_server.py:283-317 | accepted exactly when the notation passes the checks (at most 20 dice, 2..100 sides); the dice as above; total is the sum of all rolls plus the modifier |
| `Pool.PoolArgsShown` | dice_roller_server.py:347-349 | printed integers are read as themselves |
| `Pool.CheckPool` | dice_roller_server.py:351-358 | the size, sides and target checks in that order, each error exactly when its check is the first to fail |
| `Pool.RollPool` | dice_roller_server.py:342-378 | a non-number gives the pool input error; otherwise the checks decide; the rolls are from positions `0..size-1`; successes and criticals are the counts, criticals ≤ successes ≤ size; the shown list is a descending permutation; the mark is the best exactly for at least `size * 0.75` successes and the worst exactly for none |
| `Pool.PoolRankedSuccesses` | dice_roller_server.py:361-368 | in the sorted list the successes are exactly the first `successes` rolls |
| `Pool.CountAtLeastInsert` | dice_roller_server.py:361 | inserting adds one success exactly when the roll reaches the target |
| `Pool.CountAtLeastSortDesc` | dice_roller_server.py:361-368 | sorting keeps the success count |
| `Pool.SortedCountAtLeast` | dice_roller_server.py:361-368 | in a descending list the values reaching the target come first |
| `Pool.TargetOneAllSucceed` | dice_roller_server.py:361 | with target 1 every roll succeeds |
| `Pool.PoolVerdict` | dice_roller_server.py:364 | at least `size * 0.75` successes, then some, then none |

## Left out

- Transport: the tool-server framework, the decorators, `async`, logging, the start-up code and process exit. None of these affect the values computed.
- Randomness: `random.randint` and `random.choice` are a `Source` parameter. `random.choice(["Heads", "Tails"])` is modelled as a draw in `0..1` at that call's position.
- `int()`: modelled as an optional sign and ASCII digits, with the whitespace `int()` skips around them (space, tab, `\n`, `\v`, `\f`, `\r`). `str.strip()` in the model removes those and `\x1c`..`\x1f` as well. Python also accepts `_` between digits, and non-ASCII digits and whitespace, in both. `str.lower` is likewise ASCII only.
- PyText.ParseInt: has no limit on the number of digits. Python 3.11 and later refuse by default to convert more than 4300 digits, in `int()` and in `str()`. A count, sides or modifier of more than 4300 digits is therefore read as a number by the model, but fails in Python. `flip_coin`, `roll_fudge`, `roll_advantage`, `roll_disadvantage` and `roll_pool` then report an invalid number, and the parser's bare `except` makes `roll_dice` and `roll_exploding` report an invalid notation. A modifier of at most 4300 digits whose total needs more makes `str()` raise while the reply is built: in `format_roll_result` for `roll_dice` and in the total line of `roll_exploding`. The generic handler then reports the error text.
- Error text: the `❌ Error: ...` messages are `ToolError` values, not strings.
- The generic `except Exception` handlers (`str(e)` replies): in the model, nothing raises outside the `ValueError` cases. In Python the digit limit above is one way to reach them.
- Reply layout: the emoji and the reply text of the coin, D&D, advantage, disadvantage, percentile, Fudge, exploding and pool tools are left out. This includes the coin's face emoji, which follows the single face, and the `+` before a positive Fudge total. The replies' values and the advantage, disadvantage, percentile and pool highlights are modelled. The text is modelled for `format_roll_result` and `roll_dice`.
- Floating point: the percentages of `flip_coin`, the D&D average and the `* 0.75` / `* 0.25` comparisons. The comparisons are modelled exactly with integers, and their contracts state them over reals.
- Dnd.RollDndStats: `rolls.sort(reverse=True)` and `sorted(stats, reverse=True)` are modelled as the function `SortDesc` on values, not as an in-place sort.
- Exploding.RollExploding: the per-die lines and the `(notation!)` header of the reply are not modelled.
