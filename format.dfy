/** The text of a roll: `format_roll_result`, Python's `str` of a list of integers, and the
    `', '.join(map(str, rolls))` list of individual rolls. */
module Format {
  import opened Wrappers
  import opened PyText

  /** `map(str, xs)` */
  function Shown(xs: seq<int>): (r: seq<string>)
    ensures |r| == |xs|
  {
    seq(|xs|, i requires 0 <= i < |xs| => ShowInt(xs[i]))
  }

  /** `', '.join(map(str, xs))` */
  function JoinInts(xs: seq<int>): string {
    Join(Shown(xs), ", ")
  }

  /** `str(xs)` for a list of integers: `[3, 5, 1]`. */
  function ListRepr(xs: seq<int>): string {
    "[" + JoinInts(xs) + "]"
  }

  /** The modifier as `format_roll_result` shows it: nothing for 0, else a space and the
      signed value (`+` written out for a positive one). */
  function ModifierText(modifier: int): string {
    if modifier == 0 then "" else " " + (if modifier > 0 then "+" else "") + ShowInt(modifier)
  }

  /** `format_roll_result(rolls, modifier, total)` */
  function FormatRollResult(rolls: seq<int>, modifier: int, total: int): string {
    "🎲 Rolled: " + ListRepr(rolls) + ModifierText(modifier) + " = **" + ShowInt(total) + "**"
  }

  /** `int()` of each piece, `None` when one fails. */
  function ReadInts(pieces: seq<string>): (r: Option<seq<int>>)
    ensures r.Some? ==> |r.value| == |pieces|
  {
    if pieces == [] then Some([])
    else
      match (ParseInt(pieces[0]), ReadInts(pieces[1..]))
      case (Some(x), Some(rest)) => Some([x] + rest)
      case _ => None
  }

  /** A printed integer holds no comma. */
  lemma {:induction false} ShowIntCommaFree(n: int)
    ensures ',' !in ShowInt(n)
  {
    var digits := ShowNat(if n < 0 then -n else n);
    NotInDigits(digits, ',');
  }

  /** The modifier text is empty exactly for a zero modifier, and otherwise reads back, sign
      included, as the modifier itself. */
  lemma {:induction false} ModifierTextReadsBack(modifier: int)
    ensures ModifierText(modifier) == "" <==> modifier == 0
    ensures modifier != 0 ==> ParseInt(ModifierText(modifier)) == Some(modifier)
  {
    if modifier < 0 {
      assert ModifierText(modifier) == " " + ShowInt(modifier);
      ParseSpacedShowInt(modifier);
    } else if modifier > 0 {
      var digits := ShowNat(modifier);
      var t := "+" + digits;
      assert ModifierText(modifier) == " " + t;
      assert TrimLeft(" " + t, true) == t by {
        assert (" " + t)[1..] == t;
      }
      DigitsAt(digits);
      StripUnspaced(t);
      assert t[1..] == digits;
      DigitsOfShowNat(modifier);
    }
  }

  /** Each piece with a space in front, as `", "` leaves it after a split at the commas. */
  function Indent(parts: seq<string>): (r: seq<string>)
    ensures |r| == |parts|
  {
    seq(|parts|, i requires 0 <= i < |parts| => " " + parts[i])
  }

  lemma {:induction false} JoinIndent(q: seq<string>)
    requires |q| >= 1
    ensures ", " + Join(q, ", ") == "," + Join(Indent(q), ",")
  {
    var tail := q[1..];
    assert Indent(q)[0] == " " + q[0];
    if |q| >= 2 {
      assert Indent(q)[1..] == Indent(tail);
      JoinIndent(tail);
      calc {
        ", " + Join(q, ", ");
        ", " + q[0] + (", " + Join(tail, ", "));
        ", " + q[0] + ("," + Join(Indent(tail), ","));
        "," + (" " + q[0] + "," + Join(Indent(tail), ","));
        "," + Join(Indent(q), ",");
      }
    } else {
      assert ", " + q[0] == "," + (" " + q[0]);
    }
  }

  /** `", ".join(parts)` is `",".join` of the pieces a split at the commas gives. */
  lemma {:induction false} JoinCommaSpace(parts: seq<string>)
    requires |parts| >= 1
    ensures Join(parts, ", ") == Join([parts[0]] + Indent(parts[1..]), ",")
  {
    var pieces := [parts[0]] + Indent(parts[1..]);
    if |parts| >= 2 {
      JoinIndent(parts[1..]);
      assert pieces[1..] == Indent(parts[1..]);
      calc {
        Join(parts, ", ");
        parts[0] + (", " + Join(parts[1..], ", "));
        parts[0] + ("," + Join(pieces[1..], ","));
        Join(pieces, ",");
      }
    } else {
      assert pieces == [parts[0]];
    }
  }

  /** The pieces of the printed list between its commas. */
  function ListPieces(xs: seq<int>): (r: seq<string>)
    ensures |r| == |xs|
  {
    seq(|xs|, i requires 0 <= i < |xs| => (if i == 0 then "" else " ") + ShowInt(xs[i]))
  }

  lemma ListPiecesJoin(xs: seq<int>)
    requires |xs| >= 1
    ensures JoinInts(xs) == Join(ListPieces(xs), [','])
  {
    var parts := Shown(xs);
    JoinCommaSpace(parts);
    var pieces := [parts[0]] + Indent(parts[1..]);
    assert pieces == ListPieces(xs) by {
      var listed := ListPieces(xs);
      assert |pieces| == |listed|;
      forall i | 0 <= i < |xs|
        ensures pieces[i] == listed[i]
      {
        if i == 0 {
          assert listed[0] == "" + ShowInt(xs[0]) == parts[0];
        } else {
          assert pieces[i] == Indent(parts[1..])[i - 1] == " " + parts[i];
          assert listed[i] == " " + ShowInt(xs[i]);
        }
      }
    }
  }

  /** Every piece reads back as its value and holds no comma. */
  lemma ListPiecesRead(xs: seq<int>)
    ensures forall i :: 0 <= i < |xs| ==> ParseInt(ListPieces(xs)[i]) == Some(xs[i])
    ensures forall i :: 0 <= i < |xs| ==> ',' !in ListPieces(xs)[i]
  {
    forall i | 0 <= i < |xs|
      ensures ParseInt(ListPieces(xs)[i]) == Some(xs[i]) && ',' !in ListPieces(xs)[i]
    {
      ReadPiece(if i == 0 then "" else " ", xs[i]);
    }
  }

  /** `int()` of each piece gives the values when it gives each value. */
  lemma {:induction false} ReadIntsEach(pieces: seq<string>, xs: seq<int>)
    requires |pieces| == |xs|
    requires forall i :: 0 <= i < |xs| ==> ParseInt(pieces[i]) == Some(xs[i])
    ensures ReadInts(pieces) == Some(xs)
  {
    if pieces != [] {
      ReadIntsEach(pieces[1..], xs[1..]);
      assert [xs[0]] + xs[1..] == xs;
    }
  }

  /** A piece of the joined list: a printed integer after a lead of "" or " ". */
  lemma {:induction false} ReadPiece(pre: string, n: int)
    requires pre == "" || pre == " "
    ensures ParseInt(pre + ShowInt(n)) == Some(n)
    ensures ',' !in pre + ShowInt(n)
  {
    if pre == "" {
      assert pre + ShowInt(n) == ShowInt(n);
      ParseShowInt(n);
    } else {
      ParseSpacedShowInt(n);
    }
    ShowIntCommaFree(n);
  }

  /** The list of individual rolls reads back as the rolls. */
  lemma JoinIntsReadsBack(xs: seq<int>)
    requires |xs| >= 1
    ensures ReadInts(Split(JoinInts(xs), ',')) == Some(xs)
  {
    ListPiecesJoin(xs);
    ListPiecesRead(xs);
    SplitJoin(ListPieces(xs), ',');
    ReadIntsEach(ListPieces(xs), xs);
  }
}
