/** The movetext stored with a finished online game. */
module GamePgn {
  import opened Text
  import opened Decimal
  import opened PgnWriter

  /** The numbered move pairs from half-move `i` on; a last White move stands alone. */
  function MovePairs(sans: seq<string>, i: nat): seq<string>
    decreases |sans| - i
  {
    if i >= |sans| then []
    else if i + 1 == |sans| then [Trim(ToString(i / 2 + 1) + ". " + sans[i])]
    else [ToString(i / 2 + 1) + ". " + sans[i] + " " + sans[i + 1]] + MovePairs(sans, i + 2)
  }

  function BuildPgn(sans: seq<string>, result: string): string { Join(MovePairs(sans, 0) + [result], " ") }

  method WritePgn(sans: seq<string>, result: string) returns (pgn: string)
    ensures pgn == BuildPgn(sans, result)
  {
    var parts: seq<string> := [];
    var i := 0;
    while i < |sans|
      invariant i % 2 == 0 && 0 <= i <= |sans| + 1
      invariant parts + MovePairs(sans, i) == MovePairs(sans, 0)
      decreases |sans| - i
    {
      var number := ToString(i / 2 + 1);
      ghost var before := parts;
      if i + 1 == |sans| {
        parts := parts + [Trim(number + ". " + sans[i])];
        assert parts + [] == before + [Trim(number + ". " + sans[i])];
      } else {
        var pair := number + ". " + sans[i] + " " + sans[i + 1];
        parts := parts + [pair];
        assert parts + MovePairs(sans, i + 2) == before + ([pair] + MovePairs(sans, i + 2));
      }
      i := i + 2;
    }
    assert parts + [] == parts;
    return Join(parts + [result], " ");
  }

  // ---------------------------------------------------------------------------------------
  //  A longer game has a longer text
  // ---------------------------------------------------------------------------------------

  function TotalLength(parts: seq<string>): nat {
    if parts == [] then 0 else |parts[0]| + 1 + TotalLength(parts[1..])
  }

  lemma {:induction false} JoinTotal(parts: seq<string>, last: string)
    ensures |Join(parts + [last], " ")| == TotalLength(parts) + |last|
  {
    if parts == [] {
      assert parts + [last] == [last];
    } else {
      JoinTotal(parts[1..], last);
      assert (parts + [last])[1..] == parts[1..] + [last];
    }
  }

  lemma {:induction false} TrimNotLonger(s: string)
    ensures |TrimEnd(s)| <= |s|
  {
    if s != "" && IsSpace(s[|s| - 1]) {
      TrimNotLonger(s[..|s| - 1]);
    }
  }

  lemma {:induction false} PairsGrow(sans: seq<string>, more: seq<string>, i: nat)
    requires |sans| < |more| && sans == more[..|sans|] && i <= |sans|
    ensures TotalLength(MovePairs(sans, i)) < TotalLength(MovePairs(more, i))
    decreases |sans| - i
  {
    if i + 1 == |sans| {
      var start := ToString(i / 2 + 1) + ". " + sans[i];
      TrimNotLonger(TrimStart(start));
      assert MovePairs(more, i)[0] == start + " " + more[i + 1];
    } else if i + 1 < |sans| {
      var pair := ToString(i / 2 + 1) + ". " + sans[i] + " " + sans[i + 1];
      assert MovePairs(sans, i)[1..] == MovePairs(sans, i + 2);
      assert MovePairs(more, i) == [pair] + MovePairs(more, i + 2);
      assert MovePairs(more, i)[1..] == MovePairs(more, i + 2);
      PairsGrow(sans, more, i + 2);
    }
  }

  /** Leaving out the last moves of a game always shows in its text. */
  lemma ShorterGameDiffers(sans: seq<string>, more: seq<string>, result: string)
    requires |sans| < |more| && sans == more[..|sans|]
    ensures BuildPgn(sans, result) != BuildPgn(more, result)
  {
    PairsGrow(sans, more, 0);
    JoinTotal(MovePairs(sans, 0), result);
    JoinTotal(MovePairs(more, 0), result);
  }

  // ---------------------------------------------------------------------------------------
  //  Reading the text back
  // ---------------------------------------------------------------------------------------

  /** A move's text as the chess library writes it: not empty and without blanks. */
  predicate IsToken(san: string) { san != "" && forall c :: c in san ==> !IsSpace(c) }

  function Number(i: nat): string { ToString(i / 2 + 1) + "." }

  /** Each White move is preceded by its number. */
  function Tokens(sans: seq<string>, i: nat): seq<string>
    decreases |sans| - i
  {
    if i >= |sans| then []
    else if i + 1 == |sans| then [Number(i), sans[i]]
    else [Number(i), sans[i], sans[i + 1]] + Tokens(sans, i + 2)
  }

  lemma DigitsAreNoSpaces(s: string)
    requires AllDigits(s)
    ensures ' ' !in s + "." && forall c :: c in s ==> !IsSpace(c)
  {
  }

  lemma TrimKeeps(s: string)
    requires s != "" && !IsSpace(s[0]) && !IsSpace(s[|s| - 1])
    ensures Trim(s) == s
  {
  }

  lemma LastPair(i: nat, san: string)
    requires IsToken(san)
    ensures Trim(ToString(i / 2 + 1) + ". " + san) == Number(i) + [' '] + san
    ensures Split(Number(i) + [' '] + san, ' ') == [Number(i), san]
  {
    var number := ToString(i / 2 + 1);
    DigitsAreNoSpaces(number);
    var text := number + ". " + san;
    assert text[0] == number[0] && number[0] in number;
    assert text[|text| - 1] == san[|san| - 1];
    TrimKeeps(text);
    assert text == Number(i) + [' '] + san;
    assert ' ' !in san;
    SplitFront(Number(i), san, ' ');
    SplitSingle(san, ' ');
  }

  lemma FullPair(i: nat, white: string, black: string)
    requires IsToken(white) && IsToken(black)
    ensures Split(ToString(i / 2 + 1) + ". " + white + " " + black, ' ') == [Number(i), white, black]
  {
    DigitsAreNoSpaces(ToString(i / 2 + 1));
    assert ToString(i / 2 + 1) + ". " + white + " " + black == Number(i) + [' '] + (white + [' '] + black);
    assert ' ' !in white && ' ' !in black;
    SplitFront(Number(i), white + [' '] + black, ' ');
    SplitFront(white, black, ' ');
    SplitSingle(black, ' ');
  }

  lemma PairThenRest(pair: string, parts: seq<string>, result: string)
    ensures Split(Join([pair] + parts + [result], " "), ' ') ==
            Split(pair, ' ') + Split(Join(parts + [result], " "), ' ')
  {
    assert [pair] + parts + [result] == [pair] + (parts + [result]);
    JoinConcat([pair], parts + [result], " ");
    SplitConcat(pair, Join(parts + [result], " "), ' ');
  }

  lemma {:induction false} TextIsTokens(sans: seq<string>, i: nat, result: string)
    requires (forall k :: 0 <= k < |sans| ==> IsToken(sans[k])) && ' ' !in result
    ensures Split(Join(MovePairs(sans, i) + [result], " "), ' ') == Tokens(sans, i) + [result]
    decreases |sans| - i
  {
    if i >= |sans| {
      assert MovePairs(sans, i) + [result] == [result];
      SplitSingle(result, ' ');
    } else if i + 1 == |sans| {
      LastIsTokens(i, sans[i], result);
    } else {
      TextIsTokens(sans, i + 2, result);
      PairIsTokens(i, sans[i], sans[i + 1], MovePairs(sans, i + 2), Tokens(sans, i + 2), result);
    }
  }

  lemma LastIsTokens(i: nat, san: string, result: string)
    requires IsToken(san) && ' ' !in result
    ensures Split(Join([Trim(ToString(i / 2 + 1) + ". " + san)] + [result], " "), ' ') == [Number(i), san] + [result]
  {
    var pair := Trim(ToString(i / 2 + 1) + ". " + san);
    LastPair(i, san);
    PairThenRest(pair, [], result);
    assert [pair] + [] + [result] == [pair] + [result] && [] + [result] == [result];
    SplitSingle(result, ' ');
  }

  lemma PairIsTokens(i: nat, white: string, black: string, parts: seq<string>, tokens: seq<string>, result: string)
    requires IsToken(white) && IsToken(black)
    requires Split(Join(parts + [result], " "), ' ') == tokens + [result]
    ensures Split(Join([ToString(i / 2 + 1) + ". " + white + " " + black] + parts + [result], " "), ' ') ==
            [Number(i), white, black] + tokens + [result]
  {
    FullPair(i, white, black);
    PairThenRest(ToString(i / 2 + 1) + ". " + white + " " + black, parts, result);
  }

  lemma {:induction false} TokensAt(sans: seq<string>, i: nat, q: nat)
    requires i + 2 * q < |sans|
    ensures |Tokens(sans, i)| >= 3 * q + 2
    ensures Tokens(sans, i)[3 * q] == Number(i + 2 * q) && Tokens(sans, i)[3 * q + 1] == sans[i + 2 * q]
    ensures i + 2 * q + 1 < |sans| ==>
            |Tokens(sans, i)| >= 3 * q + 3 && Tokens(sans, i)[3 * q + 2] == sans[i + 2 * q + 1]
    decreases q
  {
    if q > 0 { TokensAt(sans, i + 2, q - 1); }
  }

  lemma {:induction false} HowManyTokens(sans: seq<string>, i: nat)
    requires i <= |sans|
    ensures |Tokens(sans, i)| == |sans| - i + (|sans| - i + 1) / 2
    decreases |sans| - i
  {
    if i + 1 < |sans| { HowManyTokens(sans, i + 2); }
  }

  /**
   The text read word by word: pair `q` is its number, White's move and Black's; nothing else but the
   result, which is last. So the stored text gives back the whole game.
   */
  lemma TextReadsBack(sans: seq<string>, result: string, q: nat)
    requires (forall j :: 0 <= j < |sans| ==> IsToken(sans[j])) && ' ' !in result
    ensures var words := Split(BuildPgn(sans, result), ' ');
            && |words| == |sans| + (|sans| + 1) / 2 + 1 && words[|words| - 1] == result
            && (2 * q < |sans| ==> words[3 * q] == ToString(q + 1) + "." && words[3 * q + 1] == sans[2 * q])
            && (2 * q + 1 < |sans| ==> words[3 * q + 2] == sans[2 * q + 1])
  {
    TextIsTokens(sans, 0, result);
    HowManyTokens(sans, 0);
    if 2 * q < |sans| { TokensAt(sans, 0, q); }
  }
}
