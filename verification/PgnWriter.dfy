/**
 The movetext of a PGN game: normalised, closed by a result token and broken into lines of at
 most 80 columns (section 3.2 of the PGN specification).
 */
module PgnWriter {
  import opened Text
  import opened Wrappers

  const MAX_LINE := 80

  // ---------------------------------------------------------------------------------------
  //  The loop
  // ---------------------------------------------------------------------------------------

  /** The lines still to come when `current` is open and `words` are left. */
  function Fill(words: seq<string>, current: string): (lines: seq<string>)
  {
    if words == [] then (if current == "" then [] else [current])
    else if current == "" then Fill(words[1..], words[0])
    else if |current| + 1 + |words[0]| <= MAX_LINE then Fill(words[1..], current + " " + words[0])
    else [current] + Fill(words[1..], words[0])
  }

  function LinesOf(text: string): seq<string> { Fill(Split(text, ' '), "") }

  method Wrap(text: string) returns (wrapped: string)
    ensures wrapped == Join(LinesOf(text), "\n")
  {
    var words := Split(text, ' ');
    var lines: seq<string> := [];
    var current := "";
    for i := 0 to |words|
      invariant lines + Fill(words[i..], current) == Fill(words, "")
    {
      var word := words[i];
      assert words[i..][1..] == words[i + 1..] && words[i..][0] == word;
      if current == "" {
        current := word;
      } else if |current| + 1 + |word| <= MAX_LINE {
        current := current + " " + word;
      } else {
        assert lines + ([current] + Fill(words[i + 1..], word)) == (lines + [current]) + Fill(words[i + 1..], word);
        lines := lines + [current];
        current := word;
      }
    }
    assert words[|words|..] == [];
    if current != "" {
      lines := lines + [current];
    } else {
      assert lines + [] == lines;
    }
    return Join(lines, "\n");
  }

  // ---------------------------------------------------------------------------------------
  //  No word is lost, on any text
  // ---------------------------------------------------------------------------------------

  function WordsOfLines(lines: seq<string>): seq<string> {
    if lines == [] then [] else Words(lines[0]) + WordsOfLines(lines[1..])
  }

  lemma SingleWord(w: string)
    requires ' ' !in w
    ensures Words(w) == if w == "" then [] else [w]
  {
    SplitSingle(w, ' ');
    assert NonEmpty([w]) == if w == "" then [] else [w];
  }

  lemma {:induction false} FillKeepsWords(words: seq<string>, current: string)
    requires forall w :: w in words ==> ' ' !in w
    ensures WordsOfLines(Fill(words, current)) == Words(current) + NonEmpty(words)
  {
    SingleWord("");
    if words == [] {
      if current != "" {
        assert [current][1..] == [];
      }
    } else {
      var word, rest := words[0], words[1..];
      SingleWord(word);
      if current == "" {
        FillKeepsWords(rest, word);
      } else if |current| + 1 + |word| <= MAX_LINE {
        FillKeepsWords(rest, current + " " + word);
        WordsConcat(current, word);
      } else {
        FillKeepsWords(rest, word);
        assert ([current] + Fill(rest, word))[1..] == Fill(rest, word);
      }
    }
  }

  /** Whatever the text, wrapping keeps its words and their order. */
  lemma WrapKeepsWords(text: string)
    ensures WordsOfLines(LinesOf(text)) == Words(text)
  {
    SplitPartsFree(text, ' ');
    FillKeepsWords(Split(text, ' '), "");
    SingleWord("");
  }

  // ---------------------------------------------------------------------------------------
  //  Normalised text: exact rejoining, width and optimality
  // ---------------------------------------------------------------------------------------

  /** Single spaces only, and none at the ends: splitting yields no empty word. */
  predicate Normalised(text: string) { "" !in Split(text, ' ') }

  /** Where the line that starts at word `i` and already holds the words before `e` ends. */
  function LineEnd(words: seq<string>, i: nat, e: nat): (end: nat)
    requires i < e <= |words|
    ensures e <= end <= |words|
    decreases |words| - e
  {
    if e < |words| && |Join(words[i..e], " ")| + 1 + |words[e]| <= MAX_LINE then LineEnd(words, i, e + 1) else e
  }

  function Greedy(words: seq<string>, i: nat): seq<string>
    requires i <= |words|
    decreases |words| - i
  {
    if i == |words| then []
    else
      var end := LineEnd(words, i, i + 1);
      [Join(words[i..end], " ")] + Greedy(words, end)
  }

  lemma JoinSnoc(words: seq<string>, i: nat, e: nat)
    requires i < e < |words|
    ensures Join(words[i..e + 1], " ") == Join(words[i..e], " ") + " " + words[e]
  {
    JoinConcat(words[i..e], [words[e]], " ");
    assert words[i..e + 1] == words[i..e] + [words[e]];
  }

  lemma JoinOne(words: seq<string>, e: nat)
    requires e < |words|
    ensures Join(words[e..e + 1], " ") == words[e]
  {
    assert words[e..e + 1] == [words[e]];
  }

  lemma JoinNotEmpty(parts: seq<string>)
    requires parts != [] && "" !in parts
    ensures Join(parts, " ") != ""
  {
    JoinLength(parts, " ");
    assert parts[0] in parts;
  }

  lemma FillStep(words: seq<string>, e: nat, current: string)
    requires e < |words| && current != ""
    ensures Fill(words[e..], current) ==
            if |current| + 1 + |words[e]| <= MAX_LINE then Fill(words[e + 1..], current + " " + words[e])
            else [current] + Fill(words[e + 1..], words[e])
  {
    assert words[e..][0] == words[e] && words[e..][1..] == words[e + 1..];
  }

  /** The lines from word `i` on, when the words before `e` are already on the open line. */
  function GreedyFrom(words: seq<string>, i: nat, e: nat): seq<string>
    requires i < e <= |words|
  {
    [Join(words[i..LineEnd(words, i, e)], " ")] + Greedy(words, LineEnd(words, i, e))
  }

  lemma GreedyFromStep(words: seq<string>, i: nat, e: nat)
    requires i < e < |words|
    ensures GreedyFrom(words, i, e) ==
            if |Join(words[i..e], " ")| + 1 + |words[e]| <= MAX_LINE then GreedyFrom(words, i, e + 1)
            else [Join(words[i..e], " ")] + GreedyFrom(words, e, e + 1)
  {
  }

  lemma FillAtEnd(words: seq<string>, i: nat, current: string)
    requires i < |words| && current == Join(words[i..|words|], " ") && current != ""
    ensures Fill(words[|words|..], current) == GreedyFrom(words, i, |words|)
  {
    assert words[|words|..] == [];
  }

  lemma FillJoins(words: seq<string>, i: nat, e: nat, current: string)
    requires i < e < |words| && current == Join(words[i..e], " ") && current != ""
    requires |current| + 1 + |words[e]| <= MAX_LINE
    requires Fill(words[e + 1..], current + " " + words[e]) == GreedyFrom(words, i, e + 1)
    ensures Fill(words[e..], current) == GreedyFrom(words, i, e)
  {
    FillStep(words, e, current);
    GreedyFromStep(words, i, e);
  }

  lemma FillBreaks(words: seq<string>, i: nat, e: nat, current: string)
    requires i < e < |words| && current == Join(words[i..e], " ") && current != ""
    requires |current| + 1 + |words[e]| > MAX_LINE
    requires Fill(words[e + 1..], words[e]) == GreedyFrom(words, e, e + 1)
    ensures Fill(words[e..], current) == GreedyFrom(words, i, e)
  {
    FillStep(words, e, current);
    GreedyFromStep(words, i, e);
  }

  /** The loop of the source is the greedy line breaking. */
  lemma {:induction false} FillIsGreedy(words: seq<string>, i: nat, e: nat, current: string)
    requires "" !in words && i < e <= |words| && current == Join(words[i..e], " ")
    ensures Fill(words[e..], current) == GreedyFrom(words, i, e)
    decreases |words| - e
  {
    JoinNotEmpty(words[i..e]);
    if e == |words| {
      FillAtEnd(words, i, current);
    } else if |current| + 1 + |words[e]| <= MAX_LINE {
      JoinSnoc(words, i, e);
      FillIsGreedy(words, i, e + 1, current + " " + words[e]);
      FillJoins(words, i, e, current);
    } else {
      JoinOne(words, e);
      FillIsGreedy(words, e, e + 1, words[e]);
      FillBreaks(words, i, e, current);
    }
  }

  lemma LinesAreGreedy(text: string)
    requires Normalised(text)
    ensures LinesOf(text) == Greedy(Split(text, ' '), 0)
  {
    var words := Split(text, ' ');
    assert words[0..1] == [words[0]];
    FillIsGreedy(words, 0, 1, words[0]);
  }

  lemma {:induction false} GreedyRejoins(words: seq<string>, i: nat)
    requires i < |words|
    ensures Join(Greedy(words, i), " ") == Join(words[i..], " ")
    ensures Greedy(words, i) != []
    decreases |words| - i
  {
    var end := LineEnd(words, i, i + 1);
    var first := Join(words[i..end], " ");
    if end < |words| {
      GreedyRejoins(words, end);
      JoinConcat(words[i..end], words[end..], " ");
      assert words[i..] == words[i..end] + words[end..];
      assert ([first] + Greedy(words, end))[1..] == Greedy(words, end);
    } else {
      assert words[i..end] == words[i..];
      assert Greedy(words, i) == [first];
    }
  }

  /** Rejoining the lines of a normalised text with single spaces gives the text back. */
  lemma WrapRejoins(text: string)
    requires Normalised(text)
    ensures Join(LinesOf(text), " ") == text
  {
    LinesAreGreedy(text);
    GreedyRejoins(Split(text, ' '), 0);
    JoinOfSplit(text, ' ');
    assert Split(text, ' ')[0..] == Split(text, ' ');
  }

  lemma {:induction false} LineEndWidth(words: seq<string>, i: nat, e: nat)
    requires i < e <= |words|
    requires e > i + 1 ==> |Join(words[i..e], " ")| <= MAX_LINE
    ensures LineEnd(words, i, e) > i + 1 ==> |Join(words[i..LineEnd(words, i, e)], " ")| <= MAX_LINE
    decreases |words| - e
  {
    if e < |words| && |Join(words[i..e], " ")| + 1 + |words[e]| <= MAX_LINE {
      JoinSnoc(words, i, e);
      LineEndWidth(words, i, e + 1);
    }
  }

  lemma {:induction false} GreedyWidth(words: seq<string>, i: nat)
    requires i <= |words|
    ensures forall line :: line in Greedy(words, i) ==> |line| <= MAX_LINE || line in words
    decreases |words| - i
  {
    if i < |words| {
      var end := LineEnd(words, i, i + 1);
      LineEndWidth(words, i, i + 1);
      OneWord(words, i);
      assert end == i + 1 ==> words[i..end] == words[i..i + 1];
      GreedyWidth(words, end);
    }
  }

  lemma OneWord(words: seq<string>, i: nat)
    requires i < |words|
    ensures words[i..i + 1] == [words[i]]
    ensures Join(words[i..i + 1], " ") == words[i]
  {
    assert |words[i..i + 1]| == 1 && words[i..i + 1][0] == words[i];
  }

  /** No line is longer than 80 columns, unless it is a single longer word. */
  lemma WrapWidth(text: string)
    requires Normalised(text)
    ensures forall line :: line in LinesOf(text) ==> |line| <= 80 || line in Split(text, ' ')
  {
    LinesAreGreedy(text);
    GreedyWidth(Split(text, ' '), 0);
  }

  /** A legal wrapping: the words in order, in groups that each fit on a line. */
  ghost predicate LegalWrapping(words: seq<string>, j: nat, groups: seq<seq<string>>)
    requires j <= |words|
    decreases |groups|
  {
    if groups == [] then j == |words|
    else
      && groups[0] != [] && j + |groups[0]| <= |words| && words[j..j + |groups[0]|] == groups[0]
      && |Join(groups[0], " ")| <= MAX_LINE
      && LegalWrapping(words, j + |groups[0]|, groups[1..])
  }

  /** Dropping leading words can only shorten a line. */
  lemma {:induction false} SuffixShorter(words: seq<string>, j: nat, i: nat, e: nat)
    requires j <= i < e <= |words|
    ensures |Join(words[i..e], " ")| <= |Join(words[j..e], " ")|
    decreases i - j
  {
    if j < i {
      SuffixShorter(words, j + 1, i, e);
      assert words[j..e][1..] == words[j + 1..e];
    }
  }

  lemma {:induction false} PrefixShorter(words: seq<string>, i: nat, e: nat, f: nat)
    requires i < e <= f <= |words|
    ensures |Join(words[i..e], " ")| <= |Join(words[i..f], " ")|
    decreases f - e
  {
    if e < f {
      PrefixShorter(words, i, e + 1, f);
      JoinSnoc(words, i, e);
    }
  }

  /** A line takes in every word up to any point that would still fit. */
  lemma {:induction false} LineEndReaches(words: seq<string>, i: nat, e: nat, f: nat)
    requires i < e <= |words| && e <= f <= |words| && |Join(words[i..f], " ")| <= MAX_LINE
    ensures LineEnd(words, i, e) >= f
    decreases |words| - e
  {
    if e < f {
      JoinSnoc(words, i, e);
      PrefixShorter(words, i, e + 1, f);
      LineEndReaches(words, i, e + 1, f);
    }
  }

  /** Greedy stays ahead: from a later word it never needs more lines than any legal wrapping. */
  lemma {:induction false} GreedyStaysAhead(words: seq<string>, i: nat, j: nat, groups: seq<seq<string>>)
    requires j <= i <= |words| && LegalWrapping(words, j, groups)
    ensures |Greedy(words, i)| <= |groups|
    decreases |groups|
  {
    if i < |words| {
      var f := j + |groups[0]|;
      var end := LineEnd(words, i, i + 1);
      if i < f {
        SuffixShorter(words, j, i, f);
        LineEndReaches(words, i, i + 1, f);
      }
      GreedyStaysAhead(words, end, f, groups[1..]);
    }
  }

  /** When the words fit at all, no legal wrapping has fewer lines. */
  lemma WrapOptimal(text: string, groups: seq<seq<string>>)
    requires Normalised(text) && LegalWrapping(Split(text, ' '), 0, groups)
    ensures |LinesOf(text)| <= |groups|
  {
    LinesAreGreedy(text);
    GreedyStaysAhead(Split(text, ' '), 0, 0, groups);
  }

  // ---------------------------------------------------------------------------------------
  //  Movetext
  // ---------------------------------------------------------------------------------------

  /** The white space and line ends of the platform. */
  predicate IsSpace(c: char) {
    || c == ' ' || '\U{0009}' <= c <= '\U{000D}' || c == '\U{00A0}' || c == '\U{1680}'
    || '\U{2000}' <= c <= '\U{200A}' || c == '\U{2028}' || c == '\U{2029}' || c == '\U{202F}'
    || c == '\U{205F}' || c == '\U{3000}' || c == '\U{FEFF}'
  }

  function TrimStart(s: string): (r: string)
    ensures |r| <= |s| && (s != "" && IsSpace(s[0]) ==> |r| < |s|)
    ensures r != "" ==> !IsSpace(r[0])
    ensures s != "" && !IsSpace(s[|s| - 1]) ==> r != "" && r[|r| - 1] == s[|s| - 1]
  {
    if s == "" then "" else if IsSpace(s[0]) then TrimStart(s[1..]) else s
  }

  function TrimEnd(s: string): (r: string)
    ensures r != "" ==> !IsSpace(r[|r| - 1])
    ensures s != "" && !IsSpace(s[0]) ==> r != "" && r[0] == s[0]
  {
    if s == "" then "" else if IsSpace(s[|s| - 1]) then TrimEnd(s[..|s| - 1]) else s
  }

  function Trim(s: string): string { TrimEnd(TrimStart(s)) }

  /** Every run of white space becomes one space. */
  function Collapse(s: string): string
    decreases |s|
  {
    if s == "" then ""
    else if IsSpace(s[0]) then " " + Collapse(TrimStart(s))
    else [s[0]] + Collapse(s[1..])
  }

  const RESULT_TOKENS := ["1-0", "0-1", "1/2-1/2", "*"]

  predicate EndsWith(s: string, suffix: string) { |suffix| <= |s| && s[|s| - |suffix|..] == suffix }

  predicate EndsWithToken(s: string) { exists i :: 0 <= i < |RESULT_TOKENS| && EndsWith(s, RESULT_TOKENS[i]) }

  /** Any of the four results closes a text. */
  lemma ClosingTokens(s: string)
    ensures EndsWithToken(s) <==>
            EndsWith(s, "1-0") || EndsWith(s, "0-1") || EndsWith(s, "1/2-1/2") || EndsWith(s, "*")
  {
    assert RESULT_TOKENS[0] == "1-0" && RESULT_TOKENS[1] == "0-1";
    assert RESULT_TOKENS[2] == "1/2-1/2" && RESULT_TOKENS[3] == "*";
  }

  /** The text that is wrapped: the stored movetext, closed by a result token. */
  function Closed(stored: string, resultToken: string): string {
    var normalized := Collapse(Trim(stored));
    if EndsWithToken(normalized) then normalized else normalized + " " + resultToken
  }

  method BuildMovetext(storedPgn: Option<string>, resultToken: string) returns (movetext: string)
    ensures storedPgn.None? || Trim(storedPgn.value) == "" ==> movetext == resultToken
    ensures storedPgn.Some? && Trim(storedPgn.value) != "" ==>
              movetext == Join(LinesOf(Closed(storedPgn.value, resultToken)), "\n")
  {
    var stored := if storedPgn.None? then "" else Trim(storedPgn.value);
    if stored == "" {
      return resultToken;
    }
    var normalized := Collapse(stored);
    var endsWithToken := false;
    for i := 0 to |RESULT_TOKENS|
      invariant endsWithToken <==> exists j :: 0 <= j < i && EndsWith(normalized, RESULT_TOKENS[j])
    {
      endsWithToken := endsWithToken || EndsWith(normalized, RESULT_TOKENS[i]);
    }
    movetext := Wrap(if endsWithToken then normalized else normalized + " " + resultToken);
  }

  /** No space at the ends and no two in a row, read from the left. */
  predicate Tidy(s: string) {
    && |s| > 0 && s[0] != ' '
    && (|s| == 1 || (if s[1] == ' ' then Tidy(s[2..]) else Tidy(s[1..])))
  }

  lemma {:induction false} TidyIsNormalised(s: string)
    requires Tidy(s)
    ensures Normalised(s)
  {
    if |s| == 1 {
      SplitSingle(s, ' ');
    } else if s[1] == ' ' {
      TidyIsNormalised(s[2..]);
      assert s == [s[0]] + [' '] + s[2..];
      SplitFront([s[0]], s[2..], ' ');
    } else {
      TidyIsNormalised(s[1..]);
    }
  }

  lemma TidyGap(c: char, t: string)
    requires c != ' ' && Tidy(t)
    ensures Tidy([c] + (" " + t))
  {
    var s := [c] + (" " + t);
    assert s[0] == c && s[1] == ' ' && s[2..] == t;
  }

  lemma TidyNext(c: char, t: string)
    requires c != ' ' && Tidy(t)
    ensures Tidy([c] + t)
  {
    assert ([c] + t)[1..] == t;
  }

  lemma {:induction false} CollapseIsTidy(s: string)
    requires s != "" && !IsSpace(s[0]) && !IsSpace(s[|s| - 1])
    ensures Tidy(Collapse(s))
    decreases |s|
  {
    var rest := s[1..];
    if rest != "" {
      if IsSpace(rest[0]) {
        CollapseIsTidy(TrimStart(rest));
        assert Collapse(s) == [s[0]] + (" " + Collapse(TrimStart(rest)));
        TidyGap(s[0], Collapse(TrimStart(rest)));
      } else {
        CollapseIsTidy(rest);
        TidyNext(s[0], Collapse(rest));
      }
    }
  }

  /** The only text that is ever wrapped is normalised, so the theorems above apply to it. */
  lemma ClosedIsNormalised(stored: string, resultToken: string)
    requires Trim(stored) != "" && resultToken in RESULT_TOKENS
    ensures Normalised(Closed(stored, resultToken))
    ensures EndsWithToken(Closed(stored, resultToken))
  {
    var normalized := Collapse(Trim(stored));
    CollapseIsTidy(Trim(stored));
    TidyIsNormalised(normalized);
    if !EndsWithToken(normalized) {
      TokenIsWord(resultToken);
      NormalisedSnoc(normalized, resultToken);
      AppendedToken(normalized, resultToken);
    }
  }

  lemma TokenIsWord(resultToken: string)
    requires resultToken in RESULT_TOKENS
    ensures ' ' !in resultToken && resultToken != ""
  {
  }

  lemma NormalisedSnoc(text: string, word: string)
    requires Normalised(text) && ' ' !in word && word != ""
    ensures Normalised(text + " " + word)
  {
    SplitConcat(text, word, ' ');
    SplitSingle(word, ' ');
  }

  lemma AppendedToken(text: string, resultToken: string)
    requires resultToken in RESULT_TOKENS
    ensures EndsWithToken(text + " " + resultToken)
  {
    var i :| 0 <= i < |RESULT_TOKENS| && RESULT_TOKENS[i] == resultToken;
    assert EndsWith(text + " " + resultToken, RESULT_TOKENS[i]);
  }

  // ---------------------------------------------------------------------------------------
  //  The stored moves survive
  // ---------------------------------------------------------------------------------------

  /** The pieces between white-space characters of any kind. */
  function SplitSpaces(s: string): (parts: seq<string>)
    ensures |parts| >= 1
  {
    if s == [] then [""]
    else if IsSpace(s[0]) then [""] + SplitSpaces(s[1..])
    else
      var rest := SplitSpaces(s[1..]);
      [[s[0]] + rest[0]] + rest[1..]
  }

  function Tokens(s: string): seq<string> { NonEmpty(SplitSpaces(s)) }

  lemma {:induction false} TokensTrimStart(s: string)
    ensures Tokens(TrimStart(s)) == Tokens(s)
  {
    if s != "" && IsSpace(s[0]) {
      TokensTrimStart(s[1..]);
      assert ([""] + SplitSpaces(s[1..]))[1..] == SplitSpaces(s[1..]);
    }
  }

  lemma {:induction false} SplitSpacesSnoc(s: string, c: char)
    requires IsSpace(c)
    ensures SplitSpaces(s + [c]) == SplitSpaces(s) + [""]
  {
    if s == "" {
      assert s + [c] == [c];
      assert SplitSpaces([c][1..]) == [""];
    } else {
      SplitSpacesSnoc(s[1..], c);
      assert (s + [c])[1..] == s[1..] + [c];
    }
  }

  lemma {:induction false} TokensTrimEnd(s: string)
    ensures Tokens(TrimEnd(s)) == Tokens(s)
  {
    if s != "" && IsSpace(s[|s| - 1]) {
      var front := s[..|s| - 1];
      TokensTrimEnd(front);
      assert s == front + [s[|s| - 1]];
      SplitSpacesSnoc(front, s[|s| - 1]);
      NonEmptyConcat(SplitSpaces(front), [""]);
      assert NonEmpty([""]) == [];
    }
  }

  /** Collapsing keeps the first piece and the non-empty ones after it. */
  lemma {:induction false} CollapsePieces(s: string)
    ensures Split(Collapse(s), ' ')[0] == SplitSpaces(s)[0]
    ensures NonEmpty(Split(Collapse(s), ' ')[1..]) == NonEmpty(SplitSpaces(s)[1..])
    decreases |s|
  {
    if s == "" {
    } else if IsSpace(s[0]) {
      var rest := TrimStart(s);
      CollapsePieces(rest);
      TokensTrimStart(s);
      assert (" " + Collapse(rest))[1..] == Collapse(rest);
      assert Split(Collapse(s), ' ')[1..] == Split(Collapse(rest), ' ');
      assert SplitSpaces(s)[1..] == SplitSpaces(s[1..]);
      HeadAndTail(Split(Collapse(rest), ' '), SplitSpaces(rest));
      TokensTrimStart(s[1..]);
      assert TrimStart(s) == TrimStart(s[1..]);
    } else {
      CollapsePieces(s[1..]);
      assert Collapse(s)[1..] == Collapse(s[1..]);
    }
  }

  lemma HeadAndTail(p: seq<string>, q: seq<string>)
    requires p != [] && q != [] && p[0] == q[0] && NonEmpty(p[1..]) == NonEmpty(q[1..])
    ensures NonEmpty(p) == NonEmpty(q)
  {
  }

  /**
   The written movetext consists of exactly the tokens of the stored one, in order, followed by
   the result token if the stored text did not already end in one.
   */
  lemma MovetextKeepsTokens(stored: string, resultToken: string)
    requires Trim(stored) != "" && resultToken in RESULT_TOKENS
    ensures WordsOfLines(LinesOf(Closed(stored, resultToken))) ==
            Tokens(stored) + if EndsWithToken(Collapse(Trim(stored))) then [] else [resultToken]
  {
    var collapsed := Collapse(Trim(stored));
    WrapKeepsWords(Closed(stored, resultToken));
    CollapsedTokens(stored);
    if !EndsWithToken(collapsed) {
      WordsConcat(collapsed, resultToken);
      TokenIsWord(resultToken);
      SingleWord(resultToken);
    }
  }

  lemma CollapsedTokens(stored: string)
    ensures Words(Collapse(Trim(stored))) == Tokens(stored)
  {
    var trimmed := Trim(stored);
    CollapsePieces(trimmed);
    HeadAndTail(Split(Collapse(trimmed), ' '), SplitSpaces(trimmed));
    TokensTrimStart(stored);
    TokensTrimEnd(TrimStart(stored));
  }

  /** Collapsing leaves single spaces and no other white space: no tab, no line break. */
  lemma {:induction false} CollapsedHasOnlySpaces(s: string)
    ensures forall c :: c in Collapse(s) && IsSpace(c) ==> c == ' '
    ensures '\t' !in Collapse(s) && '\n' !in Collapse(s) && '\r' !in Collapse(s)
    decreases |s|
  {
    if s != "" { CollapsedHasOnlySpaces(if IsSpace(s[0]) then TrimStart(s) else s[1..]); }
  }
}
