/** Splitting and joining of strings at a separator character. */
module Text {

  /** The pieces between separators; there is always at least one. */
  function Split(s: string, sep: char): (parts: seq<string>)
    ensures |parts| >= 1
  {
    if s == [] then [""]
    else if s[0] == sep then [""] + Split(s[1..], sep)
    else
      var rest := Split(s[1..], sep);
      [[s[0]] + rest[0]] + rest[1..]
  }

  function Join(parts: seq<string>, sep: string): string {
    if parts == [] then ""
    else if |parts| == 1 then parts[0]
    else parts[0] + sep + Join(parts[1..], sep)
  }

  lemma {:induction false} JoinOfSplit(s: string, sep: char)
    ensures Join(Split(s, sep), [sep]) == s
  {
    if s != [] {
      JoinOfSplit(s[1..], sep);
      var rest := Split(s[1..], sep);
      assert s == [s[0]] + s[1..];
      if s[0] == sep {
        assert ([""] + rest)[1..] == rest;
      } else if |rest| > 1 {
        assert ([[s[0]] + rest[0]] + rest[1..])[1..] == rest[1..];
      }
    }
  }

  lemma {:induction false} SplitPartsFree(s: string, sep: char)
    ensures forall p :: p in Split(s, sep) ==> sep !in p
  {
    if s != [] {
      SplitPartsFree(s[1..], sep);
    }
  }

  /** A piece without separators comes off the front. */
  lemma {:induction false} SplitFront(p: string, rest: string, sep: char)
    requires sep !in p
    ensures Split(p + [sep] + rest, sep) == [p] + Split(rest, sep)
  {
    if p == [] {
      assert p + [sep] + rest == [sep] + rest;
    } else {
      SplitFront(p[1..], rest, sep);
      assert (p + [sep] + rest)[1..] == p[1..] + [sep] + rest;
      assert p == [p[0]] + p[1..];
    }
  }

  lemma {:induction false} SplitSingle(p: string, sep: char)
    requires sep !in p
    ensures Split(p, sep) == [p]
  {
    if p != [] {
      SplitSingle(p[1..], sep);
      assert p == [p[0]] + p[1..];
    }
  }

  lemma {:induction false} SplitOfJoin(parts: seq<string>, sep: char)
    requires parts != [] && forall p :: p in parts ==> sep !in p
    ensures Split(Join(parts, [sep]), sep) == parts
  {
    if |parts| == 1 {
      SplitSingle(parts[0], sep);
    } else {
      SplitOfJoin(parts[1..], sep);
      SplitFront(parts[0], Join(parts[1..], [sep]), sep);
      assert parts == [parts[0]] + parts[1..];
    }
  }

  lemma {:induction false} JoinConcat(a: seq<string>, b: seq<string>, sep: string)
    requires a != [] && b != []
    ensures Join(a + b, sep) == Join(a, sep) + sep + Join(b, sep)
  {
    if |a| == 1 {
      assert (a + b)[1..] == b;
    } else {
      JoinConcat(a[1..], b, sep);
      assert (a + b)[1..] == a[1..] + b;
      assert a[0] + sep + (Join(a[1..], sep) + sep + Join(b, sep)) ==
          (a[0] + sep + Join(a[1..], sep)) + sep + Join(b, sep);
    }
  }

  lemma SplitConcat(a: string, b: string, sep: char)
    ensures Split(a + [sep] + b, sep) == Split(a, sep) + Split(b, sep)
  {
    var x, y := Split(a, sep), Split(b, sep);
    JoinOfSplit(a, sep);
    JoinOfSplit(b, sep);
    JoinConcat(x, y, [sep]);
    SplitPartsFree(a, sep);
    SplitPartsFree(b, sep);
    SplitOfJoin(x + y, sep);
  }

  /** The non-empty pieces of a text: its words. */
  function NonEmpty(parts: seq<string>): (words: seq<string>)
    ensures forall w :: w in words ==> w != "" && w in parts
  {
    if parts == [] then []
    else if parts[0] == "" then NonEmpty(parts[1..])
    else [parts[0]] + NonEmpty(parts[1..])
  }

  lemma NonEmptyCons(head: string, tail: seq<string>)
    ensures NonEmpty([head] + tail) == (if head == "" then [] else [head]) + NonEmpty(tail)
  {
    assert ([head] + tail)[1..] == tail;
  }

  lemma {:induction false} NonEmptyConcat(a: seq<string>, b: seq<string>)
    ensures NonEmpty(a + b) == NonEmpty(a) + NonEmpty(b)
  {
    if a == [] {
      assert a + b == b;
    } else {
      NonEmptyConcat(a[1..], b);
      assert a + b == [a[0]] + (a[1..] + b);
      NonEmptyCons(a[0], a[1..] + b);
      NonEmptyCons(a[0], a[1..]);
      assert a == [a[0]] + a[1..];
    }
  }

  function Words(s: string): seq<string> { NonEmpty(Split(s, ' ')) }

  lemma WordsConcat(a: string, b: string)
    ensures Words(a + " " + b) == Words(a) + Words(b)
  {
    SplitConcat(a, b, ' ');
    NonEmptyConcat(Split(a, ' '), Split(b, ' '));
  }

  lemma {:induction false} JoinLength(parts: seq<string>, sep: string)
    ensures forall p :: p in parts ==> |p| <= |Join(parts, sep)|
  {
    if |parts| > 1 {
      JoinLength(parts[1..], sep);
    }
  }
}
