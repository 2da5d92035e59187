/**
 The platform's stable sort, as a specification.

 JavaScript's `Array.prototype.sort` is stable and leaves the algorithm open. Here it is an
 insertion sort; `SortedUnique` shows that, for a comparator that is a total order on the
 elements, no other correct sort could return anything else.
 */
module Sorting {

  ghost predicate TotalPreorderOn<T(!new)>(le: (T, T) -> bool, xs: seq<T>) {
    && (forall x, y :: x in xs && y in xs ==> le(x, y) || le(y, x))
    && (forall x, y, z :: x in xs && y in xs && z in xs && le(x, y) && le(y, z) ==> le(x, z))
  }

  ghost predicate AntisymmetricOn<T(!new)>(le: (T, T) -> bool, xs: seq<T>) {
    forall x, y :: x in xs && y in xs && le(x, y) && le(y, x) ==> x == y
  }

  ghost predicate Sorted<T>(le: (T, T) -> bool, xs: seq<T>) {
    forall i, j :: 0 <= i < j < |xs| ==> le(xs[i], xs[j])
  }

  function Insert<T>(le: (T, T) -> bool, x: T, ys: seq<T>): (r: seq<T>)
    ensures multiset(r) == multiset(ys) + multiset{x}
    ensures |r| == |ys| + 1
  {
    if ys == [] || le(x, ys[0]) then
      assert [x] + ys == [x] + ys;
      [x] + ys
    else
      assert ys == [ys[0]] + ys[1..];
      [ys[0]] + Insert(le, x, ys[1..])
  }

  /** Stable: an element goes in front of every later one that it does not have to follow. */
  function Sort<T>(le: (T, T) -> bool, xs: seq<T>): (r: seq<T>)
    ensures multiset(r) == multiset(xs)
    ensures |r| == |xs|
  {
    if xs == [] then
      []
    else
      assert xs == [xs[0]] + xs[1..];
      Insert(le, xs[0], Sort(le, xs[1..]))
  }

  lemma SameElements<T>(a: seq<T>, b: seq<T>)
    requires multiset(a) == multiset(b)
    ensures |a| == |b|
    ensures forall x :: x in a <==> x in b
  {
    assert |multiset(a)| == |multiset(b)|;
    forall x ensures x in a <==> x in b {
      assert x in a <==> x in multiset(a);
      assert x in b <==> x in multiset(b);
    }
  }

  /** Without repetitions every count is at most one; a repetition makes it two. */
  lemma {:induction false} OnceEach<T>(xs: seq<T>)
    requires forall i, j :: 0 <= i < j < |xs| ==> xs[i] != xs[j]
    ensures forall x :: multiset(xs)[x] <= 1
  {
    if xs != [] {
      OnceEach(xs[1..]);
      assert xs == [xs[0]] + xs[1..];
      assert xs[0] !in xs[1..];
      assert xs[0] !in multiset(xs[1..]);
    }
  }

  lemma TwiceIn<T>(xs: seq<T>, i: nat, j: nat)
    requires i < j < |xs| && xs[i] == xs[j]
    ensures multiset(xs)[xs[i]] >= 2
  {
    assert xs == xs[..j] + [xs[j]] + xs[j + 1..];
    assert xs[i] in xs[..j];
    assert xs[i] in multiset(xs[..j]);
  }

  lemma CancelElement<T>(x: T, p: multiset<T>, q: multiset<T>)
    requires multiset{x} + p == multiset{x} + q
    ensures p == q
  {
    forall y ensures p[y] == q[y] {
      assert (multiset{x} + p)[y] == (multiset{x} + q)[y];
    }
  }

  lemma {:induction false} InsertSorted<T(!new)>(le: (T, T) -> bool, x: T, ys: seq<T>)
    requires TotalPreorderOn(le, [x] + ys)
    requires Sorted(le, ys)
    ensures Sorted(le, Insert(le, x, ys))
  {
    if ys == [] {
    } else if le(x, ys[0]) {
      var r := [x] + ys;
      forall i, j | 0 <= i < j < |r| ensures le(r[i], r[j]) {
        assert r[j] == ys[j - 1] && ys[0] in r && ys[j - 1] in r;
        if i == 0 && j > 1 {
          assert le(ys[0], ys[j - 1]);
        }
      }
    } else {
      var rest := Insert(le, x, ys[1..]);
      assert forall y :: y in [x] + ys[1..] ==> y in [x] + ys;
      InsertSorted(le, x, ys[1..]);
      var r := [ys[0]] + rest;
      forall j | 0 <= j < |rest| ensures le(ys[0], rest[j]) {
        assert rest[j] in multiset(rest);
        assert rest[j] == x || rest[j] in ys[1..];
        assert x in [x] + ys && ys[0] in [x] + ys;
      }
    }
  }

  lemma {:induction false} SortSorted<T(!new)>(le: (T, T) -> bool, xs: seq<T>)
    requires TotalPreorderOn(le, xs)
    ensures Sorted(le, Sort(le, xs))
  {
    if xs != [] {
      SortSorted(le, xs[1..]);
      SameElements(Sort(le, xs[1..]), xs[1..]);
      assert forall y :: y in [xs[0]] + Sort(le, xs[1..]) ==> y in xs;
      InsertSorted(le, xs[0], Sort(le, xs[1..]));
    }
  }

  lemma SortedSameHead<T(!new)>(le: (T, T) -> bool, a: seq<T>, b: seq<T>)
    requires multiset(a) == multiset(b) && a != [] && b != []
    requires Sorted(le, a) && Sorted(le, b)
    requires AntisymmetricOn(le, a)
    ensures a[0] == b[0]
  {
    SameElements(a, b);
    assert a[0] in b && b[0] in a;
    var i :| 0 <= i < |b| && b[i] == a[0];
    var j :| 0 <= j < |a| && a[j] == b[0];
    if i > 0 && j > 0 { assert le(b[0], b[i]) && le(a[0], a[j]); }
  }

  /** Two sorted arrangements of the same elements under a total order are the same sequence. */
  lemma {:induction false} SortedUnique<T(!new)>(le: (T, T) -> bool, a: seq<T>, b: seq<T>)
    requires multiset(a) == multiset(b)
    requires Sorted(le, a) && Sorted(le, b)
    requires AntisymmetricOn(le, a)
    ensures a == b
    decreases |a|
  {
    SameElements(a, b);
    if a != [] {
      SortedSameHead(le, a, b);
      assert a == [a[0]] + a[1..] && b == [b[0]] + b[1..];
      CancelElement(a[0], multiset(a[1..]), multiset(b[1..]));
      SortedUnique(le, a[1..], b[1..]);
    }
  }

  /** Sorting by a total order forgets the order of the input. */
  lemma SortForgetsOrder<T(!new)>(le: (T, T) -> bool, a: seq<T>, b: seq<T>)
    requires multiset(a) == multiset(b)
    requires TotalPreorderOn(le, a) && AntisymmetricOn(le, a)
    ensures Sort(le, a) == Sort(le, b)
  {
    SameElements(a, b);
    SortSorted(le, a);
    SortSorted(le, b);
    SameElements(Sort(le, a), a);
    SortedUnique(le, Sort(le, a), Sort(le, b));
  }

  /** A sequence already in order is left as it is. */
  lemma {:induction false} SortOfSorted<T(!new)>(le: (T, T) -> bool, xs: seq<T>)
    requires Sorted(le, xs)
    ensures Sort(le, xs) == xs
  {
    if xs != [] {
      SortOfSorted(le, xs[1..]);
    }
  }

  lemma {:induction false} InsertAgrees<T(!new)>(le: (T, T) -> bool, other: (T, T) -> bool, x: T, ys: seq<T>)
    requires forall y :: y in ys ==> le(x, y) == other(x, y)
    ensures Insert(le, x, ys) == Insert(other, x, ys)
  {
    if ys != [] && !le(x, ys[0]) { InsertAgrees(le, other, x, ys[1..]); }
  }

  /** Comparators that agree on the elements sort them alike. */
  lemma {:induction false} SortAgrees<T(!new)>(le: (T, T) -> bool, other: (T, T) -> bool, xs: seq<T>)
    requires forall x, y :: x in xs && y in xs ==> le(x, y) == other(x, y)
    ensures Sort(le, xs) == Sort(other, xs)
  {
    if xs != [] {
      SortAgrees(le, other, xs[1..]);
      SameElements(Sort(le, xs[1..]), xs[1..]);
      InsertAgrees(le, other, xs[0], Sort(le, xs[1..]));
    }
  }
}
