/** The pairing states do not depend on the order in which the history was read. */
module PairingOrder {
  import opened Sorting
  import opened ResultMapping
  import opened PairingStates
  import opened FloatRules
  import opened PairingAgreement

  lemma {:induction false} PointsBeforeConcat(a: seq<Entry>, b: seq<Entry>, round: int, id: string)
    ensures PointsBefore(a + b, round, id) == PointsBefore(a, round, id) + PointsBefore(b, round, id)
  {
    if b == [] {
      assert a + b == a;
    } else {
      PointsBeforeConcat(a, b[..|b| - 1], round, id);
      assert (a + b)[..|a + b| - 1] == a + b[..|b| - 1];
    }
  }

  lemma {:induction false} PointsBeforeForgetOrder(a: seq<Entry>, b: seq<Entry>, round: int, id: string)
    requires multiset(a) == multiset(b)
    ensures PointsBefore(a, round, id) == PointsBefore(b, round, id)
    decreases |a|
  {
    SameElements(a, b);
    if a != [] {
      var x := a[0];
      assert x in b;
      var i :| 0 <= i < |b| && b[i] == x;
      assert a == [x] + a[1..];
      assert b == b[..i] + ([x] + b[i + 1..]);
      CancelElement(x, multiset(a[1..]), multiset(b[..i] + b[i + 1..]));
      PointsBeforeForgetOrder(a[1..], b[..i] + b[i + 1..], round, id);
      PointsBeforeConcat([x], a[1..], round, id);
      PointsBeforeConcat(b[..i], [x] + b[i + 1..], round, id);
      PointsBeforeConcat([x], b[i + 1..], round, id);
      PointsBeforeConcat(b[..i], b[i + 1..], round, id);
    }
  }

  lemma FloatForForgetsOrder(a: seq<Entry>, b: seq<Entry>, e: Entry, id: string)
    requires multiset(a) == multiset(b)
    ensures FloatFor(a, e, id) == FloatFor(b, e, id)
  {
    PointsBeforeForgetOrder(a, b, e.roundNumber, e.white);
    if e.black.Some? { PointsBeforeForgetOrder(a, b, e.roundNumber, e.black.value); }
  }

  lemma FloatAtForgetsOrder(a: seq<Entry>, b: seq<Entry>, round: int, id: string)
    requires multiset(a) == multiset(b) && OncePerRound(a)
    ensures FloatAt(a, round, id) == FloatAt(b, round, id)
  {
    SameElements(a, b);
    FloatAtKept(a, b, round, id);
    FloatAtKept(b, a, round, id);
  }

  lemma FloatAtKept(a: seq<Entry>, b: seq<Entry>, round: int, id: string)
    requires multiset(a) == multiset(b) && OncePerRound(b)
    ensures FloatAt(a, round, id) != NoFloat ==> FloatAt(a, round, id) == FloatAt(b, round, id)
  {
    if FloatAt(a, round, id) != NoFloat {
      SameElements(a, b);
      RoundOfInRound(a, round);
      var e := FloatAmongWitness(a, InRound(a, round), id);
      FloatForForgetsOrder(a, b, e, id);
      FloatAtIs(b, e, id);
    }
  }

  /** A participant's own entries. */
  function Own(entries: seq<Entry>, id: string): seq<Entry> {
    if entries == [] then []
    else
      var last := entries[|entries| - 1];
      Own(entries[..|entries| - 1], id) + if SideOf(last, id).Some? then [last] else []
  }

  lemma {:induction false} OwnElements(entries: seq<Entry>, id: string)
    ensures forall e: Entry :: multiset(Own(entries, id))[e] == if SideOf(e, id).Some? then multiset(entries)[e] else 0
  {
    if entries != [] {
      var front, last := entries[..|entries| - 1], entries[|entries| - 1];
      OwnElements(front, id);
      assert entries == front + [last];
    }
  }

  lemma {:induction false} OwnSorted(entries: seq<Entry>, id: string)
    requires Sorted(ByRound(), entries)
    ensures Sorted(ByRound(), Own(entries, id))
  {
    if entries != [] {
      var front, last := entries[..|entries| - 1], entries[|entries| - 1];
      OwnSorted(front, id);
      OwnElements(front, id);
      forall e | e in Own(front, id) ensures ByRound()(e, last) {
        assert e in multiset(Own(front, id));
        assert e in front;
      }
    }
  }

  lemma {:induction false} ColoursOfOwn(entries: seq<Entry>, id: string)
    ensures Colours(entries, id) == Colours(Own(entries, id), id)
  {
    if entries != [] {
      ColoursOfOwn(entries[..|entries| - 1], id);
      var own := Own(entries, id);
      if SideOf(entries[|entries| - 1], id).Some? {
        assert own[..|own| - 1] == Own(entries[..|entries| - 1], id);
      } else {
        assert own == Own(entries[..|entries| - 1], id);
      }
    }
  }

  lemma OwnOncePerRound(entries: seq<Entry>, id: string)
    requires OncePerRound(entries)
    ensures AntisymmetricOn(ByRound(), Own(entries, id))
  {
    OwnElements(entries, id);
    var own := Own(entries, id);
    forall e, f | e in own && f in own && ByRound()(e, f) && ByRound()(f, e) ensures e == f {
      assert multiset(own)[e] > 0 && multiset(own)[f] > 0;
      assert multiset(entries)[e] > 0 && multiset(entries)[f] > 0;
      assert e in entries && f in entries && e.roundNumber == f.roundNumber;
      assert SharePlayer(e, f);
    }
  }

  lemma OwnForgetsOrder(a: seq<Entry>, b: seq<Entry>, id: string)
    requires multiset(a) == multiset(b)
    ensures multiset(Own(a, id)) == multiset(Own(b, id))
  {
    OwnElements(a, id);
    OwnElements(b, id);
    forall e: Entry ensures multiset(Own(a, id))[e] == multiset(Own(b, id))[e] { }
  }

  lemma ColoursForgetOrder(a: seq<Entry>, b: seq<Entry>, id: string)
    requires multiset(a) == multiset(b) && OncePerRound(a)
    requires Sorted(ByRound(), a) && Sorted(ByRound(), b)
    ensures Colours(a, id) == Colours(b, id)
  {
    OwnForgetsOrder(a, b, id);
    OwnOncePerRound(a, id);
    OwnSorted(a, id);
    OwnSorted(b, id);
    SortedUnique(ByRound(), Own(a, id), Own(b, id));
    ColoursOfOwn(a, id);
    ColoursOfOwn(b, id);
  }

  lemma {:induction false} MaxRoundAttained(entries: seq<Entry>)
    ensures MaxRound(entries) == 0 || exists e :: e in entries && e.roundNumber == MaxRound(entries)
  {
    if entries != [] {
      var front, last := entries[..|entries| - 1], entries[|entries| - 1];
      MaxRoundAttained(front);
      if MaxRound(entries) != 0 {
        if last.roundNumber == MaxRound(entries) {
          assert last in entries;
        } else {
          var e :| e in front && e.roundNumber == MaxRound(front);
          assert e in entries;
        }
      }
    }
  }

  lemma MaxRoundForgetsOrder(a: seq<Entry>, b: seq<Entry>)
    requires multiset(a) == multiset(b)
    ensures MaxRound(a) == MaxRound(b)
  {
    SameElements(a, b);
    MaxRoundAttained(a);
    MaxRoundAttained(b);
    forall e | e in a ensures e.roundNumber <= MaxRound(a) && e.roundNumber <= MaxRound(b) {
      MaxRoundBounds(a, e);
      MaxRoundBounds(b, e);
    }
  }

  lemma RoundsAreComparable(history: seq<Entry>)
    ensures TotalPreorderOn(ByRound(), history)
  {
  }

  lemma StateForgetsOrder(p: Participant, x: seq<Entry>, y: seq<Entry>)
    requires multiset(x) == multiset(y) && OncePerRound(x)
    requires Sorted(ByRound(), x) && Sorted(ByRound(), y)
    ensures StateOf(p, x) == StateOf(p, y)
  {
    var id := p.registrationId;
    PointsForgetOrder(x, y, id);
    ColoursForgetOrder(x, y, id);
    MaxRoundForgetsOrder(x, y);
    FloatHistoryForgetsOrder(x, y, MaxRound(x), id);
    SetsForgetOrder(x, y, id);
  }

  lemma FloatHistoryForgetsOrder(x: seq<Entry>, y: seq<Entry>, rounds: nat, id: string)
    requires multiset(x) == multiset(y) && OncePerRound(x)
    ensures FloatHistory(x, rounds, id) == FloatHistory(y, rounds, id)
  {
    forall round: int ensures FloatAt(x, round, id) == FloatAt(y, round, id) { FloatAtForgetsOrder(x, y, round, id); }
  }

  lemma SetsForgetOrder(x: seq<Entry>, y: seq<Entry>, id: string)
    requires multiset(x) == multiset(y)
    ensures Opponents(x, id) == Opponents(y, id)
    ensures ByeBarred(x, id) == ByeBarred(y, id)
  {
    SameElements(x, y);
  }

  /** Reading the history in another order gives every participant the same state. */
  lemma StatesForgetOrder(p: Participant, a: seq<Entry>, b: seq<Entry>)
    requires multiset(a) == multiset(b) && OncePerRound(a)
    ensures StateOf(p, Sort(ByRound(), a)) == StateOf(p, Sort(ByRound(), b))
  {
    RoundsAreComparable(a);
    RoundsAreComparable(b);
    SortSorted(ByRound(), a);
    SortSorted(ByRound(), b);
    SameElements(Sort(ByRound(), a), a);
    StateForgetsOrder(p, Sort(ByRound(), a), Sort(ByRound(), b));
  }
}
