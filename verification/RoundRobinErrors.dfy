/** When the round-robin engine answers at all, and which error it raises when it does not. */
module RoundRobinErrors {
  import opened Wrappers
  import opened Sorting
  import opened Berger
  import opened RoundRobin

  // ---------------------------------------------------------------------------------------
  //  Seating
  // ---------------------------------------------------------------------------------------

  predicate DistinctNumbersIn(players: seq<Player>) {
    forall i, j :: 0 <= i < j < |players| ==> players[i].pairingNumber != players[j].pairingNumber
  }

  lemma {:induction false} DuplicateMeansShared(sorted: seq<Player>)
    requires FirstDuplicate(sorted).Some?
    ensures exists i :: 0 <= i < |sorted| - 1 && sorted[i].pairingNumber == sorted[i + 1].pairingNumber
                == FirstDuplicate(sorted).value
  {
    if sorted[0].pairingNumber != sorted[1].pairingNumber {
      DuplicateMeansShared(sorted[1..]);
      var i :| 0 <= i < |sorted[1..]| - 1 && sorted[1..][i].pairingNumber == sorted[1..][i + 1].pairingNumber
                    == FirstDuplicate(sorted[1..]).value;
      assert sorted[i + 1].pairingNumber == sorted[i + 1 + 1].pairingNumber;
    }
  }

  lemma CountOfDistinct(players: seq<Player>)
    ensures DistinctNumbersIn(players) <==> forall number: int :: multiset(Numbers(players))[number] <= 1
  {
    var ns := Numbers(players);
    if DistinctNumbersIn(players) {
      OnceEach(ns);
    } else {
      var i, j :| 0 <= i < j < |players| && players[i].pairingNumber == players[j].pairingNumber;
      TwiceIn(ns, i, j);
    }
  }

  /** Everybody gets a seat exactly if no two players share a pairing number; then the seats are in that order. */
  lemma SeatingIffDistinct(players: seq<Player>)
    ensures Seating(players).Ok? <==> DistinctNumbersIn(players)
    ensures Seating(players).Ok? ==>
              var seats := Seating(players).value;
              && multiset(seats) == multiset(players)
              && forall i, j :: 0 <= i < j < |seats| ==> seats[i].pairingNumber < seats[j].pairingNumber
  {
    var sorted := Sort(ByNumber(), players);
    SortSorted(ByNumber(), players);
    NumbersMultiset(players, sorted);
    CountOfDistinct(players);
    CountOfDistinct(sorted);
    if FirstDuplicate(sorted).None? {
      forall i, j | 0 <= i < j < |sorted| ensures sorted[i].pairingNumber < sorted[j].pairingNumber {
        NoDuplicateMeansDistinct(sorted, i, j);
      }
    } else {
      DuplicateMeansShared(sorted);
    }
  }

  /** Otherwise the error names a number that two players share. */
  lemma DuplicateIsShared(players: seq<Player>)
    requires Seating(players).Err?
    ensures Seating(players).error.DuplicateNumber?
    ensures exists i, j :: 0 <= i < j < |players| &&
              players[i].pairingNumber == players[j].pairingNumber == Seating(players).error.pairingNumber
  {
    var sorted := Sort(ByNumber(), players);
    DuplicateMeansShared(sorted);
    var number := FirstDuplicate(sorted).value;
    var i :| 0 <= i < |sorted| - 1 && sorted[i].pairingNumber == sorted[i + 1].pairingNumber == number;
    TwiceIn(Numbers(sorted), i, i + 1);
    NumbersMultiset(players, sorted);
    TwoPlaces(players, number);
  }

  lemma {:induction false} TwoPlaces(players: seq<Player>, number: int)
    requires multiset(Numbers(players))[number] >= 2
    ensures exists i, j :: 0 <= i < j < |players| && players[i].pairingNumber == players[j].pairingNumber == number
  {
    if players != [] {
      var rest := players[1..];
      assert Numbers(players) == [players[0].pairingNumber] + Numbers(rest);
      if players[0].pairingNumber == number {
        assert number in Numbers(rest);
        var k :| 0 <= k < |Numbers(rest)| && Numbers(rest)[k] == number;
        assert players[k + 1].pairingNumber == number;
      } else {
        TwoPlaces(rest, number);
        var i, j :| 0 <= i < j < |rest| && rest[i].pairingNumber == rest[j].pairingNumber == number;
        assert players[i + 1].pairingNumber == players[j + 1].pairingNumber == number;
      }
    }
  }

  // ---------------------------------------------------------------------------------------
  //  Rounds
  // ---------------------------------------------------------------------------------------

  /** The player has not withdrawn and has joined by this round. */
  predicate Plays(p: Player, roundNumber: int) { !p.isWithdrawn && p.joinedAtRound <= roundNumber }

  ghost predicate OnePlays(players: seq<Player>, roundNumber: int) {
    exists i :: 0 <= i < |players| && Plays(players[i], roundNumber)
  }

  ghost predicate TwoPlay(players: seq<Player>, roundNumber: int) {
    exists i, j :: 0 <= i < j < |players| && Plays(players[i], roundNumber) && Plays(players[j], roundNumber)
  }

  lemma OnePlaysInRest(players: seq<Player>, r: int)
    requires players != []
    ensures OnePlays(players, r) <==> Plays(players[0], r) || OnePlays(players[1..], r)
  {
    if OnePlays(players[1..], r) {
      var i :| 0 <= i < |players[1..]| && Plays(players[1..][i], r);
      assert Plays(players[i + 1], r);
    }
    if OnePlays(players, r) {
      var i :| 0 <= i < |players| && Plays(players[i], r);
      if i > 0 { assert Plays(players[1..][i - 1], r); }
    }
  }

  lemma TwoPlayInRest(players: seq<Player>, r: int)
    requires players != []
    ensures TwoPlay(players, r) <==> (Plays(players[0], r) && OnePlays(players[1..], r)) || TwoPlay(players[1..], r)
  {
    if Plays(players[0], r) && OnePlays(players[1..], r) {
      var i :| 0 <= i < |players[1..]| && Plays(players[1..][i], r);
      assert Plays(players[i + 1], r);
    }
    if TwoPlay(players[1..], r) {
      var i, j :| 0 <= i < j < |players[1..]| && Plays(players[1..][i], r) && Plays(players[1..][j], r);
      assert Plays(players[i + 1], r) && Plays(players[j + 1], r);
    }
    if TwoPlay(players, r) {
      var i, j :| 0 <= i < j < |players| && Plays(players[i], r) && Plays(players[j], r);
      assert Plays(players[1..][j - 1], r);
      if i > 0 { assert Plays(players[1..][i - 1], r); }
    }
  }

  lemma {:induction false} CountMeans(players: seq<Player>, r: int)
    ensures CountActive(players, r) >= 1 <==> OnePlays(players, r)
    ensures CountActive(players, r) >= 2 <==> TwoPlay(players, r)
  {
    if players != [] {
      CountMeans(players[1..], r);
      OnePlaysInRest(players, r);
      TwoPlayInRest(players, r);
    }
  }

  /** A seated field gets its round exactly if the round is in the schedule and two of its players play. */
  lemma RoundIffTwoPlay(legs: Legs, seats: seq<Player>, roundNumber: int)
    ensures RoundOf(legs, seats, roundNumber).Ok? <==>
            1 <= roundNumber <= legs * (TableSize(|seats|) - 1) && TwoPlay(seats, roundNumber)
  {
    LegsTimesRounds(legs, TableSize(|seats|));
    CountMeans(seats, roundNumber);
  }

  lemma {:induction false} CountForgetsOrder(a: seq<Player>, b: seq<Player>, r: int)
    requires multiset(a) == multiset(b)
    ensures CountActive(a, r) == CountActive(b, r)
  {
    SameElements(a, b);
    if a != [] {
      assert a[0] in b;
      var i :| 0 <= i < |b| && b[i] == a[0];
      assert a == [a[0]] + a[1..] && b == b[..i] + ([b[i]] + b[i + 1..]);
      CancelElement(a[0], multiset(a[1..]), multiset(b[..i] + b[i + 1..]));
      CountForgetsOrder(a[1..], b[..i] + b[i + 1..], r);
      CountConcat(b[..i], b[i + 1..], r);
      CountConcat(b[..i], [b[i]] + b[i + 1..], r);
      CountConcat([b[i]], b[i + 1..], r);
      CountConcat([a[0]], a[1..], r);
    }
  }

  lemma {:induction false} CountConcat(a: seq<Player>, b: seq<Player>, r: int)
    ensures CountActive(a + b, r) == CountActive(a, r) + CountActive(b, r)
  {
    if a == [] {
      assert a + b == b;
    } else {
      CountConcat(a[1..], b, r);
      assert (a + b)[1..] == a[1..] + b;
    }
  }

  /**
   The engine answers exactly if all pairing numbers differ, the round is in the schedule, and two
   different players have joined and not withdrawn; nobody else's withdrawal stops a round.
   */
  lemma AnswersIff(legs: Legs, players: seq<Player>, roundNumber: int)
    ensures Computed(legs, players, roundNumber).Ok? <==>
            && DistinctNumbersIn(players) && 1 <= roundNumber <= legs * (TableSize(|players|) - 1)
            && TwoPlay(players, roundNumber)
  {
    SeatingIffDistinct(players);
    if Seating(players).Ok? {
      var seats := Seating(players).value;
      SameElements(seats, players);
      RoundIffTwoPlay(legs, seats, roundNumber);
      CountForgetsOrder(seats, players, roundNumber);
      CountMeans(seats, roundNumber);
      CountMeans(players, roundNumber);
    }
  }

  /** Each error exactly when: a shared number, too few players, a round outside the schedule, too few who play. */
  lemma ErrorsIff(legs: Legs, players: seq<Player>, roundNumber: int)
    ensures var r := Computed(legs, players, roundNumber);
            var last := legs * (TableSize(|players|) - 1);
            && (r.Err? && r.error.DuplicateNumber? <==> !DistinctNumbersIn(players))
            && (DistinctNumbersIn(players) ==>
                && (r == Err(TooFewPlayers(|players|)) <==> |players| < 2)
                && (r == Err(RoundOutsideSchedule(roundNumber, last)) <==>
                    |players| >= 2 && !(1 <= roundNumber <= last))
                && (r.Err? && r.error.TooFewActive? <==>
                    |players| >= 2 && 1 <= roundNumber <= last && !TwoPlay(players, roundNumber)))
  {
    AnswersIff(legs, players, roundNumber);
    SeatingIffDistinct(players);
    LegsTimesRounds(legs, TableSize(|players|));
    if Seating(players).Ok? { SameElements(Seating(players).value, players); } else { DuplicateIsShared(players); }
  }

  /** Whoever plays has one place in the round, whoever has withdrawn or not yet joined has none. */
  lemma PlacedIffPlays(legs: Legs, players: seq<Player>, roundNumber: int, p: Player)
    requires DistinctIds(players) && DistinctNumbersIn(players) && p in players
    requires 1 <= roundNumber <= legs * (TableSize(|players|) - 1) && TwoPlay(players, roundNumber)
    ensures Computed(legs, players, roundNumber).Ok?
    ensures Places(Computed(legs, players, roundNumber).value, p.playerId) == if Plays(p, roundNumber) then 1 else 0
  {
    AnswersIff(legs, players, roundNumber);
    EveryActivePlayerPlacedOnce(legs, players, roundNumber, p);
  }

  /** Every bye is worth a whole point. */
  lemma {:induction false} ByesAreWholePoints(seats: seq<Player>, boards: seq<SeatPair>, roundNumber: int)
    ensures forall b :: b in Byes(seats, boards, roundNumber) ==> b.points == 1
  {
    if boards != [] { ByesAreWholePoints(seats, boards[..|boards| - 1], roundNumber); }
  }
}
