/**
 Colour sequences of the Berger tables: who gets how many Whites, and in what order.

 A circling seat loses n/2 steps on the leader each round, so White turns into Black, and Black
 into White, except around the one round in which the seat is the leader itself and meets the
 fixed seat. That single round explains every deviation from strict alternation.
 */
module BergerColours {
  import opened Berger

  /**
   The colours of a seat over the first `rounds` rounds. With `phantom` the last seat is nobody:
   the round against it is a bye and gives no colour.
   */
  function History(n: int, seat: int, rounds: nat, phantom: bool): (h: seq<Colour>)
    requires IsTable(n)
  {
    if rounds == 0 then []
    else if phantom && OpponentOf(n, rounds, seat) == n then History(n, seat, rounds - 1, phantom)
    else History(n, seat, rounds - 1, phantom) + [ColourOf(n, rounds, seat)]
  }

  function Count(h: seq<Colour>, c: Colour): nat {
    if h == [] then 0 else Count(h[..|h| - 1], c) + if h[|h| - 1] == c then 1 else 0
  }

  ghost predicate Alternates(h: seq<Colour>) {
    forall i :: 0 <= i < |h| - 1 ==> h[i] != h[i + 1]
  }

  /** The same colour in two games running, the first of them game `i`. */
  predicate RepeatsAt(h: seq<Colour>, i: int) {
    0 <= i < |h| - 1 && h[i] == h[i + 1]
  }

  lemma {:induction false} AlternatingIsBalanced(h: seq<Colour>)
    requires Alternates(h)
    ensures |h| % 2 == 0 ==> Count(h, White) == Count(h, Black)
    ensures |h| % 2 == 1 ==> Count(h, h[|h| - 1]) == 1 + Count(h, if h[|h| - 1] == White then Black else White)
  {
    if |h| > 0 {
      AlternatingIsBalanced(h[..|h| - 1]);
    }
  }

  /** One round to the next, for a circling seat. */
  lemma ColourStep(n: int, round: int, seat: int)
    requires IsTable(n) && 1 <= round < n - 1 && 1 <= seat < n
    ensures seat == Leader(n, round) ==> seat != Leader(n, round + 1) && ColourOf(n, round + 1, seat) == White
    ensures seat == Leader(n, round + 1) ==> ColourOf(n, round, seat) == Black
    ensures seat != Leader(n, round) && seat != Leader(n, round + 1) ==>
              ColourOf(n, round, seat) != ColourOf(n, round + 1, seat)
  {
    LeaderLinear(n, round);
    LeaderLinear(n, round + 1);
  }

  lemma LeaderIffMeetsFixed(n: int, round: int, seat: int)
    requires IsTable(n) && 1 <= round <= n - 1 && 1 <= seat < n
    ensures seat == Leader(n, round) <==> OpponentOf(n, round, seat) == n
    ensures OpponentOf(n, round, seat) == n <==> round == MeetingRound(n, seat, n)
  {
    LeaderLinear(n, round);
    OpponentIffMeetingRound(n, round, seat, n);
  }

  // ---------------------------------------------------------------------------------------
  //  An odd number of players
  // ---------------------------------------------------------------------------------------

  lemma AlternatesSnoc(h: seq<Colour>, last: Colour)
    requires Alternates(h) && (h != [] ==> h[|h| - 1] != last)
    ensures Alternates(h + [last])
  {
  }

  /** The colour after which the next one must differ: a bye round counts as a Black. */
  function LastColour(n: int, round: int, seat: int): Colour
    requires IsTable(n) && round >= 1
  {
    if OpponentOf(n, round, seat) == n then Black else ColourOf(n, round, seat)
  }

  lemma LastColourStep(n: int, round: int, seat: int)
    requires IsTable(n) && 1 <= round < n - 1 && 1 <= seat < n
    ensures OpponentOf(n, round + 1, seat) == n ==> LastColour(n, round, seat) == Black
    ensures OpponentOf(n, round + 1, seat) != n ==> ColourOf(n, round + 1, seat) != LastColour(n, round, seat)
  {
    ColourStep(n, round, seat);
    LeaderIffMeetsFixed(n, round, seat);
    LeaderIffMeetsFixed(n, round + 1, seat);
  }

  lemma {:induction false} PhantomAlternates(n: int, seat: int, rounds: nat)
    requires IsTable(n) && 1 <= seat < n && rounds <= n - 1
    ensures var h := History(n, seat, rounds, true);
            Alternates(h) && (h != [] ==> h[|h| - 1] == LastColour(n, rounds, seat))
  {
    if rounds == 1 {
      assert History(n, seat, 0, true) == [];
    } else if rounds > 1 {
      PhantomAlternates(n, seat, rounds - 1);
      LastColourStep(n, rounds - 1, seat);
      if OpponentOf(n, rounds, seat) != n {
        AlternatesSnoc(History(n, seat, rounds - 1, true), ColourOf(n, rounds, seat));
      }
    }
  }

  lemma {:induction false} PhantomLength(n: int, seat: int, rounds: nat)
    requires IsTable(n) && 1 <= seat < n && rounds <= n - 1
    ensures |History(n, seat, rounds, true)| == rounds - if rounds >= MeetingRound(n, seat, n) then 1 else 0
  {
    MeetingRoundLinear(n, seat, n);
    if rounds > 0 {
      PhantomLength(n, seat, rounds - 1);
      LeaderIffMeetsFixed(n, rounds, seat);
    }
  }

  /**
   With n - 1 players, n - 1 odd: every player sits out exactly one round of the leg, has White
   and Black equally often in the other n - 2, and never the same colour in two games running.
   */
  lemma OddFieldColours(n: int, seat: int)
    requires IsTable(n) && 1 <= seat < n
    ensures 1 <= MeetingRound(n, seat, n) <= n - 1
    ensures forall round :: 1 <= round <= n - 1 ==> (Meet(n, round, seat, n) <==> round == MeetingRound(n, seat, n))
    ensures var h := History(n, seat, n - 1, true);
            |h| == n - 2 && Alternates(h) && Count(h, White) == Count(h, Black)
  {
    PairsMeetExactlyOnce(n, seat, n);
    PhantomLeg(n, seat);
  }

  lemma PhantomLeg(n: int, seat: int)
    requires IsTable(n) && 1 <= seat < n
    ensures var h := History(n, seat, n - 1, true);
            |h| == n - 2 && Alternates(h) && Count(h, White) == Count(h, Black)
  {
    PhantomAlternates(n, seat, n - 1);
    PhantomLength(n, seat, n - 1);
    MeetingRoundLinear(n, seat, n);
    EvenIsBalanced(History(n, seat, n - 1, true), n);
  }

  lemma EvenIsBalanced(h: seq<Colour>, n: int)
    requires Alternates(h) && n % 2 == 0 && |h| == n - 2
    ensures Count(h, White) == Count(h, Black)
  {
    AlternatingIsBalanced(h);
  }

  lemma BlackEndsIsBalanced(h: seq<Colour>, n: int)
    requires Alternates(h) && n % 2 == 0 && n >= 2 && |h| == n - 1 && h[n - 2] == Black
    ensures Count(h, Black) == Count(h, White) + 1
  {
    AlternatingIsBalanced(h);
  }

  // ---------------------------------------------------------------------------------------
  //  An even number of players
  // ---------------------------------------------------------------------------------------

  lemma {:induction false} FullHistoryAt(n: int, seat: int, rounds: nat)
    requires IsTable(n)
    ensures var h := History(n, seat, rounds, false);
            |h| == rounds && forall i :: 0 <= i < rounds ==> h[i] == ColourOf(n, i + 1, seat)
  {
    if rounds > 0 {
      FullHistoryAt(n, seat, rounds - 1);
    }
  }

  lemma CirclingRepetition(n: int, seat: int, i: int)
    requires IsTable(n) && 1 <= seat < n && 0 <= i < n - 2
    requires ColourOf(n, i + 1, seat) == ColourOf(n, i + 2, seat)
    ensures var meeting := MeetingRound(n, seat, n);
            if meeting % 2 == 1 then i + 1 == meeting else i + 2 == meeting
  {
    ColourStep(n, i + 1, seat);
    LeaderIffMeetsFixed(n, i + 1, seat);
    LeaderIffMeetsFixed(n, i + 2, seat);
  }

  /** A repetition can only touch the leader's round, and its parity says on which side. */
  lemma RepetitionAtLeader(n: int, seat: int, i: int)
    requires IsTable(n) && 1 <= seat <= n && 0 <= i < n - 2
    requires ColourOf(n, i + 1, seat) == ColourOf(n, i + 2, seat)
    ensures seat < n
    ensures var meeting := MeetingRound(n, seat, n);
            if meeting % 2 == 1 then i + 1 == meeting else i + 2 == meeting
  {
    if seat < n { CirclingRepetition(n, seat, i); }
  }

  /** The whole history counts the phantom history plus the one game against the fixed seat. */
  lemma {:induction false} FullVersusPhantomAt(n: int, seat: int, rounds: nat, c: Colour, meeting: int)
    requires IsTable(n) && rounds <= n - 1 && meeting >= 1
    requires forall r :: 1 <= r <= n - 1 ==> (OpponentOf(n, r, seat) == n <==> r == meeting)
    ensures Count(History(n, seat, rounds, false), c) ==
            Count(History(n, seat, rounds, true), c)
                + if rounds >= meeting && ColourOf(n, meeting, seat) == c then 1 else 0
  {
    if rounds > 0 {
      FullVersusPhantomAt(n, seat, rounds - 1, c, meeting);
      CountSnoc(History(n, seat, rounds - 1, false), ColourOf(n, rounds, seat), c);
      CountSnoc(History(n, seat, rounds - 1, true), ColourOf(n, rounds, seat), c);
    }
  }

  lemma FullVersusPhantom(n: int, seat: int, rounds: nat, c: Colour)
    requires IsTable(n) && 1 <= seat < n && rounds <= n - 1
    ensures var meeting := MeetingRound(n, seat, n);
            Count(History(n, seat, rounds, false), c) ==
            Count(History(n, seat, rounds, true), c) +
            if rounds >= meeting >= 1 && ColourOf(n, meeting, seat) == c then 1 else 0
  {
    MeetingRoundLinear(n, seat, n);
    forall r | 1 <= r <= n - 1 ensures OpponentOf(n, r, seat) == n <==> r == MeetingRound(n, seat, n) {
      LeaderIffMeetsFixed(n, r, seat);
    }
    FullVersusPhantomAt(n, seat, rounds, c, MeetingRound(n, seat, n));
  }

  lemma CountSnoc(h: seq<Colour>, last: Colour, c: Colour)
    ensures Count(h + [last], c) == Count(h, c) + if last == c then 1 else 0
  {
    assert (h + [last])[..|h|] == h;
  }

  lemma EvenFieldBalance(n: int, seat: int)
    requires IsTable(n) && 1 <= seat < n
    ensures var h := History(n, seat, n - 1, false);
            Count(h, White) == Count(h, Black) + 1 || Count(h, Black) == Count(h, White) + 1
  {
    OddFieldColours(n, seat);
    FullVersusPhantom(n, seat, n - 1, White);
    FullVersusPhantom(n, seat, n - 1, Black);
  }

  lemma FixedSeatBalance(n: int)
    requires IsTable(n)
    ensures var h := History(n, n, n - 1, false);
            Alternates(h) && Count(h, Black) == Count(h, White) + 1
  {
    FullHistoryAt(n, n, n - 1);
    BlackEndsIsBalanced(History(n, n, n - 1, false), n);
  }

  /**
   With n players, n even: Whites and Blacks differ by exactly one over the leg, at most one
   game repeats the colour of the game before, and no colour comes three times running.
   */
  lemma EvenFieldColours(n: int, seat: int)
    requires IsTable(n) && 1 <= seat <= n
    ensures var h := History(n, seat, n - 1, false);
            && |h| == n - 1
            && (Count(h, White) == Count(h, Black) + 1 || Count(h, Black) == Count(h, White) + 1)
            && (forall i, j :: RepeatsAt(h, i) && RepeatsAt(h, j) ==> i == j)
            && (forall i :: RepeatsAt(h, i) ==> !RepeatsAt(h, i + 1))
  {
    var h := History(n, seat, n - 1, false);
    FullHistoryAt(n, seat, n - 1);
    forall i, j | RepeatsAt(h, i) && RepeatsAt(h, j) ensures i == j {
      RepetitionAtLeader(n, seat, i);
      RepetitionAtLeader(n, seat, j);
    }
    if seat == n {
      FixedSeatBalance(n);
    } else {
      EvenFieldBalance(n, seat);
    }
  }

  /** The bounds are met: seat 1 of a table of four or more opens with two Whites. */
  lemma FirstSeatRepeats(n: int)
    requires IsTable(n) && n >= 4
    ensures RepeatsAt(History(n, 1, n - 1, false), 0)
  {
    FullHistoryAt(n, 1, n - 1);
    LeaderLinear(n, 1);
    LeaderLinear(n, 2);
  }
}
