/**
 Colours over a double round-robin. The second leg replays the first with colours reversed, which
 balances every seat; what can go wrong is the passage from one leg to the next.
 */
module BergerLegs {
  import opened Berger
  import opened BergerColours

  function OtherColour(c: Colour): Colour { if c == White then Black else White }

  /** The round of the leg to which a round of the schedule belongs. */
  function RoundInLeg(n: int, round: int): int { if round > n - 1 then SecondLegRound(n, round) else round }

  function ScheduledColour(n: int, round: int, seat: int): Colour
    requires IsTable(n) && round >= 1
  {
    if round > n - 1 then OtherColour(ColourOf(n, SecondLegRound(n, round), seat)) else ColourOf(n, round, seat)
  }

  /** This is the colour that the seat has on its board of the schedule. */
  lemma ScheduledColourIs(n: int, round: int, seat: int, k: int)
    requires IsTable(n) && 1 <= round <= 2 * (n - 1) && 1 <= seat <= n && 0 <= k < n / 2
    requires Seats(ScheduledRound(n, round)[k], seat)
    ensures ScheduledColour(n, round, seat) == White <==> ScheduledRound(n, round)[k].whiteSeat == seat
    ensures ScheduledColour(n, round, seat) == Black <==> ScheduledRound(n, round)[k].blackSeat == seat
  {
    LegRoundLinear(n, round);
    var inLeg := RoundInLeg(n, round);
    assert Seats(Round(n, inLeg)[k], seat);
    BoardOfSeat(n, inLeg, seat, k);
    BoardHasTwoSeats(n, inLeg, k);
  }

  /** The colours of a seat over the first rounds of the schedule, as in `History`. */
  function ScheduleHistory(n: int, seat: int, rounds: nat, phantom: bool): seq<Colour>
    requires IsTable(n)
  {
    if rounds == 0 then []
    else if phantom && OpponentOf(n, RoundInLeg(n, rounds), seat) == n
      then ScheduleHistory(n, seat, rounds - 1, phantom)
    else ScheduleHistory(n, seat, rounds - 1, phantom) + [ScheduledColour(n, rounds, seat)]
  }

  function Reversed(h: seq<Colour>): (r: seq<Colour>)
    ensures |r| == |h|
  {
    seq(|h|, i requires 0 <= i < |h| => OtherColour(h[i]))
  }

  lemma {:induction false} FirstLegIsHistory(n: int, seat: int, rounds: nat, phantom: bool)
    requires IsTable(n) && rounds <= n - 1
    ensures ScheduleHistory(n, seat, rounds, phantom) == History(n, seat, rounds, phantom)
  {
    if rounds > 0 { FirstLegIsHistory(n, seat, rounds - 1, phantom); }
  }

  lemma ReversedSnoc(h: seq<Colour>, c: Colour)
    ensures Reversed(h + [c]) == Reversed(h) + [OtherColour(c)]
  {
  }

  lemma {:induction false} SecondLegReplays(n: int, seat: int, rounds: nat, phantom: bool)
    requires IsTable(n) && rounds <= n - 1
    ensures ScheduleHistory(n, seat, n - 1 + rounds, phantom) ==
            History(n, seat, n - 1, phantom) + Reversed(History(n, seat, rounds, phantom))
  {
    if rounds == 0 {
      FirstLegIsHistory(n, seat, n - 1, phantom);
      assert Reversed([]) == [];
    } else {
      SecondLegReplays(n, seat, rounds - 1, phantom);
      assert RoundInLeg(n, n - 1 + rounds) == rounds;
      ReversedSnoc(History(n, seat, rounds - 1, phantom), ColourOf(n, rounds, seat));
    }
  }

  // ---------------------------------------------------------------------------------------
  //  Balance
  // ---------------------------------------------------------------------------------------

  lemma {:induction false} CountConcat(a: seq<Colour>, b: seq<Colour>, c: Colour)
    ensures Count(a + b, c) == Count(a, c) + Count(b, c)
  {
    if b == [] {
      assert a + b == a;
    } else {
      CountConcat(a, b[..|b| - 1], c);
      assert (a + b)[..|a + b| - 1] == a + b[..|b| - 1];
    }
  }

  lemma {:induction false} CountReversed(h: seq<Colour>, c: Colour)
    ensures Count(Reversed(h), c) == Count(h, OtherColour(c))
  {
    if h != [] {
      CountReversed(h[..|h| - 1], c);
      assert Reversed(h)[..|h| - 1] == Reversed(h[..|h| - 1]);
    }
  }

  /** Over two legs every seat has as many Whites as Blacks, with or without a phantom. */
  lemma TwoLegsBalance(n: int, seat: int, phantom: bool)
    requires IsTable(n)
    ensures var h := ScheduleHistory(n, seat, 2 * (n - 1), phantom); Count(h, White) == Count(h, Black)
  {
    SecondLegReplays(n, seat, n - 1, phantom);
    LegAndReversedBalance(History(n, seat, n - 1, phantom));
  }

  lemma LegAndReversedBalance(leg: seq<Colour>)
    ensures Count(leg + Reversed(leg), White) == Count(leg + Reversed(leg), Black)
  {
    CountConcat(leg, Reversed(leg), White);
    CountConcat(leg, Reversed(leg), Black);
    CountReversed(leg, White);
    CountReversed(leg, Black);
  }

  // ---------------------------------------------------------------------------------------
  //  Repetitions
  // ---------------------------------------------------------------------------------------

  /** The same colour in three games running, the first of them game `i`. */
  predicate ThreeAt(h: seq<Colour>, i: int) { RepeatsAt(h, i) && RepeatsAt(h, i + 1) }

  /** A leg followed by its reversal repeats where the leg does, and at the seam if its ends differ. */
  lemma RepeatsInTwoLegs(leg: seq<Colour>, i: int)
    ensures var h := leg + Reversed(leg);
            && (RepeatsAt(h, i) && i < |leg| - 1 ==> RepeatsAt(leg, i))
            && (RepeatsAt(h, i) && i > |leg| - 1 ==> RepeatsAt(leg, i - |leg|))
            && (RepeatsAt(leg, i) ==> RepeatsAt(h, i) && RepeatsAt(h, |leg| + i))
            && (leg != [] ==> (RepeatsAt(h, |leg| - 1) <==> leg[0] != leg[|leg| - 1]))
  {
  }

  /** The last two rounds of a leg never repeat a colour, the first two only for two seats. */
  lemma EndsOfLeg(n: int, seat: int)
    requires IsTable(n) && n >= 4 && 1 <= seat <= n
    ensures ColourOf(n, n - 2, seat) != ColourOf(n, n - 1, seat)
    ensures ColourOf(n, 1, seat) == ColourOf(n, 2, seat) <==> seat == 1 || seat == n / 2 + 1
    ensures seat == 1 ==> ColourOf(n, 1, seat) == White && ColourOf(n, n - 1, seat) == Black
    ensures seat == n / 2 + 1 ==> ColourOf(n, 1, seat) == Black && ColourOf(n, n - 1, seat) == White
  {
    LeaderLinear(n, 1);
    LeaderLinear(n, 2);
    LeaderLinear(n, n - 2);
    LeaderLinear(n, n - 1);
  }

  /** No leg has three of one colour running. */
  lemma NoThreeInLeg(n: int, seat: int, i: int)
    requires IsTable(n) && 1 <= seat <= n
    ensures !ThreeAt(History(n, seat, n - 1, false), i)
  {
    EvenFieldColours(n, seat);
  }

  /**
   Over two legs of an even field, exactly the seats 1 and n/2 + 1 of a table of four or more get
   three of one colour running, once each: in the last round of the first leg and the first two of
   the second. It is Black for seat 1 and White for seat n/2 + 1; nobody gets four.
   */
  lemma ThreeRunningAtTheSeam(n: int, seat: int, i: int)
    requires IsTable(n) && 1 <= seat <= n
    ensures var h := ScheduleHistory(n, seat, 2 * (n - 1), false);
            && |h| == 2 * (n - 1)
            && (ThreeAt(h, i) <==> n >= 4 && i == n - 2 && (seat == 1 || seat == n / 2 + 1))
            && (ThreeAt(h, i) ==> h[i] == if seat == 1 then Black else White)
  {
    SecondLegReplays(n, seat, n - 1, false);
    EvenLegs(n, seat, i, History(n, seat, n - 1, false));
  }

  lemma EvenLegs(n: int, seat: int, i: int, leg: seq<Colour>)
    requires IsTable(n) && 1 <= seat <= n && leg == History(n, seat, n - 1, false)
    ensures var h := leg + Reversed(leg);
            && |h| == 2 * (n - 1)
            && (ThreeAt(h, i) <==> n >= 4 && i == n - 2 && (seat == 1 || seat == n / 2 + 1))
            && (ThreeAt(h, i) ==> h[i] == if seat == 1 then Black else White)
  {
    FullHistoryAt(n, seat, n - 1);
    if n >= 4 {
      EndsOfLeg(n, seat);
      SeamOfLeg(leg, n, i);
      NoThreeInLeg(n, seat, i);
      NoThreeInLeg(n, seat, i - |leg|);
    }
  }

  /** Three running in two legs are three running in a leg, or lie across the seam. */
  lemma SeamOfLeg(leg: seq<Colour>, n: int, i: int)
    requires n >= 4 && |leg| == n - 1 && leg[n - 3] != leg[n - 2]
    ensures var h := leg + Reversed(leg);
            && (ThreeAt(h, i) ==> ThreeAt(leg, i) || ThreeAt(leg, i - |leg|) || i == n - 2)
            && (ThreeAt(h, n - 2) <==> leg[0] != leg[n - 2] && leg[0] == leg[1])
  {
    RepeatsInTwoLegs(leg, i);
    RepeatsInTwoLegs(leg, i + 1);
    RepeatsInTwoLegs(leg, 0);
  }

  /**
   Over two legs of an odd field, counting only games, a colour is repeated exactly once, from the
   first leg to the second, and never comes three times running.
   */
  lemma OddFieldRepeatsAtTheSeam(n: int, seat: int, i: int)
    requires IsTable(n) && 1 <= seat < n
    ensures var h := ScheduleHistory(n, seat, 2 * (n - 1), true);
            && |h| == 2 * (n - 2)
            && (RepeatsAt(h, i) <==> n >= 4 && i == n - 3)
            && !ThreeAt(h, i)
  {
    SecondLegReplays(n, seat, n - 1, true);
    PhantomLeg(n, seat);
    OddLegs(History(n, seat, n - 1, true), n, i);
  }

  lemma OddLegs(leg: seq<Colour>, n: int, i: int)
    requires IsTable(n) && |leg| == n - 2 && Alternates(leg)
    ensures var h := leg + Reversed(leg);
            |h| == 2 * (n - 2) && (RepeatsAt(h, i) <==> n >= 4 && i == n - 3) && !ThreeAt(h, i)
  {
    OddSeam(leg, n, i);
    OddSeam(leg, n, i + 1);
  }

  lemma OddSeam(leg: seq<Colour>, n: int, i: int)
    requires IsTable(n) && |leg| == n - 2 && Alternates(leg)
    ensures RepeatsAt(leg + Reversed(leg), i) <==> n >= 4 && i == n - 3
  {
    RepeatsInTwoLegs(leg, i);
    RepeatsInTwoLegs(leg, i - |leg|);
    if leg != [] { EvenEndsDiffer(leg); }
  }

  lemma {:induction false} EvenEndsDiffer(leg: seq<Colour>)
    requires leg != [] && |leg| % 2 == 0 && Alternates(leg)
    ensures leg[0] != leg[|leg| - 1]
  {
    var n := |leg|;
    if n > 2 {
      EvenEndsDiffer(leg[..n - 2]);
      assert leg[n - 3] != leg[n - 2] && leg[n - 2] != leg[n - 1];
      assert leg[..n - 2][0] == leg[0];
    }
  }
}
