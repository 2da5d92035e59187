/**
 The Berger tables of the round-robin engine.

 A table has an even number `n` of seats 1..n and `n - 1` rounds. Seat `n` stays put; in round
 `r` it meets the leader, and the seats `i` steps before and after the leader meet each other,
 all positions taken modulo `n - 1`. Everything that a tournament needs from this construction
 is a theorem about remainders: `n / 2` is the inverse of 2 modulo `n - 1`.
 */
module Berger {

  datatype SeatPair = SeatPair(whiteSeat: int, blackSeat: int)

  datatype Colour = White | Black

  // ---------------------------------------------------------------------------------------
  //  The construction
  // ---------------------------------------------------------------------------------------

  predicate IsTable(n: int) { n >= 2 && n % 2 == 0 }

  /** The remainder operator of JavaScript: it takes the sign of the dividend. */
  function JsRem(a: int, b: int): int
    requires b > 0
  {
    if a >= 0 then a % b else -((-a) % b)
  }

  function WrapSeat(value: int, modulus: int): int
    requires modulus > 0
  {
    JsRem(JsRem(value - 1, modulus) + modulus, modulus) + 1
  }

  function Leader(n: int, round: int): int
    requires IsTable(n) && round >= 1
  {
    (round - 1) * (n / 2) % (n - 1) + 1
  }

  function LeaderPair(n: int, round: int): SeatPair
    requires IsTable(n) && round >= 1
  {
    if round % 2 == 1 then SeatPair(Leader(n, round), n) else SeatPair(n, Leader(n, round))
  }

  function StepPair(n: int, round: int, i: int): SeatPair
    requires IsTable(n) && round >= 1
  {
    SeatPair(WrapSeat(Leader(n, round) + i, n - 1), WrapSeat(Leader(n, round) - i, n - 1))
  }

  /** Board `k` of a round: the fixed seat's board first, then one board per step. */
  function PairAt(n: int, round: int, k: nat): SeatPair
    requires IsTable(n) && round >= 1
  {
    if k == 0 then LeaderPair(n, round) else StepPair(n, round, k)
  }

  function Round(n: int, round: int): (pairs: seq<SeatPair>)
    requires IsTable(n) && round >= 1
  {
    seq(n / 2, k requires 0 <= k => PairAt(n, round, k))
  }

  /** The loop of the engine, which pushes one board after the other. */
  method BergerRound(tableSize: int, round: int) returns (pairs: seq<SeatPair>)
    requires IsTable(tableSize) && round >= 1
    ensures pairs == Round(tableSize, round)
  {
    var half := tableSize / 2;
    var modulus := tableSize - 1;
    var leader := (round - 1) * half % modulus + 1;
    pairs := [];
    if round % 2 == 1 {
      pairs := pairs + [SeatPair(leader, tableSize)];
    } else {
      pairs := pairs + [SeatPair(tableSize, leader)];
    }
    var i := 1;
    while i < half
      invariant 1 <= i <= half && |pairs| == i
      invariant forall k :: 0 <= k < i ==> pairs[k] == PairAt(tableSize, round, k)
    {
      pairs := pairs + [SeatPair(WrapSeat(leader + i, modulus), WrapSeat(leader - i, modulus))];
      i := i + 1;
    }
  }

  // ---------------------------------------------------------------------------------------
  //  Remainders without remainders
  // ---------------------------------------------------------------------------------------

  lemma RemOfMultiple(q: int, m: int, b: int)
    requires m > 0 && 0 <= b < m
    ensures (q * m + b) % m == b
  {
    var d := (q * m + b) / m;
    var e := (q * m + b) % m;
    assert (q - d) * m == e - b;
    MultipleIsFar(q - d, m);
  }

  lemma MultipleIsFar(x: int, m: int)
    requires m > 0
    ensures x >= 1 ==> x * m >= m
    ensures x <= -1 ==> x * m <= -m
  {
  }

  /** Within one lap of the circle, wrapping adds or subtracts the modulus once. */
  lemma WrapLinear(value: int, m: int)
    requires m > 0 && -m < value <= 2 * m
    ensures WrapSeat(value, m) == if value < 1 then value + m else if value > m then value - m else value
  {
    if value < 1 {
      if value - 1 == -m {
        RemOfMultiple(1, m, 0);
        RemOfMultiple(1, m, 0);
      } else {
        RemOfMultiple(0, m, 1 - value);
        RemOfMultiple(0, m, value - 1 + m);
      }
    } else if value > m {
      RemOfMultiple(1, m, value - 1 - m);
      RemOfMultiple(1, m, value - 1 - m);
    } else {
      RemOfMultiple(0, m, value - 1);
      RemOfMultiple(1, m, value - 1);
    }
  }

  /** The mathematics of the construction: two steps of half a table are one lap and one seat. */
  lemma HalfSteps(steps: int, q: int, half: int, m: int)
    requires m == 2 * half - 1
    ensures steps == 2 * q ==> steps * half == q * m + q
    ensures steps == 2 * q + 1 ==> steps * half == q * m + (q + half)
  {
  }

  /** The leaders of one leg are 1, h+1, 2, h+2, ... with h = n/2. */
  lemma LeaderLinear(n: int, round: int)
    requires IsTable(n) && 1 <= round <= n - 1
    ensures Leader(n, round) == if round % 2 == 1 then (round + 1) / 2 else n / 2 + round / 2
    ensures 1 <= Leader(n, round) <= n - 1
  {
    var m, half := n - 1, n / 2;
    var q := (round - 1) / 2;
    HalfSteps(round - 1, q, half, m);
    RemOfMultiple(q, m, if round % 2 == 1 then q else q + half);
  }

  /** How many steps after the leader a circling seat sits, from 0 to n - 2. */
  function Offset(n: int, round: int, seat: int): int
    requires IsTable(n) && round >= 1
  {
    var leader := Leader(n, round);
    if seat >= leader then seat - leader else seat - leader + (n - 1)
  }

  /** The board at which a seat plays. */
  function BoardOf(n: int, round: int, seat: int): int
    requires IsTable(n) && round >= 1
  {
    if seat == n then 0
    else
      var off := Offset(n, round, seat);
      if off < n / 2 then off else n - 1 - off
  }

  /** Whom a seat meets. */
  function OpponentOf(n: int, round: int, seat: int): int
    requires IsTable(n) && round >= 1
  {
    var leader := Leader(n, round);
    if seat == n then leader
    else if seat == leader then n
    else
      var mirrored := 2 * leader - seat;
      if mirrored < 1 then mirrored + (n - 1) else if mirrored > n - 1 then mirrored - (n - 1) else mirrored
  }

  function ColourOf(n: int, round: int, seat: int): Colour
    requires IsTable(n) && round >= 1
  {
    if seat == n then (if round % 2 == 1 then Black else White)
    else if seat == Leader(n, round) then (if round % 2 == 1 then White else Black)
    else if Offset(n, round, seat) < n / 2 then White
    else Black
  }

  predicate Seats(pair: SeatPair, seat: int) { pair.whiteSeat == seat || pair.blackSeat == seat }

  // ---------------------------------------------------------------------------------------
  //  Each round is a perfect matching
  // ---------------------------------------------------------------------------------------

  function Wrapped(value: int, m: int): int {
    if value < 1 then value + m else if value > m then value - m else value
  }

  function Steps(m: int, leader: int, seat: int): int { if seat >= leader then seat - leader else seat - leader + m }

  /** `i` steps after the leader sits the seat at offset `i`; `i` steps before it, the one at `m - i`. */
  lemma StepsAroundLeader(m: int, leader: int, i: int, seat: int)
    requires 1 <= leader <= m && 1 <= seat <= m && 1 <= i && 2 * i < m
    ensures Wrapped(leader + i, m) == seat <==> Steps(m, leader, seat) == i
    ensures Wrapped(leader - i, m) == seat <==> Steps(m, leader, seat) == m - i
    ensures 0 <= Steps(m, leader, seat) < m
    ensures Steps(m, leader, seat) == i ==> Wrapped(leader - i, m) == Wrapped(2 * leader - seat, m)
    ensures Steps(m, leader, seat) == m - i ==> Wrapped(leader + i, m) == Wrapped(2 * leader - seat, m)
    ensures 1 <= Wrapped(leader + i, m) <= m && 1 <= Wrapped(leader - i, m) <= m
  {
  }

  lemma StepBoard(n: int, round: int, i: int)
    requires IsTable(n) && 1 <= round <= n - 1 && 1 <= i < n / 2
    ensures StepPair(n, round, i) ==
            SeatPair(Wrapped(Leader(n, round) + i, n - 1), Wrapped(Leader(n, round) - i, n - 1))
  {
    LeaderLinear(n, round);
    WrapLinear(Leader(n, round) + i, n - 1);
    WrapLinear(Leader(n, round) - i, n - 1);
  }

  lemma BoardInRange(n: int, round: int, seat: int)
    requires IsTable(n) && 1 <= round <= n - 1 && 1 <= seat <= n
    ensures 0 <= BoardOf(n, round, seat) < n / 2
    ensures BoardOf(n, round, seat) == 0 <==> seat == n || seat == Leader(n, round)
  {
    LeaderLinear(n, round);
  }

  /**
   One board, read from a seat: a seat of the table sits on exactly one board of a round, with
   the colour and against the opponent that the closed forms name.
   */
  lemma BoardOfSeat(n: int, round: int, seat: int, k: int)
    requires IsTable(n) && 1 <= round <= n - 1
    requires 1 <= seat <= n && 0 <= k < n / 2
    ensures 0 <= BoardOf(n, round, seat) < n / 2
    ensures Seats(Round(n, round)[k], seat) <==> k == BoardOf(n, round, seat)
    ensures k == BoardOf(n, round, seat) ==>
              Round(n, round)[k] == (if ColourOf(n, round, seat) == White
                                     then SeatPair(seat, OpponentOf(n, round, seat))
                                     else SeatPair(OpponentOf(n, round, seat), seat))
  {
    LeaderLinear(n, round);
    BoardInRange(n, round, seat);
    if k > 0 {
      var leader := Leader(n, round);
      StepBoard(n, round, k);
      if seat < n {
        StepOfSeat(n, round, seat, k, leader);
      } else {
        StepsAroundLeader(n - 1, leader, k, leader);
      }
    }
  }

  lemma StepOfSeat(n: int, round: int, seat: int, k: int, leader: int)
    requires IsTable(n) && 1 <= round <= n - 1 && leader == Leader(n, round)
    requires 1 <= seat < n && 1 <= k < n / 2
    ensures Seats(StepPair(n, round, k), seat) <==> k == BoardOf(n, round, seat)
    ensures k == BoardOf(n, round, seat) ==>
              StepPair(n, round, k) == (if ColourOf(n, round, seat) == White
                                        then SeatPair(seat, OpponentOf(n, round, seat))
                                        else SeatPair(OpponentOf(n, round, seat), seat))
  {
    LeaderLinear(n, round);
    StepBoard(n, round, k);
    StepsAroundLeader(n - 1, leader, k, seat);
    assert Offset(n, round, seat) == Steps(n - 1, leader, seat);
    assert seat != leader ==> OpponentOf(n, round, seat) == Wrapped(2 * leader - seat, n - 1);
  }

  ghost predicate Placed(pairs: seq<SeatPair>, seat: int) { exists k :: 0 <= k < |pairs| && Seats(pairs[k], seat) }

  ghost predicate PerfectMatching(pairs: seq<SeatPair>, n: int) {
    && (forall k :: 0 <= k < |pairs| ==>
          1 <= pairs[k].whiteSeat <= n && 1 <= pairs[k].blackSeat <= n && pairs[k].whiteSeat != pairs[k].blackSeat)
    && (forall seat :: 1 <= seat <= n ==> Placed(pairs, seat))
    && (forall seat, j, k :: 0 <= j < |pairs| && 0 <= k < |pairs| && Seats(pairs[j], seat) && Seats(pairs[k], seat) ==>
        j == k)
  }

  lemma BoardHasTwoSeats(n: int, round: int, k: int)
    requires IsTable(n) && 1 <= round <= n - 1 && 0 <= k < n / 2
    ensures var p := Round(n, round)[k];
            1 <= p.whiteSeat <= n && 1 <= p.blackSeat <= n && p.whiteSeat != p.blackSeat
  {
    LeaderLinear(n, round);
    if k > 0 {
      StepBoard(n, round, k);
    }
  }

  lemma SeatIsPlaced(n: int, round: int, seat: int)
    requires IsTable(n) && 1 <= round <= n - 1 && 1 <= seat <= n
    ensures Placed(Round(n, round), seat)
  {
    BoardOfSeat(n, round, seat, 0);
    BoardOfSeat(n, round, seat, BoardOf(n, round, seat));
    assert Seats(Round(n, round)[BoardOf(n, round, seat)], seat);
  }

  lemma RoundIsPerfectMatching(n: int, round: int)
    requires IsTable(n) && 1 <= round <= n - 1
    ensures PerfectMatching(Round(n, round), n)
  {
    var pairs := Round(n, round);
    forall k | 0 <= k < |pairs|
      ensures 1 <= pairs[k].whiteSeat <= n && 1 <= pairs[k].blackSeat <= n && pairs[k].whiteSeat != pairs[k].blackSeat
    {
      BoardHasTwoSeats(n, round, k);
    }
    forall seat | 1 <= seat <= n ensures Placed(pairs, seat) {
      SeatIsPlaced(n, round, seat);
    }
    forall seat, j, k | 0 <= j < |pairs| && 0 <= k < |pairs| && Seats(pairs[j], seat) && Seats(pairs[k], seat)
      ensures j == k
    {
      BoardHasTwoSeats(n, round, j);
      BoardOfSeat(n, round, seat, j);
      BoardOfSeat(n, round, seat, k);
    }
  }

  // ---------------------------------------------------------------------------------------
  //  Each pair meets exactly once
  // ---------------------------------------------------------------------------------------

  /** The one round of a leg in which two different seats meet. */
  function MeetingRound(n: int, s: int, t: int): int
    requires n >= 2
  {
    (if s == n then 2 * (t - 1) else if t == n then 2 * (s - 1) else s + t - 2) % (n - 1) + 1
  }

  lemma MeetingRoundLinear(n: int, s: int, t: int)
    requires IsTable(n)
    requires 1 <= s <= n && 1 <= t <= n && s != t
    ensures var v := if s == n then 2 * (t - 1) else if t == n then 2 * (s - 1) else s + t - 2;
            MeetingRound(n, s, t) == 1 + if v < n - 1 then v else v - (n - 1)
    ensures 1 <= MeetingRound(n, s, t) <= n - 1
    ensures MeetingRound(n, s, t) == MeetingRound(n, t, s)
  {
    var m := n - 1;
    var v := if s == n then 2 * (t - 1) else if t == n then 2 * (s - 1) else s + t - 2;
    if v < m { RemOfMultiple(0, m, v); } else { RemOfMultiple(1, m, v - m); }
  }

  /** Doubling the leader gives back the round: this is where n/2 inverts 2. */
  lemma LeaderDoubled(n: int, round: int)
    requires IsTable(n) && 1 <= round <= n - 1
    ensures 2 * (Leader(n, round) - 1) == (round - 1) + if round % 2 == 1 then 0 else n - 1
    ensures 1 <= Leader(n, round) <= n - 1
  {
    LeaderLinear(n, round);
  }

  lemma OpponentIffMeetingRound(n: int, round: int, s: int, t: int)
    requires IsTable(n) && 1 <= round <= n - 1
    requires 1 <= s <= n && 1 <= t <= n && s != t
    ensures OpponentOf(n, round, s) == t <==> round == MeetingRound(n, s, t)
  {
    MeetingRoundLinear(n, s, t);
    LeaderDoubled(n, round);
    LeaderLinear(n, round);
  }

  ghost predicate Meet(n: int, round: int, s: int, t: int)
    requires IsTable(n) && round >= 1
  {
    SeatPair(s, t) in Round(n, round) || SeatPair(t, s) in Round(n, round)
  }

  lemma MeetIffOpponent(n: int, round: int, s: int, t: int)
    requires IsTable(n) && 1 <= round <= n - 1
    requires 1 <= s <= n && 1 <= t <= n && s != t
    ensures SeatPair(s, t) in Round(n, round) <==> OpponentOf(n, round, s) == t && ColourOf(n, round, s) == White
    ensures SeatPair(t, s) in Round(n, round) <==> OpponentOf(n, round, s) == t && ColourOf(n, round, s) == Black
  {
    var pairs := Round(n, round);
    var b := BoardOf(n, round, s);
    BoardOfSeat(n, round, s, 0);
    BoardOfSeat(n, round, s, b);
    assert pairs[b] in pairs;
    forall p | p in pairs && Seats(p, s) ensures p == pairs[b] {
      var k :| 0 <= k < |pairs| && pairs[k] == p;
      BoardOfSeat(n, round, s, k);
    }
  }

  /** Over one leg, any two different seats meet in exactly one round. */
  lemma PairsMeetExactlyOnce(n: int, s: int, t: int)
    requires IsTable(n)
    requires 1 <= s <= n && 1 <= t <= n && s != t
    ensures 1 <= MeetingRound(n, s, t) <= n - 1
    ensures forall round :: 1 <= round <= n - 1 ==> (Meet(n, round, s, t) <==> round == MeetingRound(n, s, t))
  {
    forall round | 1 <= round <= n - 1
      ensures Meet(n, round, s, t) <==> round == MeetingRound(n, s, t)
    {
      MeetIffOpponent(n, round, s, t);
      OpponentIffMeetingRound(n, round, s, t);
    }
  }

  // ---------------------------------------------------------------------------------------
  //  Two legs
  // ---------------------------------------------------------------------------------------

  function Swap(pair: SeatPair): SeatPair { SeatPair(pair.blackSeat, pair.whiteSeat) }

  function SwapAll(pairs: seq<SeatPair>): seq<SeatPair> {
    seq(|pairs|, k requires 0 <= k < |pairs| => Swap(pairs[k]))
  }

  function LegRound(n: int, round: int): (r: int)
    requires n >= 2 && round >= 1
    ensures r >= 1
  {
    (round - 1) % (n - 1) + 1
  }

  /** Round `round` of the whole schedule: the second leg replays the first with colours reversed. */
  function ScheduledRound(n: int, round: int): seq<SeatPair>
    requires IsTable(n) && round >= 1
  {
    if round > n - 1 then SwapAll(Round(n, LegRound(n, round))) else Round(n, LegRound(n, round))
  }

  function SecondLegRound(n: int, round: int): int { round - (n - 1) }

  lemma LegRoundLinear(n: int, round: int)
    requires IsTable(n) && 1 <= round <= 2 * (n - 1)
    ensures ScheduledRound(n, round) ==
            if round > n - 1 then SwapAll(Round(n, SecondLegRound(n, round))) else Round(n, round)
  {
    if round > n - 1 { RemOfMultiple(1, n - 1, round - n); } else { RemOfMultiple(0, n - 1, round - 1); }
  }

  lemma SwapMembership(pairs: seq<SeatPair>, p: SeatPair)
    ensures p in SwapAll(pairs) <==> Swap(p) in pairs
  {
    var swapped := SwapAll(pairs);
    if p in swapped {
      var k :| 0 <= k < |swapped| && swapped[k] == p;
      assert pairs[k] == Swap(p);
    }
    if Swap(p) in pairs {
      var k :| 0 <= k < |pairs| && pairs[k] == Swap(p);
      assert swapped[k] == p;
    }
  }

  /** The round of a double schedule in which `s` has White against `t`. */
  function WhiteRound(n: int, s: int, t: int): int
    requires IsTable(n) && 1 <= MeetingRound(n, s, t)
  {
    var r := MeetingRound(n, s, t);
    if ColourOf(n, r, s) == White then r else r + (n - 1)
  }

  /**
   Over two legs each ordered pair of different seats has exactly one game: every two seats meet
   twice, once with each colour, and the two games are in different legs.
   */
  lemma DoubleRoundRobin(n: int, s: int, t: int)
    requires IsTable(n)
    requires 1 <= s <= n && 1 <= t <= n && s != t
    ensures 1 <= MeetingRound(n, s, t) <= n - 1 && 1 <= MeetingRound(n, t, s) <= n - 1
    ensures 1 <= WhiteRound(n, s, t) <= 2 * (n - 1)
    ensures forall round :: 1 <= round <= 2 * (n - 1) ==>
              (SeatPair(s, t) in ScheduledRound(n, round) <==> round == WhiteRound(n, s, t))
    ensures WhiteRound(n, t, s) == if WhiteRound(n, s, t) <= n - 1 then WhiteRound(n, s, t) + (n - 1)
                                                                   else WhiteRound(n, s, t) - (n - 1)
  {
    var r := MeetingRound(n, s, t);
    PairsMeetExactlyOnce(n, s, t);
    PairsMeetExactlyOnce(n, t, s);
    OpponentIffMeetingRound(n, r, s, t);
    MeetIffOpponent(n, r, s, t);
    MeetIffOpponent(n, r, t, s);
    forall round | 1 <= round <= 2 * (n - 1)
      ensures SeatPair(s, t) in ScheduledRound(n, round) <==> round == WhiteRound(n, s, t)
    {
      LegRoundLinear(n, round);
      if round > n - 1 {
        var first := SecondLegRound(n, round);
        SwapMembership(Round(n, first), SeatPair(s, t));
        MeetIffOpponent(n, first, s, t);
        OpponentIffMeetingRound(n, first, s, t);
      } else {
        MeetIffOpponent(n, round, s, t);
        OpponentIffMeetingRound(n, round, s, t);
      }
    }
  }
}
