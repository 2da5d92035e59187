/**
 The round-robin engine: players take the seats of a Berger table in pairing-number order, and
 each round turns the boards of the table into pairings and byes.
 */
module RoundRobin {
  import opened Wrappers
  import opened Sorting
  import opened Berger

  datatype Player = Player(playerId: string, pairingNumber: int, isWithdrawn: bool, joinedAtRound: int)

  datatype Pairing = Pairing(boardNumber: int, whitePlayerId: string, blackPlayerId: string)

  datatype Bye = Bye(playerId: string, points: int)

  datatype PairingResult = PairingResult(pairings: seq<Pairing>, byes: seq<Bye>)

  datatype PairingError =
    | DuplicateNumber(pairingNumber: int)
    | TooFewPlayers(count: nat)
    | RoundOutsideSchedule(roundNumber: int, scheduleLength: int)
    | TooFewActive(count: nat)

  /** One leg is a round robin, two legs a double round robin. */
  type Legs = x: int | x == 1 || x == 2 witness 1

  const PAIRING_ALLOCATED_BYE_POINTS := 1

  function PairingAllocatedBye(p: Player): Bye { Bye(p.playerId, PAIRING_ALLOCATED_BYE_POINTS) }

  predicate IsActive(p: Player, roundNumber: int) { !p.isWithdrawn && p.joinedAtRound <= roundNumber }

  function CountActive(seats: seq<Player>, roundNumber: int): nat {
    if seats == [] then 0
    else (if IsActive(seats[0], roundNumber) then 1 else 0) + CountActive(seats[1..], roundNumber)
  }

  // ---------------------------------------------------------------------------------------
  //  Seating
  // ---------------------------------------------------------------------------------------

  function ByNumber(): (Player, Player) -> bool {
    (a: Player, b: Player) => a.pairingNumber <= b.pairingNumber
  }

  /** The first pairing number that two neighbours share. */
  function FirstDuplicate(sorted: seq<Player>): Option<int> {
    if |sorted| < 2 then None
    else if sorted[0].pairingNumber == sorted[1].pairingNumber then Some(sorted[0].pairingNumber)
    else FirstDuplicate(sorted[1..])
  }

  function Seating(players: seq<Player>): (r: Result<seq<Player>, PairingError>)
  {
    var sorted := Sort(ByNumber(), players);
    match FirstDuplicate(sorted)
    case Some(number) => Err(DuplicateNumber(number))
    case None => Ok(sorted)
  }

  method SeatingOrder(players: seq<Player>) returns (r: Result<seq<Player>, PairingError>)
    ensures r == Seating(players)
  {
    var sorted := Sort(ByNumber(), players);
    var index := 0;
    while index < |sorted|
      invariant 0 <= index <= |sorted|
      invariant FirstDuplicate(sorted) == FirstDuplicate(sorted[index..])
    {
      if index + 1 < |sorted| && sorted[index + 1].pairingNumber == sorted[index].pairingNumber {
        return Err(DuplicateNumber(sorted[index].pairingNumber));
      }
      assert sorted[index..][1..] == sorted[index + 1..];
      index := index + 1;
    }
    return Ok(sorted);
  }

  /** Nobody sits on the phantom seat of an odd field. */
  function PlayerAtSeat(seats: seq<Player>, seat: int): Option<Player> {
    if 1 <= seat <= |seats| then Some(seats[seat - 1]) else None
  }

  function TableSize(count: nat): int { if count % 2 == 0 then count else count + 1 }

  function ScheduleLength(legs: Legs, tableSize: int): int {
    if legs == 1 then tableSize - 1 else (tableSize - 1) + (tableSize - 1)
  }

  lemma LegsTimesRounds(legs: Legs, tableSize: int)
    ensures legs * (tableSize - 1) == ScheduleLength(legs, tableSize)
  {
  }

  // ---------------------------------------------------------------------------------------
  //  One round
  // ---------------------------------------------------------------------------------------

  predicate SeatActive(seats: seq<Player>, seat: int, roundNumber: int) {
    var p := PlayerAtSeat(seats, seat);
    p.Some? && IsActive(p.value, roundNumber)
  }

  function Pairings(seats: seq<Player>, boards: seq<SeatPair>, roundNumber: int): (r: seq<Pairing>) {
    if boards == [] then []
    else
      var before := Pairings(seats, boards[..|boards| - 1], roundNumber);
      var b := boards[|boards| - 1];
      if SeatActive(seats, b.whiteSeat, roundNumber) && SeatActive(seats, b.blackSeat, roundNumber)
      then before + [Pairing(|before| + 1, seats[b.whiteSeat - 1].playerId, seats[b.blackSeat - 1].playerId)]
      else before
  }

  function Byes(seats: seq<Player>, boards: seq<SeatPair>, roundNumber: int): (r: seq<Bye>) {
    if boards == [] then []
    else
      var before := Byes(seats, boards[..|boards| - 1], roundNumber);
      var b := boards[|boards| - 1];
      var white, black := SeatActive(seats, b.whiteSeat, roundNumber), SeatActive(seats, b.blackSeat, roundNumber);
      if white && !black then before + [PairingAllocatedBye(seats[b.whiteSeat - 1])]
      else if black && !white then before + [PairingAllocatedBye(seats[b.blackSeat - 1])]
      else before
  }

  function RoundOf(legs: Legs, seats: seq<Player>, roundNumber: int): (r: Result<PairingResult, PairingError>)
  {
    var n := TableSize(|seats|);
    if |seats| < 2 then Err(TooFewPlayers(|seats|))
    else if roundNumber < 1 || roundNumber > ScheduleLength(legs, n) then
      Err(RoundOutsideSchedule(roundNumber, ScheduleLength(legs, n)))
    else if CountActive(seats, roundNumber) < 2 then Err(TooFewActive(CountActive(seats, roundNumber)))
    else
      var boards := ScheduledRound(n, roundNumber);
      Ok(PairingResult(Pairings(seats, boards, roundNumber), Byes(seats, boards, roundNumber)))
  }

  function Computed(legs: Legs, players: seq<Player>, roundNumber: int): (r: Result<PairingResult, PairingError>)
  {
    match Seating(players)
    case Err(error) => Err(error)
    case Ok(seats) => RoundOf(legs, seats, roundNumber)
  }

  method CountActiveSeats(seats: seq<Player>, roundNumber: int) returns (count: nat)
    ensures count == CountActive(seats, roundNumber)
  {
    count := 0;
    for i := 0 to |seats|
      invariant count + CountActive(seats[i..], roundNumber) == CountActive(seats, roundNumber)
    {
      assert seats[i..][1..] == seats[i + 1..];
      if IsActive(seats[i], roundNumber) { count := count + 1; }
    }
  }

  /** What one board, its colours settled, adds to a round. */
  function WithPairing(pairings: seq<Pairing>, seats: seq<Player>, b: SeatPair, roundNumber: int): seq<Pairing> {
    if SeatActive(seats, b.whiteSeat, roundNumber) && SeatActive(seats, b.blackSeat, roundNumber)
    then pairings + [Pairing(|pairings| + 1, seats[b.whiteSeat - 1].playerId, seats[b.blackSeat - 1].playerId)]
    else pairings
  }

  function WithBye(byes: seq<Bye>, seats: seq<Player>, b: SeatPair, roundNumber: int): seq<Bye> {
    var white, black := SeatActive(seats, b.whiteSeat, roundNumber), SeatActive(seats, b.blackSeat, roundNumber);
    if white && !black then byes + [PairingAllocatedBye(seats[b.whiteSeat - 1])]
    else if black && !white then byes + [PairingAllocatedBye(seats[b.blackSeat - 1])]
    else byes
  }

  lemma PairingsStep(seats: seq<Player>, front: seq<SeatPair>, b: SeatPair, roundNumber: int)
    ensures Pairings(seats, front + [b], roundNumber) ==
            WithPairing(Pairings(seats, front, roundNumber), seats, b, roundNumber)
  {
    assert (front + [b])[..|front|] == front;
  }

  lemma ByesStep(seats: seq<Player>, front: seq<SeatPair>, b: SeatPair, roundNumber: int)
    ensures Byes(seats, front + [b], roundNumber) == WithBye(Byes(seats, front, roundNumber), seats, b, roundNumber)
  {
    assert (front + [b])[..|front|] == front;
  }

  method FillBoard(
    seats: seq<Player>, b: SeatPair, roundNumber: int, pairings: seq<Pairing>, byes: seq<Bye>, boardNumber: int)
    returns (pairings': seq<Pairing>, byes': seq<Bye>, boardNumber': int)
    requires boardNumber == |pairings| + 1
    ensures pairings' == WithPairing(pairings, seats, b, roundNumber)
    ensures byes' == WithBye(byes, seats, b, roundNumber)
    ensures boardNumber' == |pairings'| + 1
  {
    pairings', byes', boardNumber' := pairings, byes, boardNumber;
    var white, black := PlayerAtSeat(seats, b.whiteSeat), PlayerAtSeat(seats, b.blackSeat);
    var whiteActive := white.Some? && IsActive(white.value, roundNumber);
    var blackActive := black.Some? && IsActive(black.value, roundNumber);
    if whiteActive && blackActive {
      pairings' := pairings + [Pairing(boardNumber, white.value.playerId, black.value.playerId)];
      boardNumber' := boardNumber + 1;
    } else if whiteActive {
      byes' := byes + [PairingAllocatedBye(white.value)];
    } else if blackActive {
      byes' := byes + [PairingAllocatedBye(black.value)];
    }
  }

  /** The loop over the boards of one round, numbering only the boards that are played. */
  method FillBoards(seats: seq<Player>, table: seq<SeatPair>, isSecondLeg: bool, roundNumber: int)
    returns (pairings: seq<Pairing>, byes: seq<Bye>)
    ensures var boards := if isSecondLeg then SwapAll(table) else table;
            pairings == Pairings(seats, boards, roundNumber) && byes == Byes(seats, boards, roundNumber)
  {
    ghost var boards := if isSecondLeg then SwapAll(table) else table;
    pairings, byes := [], [];
    var boardNumber := 1;
    for k := 0 to |table|
      invariant |boards| == |table|
      invariant pairings == Pairings(seats, boards[..k], roundNumber)
      invariant byes == Byes(seats, boards[..k], roundNumber)
      invariant boardNumber == |pairings| + 1
    {
      var b := if isSecondLeg then Swap(table[k]) else table[k];
      assert boards[..k + 1] == boards[..k] + [b];
      PairingsStep(seats, boards[..k], b, roundNumber);
      ByesStep(seats, boards[..k], b, roundNumber);
      pairings, byes, boardNumber := FillBoard(seats, b, roundNumber, pairings, byes, boardNumber);
    }
    assert boards[..|table|] == boards;
  }

  method PlayRound(tableSize: int, seats: seq<Player>, roundNumber: int) returns (r: PairingResult)
    requires IsTable(tableSize) && roundNumber >= 1
    ensures var boards := ScheduledRound(tableSize, roundNumber);
            r == PairingResult(Pairings(seats, boards, roundNumber), Byes(seats, boards, roundNumber))
  {
    var roundsPerLeg := tableSize - 1;
    var legRound := LegRound(tableSize, roundNumber);
    var table := BergerRound(tableSize, legRound);
    var pairings, byes := FillBoards(seats, table, roundNumber > roundsPerLeg, roundNumber);
    return PairingResult(pairings, byes);
  }

  /** The engine's round: every error in the order the source raises it, then the loop over the boards. */
  method Compute(legs: Legs, players: seq<Player>, roundNumber: int) returns (r: Result<PairingResult, PairingError>)
    ensures r == Computed(legs, players, roundNumber)
  {
    var seating := SeatingOrder(players);
    if seating.Err? { return Err(seating.error); }
    r := ComputeSeated(legs, seating.value, roundNumber);
  }

  method ComputeSeated(legs: Legs, seats: seq<Player>, roundNumber: int)
    returns (r: Result<PairingResult, PairingError>)
    ensures r == RoundOf(legs, seats, roundNumber)
  {
    var n := |seats|;
    if n < 2 { return Err(TooFewPlayers(n)); }

    var tableSize := if n % 2 == 0 then n else n + 1;
    LegsTimesRounds(legs, tableSize);
    var scheduleLength := legs * (tableSize - 1);
    if roundNumber < 1 || roundNumber > scheduleLength {
      return Err(RoundOutsideSchedule(roundNumber, scheduleLength));
    }
    var activeCount := CountActiveSeats(seats, roundNumber);
    if activeCount < 2 { return Err(TooFewActive(activeCount)); }
    var result := PlayRound(tableSize, seats, roundNumber);
    return Ok(result);
  }

  // ---------------------------------------------------------------------------------------
  //  Everybody is placed exactly once
  // ---------------------------------------------------------------------------------------

  function InPairings(pairings: seq<Pairing>, id: string): nat {
    if pairings == [] then 0
    else
      var p := pairings[|pairings| - 1];
      InPairings(pairings[..|pairings| - 1], id)
      + (if p.whitePlayerId == id then 1 else 0) + if p.blackPlayerId == id then 1 else 0
  }

  function InByes(byes: seq<Bye>, id: string): nat {
    if byes == [] then 0
    else InByes(byes[..|byes| - 1], id) + if byes[|byes| - 1].playerId == id then 1 else 0
  }

  /** How many places of a round carry an id. */
  function Places(r: PairingResult, id: string): nat { InPairings(r.pairings, id) + InByes(r.byes, id) }

  ghost predicate DistinctIds(players: seq<Player>) {
    forall i, j :: 0 <= i < j < |players| ==> players[i].playerId != players[j].playerId
  }

  /** How many of the boards seat a given seat. */
  function BoardsOfSeat(boards: seq<SeatPair>, seat: int): nat {
    if boards == [] then 0
    else BoardsOfSeat(boards[..|boards| - 1], seat) + if Seats(boards[|boards| - 1], seat) then 1 else 0
  }

  lemma {:induction false} OneBoardOfSeat(boards: seq<SeatPair>, seat: int, only: int)
    requires forall k :: 0 <= k < |boards| ==> (Seats(boards[k], seat) <==> k == only)
    ensures BoardsOfSeat(boards, seat) == if 0 <= only < |boards| then 1 else 0
  {
    if boards != [] {
      OneBoardOfSeat(boards[..|boards| - 1], seat, only);
    }
  }

  lemma PairingsSnoc(pairings: seq<Pairing>, p: Pairing, id: string)
    ensures InPairings(pairings + [p], id) ==
            InPairings(pairings, id) + (if p.whitePlayerId == id then 1 else 0) + if p.blackPlayerId == id then 1 else 0
  {
    assert (pairings + [p])[..|pairings|] == pairings;
  }

  lemma ByesSnoc(byes: seq<Bye>, b: Bye, id: string)
    ensures InByes(byes + [b], id) == InByes(byes, id) + if b.playerId == id then 1 else 0
  {
    assert (byes + [b])[..|byes|] == byes;
  }

  lemma IdNamesSeat(seats: seq<Player>, seat: int, other: int)
    requires DistinctIds(seats) && 1 <= seat <= |seats| && 1 <= other <= |seats|
    ensures seats[other - 1].playerId == seats[seat - 1].playerId <==> other == seat
  {
    if other < seat {
      assert seats[other - 1].playerId != seats[seat - 1].playerId;
    } else if seat < other {
      assert seats[seat - 1].playerId != seats[other - 1].playerId;
    }
  }

  lemma CountWithPairing(seats: seq<Player>, before: seq<Pairing>, b: SeatPair, roundNumber: int, seat: int)
    requires DistinctIds(seats) && 1 <= seat <= |seats| && b.whiteSeat != b.blackSeat
    ensures var id := seats[seat - 1].playerId;
            InPairings(WithPairing(before, seats, b, roundNumber), id) == InPairings(before, id)
            + if Seats(b, seat) && SeatActive(seats, b.whiteSeat, roundNumber) && SeatActive(seats, b.blackSeat,
                roundNumber) then 1 else 0
  {
    if SeatActive(seats, b.whiteSeat, roundNumber) && SeatActive(seats, b.blackSeat, roundNumber) {
      IdNamesSeat(seats, seat, b.whiteSeat);
      IdNamesSeat(seats, seat, b.blackSeat);
      PairingsSnoc(before, Pairing(|before| + 1, seats[b.whiteSeat - 1].playerId, seats[b.blackSeat - 1].playerId),
          seats[seat - 1].playerId);
    }
  }

  lemma OneMorePairing(seats: seq<Player>, front: seq<SeatPair>, b: SeatPair, roundNumber: int, seat: int)
    requires DistinctIds(seats) && 1 <= seat <= |seats| && b.whiteSeat != b.blackSeat
    ensures var id := seats[seat - 1].playerId;
            InPairings(Pairings(seats, front + [b], roundNumber), id) ==
                InPairings(Pairings(seats, front, roundNumber), id)
            + if Seats(b, seat) && SeatActive(seats, b.whiteSeat, roundNumber) && SeatActive(seats, b.blackSeat,
                roundNumber) then 1 else 0
  {
    PairingsStep(seats, front, b, roundNumber);
    CountWithPairing(seats, Pairings(seats, front, roundNumber), b, roundNumber, seat);
  }

  lemma CountByeOf(seats: seq<Player>, before: seq<Bye>, byeSeat: int, seat: int)
    requires DistinctIds(seats) && 1 <= seat <= |seats| && 1 <= byeSeat <= |seats|
    ensures var id := seats[seat - 1].playerId;
            InByes(before + [PairingAllocatedBye(seats[byeSeat - 1])], id) == InByes(before, id)
                + if byeSeat == seat then 1 else 0
  {
    IdNamesSeat(seats, seat, byeSeat);
    ByesSnoc(before, PairingAllocatedBye(seats[byeSeat - 1]), seats[seat - 1].playerId);
  }

  lemma CountWithBye(seats: seq<Player>, before: seq<Bye>, b: SeatPair, roundNumber: int, seat: int)
    requires DistinctIds(seats) && 1 <= seat <= |seats| && b.whiteSeat != b.blackSeat
    ensures var id := seats[seat - 1].playerId;
            var white, black := SeatActive(seats, b.whiteSeat, roundNumber),
                SeatActive(seats, b.blackSeat, roundNumber);
            InByes(WithBye(before, seats, b, roundNumber), id) == InByes(before, id)
            + if (b.whiteSeat == seat && white && !black) || (b.blackSeat == seat && black && !white) then 1 else 0
  {
    var white, black := SeatActive(seats, b.whiteSeat, roundNumber), SeatActive(seats, b.blackSeat, roundNumber);
    if white && !black {
      CountByeOf(seats, before, b.whiteSeat, seat);
    } else if black && !white {
      CountByeOf(seats, before, b.blackSeat, seat);
    }
  }

  lemma OneMoreBye(seats: seq<Player>, front: seq<SeatPair>, b: SeatPair, roundNumber: int, seat: int)
    requires DistinctIds(seats) && 1 <= seat <= |seats| && b.whiteSeat != b.blackSeat
    ensures var id := seats[seat - 1].playerId;
            var white, black := SeatActive(seats, b.whiteSeat, roundNumber),
                SeatActive(seats, b.blackSeat, roundNumber);
            InByes(Byes(seats, front + [b], roundNumber), id) == InByes(Byes(seats, front, roundNumber), id)
            + if (b.whiteSeat == seat && white && !black) || (b.blackSeat == seat && black && !white) then 1 else 0
  {
    ByesStep(seats, front, b, roundNumber);
    CountWithBye(seats, Byes(seats, front, roundNumber), b, roundNumber, seat);
  }

  lemma OneMorePlace(seats: seq<Player>, front: seq<SeatPair>, b: SeatPair, roundNumber: int, seat: int)
    requires DistinctIds(seats) && 1 <= seat <= |seats| && b.whiteSeat != b.blackSeat
    ensures var id := seats[seat - 1].playerId;
            InPairings(Pairings(seats, front + [b], roundNumber), id)
                + InByes(Byes(seats, front + [b], roundNumber), id) ==
            InPairings(Pairings(seats, front, roundNumber), id) + InByes(Byes(seats, front, roundNumber), id)
            + if Seats(b, seat) && IsActive(seats[seat - 1], roundNumber) then 1 else 0
  {
    OneMorePairing(seats, front, b, roundNumber, seat);
    OneMoreBye(seats, front, b, roundNumber, seat);
  }

  /** The places of an active player are the boards that seat it; an inactive one has none. */
  lemma {:induction false} PlacesAreBoards(seats: seq<Player>, boards: seq<SeatPair>, roundNumber: int, seat: int)
    requires DistinctIds(seats) && 1 <= seat <= |seats|
    requires forall k :: 0 <= k < |boards| ==> boards[k].whiteSeat != boards[k].blackSeat
    ensures Places(PairingResult(Pairings(seats, boards, roundNumber), Byes(seats, boards, roundNumber)),
            seats[seat - 1].playerId) ==
            if IsActive(seats[seat - 1], roundNumber) then BoardsOfSeat(boards, seat) else 0
  {
    if boards != [] {
      var front, b := boards[..|boards| - 1], boards[|boards| - 1];
      assert boards == front + [b];
      PlacesAreBoards(seats, front, roundNumber, seat);
      OneMorePlace(seats, front, b, roundNumber, seat);
    }
  }

  lemma TableFits(legs: Legs, count: nat)
    requires count >= 2
    ensures IsTable(TableSize(count)) && ScheduleLength(legs, TableSize(count)) <= 2 * (TableSize(count) - 1)
  {
  }

  lemma OkMeans(legs: Legs, players: seq<Player>, roundNumber: int)
    requires Computed(legs, players, roundNumber).Ok?
    ensures Seating(players).Ok?
    ensures var seats := Seating(players).value;
            var n := TableSize(|players|);
            && |seats| == |players| >= 2 && IsTable(n) && 1 <= roundNumber <= 2 * (n - 1)
            && Computed(legs, players, roundNumber).value ==
               PairingResult(Pairings(seats, ScheduledRound(n, roundNumber), roundNumber),
                             Byes(seats, ScheduledRound(n, roundNumber), roundNumber))
  {
    TableFits(legs, |players|);
  }

  lemma ScheduledBoardOfSeat(n: int, round: int, seat: int)
    requires IsTable(n) && 1 <= round <= 2 * (n - 1) && 1 <= seat <= n
    ensures BoardsOfSeat(ScheduledRound(n, round), seat) == 1
    ensures forall k :: 0 <= k < |ScheduledRound(n, round)| ==>
              ScheduledRound(n, round)[k].whiteSeat != ScheduledRound(n, round)[k].blackSeat
  {
    LegRoundLinear(n, round);
    var legRound := if round > n - 1 then SecondLegRound(n, round) else round;
    var only := BoardOf(n, legRound, seat);
    BoardOfSeat(n, legRound, seat, 0);
    forall k | 0 <= k < n / 2
      ensures Seats(ScheduledRound(n, round)[k], seat) <==> k == only
      ensures ScheduledRound(n, round)[k].whiteSeat != ScheduledRound(n, round)[k].blackSeat
    {
      BoardOfSeat(n, legRound, seat, k);
      BoardHasTwoSeats(n, legRound, k);
    }
    OneBoardOfSeat(ScheduledRound(n, round), seat, only);
  }

  lemma SeatOfPlayer(players: seq<Player>, p: Player) returns (seat: int)
    requires Seating(players).Ok? && p in players
    ensures 1 <= seat <= |Seating(players).value| && Seating(players).value[seat - 1] == p
  {
    var seats := Seating(players).value;
    SameElements(seats, players);
    var i :| 0 <= i < |seats| && seats[i] == p;
    seat := i + 1;
  }

  lemma DistinctAfterSort(players: seq<Player>)
    requires Seating(players).Ok? && DistinctIds(players)
    ensures DistinctIds(Seating(players).value)
  {
    var seats := Seating(players).value;
    forall i, j | 0 <= i < j < |seats| ensures seats[i].playerId != seats[j].playerId {
      if seats[i].playerId == seats[j].playerId {
        SameElements(seats, players);
        assert seats[i] in players && seats[j] in players;
        assert seats[i] == seats[j];
        TwiceIn(seats, i, j);
        OnceEach(players);
      }
    }
  }

  /**
   For any mix of withdrawn and late players: an active player stands in exactly one pairing or
   bye of the round, an inactive one in none.
   */
  lemma EveryActivePlayerPlacedOnce(legs: Legs, players: seq<Player>, roundNumber: int, p: Player)
    requires DistinctIds(players) && p in players
    requires Computed(legs, players, roundNumber).Ok?
    ensures Places(Computed(legs, players, roundNumber).value, p.playerId) == if IsActive(p, roundNumber) then 1 else 0
  {
    OkMeans(legs, players, roundNumber);
    var seats := Seating(players).value;
    var boards := ScheduledRound(TableSize(|players|), roundNumber);
    DistinctAfterSort(players);
    var seat := SeatOfPlayer(players, p);
    ScheduledBoardOfSeat(TableSize(|players|), roundNumber, seat);
    PlacesAreBoards(seats, boards, roundNumber, seat);
  }

  ghost predicate Numbered(ps: seq<Pairing>) {
    forall k :: 0 <= k < |ps| ==> ps[k].boardNumber == k + 1
  }

  lemma NumberedSnoc(ps: seq<Pairing>, last: Pairing)
    requires Numbered(ps) && last.boardNumber == |ps| + 1
    ensures Numbered(ps + [last])
  {
  }

  /** The boards that are played are numbered 1, 2, ... without gaps. */
  lemma {:induction false} BoardsNumbered(seats: seq<Player>, boards: seq<SeatPair>, roundNumber: int)
    ensures Numbered(Pairings(seats, boards, roundNumber))
  {
    if boards != [] {
      var before := Pairings(seats, boards[..|boards| - 1], roundNumber);
      var b := boards[|boards| - 1];
      BoardsNumbered(seats, boards[..|boards| - 1], roundNumber);
      if SeatActive(seats, b.whiteSeat, roundNumber) && SeatActive(seats, b.blackSeat, roundNumber) {
        NumberedSnoc(before, Pairing(|before| + 1, seats[b.whiteSeat - 1].playerId, seats[b.blackSeat - 1].playerId));
      }
    }
  }

  // ---------------------------------------------------------------------------------------
  //  The engine plays the Berger schedule
  // ---------------------------------------------------------------------------------------

  ghost predicate Plays(pairings: seq<Pairing>, white: string, black: string) {
    exists k :: 0 <= k < |pairings| && pairings[k].whitePlayerId == white && pairings[k].blackPlayerId == black
  }

  lemma {:induction false} PlaysIffScheduled(
    seats: seq<Player>, boards: seq<SeatPair>, roundNumber: int, s: int, t: int)
    requires DistinctIds(seats) && 1 <= s <= |seats| && 1 <= t <= |seats|
    ensures Plays(Pairings(seats, boards, roundNumber), seats[s - 1].playerId, seats[t - 1].playerId) <==>
            SeatPair(s, t) in boards && SeatActive(seats, s, roundNumber) && SeatActive(seats, t, roundNumber)
  {
    if boards != [] {
      var front, b := boards[..|boards| - 1], boards[|boards| - 1];
      PlaysIffScheduled(seats, front, roundNumber, s, t);
      assert boards == front + [b];
      var before, after := Pairings(seats, front, roundNumber), Pairings(seats, boards, roundNumber);
      var white, black := seats[s - 1].playerId, seats[t - 1].playerId;
      if Plays(before, white, black) {
        var k :| 0 <= k < |before| && before[k].whitePlayerId == white && before[k].blackPlayerId == black;
        assert after[k] == before[k];
      }
      if b == SeatPair(s, t) && SeatActive(seats, s, roundNumber) && SeatActive(seats, t, roundNumber) {
        assert after[|before|].whitePlayerId == white;
      }
    }
  }

  /**
   The whole tournament, seen from two seats, and so from any two players: White against Black
   is played in the one round that the schedule names for them, if both are active then, and in
   no other round.
   */
  lemma PlayersMeetAsScheduled(
    legs: Legs, players: seq<Player>, seats: seq<Player>, n: int, roundNumber: int, s: int, t: int)
    requires Seating(players) == Ok(seats) && RoundOf(legs, seats, roundNumber).Ok?
    requires DistinctIds(players) && n == TableSize(|players|) && IsTable(n)
    requires 1 <= s <= |seats| == |players| && 1 <= t <= |players| && s != t
    ensures 1 <= MeetingRound(n, s, t) <= n - 1
    ensures Computed(legs, players, roundNumber) == RoundOf(legs, seats, roundNumber)
    ensures Plays(RoundOf(legs, seats, roundNumber).value.pairings, seats[s - 1].playerId, seats[t - 1].playerId) <==>
            roundNumber == WhiteRound(n, s, t) && IsActive(seats[s - 1], roundNumber)
                && IsActive(seats[t - 1], roundNumber)
  {
    OkMeans(legs, players, roundNumber);
    DistinctAfterSort(players);
    DoubleRoundRobin(n, s, t);
    PlaysIffScheduled(seats, ScheduledRound(n, roundNumber), roundNumber, s, t);
  }

  // ---------------------------------------------------------------------------------------
  //  The order of the request does not matter
  // ---------------------------------------------------------------------------------------

  function Numbers(players: seq<Player>): seq<int> {
    seq(|players|, i requires 0 <= i < |players| => players[i].pairingNumber)
  }

  lemma NumbersConcat(a: seq<Player>, b: seq<Player>)
    ensures Numbers(a + b) == Numbers(a) + Numbers(b)
  {
  }

  lemma {:induction false} NumbersMultiset(a: seq<Player>, b: seq<Player>)
    requires multiset(a) == multiset(b)
    ensures multiset(Numbers(a)) == multiset(Numbers(b))
  {
    SameElements(a, b);
    if a == [] {
      assert Numbers(a) == Numbers(b);
    } else {
      var x := a[0];
      assert x in b;
      var i :| 0 <= i < |b| && b[i] == x;
      var front, back := b[..i], b[i + 1..];
      assert a == [x] + a[1..];
      assert b == front + ([x] + back);
      CancelElement(x, multiset(a[1..]), multiset(front + back));
      NumbersMultiset(a[1..], front + back);
      NumbersConcat([x], a[1..]);
      NumbersConcat(front, back);
      NumbersConcat([x], back);
      NumbersConcat(front, [x] + back);
    }
  }

  lemma {:induction false} FirstDuplicateOfNumbers(a: seq<Player>, b: seq<Player>)
    requires Numbers(a) == Numbers(b)
    ensures FirstDuplicate(a) == FirstDuplicate(b)
  {
    assert |a| == |Numbers(a)| == |Numbers(b)| == |b|;
    if |a| >= 2 {
      assert Numbers(a)[0] == Numbers(b)[0] && Numbers(a)[1] == Numbers(b)[1];
      assert Numbers(a[1..]) == Numbers(a)[1..] && Numbers(b[1..]) == Numbers(b)[1..];
      FirstDuplicateOfNumbers(a[1..], b[1..]);
    }
  }

  lemma {:induction false} NoDuplicateMeansDistinct(sorted: seq<Player>, i: int, j: int)
    requires Sorted(ByNumber(), sorted) && FirstDuplicate(sorted) == None && 0 <= i < j < |sorted|
    ensures sorted[i].pairingNumber < sorted[j].pairingNumber
  {
    if i == 0 {
      assert ByNumber()(sorted[0], sorted[1]);
      if j > 1 { assert ByNumber()(sorted[1], sorted[j]); }
    } else {
      NoDuplicateMeansDistinct(sorted[1..], i - 1, j - 1);
    }
  }

  lemma SeatingForgetsOrder(a: seq<Player>, b: seq<Player>)
    requires multiset(a) == multiset(b)
    ensures Seating(a) == Seating(b)
  {
    var sa, sb := Sort(ByNumber(), a), Sort(ByNumber(), b);
    SortSorted(ByNumber(), a);
    SortSorted(ByNumber(), b);
    SameNumbers(sa, sb);
    FirstDuplicateOfNumbers(sa, sb);
    if FirstDuplicate(sa) == None {
      DistinctNumbers(sa);
      SortedUnique(ByNumber(), sa, sb);
    }
  }

  lemma SameNumbers(sa: seq<Player>, sb: seq<Player>)
    requires multiset(sa) == multiset(sb) && Sorted(ByNumber(), sa) && Sorted(ByNumber(), sb)
    ensures Numbers(sa) == Numbers(sb)
  {
    NumbersMultiset(sa, sb);
    var le := (x: int, y: int) => x <= y;
    forall i, j | 0 <= i < j < |sa| ensures le(Numbers(sa)[i], Numbers(sa)[j]) { assert ByNumber()(sa[i], sa[j]); }
    forall i, j | 0 <= i < j < |sb| ensures le(Numbers(sb)[i], Numbers(sb)[j]) { assert ByNumber()(sb[i], sb[j]); }
    SortedUnique(le, Numbers(sa), Numbers(sb));
  }

  lemma DistinctNumbers(sorted: seq<Player>)
    requires Sorted(ByNumber(), sorted) && FirstDuplicate(sorted) == None
    ensures AntisymmetricOn(ByNumber(), sorted)
  {
    forall x, y | x in sorted && y in sorted && ByNumber()(x, y) && ByNumber()(y, x) ensures x == y {
      var i :| 0 <= i < |sorted| && sorted[i] == x;
      var j :| 0 <= j < |sorted| && sorted[j] == y;
      if i < j { NoDuplicateMeansDistinct(sorted, i, j); } else if j < i { NoDuplicateMeansDistinct(sorted, j, i); }
    }
  }

  /** Permuting the players of the request changes nothing, not even which error is raised. */
  lemma RequestOrderIrrelevant(legs: Legs, a: seq<Player>, b: seq<Player>, roundNumber: int)
    requires multiset(a) == multiset(b)
    ensures Computed(legs, a, roundNumber) == Computed(legs, b, roundNumber)
  {
    SeatingForgetsOrder(a, b);
  }
}
