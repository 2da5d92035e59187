/**
 The chess clock: every transition takes the time from outside and returns a new state. Times are
 whole milliseconds; a timestamp may lie before the last event and then counts as no time at all.
 */
module ChessClock {
  import opened Wrappers
  import opened Chess

  datatype ClockType = SuddenDeath | FischerIncrement | BronsteinDelay | SimpleDelay | MultiStage

  datatype Config = Config(clockType: ClockType, baseMs: int, incrementMs: int)

  datatype ClockError = NotImplemented | InvalidBase(baseMs: int) | InvalidIncrement(incrementMs: int)

  datatype ClockState = ClockState(whiteRemainingMs: int, blackRemainingMs: int, turn: Side, lastEventAtMs: int)

  /** A move in time gives the next state; a flag gives the final one, with the mover at zero. */
  datatype MoveResult = MoveResult(flagged: bool, state: ClockState, elapsedMs: int)

  function Unsupported(c: Config): Option<ClockError> {
    if c.clockType == MultiStage then Some(NotImplemented)
    else if c.baseMs <= 0 then Some(InvalidBase(c.baseMs))
    else if c.incrementMs < 0 then Some(InvalidIncrement(c.incrementMs))
    else None
  }

  predicate Supported(c: Config) { Unsupported(c) == None }

  /** A clock runs exactly if it is not a multi-stage one, has time to begin with and takes none away. */
  lemma SupportedIff(c: Config)
    ensures Supported(c) <==> c.clockType != MultiStage && c.baseMs > 0 && c.incrementMs >= 0
    ensures Unsupported(c) == Some(NotImplemented) <==> c.clockType == MultiStage
    ensures Unsupported(c) == Some(InvalidBase(c.baseMs)) <==> c.clockType != MultiStage && c.baseMs <= 0
  {
  }

  function CreateClock(c: Config, turn: Side, nowMs: int): Result<ClockState, ClockError> {
    match Unsupported(c)
    case Some(error) => Err(error)
    case None => Ok(ClockState(c.baseMs, c.baseMs, turn, nowMs))
  }

  function Max0(x: int): int { if x < 0 then 0 else x }

  function Elapsed(s: ClockState, nowMs: int): int { Max0(nowMs - s.lastEventAtMs) }

  predicate IsDelay(c: Config) { c.clockType == BronsteinDelay || c.clockType == SimpleDelay }

  /** What the clock is charged for the elapsed time. */
  function Chargeable(c: Config, elapsed: int): int
    requires c.clockType != MultiStage
  {
    if IsDelay(c) then Max0(elapsed - c.incrementMs) else elapsed
  }

  function RemainingOf(s: ClockState, side: Side): int { if side == W then s.whiteRemainingMs else s.blackRemainingMs }

  function Remaining(c: Config, s: ClockState, side: Side, nowMs: int): Result<int, ClockError> {
    if side != s.turn then Ok(RemainingOf(s, side))
    else if c.clockType == MultiStage then Err(NotImplemented)
    else Ok(Max0(RemainingOf(s, side) - Chargeable(c, Elapsed(s, nowMs))))
  }

  function IsFlagged(c: Config, s: ClockState, nowMs: int): Result<bool, ClockError> {
    if c.clockType == MultiStage then Err(NotImplemented)
    else Ok(Chargeable(c, Elapsed(s, nowMs)) > RemainingOf(s, s.turn))
  }

  function WithRemaining(s: ClockState, side: Side, value: int, lastEventAtMs: int): ClockState {
    var white, black := if side == W then value else s.whiteRemainingMs, if side == B then value
        else s.blackRemainingMs;
    ClockState(white, black, s.turn, lastEventAtMs)
  }

  function Opposite(side: Side): Side { if side == W then B else W }

  function Increment(c: Config): int { if c.clockType == FischerIncrement then c.incrementMs else 0 }

  function ApplyMove(c: Config, s: ClockState, nowMs: int): Result<MoveResult, ClockError> {
    match Unsupported(c)
    case Some(error) => Err(error)
    case None =>
      var elapsed := Elapsed(s, nowMs);
      var charge := Chargeable(c, elapsed);
      var stored := RemainingOf(s, s.turn);
      if charge > stored then Ok(MoveResult(true, WithRemaining(s, s.turn, 0, s.lastEventAtMs), elapsed))
      else
        var next := WithRemaining(s, s.turn, stored - charge + Increment(c), nowMs);
        Ok(MoveResult(false, next.(turn := Opposite(s.turn)), elapsed))
  }

  // ---------------------------------------------------------------------------------------
  //  One move
  // ---------------------------------------------------------------------------------------

  /** A move is refused exactly when the mover's flag is down, and a fallen flag shows zero. */
  lemma FlagMeansZero(c: Config, s: ClockState, nowMs: int)
    requires Supported(c)
    ensures ApplyMove(c, s, nowMs).value.flagged <==> IsFlagged(c, s, nowMs).value
    ensures IsFlagged(c, s, nowMs).value ==> Remaining(c, s, s.turn, nowMs) == Ok(0)
  {
  }

  /** A fallen flag leaves the mover at zero; the other side's time and the turn stay. */
  lemma FlaggedClock(c: Config, s: ClockState, nowMs: int)
    requires Supported(c) && ApplyMove(c, s, nowMs).value.flagged
    ensures var s' := ApplyMove(c, s, nowMs).value.state;
            && RemainingOf(s', s.turn) == 0 && s'.turn == s.turn && s'.lastEventAtMs == s.lastEventAtMs
            && RemainingOf(s', Opposite(s.turn)) == RemainingOf(s, Opposite(s.turn))
  {
  }

  /** The mover is shown what a move now would leave, before the increment; the other side its stored time. */
  lemma ShownIsWhatAMoveLeaves(c: Config, s: ClockState, nowMs: int)
    requires Supported(c) && !ApplyMove(c, s, nowMs).value.flagged
    ensures Remaining(c, s, s.turn, nowMs) ==
            Ok(RemainingOf(ApplyMove(c, s, nowMs).value.state, s.turn) - Increment(c))
    ensures Remaining(c, s, Opposite(s.turn), nowMs) == Ok(RemainingOf(s, Opposite(s.turn)))
  {
  }

  /** The display can show zero without the flag being down: exactly when the time is used to the millisecond. */
  lemma ZeroWithoutFlag(c: Config, s: ClockState, nowMs: int)
    requires Supported(c)
    ensures Remaining(c, s, s.turn, nowMs) == Ok(0) && !IsFlagged(c, s, nowMs).value <==>
            Chargeable(c, Elapsed(s, nowMs)) == RemainingOf(s, s.turn)
  {
  }

  /** What an accepted move does: only the mover's time changes, and only a Fischer clock can gain. */
  lemma AcceptedMove(c: Config, s: ClockState, nowMs: int)
    requires Supported(c) && !ApplyMove(c, s, nowMs).value.flagged
    ensures var s' := ApplyMove(c, s, nowMs).value.state;
            && RemainingOf(s', Opposite(s.turn)) == RemainingOf(s, Opposite(s.turn))
            && RemainingOf(s', s.turn) == RemainingOf(s, s.turn) - Chargeable(c, Elapsed(s, nowMs)) + Increment(c)
            && RemainingOf(s', s.turn) >= Increment(c)
            && (c.clockType != FischerIncrement ==> RemainingOf(s', s.turn) <= RemainingOf(s, s.turn))
            && s'.turn == Opposite(s.turn) && s'.lastEventAtMs == nowMs
  {
  }

  /** Bronstein's refund of up to the delay is the same charge as not starting the clock for it. */
  lemma BronsteinIsSimpleDelay(remaining: int, elapsed: int, delay: int)
    requires elapsed >= 0 && delay >= 0
    ensures remaining - elapsed + (if elapsed < delay then elapsed else delay) == remaining - Max0(elapsed - delay)
  {
  }

  // ---------------------------------------------------------------------------------------
  //  Whole runs
  // ---------------------------------------------------------------------------------------

  /** The clock after moves at the given times, or nothing once a move was refused. */
  function After(c: Config, start: ClockState, times: seq<int>): Option<ClockState>
    requires Supported(c)
  {
    if times == [] then Some(start)
    else match After(c, start, times[..|times| - 1])
      case None => None
      case Some(s) =>
        var r := ApplyMove(c, s, times[|times| - 1]).value;
        if r.flagged then None else Some(r.state)
  }

  function WithType(c: Config, clockType: ClockType): Config { c.(clockType := clockType) }

  /** In any run the two delay clocks are the same clock: the refund comes to the free start. */
  lemma {:induction false} DelayClocksAgree(c: Config, start: ClockState, times: seq<int>)
    requires Supported(c)
    ensures After(WithType(c, BronsteinDelay), start, times) == After(WithType(c, SimpleDelay), start, times)
  {
    if times != [] { DelayClocksAgree(c, start, times[..|times| - 1]); }
  }

  /** After each accepted move, what Bronstein's rule refunds is the elapsed time, up to the delay. */
  lemma BronsteinRefunds(c: Config, start: ClockState, times: seq<int>, nowMs: int)
    requires Supported(c) && c.clockType == BronsteinDelay && After(c, start, times + [nowMs]).Some?
    ensures After(c, start, times).Some?
    ensures var s, s' := After(c, start, times).value, After(c, start, times + [nowMs]).value;
            var elapsed := Elapsed(s, nowMs);
            RemainingOf(s', s.turn) ==
            RemainingOf(s, s.turn) - elapsed + if elapsed < c.incrementMs then elapsed else c.incrementMs
  {
    assert (times + [nowMs])[..|times|] == times;
    var s := After(c, start, times).value;
    AcceptedMove(c, s, nowMs);
    BronsteinIsSimpleDelay(RemainingOf(s, s.turn), Elapsed(s, nowMs), c.incrementMs);
  }

  /** What one side's clock was charged, how long that side thought, and how many moves it made. */
  datatype Account = Account(charged: int, thought: int, moves: nat)

  function AccountOf(c: Config, start: ClockState, times: seq<int>, side: Side): Account
    requires Supported(c)
  {
    if times == [] then Account(0, 0, 0)
    else
      var before := AccountOf(c, start, times[..|times| - 1], side);
      match After(c, start, times[..|times| - 1])
      case None => before
      case Some(s) =>
        if s.turn != side then before
        else
          var elapsed := Elapsed(s, times[|times| - 1]);
          Account(before.charged + Chargeable(c, elapsed), before.thought + elapsed, before.moves + 1)
  }

  /** Increment or delay: what a move can gain or spare. */
  lemma MulStep(n: nat, x: int)
    ensures (n + 1) * x == n * x + x
  {
  }

  /**
   Over any accepted run, whatever the timestamps: a side's time plus what it was charged is its
   base plus the increments it earned, and it never thought longer than its base plus one
   increment or delay for each of its moves.
   */
  lemma {:induction false} TimeIsConserved(c: Config, turn: Side, startMs: int, times: seq<int>, side: Side)
    requires Supported(c)
    requires After(c, CreateClock(c, turn, startMs).value, times).Some?
    ensures var s := After(c, CreateClock(c, turn, startMs).value, times).value;
            var account := AccountOf(c, CreateClock(c, turn, startMs).value, times, side);
            && RemainingOf(s, side) + account.charged == c.baseMs + account.moves * Increment(c)
            && RemainingOf(s, side) >= 0
            && 0 <= account.thought <= c.baseMs + account.moves * c.incrementMs
            && account.thought <= account.charged + (if IsDelay(c) then account.moves * c.incrementMs else 0)
            && (if IsDelay(c) then account.charged <= account.thought else account.charged == account.thought)
  {
    if times != [] {
      var start := CreateClock(c, turn, startMs).value;
      var earlier := times[..|times| - 1];
      TimeIsConserved(c, turn, startMs, earlier, side);
      var s := After(c, start, earlier).value;
      AcceptedMove(c, s, times[|times| - 1]);
      MulStep(AccountOf(c, start, earlier, side).moves, Increment(c));
      MulStep(AccountOf(c, start, earlier, side).moves, c.incrementMs);
    }
    DelayOrIncrement(c, AccountOf(c, CreateClock(c, turn, startMs).value, times, side).moves);
  }

  lemma DelayOrIncrement(c: Config, moves: nat)
    requires Supported(c)
    ensures moves * Increment(c) == if c.clockType == FischerIncrement then moves * c.incrementMs else 0
    ensures moves * c.incrementMs >= 0
  {
  }

  /** Whoever moves at move `j`, from 0, of a run that `mover` begins. */
  function MoverAt(mover: Side, j: nat): Side { if j % 2 == 0 then mover else Opposite(mover) }

  /** The side to move alternates, so each side has half of the moves. */
  lemma {:induction false} MovesAlternate(c: Config, turn: Side, startMs: int, times: seq<int>)
    requires Supported(c)
    requires After(c, CreateClock(c, turn, startMs).value, times).Some?
    ensures var start := CreateClock(c, turn, startMs).value;
            && After(c, start, times).value.turn == MoverAt(turn, |times|)
            && AccountOf(c, start, times, turn).moves == (|times| + 1) / 2
            && AccountOf(c, start, times, Opposite(turn)).moves == |times| / 2
  {
    if times != [] {
      MovesAlternate(c, turn, startMs, times[..|times| - 1]);
    }
  }

  lemma {:induction false} AcceptedBefore(c: Config, start: ClockState, times: seq<int>, j: nat)
    requires Supported(c) && j <= |times| && After(c, start, times).Some?
    ensures After(c, start, times[..j]).Some?
  {
    if j == |times| {
      assert times[..j] == times;
    } else {
      assert times[..|times| - 1][..j] == times[..j];
      AcceptedBefore(c, start, times[..|times| - 1], j);
    }
  }

  lemma {:induction false} TurnInRun(c: Config, start: ClockState, times: seq<int>)
    requires Supported(c) && After(c, start, times).Some?
    ensures After(c, start, times).value.turn == MoverAt(start.turn, |times|)
  {
    if times != [] { TurnInRun(c, start, times[..|times| - 1]); }
  }

  /** At every move of a run the other side's time stands still, and the mover's changes by charge and increment. */
  lemma OnlyTheMoverPays(c: Config, start: ClockState, times: seq<int>, j: nat)
    requires Supported(c) && j < |times| && After(c, start, times).Some?
    ensures After(c, start, times[..j]).Some? && After(c, start, times[..j + 1]).Some?
    ensures var s, s', mover := After(c, start, times[..j]).value, After(c, start, times[..j + 1]).value,
              MoverAt(start.turn, j);
            && RemainingOf(s', Opposite(mover)) == RemainingOf(s, Opposite(mover))
            && RemainingOf(s', mover) == RemainingOf(s, mover) - Chargeable(c, Elapsed(s, times[j])) + Increment(c)
  {
    AcceptedBefore(c, start, times, j);
    AcceptedBefore(c, start, times, j + 1);
    TurnInRun(c, start, times[..j]);
    assert times[..j + 1][..j] == times[..j];
    AcceptedMove(c, After(c, start, times[..j]).value, times[j]);
  }

  /** Without a Fischer increment neither side ever gains: at any two moments of a run, the later time is no larger. */
  lemma {:induction false} NobodyGains(c: Config, start: ClockState, times: seq<int>, j: nat, side: Side)
    requires Supported(c) && c.clockType != FischerIncrement && j <= |times| && After(c, start, times).Some?
    ensures After(c, start, times[..j]).Some?
    ensures RemainingOf(After(c, start, times).value, side) <= RemainingOf(After(c, start, times[..j]).value, side)
  {
    if j == |times| {
      assert times[..j] == times;
    } else {
      var front := times[..|times| - 1];
      assert front[..j] == times[..j];
      NobodyGains(c, start, front, j, side);
      AcceptedMove(c, After(c, start, front).value, times[|times| - 1]);
    }
  }

  /** Move `i` does not come before the event that precedes it. */
  predicate InOrder(start: ClockState, times: seq<int>, i: int)
    requires 0 <= i < |times|
  {
    (if i == 0 then start.lastEventAtMs else times[i - 1]) <= times[i]
  }

  /** If the timestamps do not go backward, the two sides' thinking adds up to the time that has passed. */
  lemma {:induction false} ThinkingAddsUp(c: Config, start: ClockState, times: seq<int>)
    requires Supported(c) && After(c, start, times).Some?
    requires forall i :: 0 <= i < |times| ==> InOrder(start, times, i)
    ensures AccountOf(c, start, times, W).thought + AccountOf(c, start, times, B).thought ==
            (if times == [] then start.lastEventAtMs else times[|times| - 1]) - start.lastEventAtMs
    ensures After(c, start, times).value.lastEventAtMs ==
            if times == [] then start.lastEventAtMs else times[|times| - 1]
  {
    if times != [] {
      var front := times[..|times| - 1];
      forall i | 0 <= i < |front| ensures InOrder(start, front, i) { assert InOrder(start, times, i); }
      assert InOrder(start, times, |front|);
      ThinkingAddsUp(c, start, front);
      AcceptedMove(c, After(c, start, front).value, times[|times| - 1]);
    }
  }
}
