/**
 The live clock of an online game: a cache entry in front of the move log.

 The entry may vanish at any moment, also between the steps of a request: its reading, the database
 transaction and the writing of the new entry. It is then rebuilt from the times stored with the
 moves, and the time that passed meanwhile is charged to nobody. The runs here are those of one
 game handled by one request at a time; a request may die at any step.
 */
module ClockCache {
  import opened Wrappers
  import opened Chess
  import opened ChessClock

  datatype ClockEntry = ClockEntry(version: int, state: ClockState)

  // ---------------------------------------------------------------------------------------
  //  The store
  // ---------------------------------------------------------------------------------------

  /** Replaces an entry only if it still has the version that was read. */
  function Swapped(entry: Option<ClockEntry>, expectedVersion: int, state: ClockState): Option<ClockEntry> {
    if entry.Some? && entry.value.version == expectedVersion then Some(ClockEntry(expectedVersion + 1, state))
    else entry
  }

  predicate Swaps(entry: Option<ClockEntry>, expectedVersion: int) {
    entry.Some? && entry.value.version == expectedVersion
  }

  class ClockStore {
    var entry: Option<ClockEntry>

    constructor ()
      ensures entry == None
    {
      entry := None;
    }

    method Init(state: ClockState)
      modifies this
      ensures entry == Some(ClockEntry(1, state))
    {
      entry := Some(ClockEntry(1, state));
    }

    method Load() returns (e: Option<ClockEntry>)
      ensures e == entry
    {
      e := entry;
    }

    method Update(expectedVersion: int, state: ClockState) returns (ok: bool)
      modifies this
      ensures ok == Swaps(old(entry), expectedVersion)
      ensures entry == Swapped(old(entry), expectedVersion, state)
    {
      if entry.None? { return false; }
      if entry.value.version != expectedVersion { return false; }
      entry := Some(ClockEntry(expectedVersion + 1, state));
      return true;
    }

    method Clear()
      modifies this
      ensures entry == None
    {
      entry := None;
    }

    /** A lost race removes the entry, so that the next read rebuilds it from the log. */
    method UpdateOrClear(expectedVersion: int, state: ClockState)
      modifies this
      ensures entry == if Swaps(old(entry), expectedVersion) then Some(ClockEntry(expectedVersion + 1, state)) else None
    {
      var ok := Update(expectedVersion, state);
      if !ok { Clear(); }
    }
  }

  // ---------------------------------------------------------------------------------------
  //  Rebuilding the clock from the log
  // ---------------------------------------------------------------------------------------

  /** The last time stored for a side; half-move `i` of the log, from 0, is White's when `i` is even. */
  function LastStored(c: Config, log: seq<Option<int>>, side: Side): int {
    if log == [] then c.baseMs
    else
      var i := |log| - 1;
      if log[i].Some? && (i % 2 == 0) == (side == W) then log[i].value else LastStored(c, log[..i], side)
  }

  function TurnAfter(plies: nat): Side { if plies % 2 == 0 then W else B }

  /** From the stored times and the side to move in the stored position. */
  function Reconstructed(c: Config, log: seq<Option<int>>, toMove: Side, nowMs: int): ClockState {
    ClockState(LastStored(c, log, W), LastStored(c, log, B), toMove, nowMs)
  }

  method ReconstructClock(c: Config, log: seq<Option<int>>, toMove: Side, nowMs: int) returns (s: ClockState)
    ensures s == Reconstructed(c, log, toMove, nowMs)
  {
    var whiteMs, blackMs := c.baseMs, c.baseMs;
    for i := 0 to |log|
      invariant whiteMs == LastStored(c, log[..i], W) && blackMs == LastStored(c, log[..i], B)
    {
      assert log[..i + 1][..i] == log[..i];
      if log[i].None? { continue; }
      if (i + 1) % 2 == 1 {
        whiteMs := log[i].value;
      } else {
        blackMs := log[i].value;
      }
    }
    assert log[..|log|] == log;
    s := ClockState(whiteMs, blackMs, toMove, nowMs);
  }

  // ---------------------------------------------------------------------------------------
  //  The steps of a move
  // ---------------------------------------------------------------------------------------

  /**
   How far the one request under way has come. It has read the clock and charged the mover, or
   found the flag down; it has stored the move, or the end of the game, and has yet to write the
   entry. `version` is that of the entry it read, if there was one.
   */
  datatype Request =
    | Idle
    | Charged(version: Option<int>, state: ClockState)
    | Flagged
    | Committed(version: Option<int>, state: ClockState)
    | Finished

  /** Stored times per half-move, the side to move in the stored position, the entry, the request. */
  datatype Game = Game(log: seq<Option<int>>, toMove: Side, entry: Option<ClockEntry>, over: bool, request: Request)

  /** A move that `ends` the game clears the entry; a dropped request dies where it stands. */
  datatype Event = Begin(nowMs: int) | Reject | Commit(ends: bool) | Write | Evict | Drop

  /** The clock as a request at `nowMs` sees it. */
  function Seen(c: Config, g: Game, nowMs: int): ClockState {
    if g.entry.Some? then g.entry.value.state else Reconstructed(c, g.log, g.toMove, nowMs)
  }

  function Created(c: Config, nowMs: int): Game
    requires Supported(c)
  {
    Game([], W, Some(ClockEntry(1, CreateClock(c, W, nowMs).value)), false, Idle)
  }

  /** White's first move is free. */
  function FirstClock(c: Config, nowMs: int): ClockState { ClockState(c.baseMs, c.baseMs, B, nowMs) }

  /** A move arrives: the entry is read, or rebuilt, and the mover is charged. */
  function Begun(c: Config, g: Game, nowMs: int): Request
    requires Supported(c)
  {
    if g.log == [] then Charged(None, FirstClock(c, nowMs))
    else
      var r := ApplyMove(c, Seen(c, g, nowMs), nowMs).value;
      if r.flagged then Flagged
      else Charged(if g.entry.Some? then Some(g.entry.value.version) else None, r.state)
  }

  function Happened(c: Config, g: Game, e: Event): Game
    requires Supported(c)
  {
    match e
    case Begin(nowMs) => if g.over || !g.request.Idle? then g else g.(request := Begun(c, g, nowMs))
    case Reject => if g.request.Charged? then g.(request := Idle) else g
    case Commit(ends) =>
      if g.request.Charged? then
        var stored := Some(RemainingOf(g.request.state, g.toMove));
        Game(g.log + [stored], Opposite(g.toMove), g.entry, g.over || ends,
             Committed(g.request.version, g.request.state))
      else if g.request.Flagged? then g.(over := true, request := Finished)
      else g
    case Write =>
      if g.request.Committed? then
        g.(entry := if g.over then None else Written(g.entry, g.request.version, g.request.state), request := Idle)
      else if g.request.Finished? then g.(entry := None, request := Idle)
      else g
    case Evict => g.(entry := None)
    case Drop => g.(request := Idle)
  }

  /** A new entry where none was read; otherwise the entry read is replaced, or what is there removed. */
  function Written(entry: Option<ClockEntry>, version: Option<int>, state: ClockState): Option<ClockEntry> {
    if version.None? then Some(ClockEntry(1, state))
    else if Swaps(entry, version.value) then Some(ClockEntry(version.value + 1, state))
    else None
  }

  function After(c: Config, g: Game, events: seq<Event>): Game
    requires Supported(c)
  {
    if events == [] then g else Happened(c, After(c, g, events[..|events| - 1]), events[|events| - 1])
  }

  function Play(c: Config, startMs: int, events: seq<Event>): Game
    requires Supported(c)
  {
    After(c, Created(c, startMs), events)
  }

  /** What a whole move amounts to, with an eviction in either gap or not. */
  function MoveEvents(nowMs: int, legal: bool, ends: bool, lostFirst: bool, lostThen: bool): seq<Event> {
    [Begin(nowMs)] + (if lostFirst then [Evict] else []) + (if legal then [] else [Reject])
    + [Commit(ends)] + (if lostThen then [Evict] else []) + [Write]
  }

  // ---------------------------------------------------------------------------------------
  //  The service
  // ---------------------------------------------------------------------------------------

  /** One game as the service handles it: the log in the database, the entry in the store. */
  class LiveGame {
    const c: Config
    const clocks: ClockStore
    var log: seq<Option<int>>
    var toMove: Side
    var over: bool

    function State(): Game reads this, clocks { Game(log, toMove, clocks.entry, over, Idle) }

    constructor (c: Config, nowMs: int)
      requires Supported(c)
      ensures this.c == c && fresh(clocks) && State() == Created(c, nowMs)
    {
      this.c := c;
      var store := new ClockStore();
      clocks := store;
      log := [];
      toMove := W;
      over := false;
      new;
      clocks.Init(CreateClock(c, W, nowMs).value);
    }

    method Eviction()
      modifies clocks
      ensures State() == old(State()).(entry := None)
    {
      clocks.Clear();
    }

    /** Reading: the charged clock, or `None` for a fallen flag. */
    method ReadClock(nowMs: int) returns (version: Option<int>, newClock: Option<ClockState>)
      requires Supported(c) && !over
      ensures Begun(c, State(), nowMs) == if newClock.None? then Flagged else Charged(version, newClock.value)
    {
      version := None;
      if |log| + 1 == 1 {
        newClock := Some(ClockState(c.baseMs, c.baseMs, B, nowMs));
        return;
      }
      var entry := clocks.Load();
      var state: ClockState;
      if entry.Some? {
        state := entry.value.state;
        version := Some(entry.value.version);
      } else {
        state := ReconstructClock(c, log, toMove, nowMs);
      }
      var applied := ApplyMove(c, state, nowMs).value;
      newClock := if applied.flagged then None else Some(applied.state);
    }

    /** The transaction: the move with the mover's time, and the new position. */
    method StoreMove(newClock: ClockState, ends: bool)
      modifies this
      ensures State() == Game(old(log) + [Some(RemainingOf(newClock, old(toMove)))], Opposite(old(toMove)),
                              old(clocks.entry), old(over) || ends, Idle)
    {
      log := log + [Some(RemainingOf(newClock, toMove))];
      toMove := Opposite(toMove);
      if ends { over := true; }
    }

    method WriteClock(version: Option<int>, newClock: ClockState)
      modifies clocks
      ensures State() == old(State()).(entry := Written(old(clocks.entry), version, newClock))
    {
      if version.None? {
        clocks.Init(newClock);
      } else {
        clocks.UpdateOrClear(version.value, newClock);
      }
    }

    method FinishByTimeout(lost: bool)
      modifies this, clocks
      ensures State() == Game(old(log), old(toMove), None, true, Idle)
    {
      over := true;
      if lost { Eviction(); }
      clocks.Clear();
    }

    /**
     A move from its reading to its writing; the entry may be lost in the gap before the
     transaction and in the one after it. A move that is not legal is refused after the reading; one
     that ends the game clears the entry.
     */
    method MakeMove(nowMs: int, legal: bool, ends: bool, lostFirst: bool, lostThen: bool)
      requires Supported(c)
      modifies this, clocks
      ensures old(over) ==> State() == old(State())
      ensures !old(over) ==> State() == MoveMade(c, old(State()), nowMs, legal, ends, lostFirst, lostThen)
    {
      if over { return; }
      var version, newClock := ReadClock(nowMs);
      if lostFirst { Eviction(); }
      if newClock.None? {
        FinishByTimeout(lostThen);
        return;
      }
      if !legal {
        if lostThen { Eviction(); }
        return;
      }
      StoreMove(newClock.value, ends);
      if lostThen { Eviction(); }
      if ends {
        clocks.Clear();
      } else {
        WriteClock(version, newClock.value);
      }
    }
  }

  /** A whole move in one piece. */
  function MoveMade(
    c: Config, g: Game, nowMs: int, legal: bool, ends: bool, lostFirst: bool, lostThen: bool): Game
    requires Supported(c)
  {
    var request := Begun(c, g, nowMs);
    var entry := if lostFirst then None else g.entry;
    match request
    case Charged(version, state) =>
      if !legal then g.(entry := if lostThen then None else entry)
      else
        Game(g.log + [Some(RemainingOf(state, g.toMove))], Opposite(g.toMove),
             if ends then None else Written(if lostThen then None else entry, version, state), g.over || ends, Idle)
    case _ => Game(g.log, g.toMove, None, true, Idle)
  }

  /** White's first move costs nothing, however late it comes, and earns nothing either. */
  lemma FirstMoveIsFree(c: Config, startMs: int, nowMs: int, lostFirst: bool, lostThen: bool)
    requires Supported(c)
    ensures var g := MoveMade(c, Created(c, startMs), nowMs, true, false, lostFirst, lostThen);
            && g.entry == Some(ClockEntry(1, ClockState(c.baseMs, c.baseMs, B, nowMs)))
            && g.log == [Some(c.baseMs)] && g.toMove == B && !g.over
  {
  }

  lemma AfterSnoc(c: Config, g: Game, events: seq<Event>, e: Event)
    requires Supported(c)
    ensures After(c, g, events + [e]) == Happened(c, After(c, g, events), e)
  {
    assert (events + [e])[..|events|] == events;
  }

  lemma AfterMaybe(c: Config, g: Game, events: seq<Event>, e: Event, there: bool)
    requires Supported(c)
    ensures After(c, g, events + if there then [e] else []) == Maybe(c, After(c, g, events), e, there)
  {
    if there { AfterSnoc(c, g, events, e); } else { assert events + [] == events; }
  }

  function Maybe(c: Config, g: Game, e: Event, there: bool): Game
    requires Supported(c)
  {
    if there then Happened(c, g, e) else g
  }

  lemma StepsAmount(
    c: Config, g: Game, nowMs: int, legal: bool, ends: bool, lostFirst: bool, lostThen: bool)
    requires Supported(c) && !g.over && g.request == Idle
    ensures var read := Maybe(c, Maybe(c, Happened(c, g, Begin(nowMs)), Evict, lostFirst), Reject, !legal);
            Happened(c, Maybe(c, Happened(c, read, Commit(ends)), Evict, lostThen), Write) ==
            MoveMade(c, g, nowMs, legal, ends, lostFirst, lostThen)
  {
  }

  /** The method is the run of its steps: so what holds of every run holds of every use of it. */
  lemma MoveIsItsSteps(
    c: Config, g: Game, nowMs: int, legal: bool, ends: bool, lostFirst: bool, lostThen: bool)
    requires Supported(c) && !g.over && g.request == Idle
    ensures After(c, g, MoveEvents(nowMs, legal, ends, lostFirst, lostThen)) ==
            MoveMade(c, g, nowMs, legal, ends, lostFirst, lostThen)
  {
    StepsAmount(c, g, nowMs, legal, ends, lostFirst, lostThen);
    MoveEventsRun(c, g, nowMs, legal, ends, lostFirst, lostThen);
  }

  lemma MoveEventsRun(
    c: Config, g: Game, nowMs: int, legal: bool, ends: bool, lostFirst: bool, lostThen: bool)
    requires Supported(c)
    ensures var read := Maybe(c, Maybe(c, Happened(c, g, Begin(nowMs)), Evict, lostFirst), Reject, !legal);
            After(c, g, MoveEvents(nowMs, legal, ends, lostFirst, lostThen)) ==
            Happened(c, Maybe(c, Happened(c, read, Commit(ends)), Evict, lostThen), Write)
  {
    var e1 := [Begin(nowMs)];
    var e2 := e1 + if lostFirst then [Evict] else [];
    var e3 := e2 + if legal then [] else [Reject];
    var e5 := e3 + [Commit(ends)] + if lostThen then [Evict] else [];
    assert [] + e1 == e1;
    AfterSnoc(c, g, [], Begin(nowMs));
    AfterMaybe(c, g, e1, Evict, lostFirst);
    AfterMaybe(c, g, e2, Reject, !legal);
    AfterSnoc(c, g, e3, Commit(ends));
    AfterMaybe(c, g, e3 + [Commit(ends)], Evict, lostThen);
    AfterSnoc(c, g, e5, Write);
  }

  // ---------------------------------------------------------------------------------------
  //  The cache says what the log says
  // ---------------------------------------------------------------------------------------

  /** The log without the move that is stored but not yet written to the entry. */
  function CachedLog(g: Game): seq<Option<int>> {
    if g.request.Committed? && g.log != [] then g.log[..|g.log| - 1] else g.log
  }

  function CachedTurn(g: Game): Side { if g.request.Committed? then Opposite(g.toMove) else g.toMove }

  /** A present entry has the times and the turn that the log gives. */
  predicate Agrees(c: Config, g: Game) {
    g.entry.Some? ==>
      g.entry.value.state == Reconstructed(c, CachedLog(g), CachedTurn(g), g.entry.value.state.lastEventAtMs)
  }

  /** The clock a request carries is that of the log with its move. */
  predicate CarriesClock(c: Config, g: Game) {
    match g.request
    case Charged(_, s) =>
      var log := g.log + [Some(RemainingOf(s, g.toMove))];
      s == Reconstructed(c, log, Opposite(g.toMove), s.lastEventAtMs)
    case Committed(_, s) => g.log != [] && s == Reconstructed(c, g.log, g.toMove, s.lastEventAtMs)
    case _ => true
  }

  predicate Sound(c: Config, g: Game) {
    Agrees(c, g) && CarriesClock(c, g) && g.toMove == TurnAfter(|g.log|) && (g.request.Committed? ==> g.log != [])
  }

  lemma LastStoredSnoc(c: Config, log: seq<Option<int>>, ms: int, side: Side)
    ensures LastStored(c, log + [Some(ms)], side) == if side == TurnAfter(|log|) then ms else LastStored(c, log, side)
  {
    assert (log + [Some(ms)])[..|log|] == log;
  }

  lemma SeenIsLog(c: Config, g: Game, nowMs: int)
    requires Agrees(c, g) && !g.request.Committed?
    ensures var s := Seen(c, g, nowMs);
            && s.whiteRemainingMs == LastStored(c, g.log, W) && s.blackRemainingMs == LastStored(c, g.log, B)
            && s.turn == g.toMove
  {
  }

  /** A clock whose idle side is that of the log is the clock of the log with its move. */
  lemma ClockOfLongerLog(c: Config, log: seq<Option<int>>, s: ClockState)
    requires RemainingOf(s, Opposite(TurnAfter(|log|))) == LastStored(c, log, Opposite(TurnAfter(|log|)))
    requires s.turn == Opposite(TurnAfter(|log|))
    ensures var stored := Some(RemainingOf(s, TurnAfter(|log|)));
            s == Reconstructed(c, log + [stored], s.turn, s.lastEventAtMs)
  {
    var ms := RemainingOf(s, TurnAfter(|log|));
    LastStoredSnoc(c, log, ms, W);
    LastStoredSnoc(c, log, ms, B);
  }

  lemma BeginIsSound(c: Config, g: Game, nowMs: int)
    requires Supported(c) && Sound(c, g) && g.request == Idle
    ensures CarriesClock(c, g.(request := Begun(c, g, nowMs)))
    ensures Begun(c, g, nowMs).Charged? ==> Begun(c, g, nowMs).state.lastEventAtMs == nowMs
  {
    var request := Begun(c, g, nowMs);
    if request.Charged? {
      if g.log != [] {
        SeenIsLog(c, g, nowMs);
        AcceptedMove(c, Seen(c, g, nowMs), nowMs);
      }
      ClockOfLongerLog(c, g.log, request.state);
    }
  }

  lemma CommitIsSound(c: Config, g: Game, ends: bool)
    requires Supported(c) && Sound(c, g)
    ensures Sound(c, Happened(c, g, Commit(ends)))
  {
    if g.request.Charged? {
      var after := Happened(c, g, Commit(ends));
      assert after.log[..|after.log| - 1] == g.log;
    }
  }

  /** The request dies between its transaction and its write, while the entry of before is there. */
  predicate LeavesEntryBehind(g: Game, e: Event) { e == Drop && g.request.Committed? && g.entry.Some? }

  lemma StepKeepsSound(c: Config, g: Game, e: Event)
    requires Supported(c) && Sound(c, g) && !LeavesEntryBehind(g, e)
    ensures Sound(c, Happened(c, g, e))
  {
    match e
    case Begin(nowMs) => if !g.over && g.request.Idle? { BeginIsSound(c, g, nowMs); }
    case Commit(ends) => CommitIsSound(c, g, ends);
    case _ =>
  }

  predicate LeavesBehindAt(c: Config, startMs: int, events: seq<Event>, k: int)
    requires Supported(c) && 0 <= k < |events|
  {
    LeavesEntryBehind(Play(c, startMs, events[..k]), events[k])
  }

  predicate NothingLeftBehind(c: Config, startMs: int, events: seq<Event>)
    requires Supported(c)
  {
    forall k :: 0 <= k < |events| ==> !LeavesBehindAt(c, startMs, events, k)
  }

  lemma NothingLeftBehindBefore(c: Config, startMs: int, events: seq<Event>, n: nat)
    requires Supported(c) && NothingLeftBehind(c, startMs, events) && n <= |events|
    ensures NothingLeftBehind(c, startMs, events[..n])
  {
    forall k | 0 <= k < n ensures !LeavesBehindAt(c, startMs, events[..n], k) {
      assert events[..n][..k] == events[..k];
      assert !LeavesBehindAt(c, startMs, events, k);
    }
  }

  lemma {:induction false} EveryRunIsSound(c: Config, startMs: int, events: seq<Event>)
    requires Supported(c) && NothingLeftBehind(c, startMs, events)
    ensures Sound(c, Play(c, startMs, events))
  {
    if events != [] {
      var front := events[..|events| - 1];
      NothingLeftBehindBefore(c, startMs, events, |events| - 1);
      EveryRunIsSound(c, startMs, front);
      assert !LeavesBehindAt(c, startMs, events, |events| - 1);
      StepKeepsSound(c, Play(c, startMs, front), events[|events| - 1]);
    }
  }

  /**
   In every run, with evictions and requests that die anywhere else, a present entry has the times and
   the turn of the log; only between the storing of a move and the writing of the entry are they those
   before the move.
   */
  lemma CacheAgreesWithLog(c: Config, startMs: int, events: seq<Event>)
    requires Supported(c) && Play(c, startMs, events).entry.Some? && NothingLeftBehind(c, startMs, events)
    ensures var g := Play(c, startMs, events);
            var s, log := g.entry.value.state, CachedLog(g);
            s == Reconstructed(c, log, TurnAfter(|log|), s.lastEventAtMs)
  {
    EveryRunIsSound(c, startMs, events);
  }

  predicate AgreesAt(c: Config, startMs: int, events: seq<Event>, k: int)
    requires Supported(c) && 0 <= k <= |events|
  {
    Agrees(c, Play(c, startMs, events[..k]))
  }

  /** What the dying request leaves has the turn of before its move. */
  lemma LeftBehindDisagrees(c: Config, g: Game)
    requires Supported(c) && Agrees(c, g) && LeavesEntryBehind(g, Drop)
    ensures var after := Happened(c, g, Drop);
            after.entry.value.state.turn == Opposite(after.toMove) && !Agrees(c, after)
  {
  }

  /** Entry and log agree throughout a run exactly if no dying request leaves its entry behind in it. */
  lemma AgreesThroughoutIffNothingLeft(c: Config, startMs: int, events: seq<Event>)
    requires Supported(c)
    ensures (forall k :: 0 <= k <= |events| ==> AgreesAt(c, startMs, events, k)) <==>
            NothingLeftBehind(c, startMs, events)
  {
    if NothingLeftBehind(c, startMs, events) {
      forall k | 0 <= k <= |events| ensures AgreesAt(c, startMs, events, k) {
        NothingLeftBehindBefore(c, startMs, events, k);
        EveryRunIsSound(c, startMs, events[..k]);
      }
    } else {
      var k :| 0 <= k < |events| && LeavesBehindAt(c, startMs, events, k);
      if AgreesAt(c, startMs, events, k) {
        LeftBehindDisagrees(c, Play(c, startMs, events[..k]));
        PlayNext(c, startMs, events, k);
        assert !AgreesAt(c, startMs, events, k + 1);
      }
    }
  }

  lemma PlayNext(c: Config, startMs: int, events: seq<Event>, k: nat)
    requires Supported(c) && k < |events|
    ensures Play(c, startMs, events[..k + 1]) == Happened(c, Play(c, startMs, events[..k]), events[k])
  {
    assert events[..k + 1][..k] == events[..k];
  }

  /** And then the next move is charged to the player who has just moved, not to the one who moves. */
  lemma LeftBehindChargesTheOther(c: Config, g: Game, nowMs: int)
    requires Supported(c) && g.log != [] && g.entry.Some? && g.entry.value.state.turn == Opposite(g.toMove)
    requires Begun(c, g, nowMs).Charged?
    ensures var s, s' := g.entry.value.state, Begun(c, g, nowMs).state;
            && RemainingOf(s', g.toMove) == RemainingOf(s, g.toMove)
            && RemainingOf(s', Opposite(g.toMove)) ==
               RemainingOf(s, Opposite(g.toMove)) - Chargeable(c, Elapsed(s, nowMs)) + Increment(c)
  {
    AcceptedMove(c, g.entry.value.state, nowMs);
  }

  lemma ThreeEvents(c: Config, startMs: int, e: Event, f: Event, h: Event)
    requires Supported(c)
    ensures Play(c, startMs, [e, f, h]) == Happened(c, Happened(c, Happened(c, Created(c, startMs), e), f), h)
  {
    var events := [e, f, h];
    assert events[..0] == [] && events[..3] == events;
    PlayNext(c, startMs, events, 0);
    PlayNext(c, startMs, events, 1);
    PlayNext(c, startMs, events, 2);
  }

  /** It happens already when the request of the first move dies: the entry waits for White, Black is to move. */
  lemma LeftBehindHappens(c: Config, startMs: int, nowMs: int)
    requires Supported(c)
    ensures var g := Play(c, startMs, [Begin(nowMs), Commit(false), Drop]);
            g.toMove == B && g.entry.Some? && g.entry.value.state.turn == W && !Agrees(c, g)
  {
    ThreeEvents(c, startMs, Begin(nowMs), Commit(false), Drop);
  }

  /**
   A request finds the flag down exactly if the flag check on the same clock does, and then the
   mover is shown at zero.
   */
  lemma RefusedIffFlagged(c: Config, g: Game, nowMs: int)
    requires Supported(c) && g.log != []
    ensures Begun(c, g, nowMs).Flagged? <==> IsFlagged(c, Seen(c, g, nowMs), nowMs).value
    ensures Sound(c, g) && !g.request.Committed? && Begun(c, g, nowMs).Flagged? ==> Shown(c, g, g.toMove, nowMs) == 0
  {
    FlagMeansZero(c, Seen(c, g, nowMs), nowMs);
    if Sound(c, g) && !g.request.Committed? { SeenIsLog(c, g, nowMs); }
  }

  // ---------------------------------------------------------------------------------------
  //  Losing the entry costs nobody time
  // ---------------------------------------------------------------------------------------

  function WithoutEvictions(events: seq<Event>): seq<Event> {
    if events == [] then []
    else
      var front := WithoutEvictions(events[..|events| - 1]);
      if events[|events| - 1] == Evict then front else front + [events[|events| - 1]]
  }

  /** The game is not over and will not be: no fallen flag waits to be stored. */
  predicate GoesOn(g: Game) { !g.over && !g.request.Flagged? && !g.request.Finished? }

  ghost predicate TimesAtLeast(c: Config, log: seq<Option<int>>, other: seq<Option<int>>) {
    forall side :: LastStored(c, log, side) >= LastStored(c, other, side)
  }

  ghost predicate ClockAtLeast(s: ClockState, t: ClockState) {
    && s.turn == t.turn && s.lastEventAtMs == t.lastEventAtMs
    && forall side :: RemainingOf(s, side) >= RemainingOf(t, side)
  }

  /** The requests of two runs are equally far, the first with the kinder clock. */
  ghost predicate RequestAtLeast(r: Request, q: Request) {
    match (r, q)
    case (Idle, Idle) => true
    case (Charged(_, s), Charged(_, t)) => ClockAtLeast(s, t)
    case (Committed(_, s), Committed(_, t)) => ClockAtLeast(s, t)
    case _ => false
  }

  /** The run without evictions always finds its entry as it left it. */
  predicate Undisturbed(h: Game) {
    && h.entry.Some?
    && (h.request.Charged? || h.request.Committed? ==>
        h.request.version.None? || Swaps(h.entry, h.request.version.value))
  }

  ghost predicate TimesNonNegative(c: Config, h: Game) {
    && (forall side :: LastStored(c, h.log, side) >= 0)
    && (h.request.Charged? || h.request.Committed? ==> forall side :: RemainingOf(h.request.state, side) >= 0)
  }

  /** `g` is at least as kind to both players as `h`, which still has its entry. */
  ghost predicate NoWorse(c: Config, g: Game, h: Game) {
    && GoesOn(g) && GoesOn(h) && |g.log| == |h.log|
    && Sound(c, g) && Sound(c, h) && Undisturbed(h) && TimesNonNegative(c, h)
    && RequestAtLeast(g.request, h.request)
    && TimesAtLeast(c, g.log, h.log)
    && (g.entry.Some? ==> g.entry.value.state.lastEventAtMs == h.entry.value.state.lastEventAtMs)
  }

  /** A later last event and more stored time: the charge is no larger and the result no smaller. */
  lemma ChargeMonotone(c: Config, s: ClockState, t: ClockState, nowMs: int)
    requires Supported(c) && s.turn == t.turn
    requires forall side :: RemainingOf(s, side) >= RemainingOf(t, side)
    requires s.lastEventAtMs == t.lastEventAtMs || s.lastEventAtMs == nowMs
    requires !ApplyMove(c, t, nowMs).value.flagged
    requires forall side :: RemainingOf(t, side) >= 0
    ensures !ApplyMove(c, s, nowMs).value.flagged
    ensures ClockAtLeast(ApplyMove(c, s, nowMs).value.state, ApplyMove(c, t, nowMs).value.state)
    ensures forall side :: RemainingOf(ApplyMove(c, t, nowMs).value.state, side) >= 0
  {
    assert Chargeable(c, Elapsed(s, nowMs)) <= Chargeable(c, Elapsed(t, nowMs));
    assert RemainingOf(t, t.turn) >= 0 && RemainingOf(t, Opposite(t.turn)) >= 0;
    AcceptedMove(c, t, nowMs);
    assert !ApplyMove(c, s, nowMs).value.flagged;
    AcceptedMove(c, s, nowMs);
  }

  lemma BeginKeepsNoWorse(c: Config, g: Game, h: Game, nowMs: int)
    requires Supported(c) && NoWorse(c, g, h) && h.request.Idle? && GoesOn(Happened(c, h, Begin(nowMs)))
    ensures NoWorse(c, Happened(c, g, Begin(nowMs)), Happened(c, h, Begin(nowMs)))
  {
    BeginIsSound(c, g, nowMs);
    BeginIsSound(c, h, nowMs);
    if g.log != [] {
      SeenIsLog(c, g, nowMs);
      SeenIsLog(c, h, nowMs);
      var s, t := Seen(c, g, nowMs), Seen(c, h, nowMs);
      forall side ensures RemainingOf(s, side) >= RemainingOf(t, side) >= 0 {
        assert LastStored(c, g.log, side) >= LastStored(c, h.log, side) >= 0;
      }
      ChargeMonotone(c, s, t, nowMs);
    } else {
      assert ClockAtLeast(FirstClock(c, nowMs), FirstClock(c, nowMs));
    }
  }

  lemma CommitKeepsNoWorse(c: Config, g: Game, h: Game, ends: bool)
    requires Supported(c) && NoWorse(c, g, h) && GoesOn(Happened(c, h, Commit(ends)))
    ensures NoWorse(c, Happened(c, g, Commit(ends)), Happened(c, h, Commit(ends)))
  {
    CommitIsSound(c, g, ends);
    CommitIsSound(c, h, ends);
    if h.request.Charged? {
      var g', h' := Happened(c, g, Commit(ends)), Happened(c, h, Commit(ends));
      forall side ensures LastStored(c, g'.log, side) >= LastStored(c, h'.log, side) >= 0 {
        assert LastStored(c, g'.log, side) == RemainingOf(g'.request.state, side);
        assert LastStored(c, h'.log, side) == RemainingOf(h'.request.state, side);
      }
    }
  }

  lemma StepKeepsNoWorse(c: Config, g: Game, h: Game, e: Event)
    requires Supported(c) && NoWorse(c, g, h) && e != Evict && GoesOn(Happened(c, h, e)) && !LeavesEntryBehind(h, e)
    ensures NoWorse(c, Happened(c, g, e), Happened(c, h, e))
  {
    match e
    case Begin(nowMs) => if h.request.Idle? { BeginKeepsNoWorse(c, g, h, nowMs); }
    case Commit(ends) => CommitKeepsNoWorse(c, g, h, ends);
    case Reject =>
    case Write =>
    case Drop =>
  }

  predicate GoesOnAt(c: Config, startMs: int, events: seq<Event>, k: int)
    requires Supported(c) && 0 <= k <= |events|
  {
    GoesOn(Play(c, startMs, events[..k]))
  }

  /** At no moment of the run is the game over or a fallen flag found, and nothing is left behind. */
  predicate GoesOnCleanly(c: Config, startMs: int, events: seq<Event>)
    requires Supported(c)
  {
    NothingLeftBehind(c, startMs, events) && forall k :: 0 <= k <= |events| ==> GoesOnAt(c, startMs, events, k)
  }

  lemma GoesOnCleanlyBefore(c: Config, startMs: int, front: seq<Event>, last: Event)
    requires Supported(c) && GoesOnCleanly(c, startMs, front + [last])
    ensures GoesOnCleanly(c, startMs, front)
    ensures !LeavesEntryBehind(Play(c, startMs, front), last)
    ensures GoesOn(Play(c, startMs, front + [last]))
  {
    var events := front + [last];
    assert events[..|front|] == front && events[..|events|] == events;
    NothingLeftBehindBefore(c, startMs, events, |front|);
    assert !LeavesBehindAt(c, startMs, events, |front|) && GoesOnAt(c, startMs, events, |events|);
    forall k | 0 <= k <= |front| ensures GoesOnAt(c, startMs, front, k) {
      assert front[..k] == events[..k];
      assert GoesOnAt(c, startMs, events, k);
    }
  }

  lemma StartIsNoWorse(c: Config, startMs: int)
    requires Supported(c)
    ensures NoWorse(c, Created(c, startMs), Created(c, startMs))
  {
  }

  lemma {:induction false} NoWorseThroughout(c: Config, startMs: int, events: seq<Event>)
    requires Supported(c) && GoesOnCleanly(c, startMs, WithoutEvictions(events))
    ensures NoWorse(c, Play(c, startMs, events), Play(c, startMs, WithoutEvictions(events)))
  {
    if events == [] {
      StartIsNoWorse(c, startMs);
    } else {
      var earlier, last := events[..|events| - 1], events[|events| - 1];
      var front := WithoutEvictions(earlier);
      if last == Evict {
        NoWorseThroughout(c, startMs, earlier);
      } else {
        GoesOnCleanlyBefore(c, startMs, front, last);
        AfterSnoc(c, Created(c, startMs), front, last);
        NoWorseThroughout(c, startMs, earlier);
        StepKeepsNoWorse(c, Play(c, startMs, earlier), Play(c, startMs, front), last);
      }
    }
  }

  function Shown(c: Config, g: Game, side: Side, nowMs: int): int
    requires Supported(c)
  {
    Remaining(c, Seen(c, g, nowMs), side, nowMs).value
  }

  /**
   Neither player is ever worse off for a lost entry: as long as the run without evictions goes
   on, leaving nothing behind, the run with them goes on too; at every moment each side has at
   least as much stored time, and is shown at least as much, unless a move is just between its
   storing and its writing.
   */
  lemma EvictionsHarmNobody(c: Config, startMs: int, events: seq<Event>, side: Side, nowMs: int)
    requires Supported(c) && GoesOnCleanly(c, startMs, WithoutEvictions(events))
    ensures var g, h := Play(c, startMs, events), Play(c, startMs, WithoutEvictions(events));
            && GoesOn(g) && |g.log| == |h.log|
            && LastStored(c, g.log, side) >= LastStored(c, h.log, side)
            && (!h.request.Committed? ==> Shown(c, g, side, nowMs) >= Shown(c, h, side, nowMs))
  {
    NoWorseThroughout(c, startMs, events);
    var g, h := Play(c, startMs, events), Play(c, startMs, WithoutEvictions(events));
    if !h.request.Committed? {
      SeenIsLog(c, g, nowMs);
      SeenIsLog(c, h, nowMs);
      assert LastStored(c, g.log, side) >= LastStored(c, h.log, side);
    }
  }
}
