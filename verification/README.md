# Farzin: verified models of the core algorithms

Farzin runs chess tournaments and online games. This project models the algorithms of its `core/`
directory and the stateful parts of its play, billing, rating, matchmaking and arbiter modules in
Dafny, and proves what they are for. `dafny verify dfyconfig.toml` checks everything.

Points are integers in half-point units and money is an unbounded integer of tiyin, as in the
code. A database transaction and a Redis script are one atomic step each; between the steps of one
actor, any steps of others may happen. Code that loops over variables is a method with the loop's
invariants, proved against a function on the inputs; what the code promises is then proved about
that function. Services that change stored state are classes (`PlayRepository`, `ClockStore`,
`LiveGame`, `BillingRepository`, `Queue`, `InvoiceRepository`, `Xorshift64`) whose methods state
their whole new state. Where many actors run at once there is also a transition system with a step
function, an invariant, and a theorem over every run.

## Contents

- `Berger`, `BergerColours`, `BergerLegs`, `RoundRobin`, `RoundRobinErrors`: the round-robin schedule, its
  colours over one leg and two, the engine and when it answers.
- `Glicko2`, `Glicko2Update`, `Glicko2Results`: the volatility solver and the rating update, over the
  reals, and what results do to a rating.
- `Chess`, `Zobrist`, `Repetition`, `Material`: positions, hashes, threefold repetition, dead positions
  and mating material.
- `GameProtocol`, `GameOutcome`, `GamePgn`: concurrent movers and finishers over the move log, what comes
  of a game, its text.
- `ChessClock`, `ClockCache`: the clock, and its cache in front of the log.
- `Ledger`, `Billing`, `BillingFlow`, `Money`, `Invoice`: double entry, payments and what their steps bring
  about, splitting, invoice numbers.
- `ResultMapping`, `ResultLaws`, `PairingStates`, `PairingAgreement`, `FloatRules`, `PairingOrder`: results
  and the pairing history.
- `TieBreak`, `TieBreakKeys`, `Ranking`, `RankingMeaning`: tie-break keys, what they measure, and the final
  ranking.
- `RatingPeriod`, `RatingOrder`, `RatingRecompute`, `RatingHistory`: the period batch, and computing stored
  periods again.
- `Matchmaking`, `PgnWriter`: the sweep, the export.
- `Wrappers`, `Sorting`, `Text`, `Decimal`, `StringOrder`, `RealLemmas`: shared vocabulary.

## Findings

Where the code does not meet what its comments or its design say, the code is modelled as it is,
an example shows the difference, and the exact condition is proved.

- A webhook books money to the provider that sent it, but may find the payment through the payment id it
  carries, and that payment may have another provider. `Billing.CashAgreesIfWebhooksMatch` and
  `Billing.CrossingWebhookBreaks` give the condition on the webhook, `Billing.CashAgreementStep` the one
  on the commit, `Billing.WrongProviderHappens` a run. Every adapter in the repository rejects
  `verifyWebhook` so far, so no such webhook can arrive today.
- A resignation, timeout or agreed draw prints the moves its request read; a move stored in between is
  missing from the stored game text. `GameProtocol.DecisionTextFullIffReadCurrent` is the condition,
  `GameProtocol.StaleTextHappens` a run.
- In a double round-robin of an even field, the seats 1 and n/2 + 1 play three games running with one
  colour, across the two legs (`BergerLegs.ThreeRunningAtTheSeam`).
- `Money.allocate` claims that the shares always add up. They do exactly when the amount is not negative
  or every share divides evenly (`Money.Allocate`, `Money.NegativeAmountIsLost`).
- A left-over unit can go to a share whose ratio is zero (`Money.ZeroRatioCanBePaid`): a zero ratio at
  position i is paid exactly when i is below the remainder (`Money.ZeroRatioPaidIff`), and some amount
  does that exactly when i + 1 is below the number of positive ratios (`Money.ZeroRatioPayable`).
- `Money.percentage` rounds up for every non-negative rate; for negative rates
  `Money.PercentageRoundsUp` says exactly when, and `Money.NegativeRateRoundsTooFar` is a rate for which
  it does not.
- A null-skipping comparator can go round in a circle (`Ranking.SkippingCanCycle`), but not where each
  key applies to both players or to neither (`Ranking.KeysTransitive`); the ranking does not, because
  Direct Encounter is null for a whole points group or for none of it.
- A recomputed rating period reproduces the provisional flag exactly under the condition of
  `RatingRecompute.RecomputeReproduces`, which the row of `RatingRecompute.FlagCanChange` does not meet;
  every further recomputation changes nothing.
- docs/06-rating-system.md, section 9.3, calls recomputing safe any number of times, and its section 9.4
  starts every period from the ratings that the one before it left. The code starts a stored period from
  its own history instead. So recomputing an earlier period takes later ones out of the rating
  (`RatingHistory.EarlierPeriodErasesLater`); a row keeps its rating exactly if it still holds what that
  period stored (`RatingHistory.RecomputeKeepsRatingIff`). A corrected period does not reach later ones
  (`RatingHistory.CorrectionStopsAtItsPeriod`), since their recomputation starts where their first
  computation did, which is the present row exactly if that has not moved since
  (`RatingHistory.RecomputationStartsWhereItFirstDid`). Computing the newest period last restores its
  ratings (`RatingHistory.LastComputationDecides`), and with unchanged games every period counts once in
  any case (`RatingHistory.EveryPeriodCountsOnce`).
- A request that dies between the database transaction and the cache write leaves the entry of before
  the move behind (`ClockCache.LeftBehindHappens`); entry and log agree throughout a run exactly if none
  does (`ClockCache.AgreesThroughoutIffNothingLeft`). The next move is then charged to the player who
  has just moved (`ClockCache.LeftBehindChargesTheOther`).

## Model

| member | source | states |
|---|---|---|
| Berger.BergerRound | src/core/pairing/round-robin.engine.ts:232-254 | the loop returns the closed-form boards of the round, the fixed seat's board first |
| Berger.WrapLinear | src/core/pairing/round-robin.engine.ts:256-259 | within one lap, wrapping (with JavaScript's signed remainder) adds or subtracts the modulus once |
| Berger.LeaderLinear | src/core/pairing/round-robin.engine.ts:232-240 | the leaders of a leg are 1, h+1, 2, h+2, ... for h half the table |
| Berger.LeaderDoubled | src/core/pairing/round-robin.engine.ts:232-240 | half the table is the inverse of two: doubling the leader gives back the round |
| Berger.BoardOfSeat | src/core/pairing/round-robin.engine.ts:232-259 | each seat sits on exactly the one board, with the colour and opponent, that the closed forms name |
| Berger.RoundIsPerfectMatching | src/core/pairing/round-robin.engine.ts:232-259 | for every even table, every round seats each seat exactly once, never against itself |
| Berger.PairsMeetExactlyOnce | src/core/pairing/round-robin.engine.ts:112-163 | over a leg any two seats meet in exactly one round, and which one |
| Berger.DoubleRoundRobin | src/core/pairing/round-robin.engine.ts:129-147 | with two legs each pair meets twice, once in each colour, in different legs |
| BergerColours.OddFieldColours | src/core/pairing/round-robin.engine.ts:232-259 | with an odd field each player has one bye, equally many Whites and Blacks, and strictly alternating colours |
| BergerColours.EvenFieldColours | src/core/pairing/round-robin.engine.ts:232-259 | with an even field Whites and Blacks differ by one, at most one repetition, never three in a row |
| BergerColours.FixedSeatBalance | src/core/pairing/round-robin.engine.ts:232-254 | the fixed seat alternates throughout and has one Black more |
| BergerColours.FirstSeatRepeats | src/core/pairing/round-robin.engine.ts:232-254 | the bound is met: seat 1 opens with two Whites |
| BergerLegs.ScheduledColourIs | src/core/pairing/round-robin.engine.ts:134-147 | the colour of a seat on its board in either leg |
| BergerLegs.TwoLegsBalance | src/core/pairing/round-robin.engine.ts:134-147 | over two legs every seat has as many Whites as Blacks |
| BergerLegs.ThreeRunningAtTheSeam | src/core/pairing/round-robin.engine.ts:134-147 | over two legs of an even field exactly seats 1 and n/2 + 1 get three of a colour running, once, across the legs, and nobody four |
| BergerLegs.OddFieldRepeatsAtTheSeam | src/core/pairing/round-robin.engine.ts:134-147 | over two legs of an odd field a colour repeats exactly once, across the legs, and never comes three times |
| RoundRobin.SeatingOrder | src/core/pairing/round-robin.engine.ts:174-187 | players by pairing number, or the duplicate number as an error |
| RoundRobin.SeatingForgetsOrder | src/core/pairing/round-robin.engine.ts:174-187 | seating does not depend on the order of the request |
| RoundRobin.CountActiveSeats | src/core/pairing/round-robin.engine.ts:126-132 | the loop counts the active players of the round |
| RoundRobin.FillBoard | src/core/pairing/round-robin.engine.ts:138-160 | one board adds a numbered pairing, a bye for the one active player, or nothing |
| RoundRobin.FillBoards | src/core/pairing/round-robin.engine.ts:138-164 | the loop over the boards gives the pairings and byes of the scheduled boards, colours reversed in the second leg |
| RoundRobin.PlayRound | src/core/pairing/round-robin.engine.ts:134-166 | the leg's round of the table, played with the second leg's colours reversed |
| RoundRobin.Compute | src/core/pairing/round-robin.engine.ts:101-170 | the engine's result, with each error in the order the code raises it |
| RoundRobin.EveryActivePlayerPlacedOnce | src/core/pairing/round-robin.engine.ts:101-198 | in every round that is answered, an active player is in exactly one pairing or bye, an inactive one in none |
| RoundRobinErrors.SeatingIffDistinct | src/core/pairing/round-robin.engine.ts:174-187 | everybody gets a seat exactly if all pairing numbers differ; the seats are the players in that order |
| RoundRobinErrors.DuplicateIsShared | src/core/pairing/round-robin.engine.ts:174-187 | otherwise the error names a number that two players share |
| RoundRobinErrors.RoundIffTwoPlay | src/core/pairing/round-robin.engine.ts:107-132 | a seated field gets a round exactly if it is in the schedule and two different players are active in it |
| RoundRobinErrors.AnswersIff | src/core/pairing/round-robin.engine.ts:101-170 | the engine answers exactly if all numbers differ, the round is in the schedule and two different players have joined and not withdrawn |
| RoundRobinErrors.ErrorsIff | src/core/pairing/round-robin.engine.ts:101-187 | each of the four errors, exactly when |
| RoundRobinErrors.PlacedIffPlays | src/core/pairing/round-robin.engine.ts:101-198 | so with any withdrawals that leave two, whoever has joined and not withdrawn has one place, and nobody else has |
| RoundRobinErrors.ByesAreWholePoints | src/core/pairing/round-robin.engine.ts:156-161 | every bye of a round is worth one point |
| RoundRobin.BoardsNumbered | src/core/pairing/round-robin.engine.ts:140-163 | the boards that are played are numbered 1 to k without gaps |
| RoundRobin.PlayersMeetAsScheduled | src/core/pairing/round-robin.engine.ts:101-170 | two players play, White against Black, in exactly the round the schedule names for them, if both are active then |
| RoundRobin.RequestOrderIrrelevant | src/core/pairing/round-robin.engine.ts:101-187 | permuting the request's players changes neither result nor error |
| Glicko2.SearchBracket | src/core/rating/glicko2.service.ts:121-132 | finds the first probe that is not negative; fails if and only if all of the first hundred are |
| Glicko2.StepKeepsBracket | src/core/rating/glicko2.service.ts:139-157 | an Illinois step never divides by zero, keeps opposite or zero signs at the ends, and stays inside the old interval |
| Glicko2.SecantWithin | src/core/rating/glicko2.service.ts:145-157 | the secant point lies between the ends of a bracketing interval |
| Glicko2.Illinois | src/core/rating/glicko2.service.ts:133-161 | stops after the first allowed step at which the interval, bracketing and inside the first, is no longer than epsilon; the iteration-limit error exactly if there is none |
| Glicko2.Shorten | src/core/rating/glicko2.service.ts:145-157 | the loop body is one Illinois step |
| Glicko2.PullAboveHalf | src/core/rating/glicko2.service.ts:110-115 | the results' part of f never falls to minus one half |
| Glicko2.ProbeAccepted | src/core/rating/glicko2.service.ts:121-132 | probe k is accepted whenever tau is at most 2k: for tau up to 2 the first one is |
| Glicko2.SearchFailsIffTauHuge | src/core/rating/glicko2.service.ts:121-132 | over arbitrary real data, games or not, some exhaust the search if and only if tau exceeds 200; so for tau up to 200 none do |
| Glicko2.PullAtLeast | src/core/rating/glicko2.service.ts:110-115 | the results' part of f is at least minus e^x over twice the known uncertainty |
| Glicko2.FirstProbeAccepted | src/core/rating/glicko2.service.ts:121-132 | if the old squared volatility is at most twice the known uncertainty, the first probe is accepted whatever tau |
| Glicko2Update.SearchNeverFailsInRange | src/core/rating/glicko2.service.ts:121-132 | so from every snapshot within the limits of the clamp the search succeeds at once, for every tau |
| RatingHistory.EveryStartWithinLimits | src/core/rating/glicko2.service.ts:164-179 | in every run of computations each one starts from snapshots within these limits, so the search error is never reached |
| Glicko2.FirstInterval | src/core/rating/glicko2.service.ts:117-132 | the first interval brackets a root in both cases, or the search error and exactly when |
| Glicko2.Iterate | src/core/rating/glicko2.service.ts:133-161 | from any first interval of that kind the loop gives the volatility, or the iteration-limit error exactly if the interval stays too long for all allowed steps |
| Glicko2.SolveVolatility | src/core/rating/glicko2.service.ts:105-162 | the volatility of a bracketing interval no longer than epsilon inside the first; each of the two errors exactly when its stage fails |
| Glicko2.VolatilityBounds | src/core/rating/glicko2.service.ts:105-162 | the new squared volatility lies between the old one and the unexplained improvement; unsurprising results never raise it |
| Glicko2Update.Compute | src/core/rating/glicko2.service.ts:45-96 | no games: only widened; otherwise the clamped update with the solver's volatility, or an error exactly when the solver fails, which for a snapshot within the limits or tau up to 200 is only the iteration limit; the result is within the limits |
| Glicko2Update.Gather | src/core/rating/glicko2.service.ts:69-82 | the two loops give variance, surplus and improvement of the games |
| Glicko2Update.TotalInformationPositive | src/core/rating/glicko2.service.ts:70-75 | the variance's denominator is positive, so the division is defined |
| Glicko2Update.NarrowedShrinks | src/core/rating/glicko2.service.ts:87-91 | the new deviation is below both the widened one and the games' own error |
| Glicko2Update.IdleOnlyWidens | src/core/rating/glicko2.service.ts:51-56 | without games the rating stays and the deviation does not shrink |
| Glicko2Update.LimitedIsNearest | src/core/rating/glicko2.service.ts:171-177 | values within the limits stay, others move to the nearer limit |
| Glicko2Results.WinnerRises | src/core/rating/glicko2.service.ts:75-96 | whoever wins every game of a period rises, also after the limits |
| Glicko2Results.LoserFalls | src/core/rating/glicko2.service.ts:75-96 | whoever loses every game falls, down to the floor |
| Glicko2Results.BetterScoresRateHigher | src/core/rating/glicko2.service.ts:75-96 | with the same opponents and volatility, raising a score raises the rating and none is ever lowered; the deviation does not depend on the scores |
| Glicko2Results.ShiftIsSurplusPerPrecision | src/core/rating/glicko2.service.ts:87-94 | the rating moves by the weighted surplus divided by the new precision |
| Glicko2Results.StrongerIsExpectedToWin | src/core/rating/glicko2.service.ts:186-188 | the expected score is above one half exactly against a weaker opponent, one half against an equal one |
| Glicko2Results.FavouriteIsHigherRated | src/core/rating/glicko2.service.ts:60-67 | in rating points: the favourite is the higher rated player |
| Glicko2Results.ExpectationGrows | src/core/rating/glicko2.service.ts:186-188 | and it grows with the own rating |
| Glicko2Results.UncertainOpponentsCountLess | src/core/rating/glicko2.service.ts:181-183 | an opponent counts at most fully, and the less the more uncertain |
| Glicko2Results.WeightSquared | src/core/rating/glicko2.service.ts:181-183 | the square of the weight is pi squared in pi squared plus three squared deviations |
| Glicko2Results.InformationPeaksAtHalf | src/core/rating/glicko2.service.ts:69-73 | a game says at most a quarter of the squared weight, and that only between equals |
| Glicko2Results.ImprovementIsSurplusPerInformation | src/core/rating/glicko2.service.ts:70-79 | the improvement that enters the volatility equation, times the information, is the surplus |
| Glicko2Results.EquationOfPeriod | src/core/rating/glicko2.service.ts:81-108 | the equation is that of the squared deviation, the variance, the old volatility and the configured constant |
| Glicko2Update.UpdateDirection | src/core/rating/glicko2.service.ts:86-96 | the rating moves in the direction of the weighted surplus; the deviation ends below its sources |
| Chess.KeyDeterminesFields | src/core/chess/rules.ts:133-135 | equal position keys agree on placement, side to move, castling rights and en passant square |
| Chess.FieldsDetermineKey | src/core/chess/rules.ts:133-135 | positions that agree on the four fields have equal keys, whatever their move counters |
| Chess.EffectOnPotential | src/core/chess/rules.ts:85-108 | captures and pawn moves strictly lower a potential of the placement, other moves keep it |
| Zobrist.Xorshift64.Next | src/core/chess/rules.ts:272-294 | the n-th output of the 64-bit generator, and the state after it |
| Zobrist.OutputsNonZero | src/core/chess/rules.ts:272-294 | no key of the table is zero |
| Zobrist.FirstOutput | src/core/chess/rules.ts:272-294 | the first number of the platform's seed |
| Zobrist.BuildTables | src/core/chess/rules.ts:306-318 | the key tables are the generator's outputs in drawing order |
| Zobrist.HashBoard | src/core/chess/rules.ts:324-338 | the nested loop over ranks and files combines the keys of the occupied squares |
| Zobrist.ComputeHash | src/core/chess/rules.ts:320-355 | the loop over the board and the three further keys give the hash function |
| Zobrist.BoardDecides | src/core/chess/rules.ts:320-355 | of positions that differ in the board alone, the hashes are equal exactly if the board parts are |
| Zobrist.CastlingDecides | src/core/chess/rules.ts:320-355 | the same for castling rights |
| Zobrist.EnPassantDecides | src/core/chess/rules.ts:320-355 | the same for the en passant square |
| Zobrist.CastlingMaskTellsRights | src/core/chess/rules.ts:362-378 | the sixteen castling keys stand for the sixteen sets of rights |
| Zobrist.PieceKeyNonZero | src/core/chess/rules.ts:312-338 | each piece on each square has a key of its own place in the drawing, and none is zero |
| Zobrist.EnPassantShows | src/core/chess/rules.ts:380-386 | an en passant square always adds a key, that of its file |
| Zobrist.EqualKeysEqualHashes | src/core/chess/rules.ts:320-387 | equal position keys force equal hashes |
| Zobrist.SideAlwaysShows | src/core/chess/rules.ts:320-355 | positions differing only in the side to move never share a hash |
| Repetition.IrreversibleIsNew | src/modules/play/play.service.ts:519-531 | after a capture or pawn move the position has not occurred before, so skipping the test is sound |
| Repetition.EndsOnThirdOccurrence | src/core/chess/rules.ts:151-174 | a position that does not end the game by itself ends it exactly if two earlier ones have its key |
| Repetition.IndexedTestIsTheRule | src/modules/play/play.service.ts:519-531 | hash lookup, re-check and start bonus give the verdict of counting keys over the whole game |
| Material.CountPieces | src/core/chess/rules.ts:190-210 | the nested loop counts both sides' pieces and the shades of their bishops |
| Material.MatingIsStrength | src/core/chess/rules.ts:255-261 | a side has mating material exactly when its strength (majors and pawns two, minors one) is at least two |
| Material.DeadIsBySums | src/core/chess/rules.ts:220-243 | dead means at most one minor piece, or one bishop each on one shade |
| Material.DeadVersusMating | src/core/chess/rules.ts:220-261 | in a dead position nobody can mate; where nobody can mate, exactly when the position is dead |
| Material.MatingMaterialNeverReturns | src/core/chess/rules.ts:255-261 | no legal move gives a side back the mating material it lost |
| Material.DeadForGood | src/core/chess/rules.ts:212-243 | every legal continuation of a dead position is dead |
| Material.LostMaterialStaysLost | src/core/chess/rules.ts:220-261 | the same along any legal log, from any position to any later one |
| Material.NobodyWinsDeadOnTime | src/modules/play/play.service.ts:862-881 | no flag that falls in or after a dead position wins |
| Material.FlagIsWonByTheOther | src/modules/play/play.service.ts:862-881 | a flag gives the game to the other side exactly if that side has strength two, and never to the flagged one |
| Material.GameGoesOnIff | src/core/chess/rules.ts:151-174 | no end exactly if there is neither mate nor stalemate nor a dead position, the clock is below 100 and no third occurrence |
| Material.EndsInOrder | src/core/chess/rules.ts:151-174 | mate comes before every other end, stalemate next, repetition last |
| Material.HalfmoveClockIsFifthField | src/core/chess/rules.ts:121-125 | the clock is the number in the fifth field |
| Material.TwoStagesAreOne | src/modules/play/play.service.ts:514-531 | the move's two-stage end test equals the one function over the whole history |
| GamePgn.WritePgn | src/core/chess/rules.ts:431-444 | the loop numbers every second move and closes with the result |
| GamePgn.ShorterGameDiffers | src/core/chess/rules.ts:431-444 | leaving out last moves always shows in the text |
| GamePgn.TextReadsBack | src/core/chess/rules.ts:431-444 | word by word, the text gives back every move in its place and number, and the result last |
| GameProtocol.PlayRepository.AppendMove | src/modules/play/play.repository.ts:124-191 | one transaction: refused if the ply is taken or the game not active, otherwise move, position and end, with text and times left, together |
| GameProtocol.PlayRepository.FinishGame | src/modules/play/play.repository.ts:200-236 | writes status, winner, text and times left, only from ACTIVE |
| GameProtocol.PlayRepository.PositionOccurrences | src/modules/play/play.repository.ts:108-114 | the positions stored under a hash, in log order |
| GameProtocol.VerdictIsCurrent | src/modules/play/play.service.ts:514-574 | a move that is stored was judged on the whole log, however stale its reads could have been |
| GameProtocol.StepKeepsInv | src/modules/play/play.service.ts:452-574 | every step of every actor keeps the invariant |
| GameProtocol.EveryRunIsSound | src/modules/play/play.repository.ts:124-215 | in every run: plies are 1..n, each a legal successor, the row shows the last position, one finisher at most, no end overlooked, an end by a move stores the full text and the mover's stored time |
| GameProtocol.EndedForGood | src/modules/play/play.repository.ts:200-236 | once the status left ACTIVE nothing changes the row or the log |
| GameProtocol.DecisionTextFullIffReadCurrent | src/modules/play/play.service.ts:909-957 | a finisher without a move stores the whole game exactly if no move came after its read |
| GameProtocol.StaleTextHappens | src/modules/play/play.service.ts:909-957 | a run in which a stored move is missing from the text |
| GameOutcome.CheckmateIsWonByLastMover | src/modules/play/play.service.ts:533-553 | in every run a mated game is won by the side that moved last, and no other end by position by anybody |
| GameOutcome.CheckmateByParity | src/modules/play/play.service.ts:533-553 | if the sides move in turn: by White exactly after an odd number of half-moves |
| GameOutcome.ResultNamesWinner | src/modules/play/play.service.ts:1077-1091 | each of the four result texts exactly when |
| GameOutcome.MatedTextNamesWinner | src/modules/play/play.service.ts:540-553 | in every run the text of a mated game closes with the last mover's win |
| GameOutcome.MoveGoesThrough | src/modules/play/play.service.ts:452-587 | an undisturbed legal move is stored with text, position, hash and the mover's own time, and ends the game exactly as the rules say, won by the mover if it mates |
| GameOutcome.FinishGoesThrough | src/modules/play/play.service.ts:909-957 | an undisturbed decision ends the game with its status and winner and the whole text |
| GameOutcome.RefusedMoveChangesNothing | src/modules/play/play.service.ts:452-473 | a move out of turn, an illegal one, or one in an ended game changes nothing |
| ChessClock.ZeroWithoutFlag | src/core/clock/chess-clock.ts:156-182 | zero without a flag happens exactly when the time is used to the millisecond |
| ChessClock.SupportedIff | src/core/clock/chess-clock.ts:234-250 | a clock runs exactly if it is not multi-stage, has a positive base and no negative increment |
| ChessClock.FlaggedClock | src/core/clock/chess-clock.ts:191-209 | a fallen flag leaves the mover at zero and everything else as it was |
| ChessClock.ShownIsWhatAMoveLeaves | src/core/clock/chess-clock.ts:156-167 | the mover is shown what a move now would leave before the increment, the other side its stored time |
| ChessClock.TimeIsConserved | src/core/clock/chess-clock.ts:120-232 | over any accepted run, even with clocks going backward: time plus charge is base plus increments, thinking is bounded, and without a delay the charge is the thinking |
| ChessClock.OnlyTheMoverPays | src/core/clock/chess-clock.ts:191-232 | at every move of any accepted run the other side's time stands still and the mover's changes by charge and increment |
| ChessClock.NobodyGains | src/core/clock/chess-clock.ts:120-232 | without a Fischer increment neither side ever has more time than at any earlier moment of the run |
| ChessClock.MovesAlternate | src/core/clock/chess-clock.ts:191-218 | the turn alternates and each side has half of the moves |
| ChessClock.ThinkingAddsUp | src/core/clock/chess-clock.ts:120-143 | over any accepted run with clocks not going backward the two sides' thinking adds up to the time passed |
| ChessClock.DelayClocksAgree | src/core/clock/chess-clock.ts:126-143 | in any run the two delay clocks are the same clock |
| ChessClock.BronsteinRefunds | src/core/clock/chess-clock.ts:126-143 | after any accepted run, a move is charged its time less a refund of up to the delay |
| ClockCache.ClockStore.Update | src/modules/play/clock.store.ts:44-97 | replaces the entry only at the version read, and raises the version |
| ClockCache.ClockStore.UpdateOrClear | src/modules/play/play.service.ts:577-583 | a lost race removes the entry |
| ClockCache.LiveGame.Eviction | src/modules/play/clock.store.ts:73-84 | the entry may vanish; the log stays |
| ClockCache.LiveGame.FinishByTimeout | src/modules/play/play.service.ts:862-905 | a fallen flag ends the game and clears the entry, whether or not it was lost before |
| ClockCache.ReconstructClock | src/modules/play/play.service.ts:985-1006 | the loop finds each side's last stored time, or the base time; the turn is that of the stored position |
| ClockCache.LiveGame.MakeMove | src/modules/play/play.service.ts:483-583 | one move: read or rebuild, charge, store, write; the entry may be lost before and after the transaction, an illegal move stops after the reading, and one that ends the game clears the entry |
| ClockCache.LiveGame.ReadClock | src/modules/play/play.service.ts:483-511 | the clock before the move, charged, or a fallen flag |
| ClockCache.LiveGame.WriteClock | src/modules/play/play.service.ts:575-583 | a new entry where none was read; otherwise compare-and-set, or removal if that fails |
| ClockCache.FirstMoveIsFree | src/modules/play/play.service.ts:483-489 | White's first move leaves both sides their base time, however late it comes |
| ClockCache.MoveIsItsSteps | src/modules/play/play.service.ts:483-583 | the move in one piece is the run of its steps |
| ClockCache.RefusedIffFlagged | src/modules/play/play.service.ts:497-511 | a move is refused for time exactly if the flag check on the clock it reads says so, and then the mover shows zero |
| ClockCache.CacheAgreesWithLog | src/modules/play/play.service.ts:557-583 | in every run in which no dying request leaves its entry behind, with evictions between any two steps of a move too, a present entry has the times and turn of the log, without the move just stored and not yet written |
| ClockCache.AgreesThroughoutIffNothingLeft | src/modules/play/play.service.ts:570-583 | with requests that die at any step: entry and log agree at every moment of a run exactly if none dies between transaction and write while the entry is there |
| ClockCache.LeftBehindChargesTheOther | src/modules/play/play.service.ts:491-513 | on an entry left behind, the next move charges the side that has just moved and costs the mover nothing |
| ClockCache.LeftBehindHappens | src/modules/play/play.service.ts:570-583 | it happens when the request of the first move dies there |
| ClockCache.EvictionsHarmNobody | src/modules/play/play.service.ts:483-511 | as long as the run without evictions goes on and leaves nothing behind, neither side ever has less time than in it, and the game does not end earlier |
| Ledger.BuildAcceptsBalanced | src/core/billing/ledger.ts:118-156 | exactly the balanced sets of at least two positive entries on known accounts are accepted, unchanged |
| Ledger.ReverseUndoes | src/core/billing/ledger.ts:165-179 | a booked transaction can always be reversed, every account returns to where it was |
| Ledger.EntryFeeBooks | src/core/billing/ledger.ts:208-216 | an entry fee is accepted exactly if positive, and moves the provider's cash and the organiser's claim |
| Billing.BillingRepository.CreatePaymentIdempotent | src/modules/billing/billing.repository.ts:253-302 | a taken key returns its payment, a free one creates one |
| Billing.BillingRepository.ApplyPaymentSuccess | src/modules/billing/billing.repository.ts:347-442 | applied, duplicate or error, each exactly when, and the whole new state |
| Billing.BillingRepository.ApplyRefund | src/modules/billing/billing.repository.ts:453-530 | a refund is applied exactly from PAID; then the row is refunded and one batch is appended |
| Billing.BillingRepository.LedgerBalance | src/modules/billing/billing.repository.ts:541-567 | the loop sums an account's debit minus credit |
| BillingFlow.TransitionsMean | src/modules/billing/payment-status.machine.ts:16-51 | ended payments stay ended; payment comes only from waiting or a requested refund, and a refund only after a request |
| BillingFlow.StatusesMoveForward | src/modules/billing/billing.repository.ts:347-530 | in every step a status stays, goes from waiting to paid, or from paid to refunded |
| BillingFlow.RefundTakesEffect | src/modules/billing/billing.repository.ts:453-530 | committing a refund of a paid payment refunds that row alone, adds one reversing batch to its history, and lowers the provider's cash and the organiser's claim by the amount |
| BillingFlow.LateRefundChangesNothing | src/modules/billing/billing.repository.ts:475-482 | on a payment no longer paid it changes nothing |
| BillingFlow.RefundGoesThrough | src/modules/billing/billing.service.ts:385-437 | an undisturbed refund of a paid payment takes effect |
| BillingFlow.SuccessTakesEffect | src/modules/billing/billing.repository.ts:347-442 | committing a success pays that row alone, with its transaction, adds one batch to its history, and raises the booked provider's cash and the organiser's claim by the amount |
| BillingFlow.LateSuccessChangesNothing | src/modules/billing/billing.repository.ts:347-442 | if the status moved on or the transaction is taken it changes nothing |
| BillingFlow.ConfirmationGoesThrough | src/modules/billing/billing.service.ts:259-310 | an undisturbed confirmation of a waiting payment takes effect |
| BillingFlow.ManualIsPrepared | src/modules/billing/billing.service.ts:259-310 | a waiting manual payment is confirmed for its own provider |
| BillingFlow.WebhookIsPrepared | src/modules/billing/billing.service.ts:312-378 | a webhook is taken exactly if amount and currency are those of its payment |
| BillingFlow.WebhookTargetIs | src/modules/billing/billing.service.ts:312-345 | its payment is the one with its transaction, and if there is none the one it names |
| BillingFlow.InitiateTakesEffect | src/modules/billing/billing.repository.ts:253-302 | a new key gives one waiting payment with the terms asked for |
| BillingFlow.CheckoutIsFound | src/modules/billing/billing.service.ts:235-245 | after a checkout the provider's webhook finds the payment by its transaction |
| Billing.StepKeepsInv | src/modules/billing/billing.service.ts:259-437 | every step of every worker keeps the invariant |
| Billing.EveryRunIsSound | src/modules/billing/billing.repository.ts:347-530 | in every run keys and transactions are unique and each payment has nothing, one success, or a success and then one refund, as its status says |
| Billing.NoRefundIsEverRequested | src/modules/billing/payment-status.machine.ts:16-51 | in every run a payment is created, paid or refunded, so the table's second way into PAID is never taken |
| Billing.LedgerAgrees | src/modules/billing/billing.repository.ts:541-567 | the ledger balances, the organiser's claim is the negative sum of the paid payments, cash is each provider's paid sum plus what was misbooked |
| Billing.CashAgreementStep | src/modules/billing/billing.service.ts:312-378 | a step breaks the agreement of cash and paid payments exactly if it commits a success to another provider |
| Billing.CashAgreesInCleanRuns | src/modules/billing/billing.repository.ts:347-530 | without such a step they agree in the whole run |
| Billing.CashAgreesIfWebhooksMatch | src/modules/billing/billing.service.ts:312-378 | if every webhook is about a payment of its sender, every provider's cash is the sum of its paid payments in the whole run |
| Billing.CrossingWebhookBreaks | src/modules/billing/billing.service.ts:312-378 | a webhook about another provider's payment that may still be paid can break this in two more steps |
| Billing.WrongProviderHappens | src/modules/billing/billing.service.ts:312-378 | a run that does it |
| Money.Allocate | src/core/money/money.ts:130-163 | errors exactly when; the first `remainder` shares get one unit more; the update stays in bounds; the sum is the amount exactly if it is not negative or every share divides evenly |
| Money.CheckRatios | src/core/money/money.ts:131-145 | the total of the ratios, or the error for none, a negative one, or a zero total |
| Money.FloorShares | src/core/money/money.ts:147-155 | every share truncated, and what remains of the amount |
| Money.RemainderBounds | src/core/money/money.ts:145-160 | the remainder is less than the number of ratios, and never positive for a negative amount |
| Money.SharesAreFair | src/core/money/money.ts:130-163 | each share is within one unit of its exact part |
| Money.NegativeAmountIsLost | src/core/money/money.ts:145-160 | -1 in two halves gives nothing to either |
| Money.ZeroRatioCanBePaid | src/core/money/money.ts:155-160 | a zero ratio can receive the left-over unit |
| Money.RemainderBelowPositives | src/core/money/money.ts:145-160 | for an amount that is not negative the remainder is below the number of positive ratios |
| Money.ZeroRatioPaidIff | src/core/money/money.ts:155-160 | a zero ratio is paid, and then one unit, exactly if its position is below the remainder |
| Money.ZeroRatioPayable | src/core/money/money.ts:130-163 | that bound is met: some amount pays the zero ratio at a position exactly if one more is below the number of positive ratios |
| Money.PercentageRoundsUp | src/core/money/money.ts:105-114 | the result is the percentage rounded up, exactly when |
| Money.NegativeRateRoundsTooFar | src/core/money/money.ts:105-114 | a negative rate for which the result is not the percentage rounded up |
| Money.PercentageWithin | src/core/money/money.ts:105-114 | a commission of at most the whole never exceeds the amount |
| Invoice.ParseOfFormat | src/modules/billing/invoice-number.ts:14-32 | parsing a formatted number gives its sequence |
| Invoice.FormatOfParse | src/modules/billing/invoice-number.ts:12-32 | a string that matches the pattern is the format of its parts exactly when these are in range |
| Invoice.NumbersInOrder | src/modules/billing/billing.repository.ts:125-129 | within a year the order of the strings is the order of the sequences |
| Invoice.LastIsNewest | src/modules/billing/billing.repository.ts:125-129 | the greatest string with the year's prefix is the year's last invoice |
| Invoice.NextNumberIs | src/modules/billing/invoice-number.ts:34-41 | the next number is one after the year's last; error exactly for years out of range or used up |
| Invoice.StepKeepsInv | src/modules/billing/billing.repository.ts:121-172 | every read or insertion of any caller, however stale, keeps the invariant |
| Invoice.UndisturbedCallerGetsNext | src/modules/billing/billing.repository.ts:117-163 | a caller that is not overtaken gets the year's next number, issued then |
| Invoice.OvertakenCallerTriesThrice | src/modules/billing/billing.repository.ts:164-179 | an overtaken caller issues nothing, tries again, and gives up with its third attempt |
| Invoice.EveryRunIsContiguous | src/modules/billing/billing.repository.ts:117-179 | in every run a year's numbers are exactly 1..n in order, and no two callers get the same |
| Invoice.LostIff | src/modules/billing/billing.repository.ts:164-172 | an attempt is lost exactly if another invoice of that year was committed in between |
| Invoice.InvoiceRepository.FindLast | src/modules/billing/billing.repository.ts:125-129 | the query's loop finds the greatest string with the prefix |
| Invoice.InvoiceRepository.Insert | src/modules/billing/billing.repository.ts:132-143 | inserts exactly if the number is free |
| Invoice.InvoiceRepository.CreateInvoice | src/modules/billing/billing.repository.ts:117-179 | the retry loop over three attempts is the recursive definition |
| Invoice.CreatedAtFirstClear | src/modules/billing/billing.repository.ts:117-179 | the number comes from the first attempt that was not overtaken, and is new |
| Invoice.AttemptsKeepContiguous | src/modules/billing/billing.repository.ts:117-179 | whatever comes of the attempts, every year's numbers stay 1..n |
| Invoice.GivesUpOnlyIfOvertaken | src/modules/billing/billing.repository.ts:174-178 | the conflict error means that every attempt was overtaken |
| ResultMapping.BuildScoreView | src/modules/arbiter/result-mapping.ts:114-171 | the loop's counters are the points, counts, colours and games of the participant |
| ResultMapping.BuildScoreViews | src/modules/arbiter/result-mapping.ts:114-171 | one view per participant, over the sorted history |
| ResultMapping.ViewAddsUp | src/modules/arbiter/result-mapping.ts:114-171 | wins, draws and losses account for every counted game and every point |
| ResultMapping.PointsForgetOrder | src/modules/arbiter/result-mapping.ts:114-171 | points do not depend on the order of the history |
| ResultMapping.PointsAreConserved | src/modules/arbiter/result-mapping.ts:50-84 | all participants' points together are the values of all pairings together |
| ResultLaws.WinnerGetsThePoint | src/modules/arbiter/result-mapping.ts:50-73 | the named winner, by game or forfeit, gets the whole point and the other side none |
| ResultLaws.NobodyWins | src/modules/arbiter/result-mapping.ts:50-73 | a draw is half a point each, a double forfeit nothing |
| ResultLaws.MirroredOutcomes | src/modules/arbiter/result-mapping.ts:50-73 | exchanging the sides exchanges the outcomes |
| ResultLaws.ByesAreForOne | src/modules/arbiter/result-mapping.ts:50-73 | a bye counts for its player alone |
| ResultLaws.PlayedMakesOnePoint | src/modules/arbiter/result-mapping.ts:50-73 | over the board the two scores make one point; an unplayed pairing counts for nobody |
| ResultLaws.WinnerGainsThePoint | src/modules/arbiter/result-mapping.ts:114-171 | a decisive pairing adds the point to the winner and nothing to anybody else |
| ResultLaws.GameIsOnBothRecords | src/modules/arbiter/result-mapping.ts:114-171 | a game is on both records with the other as opponent, the own colour and the own share |
| ResultLaws.ForfeitIsOnBothRecords | src/modules/arbiter/result-mapping.ts:114-171 | a forfeit is on both records without a colour |
| ResultLaws.ByeIsOnOneRecord | src/modules/arbiter/result-mapping.ts:114-171 | a bye is on one record, without opponent and colour |
| ResultLaws.NothingElseCounts | src/modules/arbiter/result-mapping.ts:114-171 | an unplayed pairing, or one of others, leaves a view as it was |
| ResultLaws.HistoryInRoundOrder | src/modules/arbiter/result-mapping.ts:114-118 | the history is read round by round with nothing lost |
| PairingStates.GroupByRound | src/modules/arbiter/pairing-state.builder.ts:48-56 | the buckets are the rounds of the history |
| PairingStates.FloatGame | src/modules/arbiter/pairing-state.builder.ts:90-103 | of two players with different points the higher floats down and the lower up |
| PairingStates.FloatEntry | src/modules/arbiter/pairing-state.builder.ts:79-114 | what one entry does to the float arrays |
| PairingStates.ApplyPoints | src/modules/arbiter/pairing-state.builder.ts:116-128 | the running points grow by what the round's entries are worth |
| PairingStates.FloatPass | src/modules/arbiter/pairing-state.builder.ts:58-129 | the first pass gives every participant the float history and ends with the points of all rounds |
| PairingStates.ParticipantPass | src/modules/arbiter/pairing-state.builder.ts:132-169 | the second pass gives points, opponents, colours and the bye bar |
| PairingStates.LastRound | src/modules/arbiter/pairing-state.builder.ts:45-45 | the highest round number, at least zero |
| PairingStates.BuildPairingStates | src/modules/arbiter/pairing-state.builder.ts:40-186 | the state of each participant, defined on the sorted history |
| PairingAgreement.RunningPointsAgree | src/modules/arbiter/pairing-state.builder.ts:64-129 | running points, second-pass points and score-view points agree |
| PairingAgreement.StatesConservePoints | src/modules/arbiter/pairing-state.builder.ts:132-186 | all points together are what the pairings handed out |
| PairingAgreement.OpponentsSymmetric | src/modules/arbiter/pairing-state.builder.ts:149-151 | being an opponent is mutual |
| PairingAgreement.OpponentsArePaired | src/modules/arbiter/pairing-state.builder.ts:149-151 | opponents are exactly those one was paired with |
| PairingAgreement.ByeBarredAfterFreePoint | src/modules/arbiter/pairing-state.builder.ts:132-169 | a bye is barred exactly after a whole point without a game |
| PairingAgreement.PointsBeforeAreEarlier | src/modules/arbiter/pairing-state.builder.ts:64-129 | the points that decide the floats of a round are those of the rounds before it |
| PairingAgreement.StateCarriesParticipant | src/modules/arbiter/pairing-state.builder.ts:171-184 | the other fields are the participant's, unrated as 0 and joined in round 1 unless said otherwise |
| FloatRules.FloatsFollowTheRule | src/modules/arbiter/pairing-state.builder.ts:28-37 | Up exactly for playing somebody with more points, Down exactly for playing somebody with fewer or for points without a game |
| FloatRules.UpMeetsDown | src/modules/arbiter/pairing-state.builder.ts:92-102 | whoever floated up did so in a game of that round, against an opponent who floated down in it |
| PairingOrder.StatesForgetOrder | src/modules/arbiter/pairing-state.builder.ts:40-186 | reading the history in another order changes no state |
| TieBreak.BuildContext | src/core/tiebreak/tiebreak.calculator.ts:230-260 | succeeds exactly on distinct ids and known opponents, with the rounds of the longest record; otherwise reports the first duplicate, else the first inconsistent game |
| TieBreak.CollectPlayers | src/core/tiebreak/tiebreak.calculator.ts:230-244 | players by id and the longest record, or the first id that occurs twice |
| TieBreak.CheckGames | src/core/tiebreak/tiebreak.calculator.ts:246-257 | finds the first inconsistent game, exactly if there is one |
| TieBreak.BuchholzContributions | src/core/tiebreak/tiebreak.calculator.ts:314-333 | one contribution per game, the virtual opponent's for games not played |
| TieBreak.BuchholzCut | src/core/tiebreak/tiebreak.calculator.ts:341-352 | the sum without the cut ends of the sorted contributions |
| TieBreak.CumulativeLoop | src/core/tiebreak/tiebreak.calculator.ts:434-449 | the sum of the running scores |
| TieBreakKeys.SonnebornBergerLoop | src/core/tiebreak/tiebreak.calculator.ts:360-368 | the loop sums opponents' points times results over the board |
| TieBreakKeys.KoyaLoop | src/core/tiebreak/tiebreak.calculator.ts:451-463 | the loop sums the results against those with half of the points |
| TieBreakKeys.CountLoop | src/core/tiebreak/tiebreak.calculator.ts:472-495 | the counting loops of wins and Black games |
| TieBreakKeys.AroLoop | src/core/tiebreak/tiebreak.calculator.ts:209-225 | the loop averages the ratings that count |
| TieBreakKeys.SumLoop | src/core/tiebreak/tiebreak.calculator.ts:282-288 | the loop that adds up contributions |
| TieBreakKeys.InternalIsWinsAndDraws | src/core/tiebreak/tiebreak.calculator.ts:398-411 | Direct Encounter measures twice the wins plus the draws over the board within the group |
| TieBreakKeys.KoyaIsWinsAndDraws | src/core/tiebreak/tiebreak.calculator.ts:451-463 | Koya the same against the top half |
| TieBreakKeys.SonnebornBergerIs | src/core/tiebreak/tiebreak.calculator.ts:360-368 | the points of beaten opponents twice, of drawn ones once |
| TieBreakKeys.OneMoreGameCounts | src/core/tiebreak/tiebreak.calculator.ts:472-495 | wins count against opponents, forfeits included; Black games only over the board |
| TieBreakKeys.ContributionIs | src/core/tiebreak/tiebreak.calculator.ts:314-333 | an opponent met over the board counts with its final points; an unplayed round with the record of a virtual opponent who then draws to the end |
| TieBreakKeys.AroIsAverage | src/core/tiebreak/tiebreak.calculator.ts:209-225 | the average lies between any bounds on the ratings that count, and is 0 if none does |
| TieBreakKeys.OpponentRatingIs | src/core/tiebreak/tiebreak.calculator.ts:209-225 | an opponent counts with its rating, else the configured one, else not |
| TieBreakKeys.MetAllMeansEach | src/core/tiebreak/tiebreak.calculator.ts:397-414 | counting the opponents met is enough: it says that each other member was met |
| TieBreakKeys.AcceptedIff | src/core/tiebreak/tiebreak.calculator.ts:246-257 | the games are consistent exactly if each one over the board names an opponent and every opponent is a player |
| TieBreak.GroupByPoints | src/core/tiebreak/tiebreak.calculator.ts:379-389 | the groups are the players on equal points |
| TieBreak.MeetGroup | src/core/tiebreak/tiebreak.calculator.ts:398-411 | whom of the group a player met over the board, and the score in these games |
| TieBreak.ScoreGroup | src/core/tiebreak/tiebreak.calculator.ts:391-417 | whether everybody in the group met everybody, and the scores if so |
| TieBreak.DirectEncounters | src/core/tiebreak/tiebreak.calculator.ts:379-424 | group by points, then a mini-tournament per group or null for all of it |
| Ranking.ComputeInternal | src/core/tiebreak/tiebreak.calculator.ts:176-199 | one table per key, with the value of every player |
| Ranking.SkippingCanCycle | src/core/tiebreak/tiebreak.calculator.ts:142-173 | skipping nulls is not transitive in general |
| Ranking.KeysTransitive | src/core/tiebreak/tiebreak.calculator.ts:142-173 | it is transitive where each key applies to both players or to neither |
| Ranking.DirectEncounterAllOrNone | src/core/tiebreak/tiebreak.calculator.ts:379-424 | Direct Encounter is null for a whole points group or for none of it, and no other key is ever null |
| Ranking.Dedupe | src/core/tiebreak/tiebreak.calculator.ts:270-280 | each key once, at its first place |
| Ranking.OrderIsTotal | src/core/tiebreak/tiebreak.calculator.ts:142-173 | so the comparator is a total order on players |
| Ranking.Rank | src/core/tiebreak/tiebreak.calculator.ts:142-173 | the ranking, or the first error of the input, exactly if it is inconsistent |
| Ranking.RankedIsSorted | src/core/tiebreak/tiebreak.calculator.ts:142-173 | a permutation of the players, pairwise in order, points never rising |
| Ranking.RankingForgetsOrder | src/core/tiebreak/tiebreak.calculator.ts:142-173 | the ranking does not depend on the order of the input |
| Ranking.CutsDropExtremes | src/core/tiebreak/tiebreak.calculator.ts:341-352 | Cut-1 drops a smallest contribution, the median a smallest and a largest |
| Ranking.CumulativeIsWeighted | src/core/tiebreak/tiebreak.calculator.ts:434-449 | the cumulative score weights each game by the rounds that follow it |
| RankingMeaning.FirstSpeakingKeyDecides | src/core/tiebreak/tiebreak.calculator.ts:158-168 | the first key that is present for both and differs decides, the higher value first |
| RankingMeaning.SilentKeysLeaveTheId | src/core/tiebreak/tiebreak.calculator.ts:158-170 | if there is none the smaller id stands first |
| RankingMeaning.DedupingIsHarmless | src/core/tiebreak/tiebreak.calculator.ts:270-280 | a repeated key changes no comparison |
| RankingMeaning.RankedByGivenKeys | src/core/tiebreak/tiebreak.calculator.ts:142-173 | the ranking is sorted by the keys exactly as they were given |
| RankingMeaning.MorePointsStandBefore | src/core/tiebreak/tiebreak.calculator.ts:148-152 | more points stand before fewer, whatever the keys |
| RankingMeaning.EncounterIsTheirGame | src/core/tiebreak/tiebreak.calculator.ts:379-424 | of two players alone on their points who met once, Direct Encounter gives each the result of that game |
| RankingMeaning.WinnerOfTheirGameStandsBefore | src/core/tiebreak/tiebreak.calculator.ts:142-173 | with Direct Encounter first, the winner of that game stands before the loser |
| RankingMeaning.BuchholzKeysMeasure | src/core/tiebreak/tiebreak.calculator.ts:178-183 | all contributions, all but the smallest, all but both extremes |
| RankingMeaning.ResultKeysMeasure | src/core/tiebreak/tiebreak.calculator.ts:184-197 | what the keys about own results measure, in wins and draws |
| Matchmaking.Queue.Join | src/modules/play/matchmaking.service.ts:150-197 | a second join is refused while the marker is there; others may come between the marker and the queue |
| Matchmaking.Queue.Leave | src/modules/play/matchmaking.service.ts:199-220 | leaves exactly if the marker was there; others may come between the reading and the removal |
| Matchmaking.Queue.Mark | src/modules/play/matchmaking.service.ts:165-174 | the marker is set exactly if there is none |
| Matchmaking.Queue.Enter | src/modules/play/matchmaking.service.ts:176-184 | player and data enter together |
| Matchmaking.Queue.Remove | src/modules/play/matchmaking.service.ts:208-218 | player, data and marker go together |
| Matchmaking.Queue.PairScript | src/modules/play/matchmaking.service.ts:119-127 | both players leave the queue or neither |
| Matchmaking.LongerWaitSetsWindow | src/modules/play/matchmaking.service.ts:67-70 | the window grows with the wait, so the longer wait sets it, up to the maximum |
| Matchmaking.DefaultWindow | src/modules/play/matchmaking.service.ts:59-70 | with the default numbers, from 200 points to 500, reached after a minute |
| Matchmaking.FitIffWithinLongerWindow | src/modules/play/matchmaking.service.ts:285-291 | two fit exactly if their ratings are within the window of the one who waited longer |
| Matchmaking.WindowWidensByStep | src/modules/play/matchmaking.service.ts:67-70 | the window starts at its initial width and widens by one step per interval, up to the maximum |
| Matchmaking.WaitingListIs | src/modules/play/matchmaking.service.ts:262-273 | listed are exactly the members whose data is there, with score and data, each once, longest waiting first |
| Matchmaking.FindPartner | src/modules/play/matchmaking.service.ts:277-303 | the first player who fits and whose script succeeds; for everybody who fits and was passed over, the script of that very pair failed |
| Matchmaking.SweepTurn | src/modules/play/matchmaking.service.ts:262-309 | one turn pairs and splices, or goes on, and keeps the list sound |
| Matchmaking.SweepBucket | src/modules/play/matchmaking.service.ts:244-309 | terminates; every match is fair, gives White to the longer wait and was a game for both; listed players are matched or left exactly once; for each fitting pair left over, its own script found one of them gone |
| Matchmaking.NobodyTwice | src/modules/play/matchmaking.service.ts:244-309 | nobody plays twice, and nobody left over plays |
| Matchmaking.OneGamePerJoin | src/modules/play/matchmaking.service.ts:150-220 | in every state that the queue's steps can reach, a player was paired at most once for each join |
| RatingPeriod.GroupGamesByPlayer | src/modules/rating/period-computation.ts:131-161 | every player's games by pairing id, and no other players |
| RatingPeriod.ResultFor | src/modules/rating/period-computation.ts:215-272 | one player's result from the player's games and the snapshots, or the calculator's error |
| RatingPeriod.ComputePeriodResults | src/modules/rating/period-computation.ts:204-274 | one result per player with a state or a game, by ascending id, each from the snapshots before the period; or the calculator's error for the first player for whom it fails |
| RatingOrder.GameOrderIrrelevant | src/modules/rating/period-computation.ts:131-161 | with distinct pairing ids, the order in which games arrive changes no player's result |
| RatingOrder.ResultListForgetsOrder | src/modules/rating/period-computation.ts:131-274 | nor the list of results |
| RatingPeriod.BothSidesOfAGame | src/modules/rating/period-computation.ts:107-161 | a game enters both calculations against the other's snapshot, with scores that sum to one |
| RatingPeriod.WinnerScoresOne | src/modules/rating/period-computation.ts:107-114 | the winner's calculation gets one point, the loser's none, a draw half for each |
| RatingPeriod.RatedAgainstSnapshots | src/modules/rating/period-computation.ts:219-246 | the calculator is asked with the own snapshot and, game by game, the opponent's rating and deviation and the score |
| RatingPeriod.SettlingKeepsTheBest | src/modules/rating/period-computation.ts:248-259 | games add up; established stays, and is reached exactly by 8 games and deviation 110; the peak is the best rating of an established player |
| RatingPeriod.RoundIsNearest | src/modules/rating/period-computation.ts:256-256 | the peak is compared in whole points, rounded to the nearest |
| RatingPeriod.NewPlayersStart | src/modules/rating/period-computation.ts:48-55 | a player without a row starts at 1500, 350, 0.06, provisional |
| RatingRecompute.BuildPrePeriodStates | src/modules/rating/rating.service.ts:276-327 | the loop fills a state for every player with a row or a game |
| RatingRecompute.RecomputeReproduces | src/modules/rating/rating.service.ts:276-327 | recomputing a stored period, whatever stood there before, gives the same ratings, counts and peak, and the same flag exactly under a stated condition |
| RatingRecompute.StoredRowsFollow | src/modules/rating/period-computation.ts:116-118 | every stored row is provisional only if its numbers are not established |
| RatingRecompute.StatesFollowRows | src/modules/rating/rating.service.ts:276-327 | so the same holds of the states of any later computation |
| RatingRecompute.RecomputationsAgree | src/modules/rating/rating.service.ts:179-327 | however often a period is recomputed, every computation from the first stored table on starts from the same states |
| RatingRecompute.RecomputedTablesStandStill | src/modules/rating/rating.repository.ts:441-530 | and stores the same results and, from the first recomputation on, the same tables, flag included |
| RatingRecompute.FlagCanChange | src/modules/rating/rating.service.ts:276-327 | a row that is stored as established and recomputed as provisional |
| RatingHistory.RecomputationStartsWhereItFirstDid | src/modules/rating/rating.service.ts:276-327 | over any run of computations of any periods: a recomputation starts from the row as it stood at the period's first computation |
| RatingHistory.LastComputationDecides | src/modules/rating/rating.service.ts:191-327 | over any such run: computing a period again gives everybody it covered the rating it gave then, whatever was computed or corrected in between |
| RatingHistory.RecomputeKeepsRatingIff | src/modules/rating/rating.repository.ts:441-530 | it leaves the row's rating as it is exactly if the row still holds what the period stored, as it does if that period was computed last |
| RatingHistory.EveryPeriodCountsOnce | src/modules/rating/rating.service.ts:300-312 | over any run the row counts the games of every computed period exactly once |
| RatingHistory.EarlierPeriodErasesLater | src/modules/rating/rating.service.ts:276-327 | recomputing March after April takes April's change out of the rating |
| RatingHistory.CorrectionStopsAtItsPeriod | src/modules/rating/rating.service.ts:276-327 | a corrected March followed by April again leaves April's rating as it was |
| PgnWriter.Wrap | src/core/export/pgn-writer.ts:191-209 | the loop gives the lines of the recursive filling, joined by line breaks |
| PgnWriter.WrapKeepsWords | src/core/export/pgn-writer.ts:191-209 | no word is lost or reordered, whatever the text |
| PgnWriter.WrapRejoins | src/core/export/pgn-writer.ts:191-209 | rejoining the lines with spaces gives a normalised text back |
| PgnWriter.WrapWidth | src/core/export/pgn-writer.ts:191-209 | no line is over 80 columns unless it is one longer word |
| PgnWriter.WrapOptimal | src/core/export/pgn-writer.ts:191-209 | no legal wrapping has fewer lines |
| PgnWriter.ClosingTokens | src/core/export/pgn-writer.ts:180-189 | any of the four results closes a text |
| PgnWriter.BuildMovetext | src/core/export/pgn-writer.ts:180-189 | the result token alone for an empty game, otherwise the wrapped, closed text |
| PgnWriter.CollapsedHasOnlySpaces | src/core/export/pgn-writer.ts:180-189 | after collapsing no white space but spaces is left |
| PgnWriter.ClosedIsNormalised | src/core/export/pgn-writer.ts:180-189 | the text that is wrapped is always normalised and ends in a result token |
| PgnWriter.MovetextKeepsTokens | src/core/export/pgn-writer.ts:180-209 | the written tokens are the stored ones, with the result token added only if missing |

## Left out

- The Swiss engine: its matching and colour allocation lie in files that are not part of this model.
- Move generation, SAN and FEN parsing (the chess.js library): positions are strings, and a library
  value with stated laws says what a legal move does to the board.
- IEEE rounding and the accuracy of `Math.exp`, `Math.log` and `Math.sqrt`: these are parameters over
  the reals, of which only positivity, monotonicity, the inverse laws and, for `exp`, lying above its
  tangents are used.
- Glicko2.Illinois: does not show that the iteration limit is never reached; the error stays possible.
- Glicko2Update.Compute: does not model that a database column rounds the stored values.
- RatingRecompute.RecomputeReproduces: one period, no other one stored since, with the same games each
  time; what other periods do is in `RatingHistory`. Generations, the advisory lock and the audit record
  are not modelled.
- RatingRecompute.RecomputationsAgree: the same period and games only, as above.
- RatingRecompute.RecomputedTablesStandStill: the same period and games only, as above.
- RatingHistory.LastComputationDecides: one computation at a time; reading the states and storing the
  results are one step.
- GameProtocol.EveryRunIsSound: draw offers, presence and abandonment timers appear only as decisions
  that may be made at any time, and clock values as what the actor brings.
- GameProtocol.PlayRepository.AppendMove: the audit row and the think time are left out.
- GameProtocol.PlayRepository.FinishGame: the audit row and the time of the end are left out.
- ClockCache.CacheAgreesWithLog: sequential requests of one game only; concurrent writers of the cache
  entry are excluded, since its version restarts whenever it is initialised.
- ClockCache.LiveGame.MakeMove: how the move is judged is in `Repetition` and `Material`, and a request
  that dies halfway is a step of the runs, not of this method.
- ClockCache.LiveGame.FinishByTimeout: the clock only; who wins is in `Material`, and another finisher
  cannot come first when there is one request at a time.
- Billing.BillingRepository.ApplyPaymentSuccess: payment and ledger only; invoice and registration
  status, audit rows and the outbox of the same transaction are left out.
- Billing.BillingRepository.ApplyRefund: payment and ledger only, as above.
- Billing.EveryRunIsSound: does not cover invoice and registration status, audit rows, the outbox, or
  several currencies; `booked` in a payment is a history variable, and the position in the list stands
  for the payment id.
- Matchmaking.SweepBucket: one pool at a time; game creation after the script, the sorted-set order of
  Redis and timeouts of queue keys are left out.
- Matchmaking.Queue.Join: the match attempted at once on joining is left out.
- Matchmaking.Queue.Leave: the pool that the marker names is left out, there being one.
- Invoice.EveryRunIsContiguous: the registration and audit writes of the same transaction are left out;
  years are non-negative.
- Money.PercentageRoundsUp: one currency; mixing currencies raises an error that is not modelled.
- PgnWriter.Wrap: columns are counted in characters, not in UTF-16 units; tag pairs and forfeit comments
  are left out.
- Zobrist.ComputeHash: the hexadecimal form in which hashes are stored.
- FloatRules.FloatsFollowTheRule: assumes that nobody is paired twice in a round and that byes and games
  carry matching results; the builder itself does not check either.
- Controllers, gateways, metrics, e-mail, PDF, configuration and the web client: plumbing.
