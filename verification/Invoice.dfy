/**
 Invoice numbers `FRZ-YYYY-NNNNNN`: their form, and how new ones are found when several callers
 create invoices at once. The next number comes from the greatest string that starts with the
 year's prefix, possibly read too early; a unique column rejects a number already taken, and the
 caller tries again, three times in all.
 */
module Invoice {
  import opened Wrappers
  import opened StringOrder
  import opened Decimal

  // ---------------------------------------------------------------------------------------
  //  Form
  // ---------------------------------------------------------------------------------------

  datatype RangeError = BadYear | BadSequence

  predicate YearInRange(year: int) { 2000 <= year <= 9999 }

  predicate SequenceInRange(sequence: int) { 1 <= sequence <= 999999 }

  function Prefix(year: nat): string { "FRZ-" + ToString(year) + "-" }

  function Number(year: nat, sequence: nat): string { Prefix(year) + PadStart(ToString(sequence), 6) }

  function FormatInvoiceNumber(year: int, sequence: int): Result<string, RangeError> {
    if !YearInRange(year) then Err(BadYear)
    else if !SequenceInRange(sequence) then Err(BadSequence)
    else Ok(Number(year, sequence))
  }

  /** The pattern `^FRZ-(\d{4})-(\d{6})$`. */
  predicate MatchesPattern(s: string) {
    |s| == 15 && s[..4] == "FRZ-" && AllDigits(s[4..8]) && s[8] == '-' && AllDigits(s[9..])
  }

  function ParseInvoiceSequence(number: string): Option<nat> {
    if MatchesPattern(number) then Some(ParseNat(number[9..])) else None
  }

  function NextInvoiceSequence(last: Option<string>): nat {
    if last.None? then 1
    else
      var sequence := ParseInvoiceSequence(last.value);
      if sequence.None? then 1 else sequence.value + 1
  }

  lemma YearHasFourDigits(year: int)
    requires YearInRange(year)
    ensures |ToString(year)| == 4
  {
    assert |ToString(year / 10 / 10 / 10)| == 1;
    assert |ToString(year / 10 / 10)| == 2;
    assert |ToString(year / 10)| == 3;
  }

  lemma SequenceHasSixDigits(sequence: nat)
    requires sequence <= 999999
    ensures |PadStart(ToString(sequence), 6)| == 6
  {
    assert Pow10(6) == 1000000;
    ToStringLength(sequence, 6);
  }

  lemma PartsOfNumber(year: int, sequence: int)
    requires YearInRange(year) && SequenceInRange(sequence)
    ensures var s := Number(year, sequence);
            && MatchesPattern(s)
            && s[..9] == Prefix(year) && s[4..8] == ToString(year)
            && s[9..] == PadStart(ToString(sequence), 6)
  {
    YearHasFourDigits(year);
    SequenceHasSixDigits(sequence);
    ParseOfPadded(sequence, 6);
    var s := Number(year, sequence);
    assert s[..4] == "FRZ-" && s[4..8] == ToString(year) && s[8] == '-';
    assert s[9..] == PadStart(ToString(sequence), 6);
  }

  lemma ParseOfFormat(year: int, sequence: int)
    requires FormatInvoiceNumber(year, sequence).Ok?
    ensures ParseInvoiceSequence(FormatInvoiceNumber(year, sequence).value) == Some(sequence)
  {
    PartsOfNumber(year, sequence);
    ParseOfPadded(sequence, 6);
  }

  /** Numerals of the same length and value are the same numeral. */
  lemma NumeralsByValue(a: string, b: string)
    requires AllDigits(a) && AllDigits(b) && |a| == |b| && ParseNat(a) == ParseNat(b)
    ensures a == b
  {
    OrderOfNumerals(a, b);
    OrderOfNumerals(b, a);
    BeforeTotal(a, b);
  }

  /** Conversely, what matches the pattern was formatted from its year and sequence, these being in range. */
  lemma FormatOfParse(s: string)
    requires MatchesPattern(s)
    ensures ParseNat(s[4..8]) >= 2000 && ParseInvoiceSequence(s).value >= 1
            <==> FormatInvoiceNumber(ParseNat(s[4..8]), ParseInvoiceSequence(s).value) == Ok(s)
  {
    var year, sequence := ParseNat(s[4..8]), ParseNat(s[9..]);
    ParseBound(s[4..8]);
    ParseBound(s[9..]);
    assert Pow10(4) == 10000 && Pow10(6) == 1000000;
    if year >= 2000 && sequence >= 1 {
      PartsOfNumber(year, sequence);
      ParseOfToString(year);
      ParseOfPadded(sequence, 6);
      NumeralsByValue(s[4..8], ToString(year));
      NumeralsByValue(s[9..], PadStart(ToString(sequence), 6));
      assert s == s[..4] + s[4..8] + [s[8]] + s[9..];
    }
  }

  lemma {:induction false} BeforeAfterPrefix(p: string, a: string, b: string)
    ensures Before(p + a, p + b) <==> Before(a, b)
  {
    if p == "" {
      assert p + a == a && p + b == b;
    } else {
      BeforeAfterPrefix(p[1..], a, b);
      assert (p + a)[1..] == p[1..] + a && (p + b)[1..] == p[1..] + b;
    }
  }

  /** Within a year the order of the strings is the order of the sequences. */
  lemma NumbersInOrder(year: int, a: int, b: int)
    requires YearInRange(year) && SequenceInRange(a) && SequenceInRange(b)
    ensures Before(Number(year, a), Number(year, b)) <==> a < b
  {
    BeforeAfterPrefix(Prefix(year), PadStart(ToString(a), 6), PadStart(ToString(b), 6));
    SequenceHasSixDigits(a);
    SequenceHasSixDigits(b);
    ParseOfPadded(a, 6);
    ParseOfPadded(b, 6);
    OrderOfNumerals(PadStart(ToString(a), 6), PadStart(ToString(b), 6));
  }

  predicate HasPrefix(s: string, p: string) { |p| <= |s| && s[..|p|] == p }

  lemma PrefixTellsYear(year: int, sequence: int, other: int)
    requires YearInRange(year) && SequenceInRange(sequence) && YearInRange(other)
    ensures HasPrefix(Number(year, sequence), Prefix(other)) <==> year == other
  {
    PartsOfNumber(year, sequence);
    YearHasFourDigits(other);
    assert Prefix(other)[4..8] == ToString(other);
    assert Number(year, sequence)[..9][4..8] == ToString(year);
    ParseOfToString(year);
    ParseOfToString(other);
  }

  // ---------------------------------------------------------------------------------------
  //  The table
  // ---------------------------------------------------------------------------------------

  /** The greatest number, as a string, among those with a prefix. */
  function LastOf(numbers: seq<string>, prefix: string): Option<string> {
    if numbers == [] then None
    else
      var best, s := LastOf(numbers[..|numbers| - 1], prefix), numbers[|numbers| - 1];
      if HasPrefix(s, prefix) && (best.None? || Before(best.value, s)) then Some(s) else best
  }

  /** A year's numbers, in the order in which they were inserted. */
  function OfYear(numbers: seq<string>, year: nat): seq<string> {
    if numbers == [] then []
    else
      var s := numbers[|numbers| - 1];
      OfYear(numbers[..|numbers| - 1], year) + if HasPrefix(s, Prefix(year)) then [s] else []
  }

  function Issued(year: nat, n: nat): (r: seq<string>)
    ensures |r| == n
  {
    seq(n, i requires 0 <= i < n => Number(year, i + 1))
  }

  /** The numbers of a year are exactly 1, ..., n, in this order. */
  ghost predicate InSequence(numbers: seq<string>, year: nat) {
    var n := |OfYear(numbers, year)|;
    n <= 999999 && OfYear(numbers, year) == Issued(year, n)
  }

  ghost predicate Contiguous(numbers: seq<string>) {
    forall year: nat :: YearInRange(year) ==> InSequence(numbers, year)
  }

  function NextNumber(numbers: seq<string>, year: nat): Result<string, RangeError> {
    FormatInvoiceNumber(year, NextInvoiceSequence(LastOf(numbers, Prefix(year))))
  }

  lemma {:induction false} OfYearMembers(numbers: seq<string>, year: nat)
    ensures forall s :: s in OfYear(numbers, year) <==> s in numbers && HasPrefix(s, Prefix(year))
  {
    if numbers != [] {
      OfYearMembers(numbers[..|numbers| - 1], year);
      assert numbers == numbers[..|numbers| - 1] + [numbers[|numbers| - 1]];
    }
  }

  lemma OfYearAppend(numbers: seq<string>, s: string, year: nat)
    ensures OfYear(numbers + [s], year) == OfYear(numbers, year) + if HasPrefix(s, Prefix(year)) then [s] else []
  {
    assert (numbers + [s])[..|numbers|] == numbers;
  }

  lemma LastOfAppend(numbers: seq<string>, s: string, prefix: string)
    ensures var best := LastOf(numbers, prefix);
            LastOf(numbers + [s], prefix) ==
            if HasPrefix(s, prefix) && (best.None? || Before(best.value, s)) then Some(s) else best
  {
    assert (numbers + [s])[..|numbers|] == numbers;
  }

  /** What the last row of a table in sequence is, as far as the year is concerned. */
  lemma InSequenceBefore(numbers: seq<string>, s: string, year: nat)
    requires InSequence(numbers + [s], year)
    ensures InSequence(numbers, year)
    ensures HasPrefix(s, Prefix(year)) ==>
              |OfYear(numbers, year)| < 999999 && s == Number(year, |OfYear(numbers, year)| + 1)
  {
    OfYearAppend(numbers, s, year);
    var before, after := OfYear(numbers, year), OfYear(numbers + [s], year);
    var n := |before|;
    assert before == after[..n];
    assert before == Issued(year, n);
    if HasPrefix(s, Prefix(year)) { assert after[n] == Issued(year, n + 1)[n]; }
  }

  lemma NextIsGreater(best: Option<string>, s: string, year: int, n: nat)
    requires YearInRange(year) && n < 999999 && s == Number(year, n + 1)
    requires best == if n == 0 then None else Some(Number(year, n))
    ensures best.None? || Before(best.value, s)
  {
    if n > 0 { NumbersInOrder(year, n, n + 1); }
  }

  lemma {:induction false} LastIsNewest(numbers: seq<string>, year: int)
    requires YearInRange(year) && InSequence(numbers, year)
    ensures var n := |OfYear(numbers, year)|;
            LastOf(numbers, Prefix(year)) == if n == 0 then None else Some(Number(year, n))
  {
    if numbers != [] {
      var front, s := numbers[..|numbers| - 1], numbers[|numbers| - 1];
      var n := |OfYear(front, year)|;
      assert numbers == front + [s];
      InSequenceBefore(front, s, year);
      LastIsNewest(front, year);
      LastOfAppend(front, s, Prefix(year));
      OfYearAppend(front, s, year);
      if HasPrefix(s, Prefix(year)) { NextIsGreater(LastOf(front, Prefix(year)), s, year, n); }
    }
  }

  /** The next number is the one after the year's last, unless the year is out of range or used up. */
  lemma NextNumberIs(numbers: seq<string>, year: nat)
    requires Contiguous(numbers)
    ensures var n := |OfYear(numbers, year)|;
            NextNumber(numbers, year) ==
            if !YearInRange(year) then Err(BadYear) else if n == 999999 then Err(BadSequence)
            else Ok(Number(year, n + 1))
  {
    if YearInRange(year) {
      assert InSequence(numbers, year);
      LastIsNewest(numbers, year);
      var n := |OfYear(numbers, year)|;
      if n > 0 { ParseOfFormat(year, n); }
    }
  }

  lemma NumbersDiffer(year: int, a: int, b: int)
    requires YearInRange(year) && SequenceInRange(a) && SequenceInRange(b) && Number(year, a) == Number(year, b)
    ensures a == b
  {
    ParseOfFormat(year, a);
    ParseOfFormat(year, b);
  }

  /** A number of the year is taken exactly if its sequence is not beyond the last. */
  lemma TakenIff(numbers: seq<string>, year: int, k: int)
    requires YearInRange(year) && SequenceInRange(k) && InSequence(numbers, year)
    ensures Number(year, k) in numbers <==> k <= |OfYear(numbers, year)|
  {
    OfYearMembers(numbers, year);
    PrefixTellsYear(year, k, year);
    InIssuedIff(year, |OfYear(numbers, year)|, k);
  }

  lemma InIssuedIff(year: int, n: nat, k: int)
    requires YearInRange(year) && SequenceInRange(k) && n <= 999999
    ensures Number(year, k) in Issued(year, n) <==> k <= n
  {
    var issued := Issued(year, n);
    if k <= n { assert issued[k - 1] == Number(year, k); }
    if Number(year, k) in issued {
      var i :| 0 <= i < n && issued[i] == Number(year, k);
      NumbersDiffer(year, i + 1, k);
    }
  }

  /** Whatever was read, and however long ago: inserting a number that is free keeps every year in sequence. */
  lemma InsertKeepsContiguous(numbers: seq<string>, year: int, k: int)
    requires Contiguous(numbers) && YearInRange(year) && SequenceInRange(k)
    requires k <= |OfYear(numbers, year)| + 1
    requires Number(year, k) !in numbers
    ensures Contiguous(numbers + [Number(year, k)])
    ensures k == |OfYear(numbers, year)| + 1
  {
    assert InSequence(numbers, year);
    TakenIff(numbers, year, k);
    forall other: nat | YearInRange(other) ensures InSequence(numbers + [Number(year, k)], other) {
      assert InSequence(numbers, other);
      NextKeepsSequence(numbers, year, k, other);
    }
  }

  lemma NextKeepsSequence(numbers: seq<string>, year: int, k: int, other: int)
    requires YearInRange(year) && SequenceInRange(k) && k == |OfYear(numbers, year)| + 1
    requires YearInRange(other) && InSequence(numbers, year) && InSequence(numbers, other)
    ensures InSequence(numbers + [Number(year, k)], other)
  {
    PrefixTellsYear(year, k, other);
    if other == year {
      AppendNext(numbers, Number(year, k), year, k);
    } else {
      AppendElsewhere(numbers, Number(year, k), other);
    }
  }

  lemma AppendNext(numbers: seq<string>, s: string, year: nat, k: nat)
    requires InSequence(numbers, year) && k == |OfYear(numbers, year)| + 1 <= 999999
    requires s == Number(year, k) && HasPrefix(s, Prefix(year))
    ensures InSequence(numbers + [s], year)
  {
    OfYearAppend(numbers, s, year);
    assert Issued(year, k) == Issued(year, k - 1) + [s];
  }

  lemma AppendElsewhere(numbers: seq<string>, s: string, other: nat)
    requires InSequence(numbers, other) && !HasPrefix(s, Prefix(other))
    ensures InSequence(numbers + [s], other)
  {
    OfYearAppend(numbers, s, other);
  }

  lemma NoneIssued()
    ensures Contiguous([])
  {
    forall year: nat | YearInRange(year) ensures InSequence([], year) {
      assert Issued(year, 0) == [];
    }
  }

  // ---------------------------------------------------------------------------------------
  //  Any number of callers, interleaved
  // ---------------------------------------------------------------------------------------

  const MAX_ATTEMPTS: nat := 3

  datatype Phase =
    | Trying(attempt: nat)
    | Holding(attempt: nat, year: nat, number: string)
    | Created(number: string)
    | OutOfRange(error: RangeError)
    | Conflict

  /** Callers not in the map have not started. */
  datatype State = State(numbers: seq<string>, callers: map<nat, Phase>)

  /** A caller reads the last number of the current year, or inserts the number it has. */
  datatype Event = Read(caller: nat, year: nat) | Insert(caller: nat)

  function PhaseOf(s: State, caller: nat): Phase { if caller in s.callers then s.callers[caller] else Trying(0) }

  function Step(s: State, event: Event): State {
    var phase := PhaseOf(s, event.caller);
    match event
    case Read(caller, year) =>
      if phase.Trying? then
        var next := match NextNumber(s.numbers, year)
          case Ok(number) => Holding(phase.attempt, year, number)
          case Err(error) => OutOfRange(error);
        s.(callers := s.callers[caller := next])
      else s
    case Insert(caller) =>
      if phase.Holding? then
        if phase.number in s.numbers then
          var lost := if phase.attempt + 1 < MAX_ATTEMPTS then Trying(phase.attempt + 1) else Conflict;
          s.(callers := s.callers[caller := lost])
        else State(s.numbers + [phase.number], s.callers[caller := Created(phase.number)])
      else s
  }

  function Run(s: State, events: seq<Event>): State {
    if events == [] then s else Step(Run(s, events[..|events| - 1]), events[|events| - 1])
  }

  /** What a caller holds was next at some earlier time. */
  ghost predicate HeldNumber(numbers: seq<string>, year: nat, number: string) {
    && YearInRange(year)
    && exists k: nat :: SequenceInRange(k) && number == Number(year, k) && k <= |OfYear(numbers, year)| + 1
  }

  ghost predicate PhaseFits(numbers: seq<string>, phase: Phase) {
    match phase
    case Trying(attempt) => attempt < MAX_ATTEMPTS
    case Holding(attempt, year, number) => attempt < MAX_ATTEMPTS && HeldNumber(numbers, year, number)
    case Created(number) => number in numbers
    case _ => true
  }

  /** No two callers were given the same number. */
  ghost predicate NobodyShares(callers: map<nat, Phase>) {
    forall c, d :: c in callers && d in callers && c != d && callers[c].Created? && callers[d].Created? ==>
      callers[c].number != callers[d].number
  }

  ghost predicate Inv(s: State) {
    && Contiguous(s.numbers)
    && (forall c :: c in s.callers ==> PhaseFits(s.numbers, s.callers[c]))
    && NobodyShares(s.callers)
  }

  lemma PhaseStillFits(numbers: seq<string>, s: string, phase: Phase)
    requires PhaseFits(numbers, phase)
    ensures PhaseFits(numbers + [s], phase)
  {
    if phase.Holding? { OfYearAppend(numbers, s, phase.year); }
  }

  lemma ReadKeepsInv(s: State, caller: nat, year: nat)
    requires Inv(s)
    ensures Inv(Step(s, Read(caller, year)))
  {
    NextNumberIs(s.numbers, year);
    if NextNumber(s.numbers, year).Ok? {
      var n := |OfYear(s.numbers, year)|;
      assert InSequence(s.numbers, year);
      assert HeldNumber(s.numbers, year, Number(year, n + 1));
    }
    assert PhaseFits(s.numbers, PhaseOf(s, caller));
  }

  lemma InsertKeepsInv(s: State, caller: nat)
    requires Inv(s)
    ensures Inv(Step(s, Insert(caller)))
  {
    var phase := PhaseOf(s, caller);
    assert PhaseFits(s.numbers, phase);
    if phase.Holding? && phase.number !in s.numbers {
      var k: nat :| SequenceInRange(k) && phase.number == Number(phase.year, k)
          && k <= |OfYear(s.numbers, phase.year)| + 1;
      InsertKeepsContiguous(s.numbers, phase.year, k);
      forall c | c in s.callers ensures PhaseFits(s.numbers + [phase.number], s.callers[c]) {
        PhaseStillFits(s.numbers, phase.number, s.callers[c]);
      }
    }
  }

  lemma StepKeepsInv(s: State, event: Event)
    requires Inv(s)
    ensures Inv(Step(s, event))
  {
    match event
    case Read(caller, year) => ReadKeepsInv(s, caller, year);
    case Insert(caller) => InsertKeepsInv(s, caller);
  }

  lemma {:induction false} RunKeepsInv(events: seq<Event>)
    ensures Inv(Run(State([], map[]), events))
  {
    if events == [] {
      NoneIssued();
    } else {
      RunKeepsInv(events[..|events| - 1]);
      StepKeepsInv(Run(State([], map[]), events[..|events| - 1]), events[|events| - 1]);
    }
  }

  /** After any run, the numbers of a year are exactly 1, ..., n, each inserted once and in this
      order, and no two callers were given the same. */
  lemma EveryRunIsContiguous(events: seq<Event>, year: int)
    requires YearInRange(year)
    ensures var s := Run(State([], map[]), events);
            var n := |OfYear(s.numbers, year)|;
            && (forall i :: 0 <= i < n ==> OfYear(s.numbers, year)[i] == Number(year, i + 1))
            && (forall k :: SequenceInRange(k) ==> (Number(year, k) in s.numbers <==> k <= n))
            && NobodyShares(s.callers)
  {
    RunKeepsInv(events);
    var s := Run(State([], map[]), events);
    assert InSequence(s.numbers, year);
    forall k | SequenceInRange(k) ensures Number(year, k) in s.numbers <==> k <= |OfYear(s.numbers, year)| {
      TakenIff(s.numbers, year, k);
    }
  }

  // ---------------------------------------------------------------------------------------
  //  One caller and its retries
  // ---------------------------------------------------------------------------------------

  datatype CreateError = Range(error: RangeError) | TooManyConflicts

  /** Other callers' invoices, committed in this order, one per year listed. */
  function CommitAll(numbers: seq<string>, years: seq<nat>): seq<string> {
    if years == [] then numbers
    else
      var before := CommitAll(numbers, years[..|years| - 1]);
      match NextNumber(before, years[|years| - 1])
      case Ok(number) => if number in before then before else before + [number]
      case Err(_) => before
  }

  lemma {:induction false} CommitKeepsContiguous(numbers: seq<string>, years: seq<nat>)
    requires Contiguous(numbers)
    ensures Contiguous(CommitAll(numbers, years))
  {
    if years != [] {
      var before, year := CommitAll(numbers, years[..|years| - 1]), years[|years| - 1];
      CommitKeepsContiguous(numbers, years[..|years| - 1]);
      NextNumberIs(before, year);
      if NextNumber(before, year).Ok? {
        assert InSequence(before, year);
        TakenIff(before, year, |OfYear(before, year)| + 1);
        InsertKeepsContiguous(before, year, |OfYear(before, year)| + 1);
      }
    }
  }

  /** How far a commit takes one year. */
  lemma CommitOne(numbers: seq<string>, year: nat, mine: int)
    requires Contiguous(numbers) && YearInRange(mine) && NextNumber(numbers, year).Ok?
    ensures var number := NextNumber(numbers, year).value;
            && number !in numbers
            && |OfYear(numbers + [number], mine)| == |OfYear(numbers, mine)| + if year == mine then 1 else 0
  {
    NextNumberIs(numbers, year);
    assert InSequence(numbers, year);
    var k := |OfYear(numbers, year)| + 1;
    TakenIff(numbers, year, k);
    OfYearAppend(numbers, Number(year, k), mine);
    PrefixTellsYear(year, k, mine);
  }

  lemma CommitLast(numbers: seq<string>, front: seq<nat>, before: seq<string>, year: nat, mine: int)
    requires before == CommitAll(numbers, front) && Contiguous(before) && YearInRange(mine)
    ensures var grown := |OfYear(CommitAll(numbers, front + [year]), mine)|;
            && (year != mine ==> grown == |OfYear(before, mine)|)
            && (year == mine && |OfYear(before, mine)| < 999999 ==> grown == |OfYear(before, mine)| + 1)
            && grown >= |OfYear(before, mine)|
  {
    assert (front + [year])[..|front|] == front;
    NextNumberIs(before, year);
    if NextNumber(before, year).Ok? { CommitOne(before, year, mine); }
  }

  /** A year grows in a list of commits exactly if it is listed. */
  predicate Grew(before: nat, after: nat, listed: bool) { after >= before && (after > before <==> listed) }

  lemma GrewFurther(before: nat, middle: nat, after: nat, listed: bool, again: bool)
    requires before < 999999 && Grew(before, middle, listed)
    requires (!again ==> after == middle) && (again && middle < 999999 ==> after == middle + 1) && after >= middle
    ensures Grew(before, after, listed || again)
  {
  }

  lemma {:induction false} CommitGrows(numbers: seq<string>, years: seq<nat>, mine: int)
    requires Contiguous(numbers) && YearInRange(mine) && |OfYear(numbers, mine)| < 999999
    ensures Grew(|OfYear(numbers, mine)|, |OfYear(CommitAll(numbers, years), mine)|, mine in years)
  {
    if years != [] {
      var front, year := years[..|years| - 1], years[|years| - 1];
      var before, after := CommitAll(numbers, front), CommitAll(numbers, years);
      assert years == front + [year];
      CommitGrows(numbers, front, mine);
      CommitKeepsContiguous(numbers, front);
      CommitLast(numbers, front, before, year, mine);
      GrewFurther(|OfYear(numbers, mine)|, |OfYear(before, mine)|, |OfYear(after, mine)|, mine in front, year == mine);
    }
  }

  /** An attempt is lost exactly if somebody else's invoice of the same year was committed between
      the reading and the insertion. */
  lemma LostIff(numbers: seq<string>, year: nat, others: seq<nat>)
    requires Contiguous(numbers) && NextNumber(numbers, year).Ok?
    ensures NextNumber(numbers, year).value in CommitAll(numbers, others) <==> year in others
  {
    NextNumberIs(numbers, year);
    assert InSequence(numbers, year);
    CommitGrows(numbers, others, year);
    CommitKeepsContiguous(numbers, others);
    var after := CommitAll(numbers, others);
    assert InSequence(after, year);
    TakenIff(after, year, |OfYear(numbers, year)| + 1);
  }

  /** The table and the result when `others[a]` intervene in attempt a, made in year `years[a]`. */
  function Attempts(
    numbers: seq<string>, years: seq<nat>, others: seq<seq<nat>>): (seq<string>, Result<string, CreateError>)
    requires |years| == |others|
    decreases |years|
  {
    if years == [] then (numbers, Err(TooManyConflicts))
    else
      match NextNumber(numbers, years[0])
      case Err(error) => (numbers, Err(Range(error)))
      case Ok(number) =>
        var after := CommitAll(numbers, others[0]);
        if number in after then Attempts(after, years[1..], others[1..]) else (after + [number], Ok(number))
  }

  lemma AttemptsFrom(numbers: seq<string>, years: seq<nat>, others: seq<seq<nat>>, k: nat)
    requires |years| == |others| && k < |years|
    ensures var next, all := NextNumber(numbers, years[k]), Attempts(numbers, years[k..], others[k..]);
            && (next.Err? ==> all == (numbers, Err(Range(next.error))))
            && (next.Ok? ==>
                var after := CommitAll(numbers, others[k]);
                all == if next.value in after then Attempts(after, years[k + 1..], others[k + 1..])
                       else (after + [next.value], Ok(next.value)))
  {
    assert years[k..][1..] == years[k + 1..] && others[k..][1..] == others[k + 1..];
  }

  /** The table that one attempt leaves and whether it was lost. */
  lemma AttemptFacts(numbers: seq<string>, year: nat, others: seq<nat>)
    requires Contiguous(numbers) && NextNumber(numbers, year).Ok?
    ensures var number, after := NextNumber(numbers, year).value, CommitAll(numbers, others);
            && Contiguous(after)
            && number !in numbers && HasPrefix(number, Prefix(year))
            && (number in after <==> year in others)
            && (number !in after ==> Contiguous(after + [number]))
  {
    NextIsFree(numbers, year);
    LostIff(numbers, year, others);
    CommitKeepsContiguous(numbers, others);
    CommitGrows(numbers, others, year);
    var after := CommitAll(numbers, others);
    if NextNumber(numbers, year).value !in after { InsertKeepsContiguous(after, year, |OfYear(numbers, year)| + 1); }
  }

  lemma NextIsFree(numbers: seq<string>, year: nat)
    requires Contiguous(numbers) && NextNumber(numbers, year).Ok?
    ensures var n := |OfYear(numbers, year)|;
            && YearInRange(year) && n < 999999 && NextNumber(numbers, year).value == Number(year, n + 1)
            && Number(year, n + 1) !in numbers && HasPrefix(Number(year, n + 1), Prefix(year))
  {
    NextNumberIs(numbers, year);
    assert InSequence(numbers, year);
    TakenIff(numbers, year, |OfYear(numbers, year)| + 1);
    PrefixTellsYear(year, |OfYear(numbers, year)| + 1, year);
  }

  /** A caller that is not overtaken gets the year's next number, and that number is issued then. */
  lemma UndisturbedCallerGetsNext(s: State, caller: nat, year: nat)
    requires Contiguous(s.numbers) && PhaseOf(s, caller).Trying? && NextNumber(s.numbers, year).Ok?
    ensures var number := Number(year, |OfYear(s.numbers, year)| + 1);
            var s' := Step(Step(s, Read(caller, year)), Insert(caller));
            s'.numbers == s.numbers + [number] && PhaseOf(s', caller) == Created(number)
  {
    NextIsFree(s.numbers, year);
  }

  /** An overtaken caller changes nothing, tries again, and gives up with its third attempt. */
  lemma OvertakenCallerTriesThrice(s: State, caller: nat)
    requires PhaseOf(s, caller).Holding? && PhaseOf(s, caller).number in s.numbers
    ensures var s', attempt := Step(s, Insert(caller)), PhaseOf(s, caller).attempt;
            && s'.numbers == s.numbers
            && PhaseOf(s', caller) == if attempt < 2 then Trying(attempt + 1) else Conflict
  {
  }

  lemma {:induction false} AttemptsKeepContiguous(numbers: seq<string>, years: seq<nat>, others: seq<seq<nat>>)
    requires |years| == |others| && Contiguous(numbers)
    ensures Contiguous(Attempts(numbers, years, others).0)
    decreases |years|
  {
    if years != [] && NextNumber(numbers, years[0]).Ok? {
      AttemptFacts(numbers, years[0], others[0]);
      if years[0] in others[0] { AttemptsKeepContiguous(CommitAll(numbers, others[0]), years[1..], others[1..]); }
    }
  }

  /** If attempt a is the first not to be overtaken. */
  ghost predicate FirstClear(years: seq<nat>, others: seq<seq<nat>>, a: nat)
    requires |years| == |others|
  {
    a < |years| && years[a] !in others[a] && forall b :: 0 <= b < a ==> years[b] in others[b]
  }

  /** A number is given out by the first attempt that was not overtaken, and it is a new one of that year. */
  lemma {:induction false} CreatedAtFirstClear(numbers: seq<string>, years: seq<nat>, others: seq<seq<nat>>)
    returns (a: nat)
    requires |years| == |others| && Contiguous(numbers)
    requires Attempts(numbers, years, others).1.Ok?
    ensures FirstClear(years, others, a)
    ensures var (after, r) := Attempts(numbers, years, others);
            && HasPrefix(r.value, Prefix(years[a]))
            && r.value !in numbers && after != [] && r.value == after[|after| - 1]
    decreases |years|
  {
    FirstAttempt(numbers, years, others);
    if years[0] in others[0] {
      var b := CreatedAtFirstClear(CommitAll(numbers, others[0]), years[1..], others[1..]);
      a := b + 1;
      ClearLater(years, others, b);
    } else {
      a := 0;
    }
  }

  /** What the first attempt comes to: either the rest decides, or it gives out its number. */
  lemma FirstAttempt(numbers: seq<string>, years: seq<nat>, others: seq<seq<nat>>)
    requires |years| == |others| && Contiguous(numbers) && Attempts(numbers, years, others).1.Ok?
    ensures years != []
    ensures var after, all := CommitAll(numbers, others[0]), Attempts(numbers, years, others);
            if years[0] in others[0] then
              && Contiguous(after) && (forall s :: s in numbers ==> s in after)
              && all == Attempts(after, years[1..], others[1..])
            else
              && all.0 == after + [all.1.value] && all.1.value !in numbers
              && HasPrefix(all.1.value, Prefix(years[0]))
  {
    AttemptFacts(numbers, years[0], others[0]);
    CommitKeeps(numbers, others[0]);
  }

  lemma ClearLater(years: seq<nat>, others: seq<seq<nat>>, b: nat)
    requires |years| == |others| > 0 && years[0] in others[0] && FirstClear(years[1..], others[1..], b)
    ensures FirstClear(years, others, b + 1)
  {
    forall c | 0 <= c < b + 1 ensures years[c] in others[c] {
      if c > 0 { assert years[1..][c - 1] in others[1..][c - 1]; }
    }
  }

  /** Giving up means that every attempt was overtaken. */
  lemma {:induction false} GivesUpOnlyIfOvertaken(numbers: seq<string>, years: seq<nat>, others: seq<seq<nat>>, a: nat)
    requires |years| == |others| && Contiguous(numbers) && a < |years|
    requires Attempts(numbers, years, others).1 == Err(TooManyConflicts)
    ensures years[a] in others[a]
    decreases |years|
  {
    AttemptFacts(numbers, years[0], others[0]);
    if a > 0 { GivesUpOnlyIfOvertaken(CommitAll(numbers, others[0]), years[1..], others[1..], a - 1); }
  }

  lemma {:induction false} CommitKeeps(numbers: seq<string>, years: seq<nat>)
    ensures forall s :: s in numbers ==> s in CommitAll(numbers, years)
  {
    if years != [] { CommitKeeps(numbers, years[..|years| - 1]); }
  }

  class InvoiceRepository {
    var numbers: seq<string>

    constructor ()
      ensures numbers == [] && Contiguous(numbers)
    {
      numbers := [];
      new;
      NoneIssued();
    }

    method FindLast(prefix: string) returns (last: Option<string>)
      ensures last == LastOf(numbers, prefix)
    {
      last := None;
      for i := 0 to |numbers|
        invariant last == LastOf(numbers[..i], prefix)
      {
        assert numbers[..i + 1][..i] == numbers[..i];
        if HasPrefix(numbers[i], prefix) && (last.None? || Before(last.value, numbers[i])) {
          last := Some(numbers[i]);
        }
      }
      assert numbers[..|numbers|] == numbers;
    }

    /** The unique column: a number already there is refused. */
    method Insert(number: string) returns (created: bool)
      modifies this
      ensures created <==> number !in old(numbers)
      ensures numbers == if created then old(numbers) + [number] else old(numbers)
    {
      created := number !in numbers;
      if created { numbers := numbers + [number]; }
    }

    method CommitOthers(years: seq<nat>)
      modifies this
      ensures numbers == CommitAll(old(numbers), years)
    {
      for i := 0 to |years|
        invariant numbers == CommitAll(old(numbers), years[..i])
      {
        assert years[..i + 1][..i] == years[..i];
        var last := FindLast(Prefix(years[i]));
        var number := FormatInvoiceNumber(years[i], NextInvoiceSequence(last));
        if number.Ok? {
          var _ := Insert(number.value);
        }
      }
      assert years[..|years|] == years;
    }

    /** The clock and the other callers are parameters: what they do between the reading and the
        insertion of each attempt. */
    method CreateInvoice(years: seq<nat>, others: seq<seq<nat>>) returns (r: Result<string, CreateError>)
      requires |years| == MAX_ATTEMPTS && |others| == MAX_ATTEMPTS
      modifies this
      ensures (numbers, r) == Attempts(old(numbers), years, others)
    {
      for attempt := 0 to MAX_ATTEMPTS
        invariant Attempts(numbers, years[attempt..], others[attempt..]) == Attempts(old(numbers), years, others)
      {
        AttemptsFrom(numbers, years, others, attempt);
        var last := FindLast(Prefix(years[attempt]));
        var number := FormatInvoiceNumber(years[attempt], NextInvoiceSequence(last));
        if number.Err? { return Err(Range(number.error)); }
        CommitOthers(others[attempt]);
        var created := Insert(number.value);
        if created { return Ok(number.value); }
      }
      return Err(TooManyConflicts);
    }
  }
}
