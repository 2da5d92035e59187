/** Double-entry ledger transactions: what may be booked, and how it is reversed. */
module Ledger {
  import opened Wrappers

  datatype Provider = Click | Payme | Uzum | BankTransfer | Manual

  /** The chart of accounts; `Unknown` is a code that reached the ledger from outside the type system. */
  datatype Account =
    | Cash(provider: Provider)
    | RevenueEntryFee
    | RevenueSubscription
    | RevenueCommission
    | OrganizerPayable
    | TaxPayable
    | ProviderFee
    | Unknown(code: string)

  datatype Direction = Debit | Credit

  datatype Entry = Entry(account: Account, direction: Direction, amount: int)

  datatype LedgerError =
    | TooFewEntries(count: nat)
    | NotPositive(entry: Entry)
    | UnknownAccount(entry: Entry)
    | Imbalance(debit: int, credit: int)

  function SumByDirection(entries: seq<Entry>, direction: Direction): int {
    if entries == [] then 0
    else (if entries[0].direction == direction then entries[0].amount else 0) + SumByDirection(entries[1..], direction)
  }

  /** The error of the first bad entry, if any. */
  function FirstBad(entries: seq<Entry>): Option<LedgerError> {
    if entries == [] then None
    else if entries[0].amount <= 0 then Some(NotPositive(entries[0]))
    else if entries[0].account.Unknown? then Some(UnknownAccount(entries[0]))
    else FirstBad(entries[1..])
  }

  function BuildLedgerTransaction(entries: seq<Entry>): Result<seq<Entry>, LedgerError> {
    if |entries| < 2 then Err(TooFewEntries(|entries|))
    else match FirstBad(entries)
      case Some(error) => Err(error)
      case None =>
        var debit, credit := SumByDirection(entries, Debit), SumByDirection(entries, Credit);
        if debit != credit then Err(Imbalance(debit, credit)) else Ok(entries)
  }

  function Reversed(e: Entry): Entry { e.(direction := if e.direction == Debit then Credit else Debit) }

  function ReversedAll(entries: seq<Entry>): (r: seq<Entry>)
    ensures |r| == |entries|
  {
    seq(|entries|, i requires 0 <= i < |entries| => Reversed(entries[i]))
  }

  function ReverseLedgerEntries(entries: seq<Entry>): Result<seq<Entry>, LedgerError> {
    BuildLedgerTransaction(ReversedAll(entries))
  }

  function EntryFeeEntries(provider: Provider, amount: int): seq<Entry> {
    [Entry(Cash(provider), Debit, amount), Entry(OrganizerPayable, Credit, amount)]
  }

  function BuildEntryFeePaymentEntries(provider: Provider, amount: int): Result<seq<Entry>, LedgerError> {
    BuildLedgerTransaction(EntryFeeEntries(provider, amount))
  }

  // ---------------------------------------------------------------------------------------
  //  Balances
  // ---------------------------------------------------------------------------------------

  function Signed(e: Entry): int { if e.direction == Debit then e.amount else -e.amount }

  /** Debit minus credit of one account. */
  function Balance(entries: seq<Entry>, account: Account): int {
    if entries == [] then 0
    else (if entries[0].account == account then Signed(entries[0]) else 0) + Balance(entries[1..], account)
  }

  /** Debit minus credit over all accounts. */
  function Total(entries: seq<Entry>): int { SumByDirection(entries, Debit) - SumByDirection(entries, Credit) }

  ghost predicate WellFormed(entries: seq<Entry>) {
    && |entries| >= 2 && Total(entries) == 0
    && forall e :: e in entries ==> e.amount > 0 && !e.account.Unknown?
  }

  lemma {:induction false} FirstBadMeaning(entries: seq<Entry>)
    ensures FirstBad(entries) == None <==> forall e :: e in entries ==> e.amount > 0 && !e.account.Unknown?
  {
    if entries != [] {
      FirstBadMeaning(entries[1..]);
      assert forall e :: e in entries <==> e == entries[0] || e in entries[1..];
    }
  }

  /** Exactly the balanced sets of two or more positive entries on known accounts pass, unchanged. */
  lemma BuildAcceptsBalanced(entries: seq<Entry>)
    ensures BuildLedgerTransaction(entries).Ok? <==> WellFormed(entries)
    ensures BuildLedgerTransaction(entries).Ok? ==> BuildLedgerTransaction(entries).value == entries
  {
    FirstBadMeaning(entries);
  }

  lemma {:induction false} ReversedSums(entries: seq<Entry>, account: Account)
    ensures SumByDirection(ReversedAll(entries), Debit) == SumByDirection(entries, Credit)
    ensures SumByDirection(ReversedAll(entries), Credit) == SumByDirection(entries, Debit)
    ensures Balance(ReversedAll(entries), account) == -Balance(entries, account)
  {
    if entries != [] {
      ReversedSums(entries[1..], account);
      assert ReversedAll(entries)[1..] == ReversedAll(entries[1..]);
    }
  }

  /** A valid transaction can always be reversed: every account moves back, and twice is nothing. */
  lemma ReverseUndoes(entries: seq<Entry>, account: Account)
    requires BuildLedgerTransaction(entries).Ok?
    ensures ReverseLedgerEntries(entries) == Ok(ReversedAll(entries))
    ensures Balance(entries + ReversedAll(entries), account) == 0
    ensures ReversedAll(ReversedAll(entries)) == entries
  {
    BuildAcceptsBalanced(entries);
    ReversedSums(entries, account);
    var r := ReversedAll(entries);
    forall e | e in r ensures e.amount > 0 && !e.account.Unknown? {
      var i :| 0 <= i < |r| && r[i] == e;
      assert entries[i] in entries;
    }
    BuildAcceptsBalanced(r);
    BalanceConcat(entries, r, account);
  }

  lemma {:induction false} BalanceConcat(a: seq<Entry>, b: seq<Entry>, account: Account)
    ensures Balance(a + b, account) == Balance(a, account) + Balance(b, account)
  {
    if a == [] {
      assert a + b == b;
    } else {
      BalanceConcat(a[1..], b, account);
      assert (a + b)[1..] == a[1..] + b;
    }
  }

  lemma PairSums(e: Entry, f: Entry, account: Account, direction: Direction)
    ensures SumByDirection([e, f], direction) ==
            (if e.direction == direction then e.amount else 0) + if f.direction == direction then f.amount else 0
    ensures Balance([e, f], account) ==
            (if e.account == account then Signed(e) else 0) + if f.account == account then Signed(f) else 0
  {
    assert [e, f][1..] == [f];
    assert SumByDirection([f], direction) == if f.direction == direction then f.amount else 0;
    assert Balance([f], account) == if f.account == account then Signed(f) else 0;
  }

  /** The two entries of an entry fee: the provider's cash up, the debt to the organiser up. */
  lemma EntryFeeBooks(provider: Provider, amount: int, account: Account)
    ensures BuildEntryFeePaymentEntries(provider, amount).Ok? <==> amount > 0
    ensures amount > 0 ==> BuildEntryFeePaymentEntries(provider, amount).value == EntryFeeEntries(provider, amount)
    ensures Total(EntryFeeEntries(provider, amount)) == 0
    ensures Balance(EntryFeeEntries(provider, amount), account) ==
            if account == Cash(provider) then amount else if account == OrganizerPayable then -amount else 0
  {
    var entries := EntryFeeEntries(provider, amount);
    PairSums(entries[0], entries[1], account, Debit);
    PairSums(entries[0], entries[1], account, Credit);
    assert entries == [entries[0], entries[1]];
    assert entries[0] in entries;
    BuildAcceptsBalanced(entries);
  }
}
