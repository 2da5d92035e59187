/**
 Payments and their ledger, under any number of workers that confirm and refund at the same time.

 A worker first reads the payment and prepares the entries, then opens a transaction, reads the
 status again, and finally compares and sets it; status and ledger change in that last step
 together or not at all. Between the three steps any steps of other workers may happen.
 */
module Billing {
  import opened Wrappers
  import opened Ledger

  datatype PaymentStatus = Created | Pending | Paid | RefundRequested | Refunded | Failed | Expired | Cancelled

  function Transitions(from: PaymentStatus): set<PaymentStatus> {
    match from
    case Created => {Pending, Paid, Cancelled, Expired}
    case Pending => {Paid, Failed, Expired, Cancelled}
    case Paid => {RefundRequested}
    case RefundRequested => {Refunded, Paid}
    case _ => {}
  }

  predicate CanTransition(from: PaymentStatus, to: PaymentStatus) { to in Transitions(from) }

  /** A refund passes through both of its steps in one transaction. */
  predicate RefundPathOpen(from: PaymentStatus) {
    CanTransition(from, RefundRequested) && CanTransition(RefundRequested, Refunded)
  }

  /** `booked` records, for the proof, the provider whose cash account the success was booked to. */
  datatype Payment = Payment(
    invoiceId: nat, provider: Provider, status: PaymentStatus, amount: int, currency: string,
    idempotencyKey: string, providerTransactionId: Option<string>, booked: Option<Provider>)

  datatype BillingError =
      NotFound(id: nat) | IllegalTransition(from: PaymentStatus, to: PaymentStatus) | DuplicateTransaction(tx: string)

  datatype BatchKind = Success | Refund

  /** The entries of one ledger transaction. */
  datatype Batch = Batch(paymentId: nat, kind: BatchKind, entries: seq<Entry>)

  datatype Worker =
    | Idle
    | Confirming(paymentId: nat, entries: seq<Entry>, booked: Provider, newTx: Option<string>)
    | ConfirmingTx(paymentId: nat, entries: seq<Entry>, booked: Provider, newTx: Option<string>, read: PaymentStatus)
    | Refunding(paymentId: nat, entries: seq<Entry>)
    | RefundingTx(paymentId: nat, entries: seq<Entry>)
    | Done(applied: bool)

  datatype World = World(payments: seq<Payment>, ledger: seq<Batch>, workers: map<nat, Worker>)

  const INITIAL_WORLD := World([], [], map[])

  datatype Step =
    | Initiate(invoiceId: nat, provider: Provider, amount: int, currency: string, idempotencyKey: string)
    | Checkout(paymentId: nat, providerTransactionId: string)
    | ConfirmManual(worker: nat, paymentId: nat)
    | Webhook(worker: nat, code: Provider, tx: string, merchantRef: Option<nat>, amount: int, currency: string)
    | BeginSuccess(worker: nat)
    | CommitSuccess(worker: nat)
    | RequestRefund(worker: nat, paymentId: nat)
    | BeginRefund(worker: nat)
    | CommitRefund(worker: nat)

  // ---------------------------------------------------------------------------------------
  //  The rows
  // ---------------------------------------------------------------------------------------

  predicate KeyTaken(payments: seq<Payment>, key: string) {
    exists i :: 0 <= i < |payments| && payments[i].idempotencyKey == key
  }

  predicate TxTaken(payments: seq<Payment>, provider: Provider, tx: string, except: int) {
    exists i :: 0 <= i < |payments| && i != except && payments[i].provider == provider
        && payments[i].providerTransactionId == Some(tx)
  }

  function FindByTx(payments: seq<Payment>, provider: Provider, tx: string): Option<nat> {
    if payments == [] then None
    else match FindByTx(payments[..|payments| - 1], provider, tx)
      case Some(i) => Some(i)
      case None =>
        var last := payments[|payments| - 1];
        if last.provider == provider && last.providerTransactionId == Some(tx) then Some(|payments| - 1) else None
  }

  /** The payment a webhook is about: by its transaction, else by the payment id it carries back. */
  function WebhookTarget(payments: seq<Payment>, code: Provider, tx: string, paymentId: Option<nat>): Option<nat> {
    match FindByTx(payments, code, tx)
    case Some(i) => Some(i)
    case None => if paymentId.Some? && paymentId.value < |payments| then paymentId else None
  }

  predicate TxFree(payments: seq<Payment>, id: nat, newTx: Option<string>)
    requires id < |payments|
  {
    newTx.None? || !TxTaken(payments, payments[id].provider, newTx.value, id)
  }

  function MarkedPaid(p: Payment, booked: Provider, newTx: Option<string>): Payment {
    var tx := if newTx.Some? then newTx else p.providerTransactionId;
    p.(status := Paid, booked := Some(booked), providerTransactionId := tx)
  }

  // ---------------------------------------------------------------------------------------
  //  The steps
  // ---------------------------------------------------------------------------------------

  function WorkerAt(w: World, a: nat): Worker { if a in w.workers then w.workers[a] else Idle }

  function SetWorker(w: World, a: nat, x: Worker): World { w.(workers := w.workers[a := x]) }

  predicate Free(x: Worker) { x.Idle? || x.Done? }

  /** Prepares a confirmation; entries that cannot be built stop it. */
  function Prepared(w: World, a: nat, id: nat, code: Provider, newTx: Option<string>): World
    requires id < |w.payments|
  {
    match BuildEntryFeePaymentEntries(code, w.payments[id].amount)
    case Err(_) => w
    case Ok(entries) => SetWorker(w, a, Confirming(id, entries, code, newTx))
  }

  /** The compare-and-set of a success: row and ledger together. */
  function SuccessCommitted(
    w: World, id: nat, entries: seq<Entry>, booked: Provider, newTx: Option<string>, read: PaymentStatus): World
    requires id < |w.payments|
  {
    if w.payments[id].status != read || !TxFree(w.payments, id, newTx) then w
    else w.(payments := w.payments[id := MarkedPaid(w.payments[id], booked, newTx)],
            ledger := w.ledger + [Batch(id, Success, entries)])
  }

  function RefundCommitted(w: World, id: nat, entries: seq<Entry>): World
    requires id < |w.payments|
  {
    if w.payments[id].status != Paid then w
    else w.(payments := w.payments[id := w.payments[id].(status := Refunded)],
            ledger := w.ledger + [Batch(id, Refund, entries)])
  }

  function Next(w: World, step: Step): World {
    match step
    case Initiate(invoiceId, provider, amount, currency, key) =>
      if KeyTaken(w.payments, key) then w
      else w.(payments := w.payments + [Payment(invoiceId, provider, Created, amount, currency, key, None, None)])
    case Checkout(id, tx) =>
      if id < |w.payments| && !TxTaken(w.payments, w.payments[id].provider, tx, id)
      then w.(payments := w.payments[id := w.payments[id].(providerTransactionId := Some(tx))]) else w
    case ConfirmManual(a, id) =>
      if Free(WorkerAt(w, a)) && id < |w.payments| && w.payments[id].provider == Manual
        then Prepared(w, a, id, Manual, None) else w
    case Webhook(a, code, tx, paymentId, amount, currency) =>
      (match WebhookTarget(w.payments, code, tx, paymentId)
       case None => w
       case Some(id) =>
         if Free(WorkerAt(w, a)) && id < |w.payments| && w.payments[id].amount == amount
             && w.payments[id].currency == currency
         then Prepared(w, a, id, code, Some(tx)) else w)
    case BeginSuccess(a) =>
      var x := WorkerAt(w, a);
      if x.Confirming? && x.paymentId < |w.payments| then
        var read := w.payments[x.paymentId].status;
        if read == Paid || !CanTransition(read, Paid) then SetWorker(w, a, Done(false))
        else SetWorker(w, a, ConfirmingTx(x.paymentId, x.entries, x.booked, x.newTx, read))
      else w
    case CommitSuccess(a) =>
      var x := WorkerAt(w, a);
      if x.ConfirmingTx? && x.paymentId < |w.payments| then
        var w' := SuccessCommitted(w, x.paymentId, x.entries, x.booked, x.newTx, x.read);
        SetWorker(w', a, Done(w' != w))
      else w
    case RequestRefund(a, id) =>
      if Free(WorkerAt(w, a)) && id < |w.payments| && RefundPathOpen(w.payments[id].status) then
        match BuildEntryFeePaymentEntries(w.payments[id].provider, w.payments[id].amount)
        case Err(_) => w
        case Ok(entries) =>
          (match ReverseLedgerEntries(entries)
           case Err(_) => w
           case Ok(reversed) => SetWorker(w, a, Refunding(id, reversed)))
      else w
    case BeginRefund(a) =>
      var x := WorkerAt(w, a);
      if x.Refunding? && x.paymentId < |w.payments| then
        if RefundPathOpen(w.payments[x.paymentId].status) then SetWorker(w, a, RefundingTx(x.paymentId, x.entries))
        else SetWorker(w, a, Done(false))
      else w
    case CommitRefund(a) =>
      var x := WorkerAt(w, a);
      if x.RefundingTx? && x.paymentId < |w.payments| then
        var w' := RefundCommitted(w, x.paymentId, x.entries);
        SetWorker(w', a, Done(w' != w))
      else w
  }

  function Run(w: World, steps: seq<Step>): World {
    if steps == [] then w else Next(Run(w, steps[..|steps| - 1]), steps[|steps| - 1])
  }

  // ---------------------------------------------------------------------------------------
  //  The repository, one transaction at a time
  // ---------------------------------------------------------------------------------------

  class BillingRepository {
    var payments: seq<Payment>
    var ledger: seq<Batch>

    function State(): World reads this { World(payments, ledger, map[]) }

    constructor ()
      ensures State() == INITIAL_WORLD
    {
      payments, ledger := [], [];
    }

    /** The idempotency gate: a key that is taken returns the row that took it. */
    method CreatePaymentIdempotent(invoiceId: nat, provider: Provider, amount: int, currency: string, key: string)
      returns (id: nat, created: bool)
      modifies this
      ensures created == !KeyTaken(old(payments), key)
      ensures State() == Next(old(State()), Initiate(invoiceId, provider, amount, currency, key))
      ensures payments == if created
                then old(payments) + [Payment(invoiceId, provider, Created, amount, currency, key, None, None)]
                else old(payments)
      ensures id < |payments| && payments[id].idempotencyKey == key
    {
      for i := 0 to |payments|
        invariant payments == old(payments) && ledger == old(ledger)
        invariant forall j :: 0 <= j < i ==> payments[j].idempotencyKey != key
      {
        if payments[i].idempotencyKey == key { return i, false; }
      }
      payments := payments + [Payment(invoiceId, provider, Created, amount, currency, key, None, None)];
      return |payments| - 1, true;
    }

    /** Ok says whether this call applied the success; every error leaves the rows as they were. */
    method ApplyPaymentSuccess(id: nat, entries: seq<Entry>, code: Provider, newTx: Option<string>)
      returns (r: Result<bool, BillingError>)
      modifies this
      ensures r != Ok(true) ==> State() == old(State())
      ensures r == Err(NotFound(id)) <==> id >= |old(payments)|
      ensures id < |old(payments)| ==>
                var read := old(payments[id].status);
                && (r == Ok(false) <==> read == Paid)
                && (r == Err(IllegalTransition(read, Paid)) <==> read != Paid && !CanTransition(read, Paid))
                && (r == Ok(true) <==> CanTransition(read, Paid) && TxFree(old(payments), id, newTx))
                && (r == Ok(true) ==>
                    && State() == SuccessCommitted(old(State()), id, entries, code, newTx, read)
                    && payments == old(payments)[id := MarkedPaid(old(payments[id]), code, newTx)]
                    && payments[id].status == Paid && ledger == old(ledger) + [Batch(id, Success, entries)])
    {
      if id >= |payments| { return Err(NotFound(id)); }
      var read := payments[id].status;
      if read == Paid { return Ok(false); }
      if !CanTransition(read, Paid) { return Err(IllegalTransition(read, Paid)); }
      if newTx.Some? && TxTaken(payments, payments[id].provider, newTx.value, id) {
        return Err(DuplicateTransaction(newTx.value));
      }
      payments := payments[id := MarkedPaid(payments[id], code, newTx)];
      ledger := ledger + [Batch(id, Success, entries)];
      return Ok(true);
    }

    method ApplyRefund(id: nat, entries: seq<Entry>) returns (r: Result<bool, BillingError>)
      modifies this
      ensures r != Ok(true) ==> State() == old(State())
      ensures r == Err(NotFound(id)) <==> id >= |old(payments)|
      ensures id < |old(payments)| ==>
                var read := old(payments[id].status);
                && (r == Ok(false) <==> read == Refunded)
                && (r == Ok(true) <==> read == Paid)
                && (r == Ok(true) ==>
                    && State() == RefundCommitted(old(State()), id, entries)
                    && payments == old(payments)[id := old(payments[id]).(status := Refunded)]
                    && ledger == old(ledger) + [Batch(id, Refund, entries)])
    {
      if id >= |payments| { return Err(NotFound(id)); }
      if payments[id].status == Refunded { return Ok(false); }
      if !RefundPathOpen(payments[id].status) { return Err(IllegalTransition(payments[id].status, RefundRequested)); }
      payments := payments[id := payments[id].(status := Refunded)];
      ledger := ledger + [Batch(id, Refund, entries)];
      return Ok(true);
    }

    /** Debit minus credit of an account, summed from the rows; a balance is never stored. */
    method LedgerBalance(account: Account) returns (balance: int)
      ensures balance == LedgerBalanceOf(ledger, account)
    {
      var debit, credit := 0, 0;
      for i := 0 to |ledger|
        invariant debit - credit == LedgerBalanceOf(ledger[..i], account)
      {
        var entries := ledger[i].entries;
        for j := 0 to |entries|
          invariant debit - credit + Balance(entries[j..], account) ==
                  LedgerBalanceOf(ledger[..i], account) + Balance(entries, account)
        {
          assert entries[j..][1..] == entries[j + 1..] && entries[j..][0] == entries[j];
          if entries[j].account == account {
            if entries[j].direction == Debit {
              debit := debit + entries[j].amount;
            } else {
              credit := credit + entries[j].amount;
            }
          }
        }
        assert entries[|entries|..] == [];
        assert ledger[..i + 1][..i] == ledger[..i];
      }
      assert ledger[..|ledger|] == ledger;
      balance := debit - credit;
    }
  }

  // ---------------------------------------------------------------------------------------
  //  Sums
  // ---------------------------------------------------------------------------------------

  function LedgerBalanceOf(ledger: seq<Batch>, account: Account): int {
    if ledger == [] then 0
    else LedgerBalanceOf(ledger[..|ledger| - 1], account) + Balance(ledger[|ledger| - 1].entries, account)
  }

  function LedgerTotal(ledger: seq<Batch>): int {
    if ledger == [] then 0 else LedgerTotal(ledger[..|ledger| - 1]) + Total(ledger[|ledger| - 1].entries)
  }

  function Sum(payments: seq<Payment>, f: Payment -> int): int {
    if payments == [] then 0 else Sum(payments[..|payments| - 1], f) + f(payments[|payments| - 1])
  }

  lemma {:induction false} SumUpdate(payments: seq<Payment>, f: Payment -> int, i: nat, p: Payment)
    requires i < |payments|
    ensures Sum(payments[i := p], f) == Sum(payments, f) - f(payments[i]) + f(p)
  {
    var last := |payments| - 1;
    if i == last {
      assert payments[i := p][..last] == payments[..last];
    } else {
      SumUpdate(payments[..last], f, i, p);
      assert payments[i := p][..last] == payments[..last][i := p];
    }
  }

  lemma SumSnoc(payments: seq<Payment>, f: Payment -> int, p: Payment)
    ensures Sum(payments + [p], f) == Sum(payments, f) + f(p)
  {
    assert (payments + [p])[..|payments|] == payments;
  }

  lemma LedgerSnoc(ledger: seq<Batch>, b: Batch, account: Account)
    ensures LedgerBalanceOf(ledger + [b], account) == LedgerBalanceOf(ledger, account) + Balance(b.entries, account)
    ensures LedgerTotal(ledger + [b]) == LedgerTotal(ledger) + Total(b.entries)
  {
    assert (ledger + [b])[..|ledger|] == ledger;
  }

  /** What an entry fee paid through `provider` moves on `account`. */
  function FeeOn(provider: Provider, amount: int, account: Account): int {
    if account == Cash(provider) then amount else if account == OrganizerPayable then -amount else 0
  }

  /** What a payment has left on an account: its success as booked, less its refund. */
  function LeftBy(account: Account): Payment -> int {
    (p: Payment) =>
      (if p.booked.Some? then FeeOn(p.booked.value, p.amount, account) else 0)
      - if p.status == Refunded then FeeOn(p.provider, p.amount, account) else 0
  }

  function PaidTo(provider: Provider): Payment -> int {
    (p: Payment) => if p.status == Paid && p.provider == provider then p.amount else 0
  }

  function PaidAmount(): Payment -> int { (p: Payment) => if p.status == Paid then p.amount else 0 }

  /** Money booked to `provider` for payments of others, less its own payments booked elsewhere. */
  function Misbooked(provider: Provider): Payment -> int {
    (p: Payment) =>
      if p.booked.None? then 0
      else (if p.booked.value == provider then p.amount else 0) - if p.provider == provider then p.amount else 0
  }

  // ---------------------------------------------------------------------------------------
  //  The invariant
  // ---------------------------------------------------------------------------------------

  /** The batches of one payment, in booking order. */
  function History(ledger: seq<Batch>, id: nat): seq<Batch> {
    if ledger == [] then []
    else
      var front := History(ledger[..|ledger| - 1], id);
      if ledger[|ledger| - 1].paymentId == id then front + [ledger[|ledger| - 1]] else front
  }

  function SuccessBatch(id: nat, p: Payment): Batch
    requires p.booked.Some?
  {
    Batch(id, Success, EntryFeeEntries(p.booked.value, p.amount))
  }

  function RefundBatch(id: nat, p: Payment): Batch {
    Batch(id, Refund, ReversedAll(EntryFeeEntries(p.provider, p.amount)))
  }

  /** Created, paid and refunded payments have none, one and two batches; nothing else is reachable. */
  ghost predicate PaymentSound(ledger: seq<Batch>, id: nat, p: Payment) {
    match p.status
    case Created => p.booked == None && History(ledger, id) == []
    case Paid => p.amount > 0 && p.booked.Some? && History(ledger, id) == [SuccessBatch(id, p)]
    case Refunded => p.amount > 0 && p.booked.Some? && History(ledger, id) == [SuccessBatch(id, p), RefundBatch(id, p)]
    case _ => false
  }

  ghost predicate WorkerSound(payments: seq<Payment>, x: Worker) {
    match x
    case Confirming(id, entries, booked, _) =>
      id < |payments| && payments[id].amount > 0 && entries == EntryFeeEntries(booked, payments[id].amount)
    case ConfirmingTx(id, entries, booked, _, read) =>
      id < |payments| && payments[id].amount > 0 && entries == EntryFeeEntries(booked, payments[id].amount)
      && read != Paid && CanTransition(read, Paid)
    case Refunding(id, entries) =>
      id < |payments| && payments[id].amount > 0
          && entries == ReversedAll(EntryFeeEntries(payments[id].provider, payments[id].amount))
    case RefundingTx(id, entries) =>
      id < |payments| && payments[id].amount > 0
          && entries == ReversedAll(EntryFeeEntries(payments[id].provider, payments[id].amount))
    case _ => true
  }

  ghost predicate KeysUnique(payments: seq<Payment>) {
    forall i, j :: 0 <= i < j < |payments| ==> payments[i].idempotencyKey != payments[j].idempotencyKey
  }

  ghost predicate TxsUnique(payments: seq<Payment>) {
    forall i, j ::
      0 <= i < j < |payments| && payments[i].provider == payments[j].provider
          && payments[i].providerTransactionId.Some? ==>
        payments[i].providerTransactionId != payments[j].providerTransactionId
  }

  ghost predicate RowsSound(w: World) {
    && (forall id :: 0 <= id < |w.payments| ==> PaymentSound(w.ledger, id, w.payments[id]))
    && (forall k :: 0 <= k < |w.ledger| ==> w.ledger[k].paymentId < |w.payments|)
    && KeysUnique(w.payments) && TxsUnique(w.payments)
  }

  ghost predicate BooksSound(w: World) {
    && LedgerTotal(w.ledger) == 0
    && forall account :: LedgerBalanceOf(w.ledger, account) == Sum(w.payments, LeftBy(account))
  }

  ghost predicate Inv(w: World) {
    RowsSound(w) && BooksSound(w) && forall a :: a in w.workers ==> WorkerSound(w.payments, w.workers[a])
  }

  // ---------------------------------------------------------------------------------------
  //  Every step keeps it
  // ---------------------------------------------------------------------------------------

  lemma HistorySnoc(ledger: seq<Batch>, b: Batch, id: nat)
    ensures History(ledger + [b], id) == if b.paymentId == id then History(ledger, id) + [b] else History(ledger, id)
  {
    assert (ledger + [b])[..|ledger|] == ledger;
  }

  lemma {:induction false} NoHistoryYet(ledger: seq<Batch>, id: nat)
    requires forall k :: 0 <= k < |ledger| ==> ledger[k].paymentId < id
    ensures History(ledger, id) == []
  {
    if ledger != [] {
      NoHistoryYet(ledger[..|ledger| - 1], id);
    }
  }

  lemma SuccessKeepsRows(w: World, id: nat, booked: Provider, newTx: Option<string>)
    requires RowsSound(w) && id < |w.payments| && w.payments[id].status == Created && w.payments[id].amount > 0
    requires TxFree(w.payments, id, newTx)
    ensures RowsSound(SuccessCommitted(w, id, EntryFeeEntries(booked, w.payments[id].amount), booked, newTx, Created))
  {
    var p := w.payments[id];
    var b := Batch(id, Success, EntryFeeEntries(booked, p.amount));
    var w' := SuccessCommitted(w, id, EntryFeeEntries(booked, p.amount), booked, newTx, Created);
    forall j | 0 <= j < |w'.payments| ensures PaymentSound(w'.ledger, j, w'.payments[j]) {
      HistorySnoc(w.ledger, b, j);
      assert PaymentSound(w.ledger, j, w.payments[j]);
    }
  }

  lemma SuccessKeepsBooks(w: World, id: nat, booked: Provider, newTx: Option<string>)
    requires RowsSound(w) && BooksSound(w) && id < |w.payments| && w.payments[id].status == Created
    requires TxFree(w.payments, id, newTx)
    ensures BooksSound(SuccessCommitted(w, id, EntryFeeEntries(booked, w.payments[id].amount), booked, newTx, Created))
  {
    var p := w.payments[id];
    assert PaymentSound(w.ledger, id, p);
    var b := Batch(id, Success, EntryFeeEntries(booked, p.amount));
    EntryFeeBooks(booked, p.amount, OrganizerPayable);
    LedgerSnoc(w.ledger, b, OrganizerPayable);
    forall account
      ensures LedgerBalanceOf(w.ledger + [b], account) ==
              Sum(w.payments[id := MarkedPaid(p, booked, newTx)], LeftBy(account))
    {
      EntryFeeBooks(booked, p.amount, account);
      LedgerSnoc(w.ledger, b, account);
      SumUpdate(w.payments, LeftBy(account), id, MarkedPaid(p, booked, newTx));
    }
  }

  lemma RefundKeepsRows(w: World, id: nat)
    requires RowsSound(w) && id < |w.payments| && w.payments[id].status == Paid
    ensures RowsSound(RefundCommitted(w, id,
            ReversedAll(EntryFeeEntries(w.payments[id].provider, w.payments[id].amount))))
  {
    var p := w.payments[id];
    var b := RefundBatch(id, p);
    var w' := RefundCommitted(w, id, b.entries);
    assert PaymentSound(w.ledger, id, p);
    forall j | 0 <= j < |w'.payments| ensures PaymentSound(w'.ledger, j, w'.payments[j]) {
      HistorySnoc(w.ledger, b, j);
      assert PaymentSound(w.ledger, j, w.payments[j]);
    }
  }

  lemma RefundKeepsBooks(w: World, id: nat)
    requires RowsSound(w) && BooksSound(w) && id < |w.payments| && w.payments[id].status == Paid
    ensures BooksSound(RefundCommitted(w, id,
            ReversedAll(EntryFeeEntries(w.payments[id].provider, w.payments[id].amount))))
  {
    var p := w.payments[id];
    assert PaymentSound(w.ledger, id, p);
    var b := RefundBatch(id, p);
    ReversedSums(EntryFeeEntries(p.provider, p.amount), OrganizerPayable);
    EntryFeeBooks(p.provider, p.amount, OrganizerPayable);
    LedgerSnoc(w.ledger, b, OrganizerPayable);
    forall account
      ensures LedgerBalanceOf(w.ledger + [b], account) == Sum(w.payments[id := p.(status := Refunded)], LeftBy(account))
    {
      ReversedSums(EntryFeeEntries(p.provider, p.amount), account);
      EntryFeeBooks(p.provider, p.amount, account);
      LedgerSnoc(w.ledger, b, account);
      SumUpdate(w.payments, LeftBy(account), id, p.(status := Refunded));
    }
  }

  /** Amounts and providers never change, so what the workers prepared stays right. */
  lemma WorkersSurvive(payments: seq<Payment>, payments': seq<Payment>, x: Worker)
    requires WorkerSound(payments, x) && |payments| <= |payments'|
    requires forall i :: 0 <= i < |payments| ==>
            payments'[i].amount == payments[i].amount && payments'[i].provider == payments[i].provider
    ensures WorkerSound(payments', x)
  {
  }

  lemma InitiateKeepsInv(w: World, step: Step)
    requires Inv(w) && step.Initiate?
    ensures Inv(Next(w, step))
  {
    var w' := Next(w, step);
    if w' != w {
      var p := w'.payments[|w.payments|];
      NoHistoryYet(w.ledger, |w.payments|);
      forall id | 0 <= id < |w'.payments| ensures PaymentSound(w'.ledger, id, w'.payments[id]) {
        if id < |w.payments| { assert PaymentSound(w.ledger, id, w.payments[id]); }
      }
      forall account ensures LedgerBalanceOf(w'.ledger, account) == Sum(w'.payments, LeftBy(account)) {
        SumSnoc(w.payments, LeftBy(account), p);
      }
      forall a | a in w'.workers ensures WorkerSound(w'.payments, w'.workers[a]) {
        WorkersSurvive(w.payments, w'.payments, w.workers[a]);
      }
    }
  }

  lemma CheckoutKeepsInv(w: World, step: Step)
    requires Inv(w) && step.Checkout?
    ensures Inv(Next(w, step))
  {
    var w' := Next(w, step);
    if w' != w {
      var id := step.paymentId;
      forall j | 0 <= j < |w'.payments| ensures PaymentSound(w'.ledger, j, w'.payments[j]) {
        assert PaymentSound(w.ledger, j, w.payments[j]);
      }
      forall account ensures LedgerBalanceOf(w'.ledger, account) == Sum(w'.payments, LeftBy(account)) {
        SumUpdate(w.payments, LeftBy(account), id, w'.payments[id]);
      }
      forall a | a in w'.workers ensures WorkerSound(w'.payments, w'.workers[a]) {
        WorkersSurvive(w.payments, w'.payments, w.workers[a]);
      }
    }
  }

  lemma SuccessKeepsTables(w: World, x: Worker, w': World)
    requires RowsSound(w) && BooksSound(w) && x.ConfirmingTx? && WorkerSound(w.payments, x)
    requires w' == SuccessCommitted(w, x.paymentId, x.entries, x.booked, x.newTx, x.read)
    ensures RowsSound(w') && BooksSound(w')
  {
    var id := x.paymentId;
    assert PaymentSound(w.ledger, id, w.payments[id]);
    if w.payments[id].status == x.read && TxFree(w.payments, id, x.newTx) {
      SuccessKeepsRows(w, id, x.booked, x.newTx);
      SuccessKeepsBooks(w, id, x.booked, x.newTx);
    }
  }

  lemma SuccessKeepsTerms(w: World, x: Worker, w': World)
    requires x.ConfirmingTx? && x.paymentId < |w.payments|
    requires w' == SuccessCommitted(w, x.paymentId, x.entries, x.booked, x.newTx, x.read)
    ensures w'.workers == w.workers && |w'.payments| == |w.payments|
    ensures forall i :: 0 <= i < |w.payments| ==>
            w'.payments[i].amount == w.payments[i].amount && w'.payments[i].provider == w.payments[i].provider
  {
  }

  lemma DoneKeepsWorkers(w: World, w': World, a: nat, ok: bool)
    requires Inv(w) && RowsSound(w') && BooksSound(w') && w'.workers == w.workers && |w'.payments| == |w.payments|
    requires forall i :: 0 <= i < |w.payments| ==>
            w'.payments[i].amount == w.payments[i].amount && w'.payments[i].provider == w.payments[i].provider
    ensures Inv(SetWorker(w', a, Done(ok)))
  {
    var done := SetWorker(w', a, Done(ok));
    forall b | b in done.workers ensures WorkerSound(done.payments, done.workers[b]) {
      if b != a { WorkersSurvive(w.payments, w'.payments, w.workers[b]); }
    }
  }

  lemma CommitSuccessKeepsInv(w: World, a: nat)
    requires Inv(w)
    ensures Inv(Next(w, CommitSuccess(a)))
  {
    var x := WorkerAt(w, a);
    CommitSuccessIs(w, a);
    if x.ConfirmingTx? {
      var w' := SuccessCommitted(w, x.paymentId, x.entries, x.booked, x.newTx, x.read);
      SuccessKeepsTables(w, x, w');
      SuccessKeepsTerms(w, x, w');
      DoneKeepsWorkers(w, w', a, w' != w);
    }
  }

  lemma CommitSuccessIs(w: World, a: nat)
    requires Inv(w)
    ensures var x := WorkerAt(w, a);
            && (x.ConfirmingTx? ==>
                && WorkerSound(w.payments, x)
                && var w' := SuccessCommitted(w, x.paymentId, x.entries, x.booked, x.newTx, x.read);
                   Next(w, CommitSuccess(a)) == SetWorker(w', a, Done(w' != w)))
            && (!x.ConfirmingTx? ==> Next(w, CommitSuccess(a)) == w)
  {
  }

  lemma CommitRefundKeepsInv(w: World, a: nat)
    requires Inv(w)
    ensures Inv(Next(w, CommitRefund(a)))
  {
    var x := WorkerAt(w, a);
    if x.RefundingTx? {
      var id := x.paymentId;
      var w' := Next(w, CommitRefund(a));
      if w.payments[id].status == Paid {
        RefundKeepsRows(w, id);
        RefundKeepsBooks(w, id);
      }
      forall b | b in w'.workers ensures WorkerSound(w'.payments, w'.workers[b]) {
        if b != a { WorkersSurvive(w.payments, w'.payments, w.workers[b]); }
      }
    }
  }

  lemma SetWorkerKeepsInv(w: World, a: nat, x: Worker)
    requires Inv(w) && WorkerSound(w.payments, x)
    ensures Inv(SetWorker(w, a, x))
  {
  }

  lemma PreparedIsSound(w: World, a: nat, id: nat, code: Provider, newTx: Option<string>)
    requires Inv(w) && id < |w.payments|
    ensures Inv(Prepared(w, a, id, code, newTx))
  {
    EntryFeeBooks(code, w.payments[id].amount, OrganizerPayable);
    if w.payments[id].amount > 0 {
      SetWorkerKeepsInv(w, a, Confirming(id, EntryFeeEntries(code, w.payments[id].amount), code, newTx));
    }
  }

  lemma RefundRequestIsSound(w: World, a: nat, id: nat)
    requires Inv(w)
    ensures Inv(Next(w, RequestRefund(a, id)))
  {
    if id < |w.payments| {
      var p := w.payments[id];
      EntryFeeBooks(p.provider, p.amount, OrganizerPayable);
      if p.amount > 0 {
        ReverseUndoes(EntryFeeEntries(p.provider, p.amount), OrganizerPayable);
        SetWorkerKeepsInv(w, a, Refunding(id, ReversedAll(EntryFeeEntries(p.provider, p.amount))));
      }
    }
  }

  predicate Prepares(step: Step) {
    step.ConfirmManual? || step.Webhook? || step.BeginSuccess? || step.RequestRefund? || step.BeginRefund?
  }

  lemma PrepareChangesNoRow(w: World, step: Step)
    requires Prepares(step)
    ensures Next(w, step).payments == w.payments && Next(w, step).ledger == w.ledger
  {
  }

  lemma PrepareKeepsInv(w: World, step: Step)
    requires Inv(w) && Prepares(step)
    ensures Inv(Next(w, step))
  {
    match step
    case ConfirmManual(a, id) =>
      if id < |w.payments| { PreparedIsSound(w, a, id, Manual, None); }
    case Webhook(a, code, tx, merchantRef, amount, currency) =>
      var target := WebhookTarget(w.payments, code, tx, merchantRef);
      if target.Some? && target.value < |w.payments| { PreparedIsSound(w, a, target.value, code, Some(tx)); }
    case RequestRefund(a, id) => RefundRequestIsSound(w, a, id);
    case BeginSuccess(a) =>
      SetWorkerKeepsInv(w, a, Done(false));
      var x := WorkerAt(w, a);
      if x.Confirming? && w.payments[x.paymentId].status != Paid
          && CanTransition(w.payments[x.paymentId].status, Paid) {
        SetWorkerKeepsInv(w, a,
            ConfirmingTx(x.paymentId, x.entries, x.booked, x.newTx, w.payments[x.paymentId].status));
      }
    case BeginRefund(a) =>
      SetWorkerKeepsInv(w, a, Done(false));
      var x := WorkerAt(w, a);
      if x.Refunding? { SetWorkerKeepsInv(w, a, RefundingTx(x.paymentId, x.entries)); }
  }

  lemma StepKeepsInv(w: World, step: Step)
    requires Inv(w)
    ensures Inv(Next(w, step))
  {
    match step
    case Initiate(_, _, _, _, _) => InitiateKeepsInv(w, step);
    case Checkout(_, _) => CheckoutKeepsInv(w, step);
    case CommitSuccess(a) => CommitSuccessKeepsInv(w, a);
    case CommitRefund(a) => CommitRefundKeepsInv(w, a);
    case _ => PrepareKeepsInv(w, step);
  }

  /**
   After any run: idempotency keys and provider transactions are unique, every payment has no
   batch, one success, or one success followed by one refund, according to its status, and the
   balance of every account is what those batches leave on it.
   */
  lemma {:induction false} EveryRunIsSound(steps: seq<Step>)
    ensures Inv(Run(INITIAL_WORLD, steps))
  {
    if steps != [] {
      EveryRunIsSound(steps[..|steps| - 1]);
      StepKeepsInv(Run(INITIAL_WORLD, steps[..|steps| - 1]), steps[|steps| - 1]);
    }
  }

  // ---------------------------------------------------------------------------------------
  //  The ledger against the paid payments
  // ---------------------------------------------------------------------------------------

  lemma {:induction false} SumsRelate(w: World, payments: seq<Payment>, provider: Provider)
    requires forall p :: p in payments ==> p.status == Created || p.status == Paid || p.status == Refunded
    requires forall p :: p in payments ==> (p.booked.None? <==> p.status == Created)
    ensures Sum(payments, LeftBy(Cash(provider))) ==
            Sum(payments, PaidTo(provider)) + Sum(payments, Misbooked(provider))
    ensures Sum(payments, LeftBy(OrganizerPayable)) == -Sum(payments, PaidAmount())
  {
    if payments != [] {
      SumsRelate(w, payments[..|payments| - 1], provider);
      assert payments[|payments| - 1] in payments;
    }
  }

  /**
   In every reachable state the ledger balances, the debt to organisers is exactly the sum of the
   payments that are paid now, and each provider's cash is the sum of its paid payments plus what
   was ever booked to the wrong provider.
   */
  lemma LedgerAgrees(w: World, provider: Provider)
    requires Inv(w)
    ensures LedgerTotal(w.ledger) == 0
    ensures LedgerBalanceOf(w.ledger, OrganizerPayable) == -Sum(w.payments, PaidAmount())
    ensures LedgerBalanceOf(w.ledger, Cash(provider)) ==
            Sum(w.payments, PaidTo(provider)) + Sum(w.payments, Misbooked(provider))
  {
    forall p | p in w.payments
      ensures p.status == Created || p.status == Paid || p.status == Refunded
      ensures p.booked.None? <==> p.status == Created
    {
      var i :| 0 <= i < |w.payments| && w.payments[i] == p;
      assert PaymentSound(w.ledger, i, p);
    }
    SumsRelate(w, w.payments, provider);
  }

  ghost predicate CashAgrees(w: World) {
    forall provider :: LedgerBalanceOf(w.ledger, Cash(provider)) == Sum(w.payments, PaidTo(provider))
  }

  /** A success is committed for a payment of another provider than the one it is booked to. */
  predicate CommitsToWrongProvider(w: World, step: Step) {
    && step.CommitSuccess?
    && var x := WorkerAt(w, step.worker);
       && x.ConfirmingTx? && x.paymentId < |w.payments| && w.payments[x.paymentId].status == x.read
       && TxFree(w.payments, x.paymentId, x.newTx)
       && w.payments[x.paymentId].provider != x.booked
  }

  function MisbookedChange(w: World, step: Step, provider: Provider): int {
    if !CommitsToWrongProvider(w, step) then 0
    else
      var x := WorkerAt(w, step.worker);
      (if x.booked == provider then w.payments[x.paymentId].amount else 0)
      - if w.payments[x.paymentId].provider == provider then w.payments[x.paymentId].amount else 0
  }

  lemma MisbookedSuccess(w: World, a: nat, provider: Provider)
    requires Inv(w)
    ensures Sum(Next(w, CommitSuccess(a)).payments, Misbooked(provider)) ==
            Sum(w.payments, Misbooked(provider)) + MisbookedChange(w, CommitSuccess(a), provider)
  {
    var x := WorkerAt(w, a);
    if x.ConfirmingTx? {
      assert PaymentSound(w.ledger, x.paymentId, w.payments[x.paymentId]);
      SumUpdate(w.payments, Misbooked(provider), x.paymentId, MarkedPaid(w.payments[x.paymentId], x.booked, x.newTx));
    }
  }

  lemma MisbookedRefund(w: World, a: nat, provider: Provider)
    requires Inv(w)
    ensures Sum(Next(w, CommitRefund(a)).payments, Misbooked(provider)) == Sum(w.payments, Misbooked(provider))
  {
    var x := WorkerAt(w, a);
    if x.RefundingTx? {
      SumUpdate(w.payments, Misbooked(provider), x.paymentId, w.payments[x.paymentId].(status := Refunded));
    }
  }

  lemma MisbookedInitiate(w: World, step: Step, provider: Provider)
    requires step.Initiate?
    ensures Sum(Next(w, step).payments, Misbooked(provider)) == Sum(w.payments, Misbooked(provider))
  {
    var w' := Next(w, step);
    if w' != w { SumSnoc(w.payments, Misbooked(provider), w'.payments[|w.payments|]); }
  }

  lemma MisbookedCheckout(w: World, step: Step, provider: Provider)
    requires step.Checkout?
    ensures Sum(Next(w, step).payments, Misbooked(provider)) == Sum(w.payments, Misbooked(provider))
  {
    var w' := Next(w, step);
    if w' != w { SumUpdate(w.payments, Misbooked(provider), step.paymentId, w'.payments[step.paymentId]); }
  }

  lemma MisbookedStep(w: World, step: Step, provider: Provider)
    requires Inv(w)
    ensures Sum(Next(w, step).payments, Misbooked(provider)) ==
            Sum(w.payments, Misbooked(provider)) + MisbookedChange(w, step, provider)
  {
    match step
    case Initiate(_, _, _, _, _) => MisbookedInitiate(w, step, provider);
    case Checkout(_, _) => MisbookedCheckout(w, step, provider);
    case CommitSuccess(a) => MisbookedSuccess(w, a, provider);
    case CommitRefund(a) => MisbookedRefund(w, a, provider);
    case _ => PrepareChangesNoRow(w, step);
  }

  /** From agreement on, what separates cash and payments is what was misbooked since. */
  lemma GapIsMisbooked(w: World, w': World, provider: Provider)
    requires Inv(w) && Inv(w') && CashAgrees(w)
    ensures LedgerBalanceOf(w'.ledger, Cash(provider)) - Sum(w'.payments, PaidTo(provider)) ==
            Sum(w'.payments, Misbooked(provider)) - Sum(w.payments, Misbooked(provider))
  {
    LedgerAgrees(w, provider);
    LedgerAgrees(w', provider);
  }

  lemma GapOfStep(w: World, step: Step, w': World, provider: Provider)
    requires Inv(w) && Inv(w') && CashAgrees(w) && w' == Next(w, step)
    ensures LedgerBalanceOf(w'.ledger, Cash(provider)) - Sum(w'.payments, PaidTo(provider)) ==
            MisbookedChange(w, step, provider)
  {
    GapIsMisbooked(w, w', provider);
    MisbookedStep(w, step, provider);
  }

  lemma WrongCommitMoves(w: World, step: Step)
    requires Inv(w) && CommitsToWrongProvider(w, step)
    ensures MisbookedChange(w, step, WorkerAt(w, step.worker).booked) > 0
  {
  }

  /**
   As long as every provider's cash agrees with its paid payments, the next step breaks that
   exactly when it commits a success to the wrong provider.
   */
  lemma CashAgreementStep(w: World, step: Step)
    requires Inv(w) && CashAgrees(w)
    ensures CashAgrees(Next(w, step)) <==> !CommitsToWrongProvider(w, step)
  {
    var w' := Next(w, step);
    StepKeepsInv(w, step);
    forall provider
      ensures LedgerBalanceOf(w'.ledger, Cash(provider)) ==
              Sum(w'.payments, PaidTo(provider)) + MisbookedChange(w, step, provider)
    {
      GapOfStep(w, step, w', provider);
    }
    if CommitsToWrongProvider(w, step) {
      WrongCommitMoves(w, step);
      GapOfStep(w, step, w', WorkerAt(w, step.worker).booked);
    }
  }

  /** So in a run in which every success is booked to its own provider, cash and payments agree. */
  lemma {:induction false} CashAgreesInCleanRuns(steps: seq<Step>)
    requires forall k :: 0 <= k < |steps| ==> !CommitsToWrongProvider(Run(INITIAL_WORLD, steps[..k]), steps[k])
    ensures CashAgrees(Run(INITIAL_WORLD, steps))
  {
    if steps != [] {
      var front := steps[..|steps| - 1];
      forall k | 0 <= k < |front| ensures !CommitsToWrongProvider(Run(INITIAL_WORLD, front[..k]), front[k]) {
        assert front[..k] == steps[..k];
      }
      CashAgreesInCleanRuns(front);
      EveryRunIsSound(front);
      CashAgreementStep(Run(INITIAL_WORLD, front), steps[|steps| - 1]);
    }
  }

  // ---------------------------------------------------------------------------------------
  //  What a caller can check: the provider of the payment that a webhook is about
  // ---------------------------------------------------------------------------------------

  /** A webhook arrives for a payment of another provider than the one that sends it. */
  predicate Crosses(w: World, step: Step) {
    && step.Webhook?
    && var id := WebhookTarget(w.payments, step.code, step.tx, step.merchantRef);
       id.Some? && id.value < |w.payments| && w.payments[id.value].provider != step.code
  }

  predicate BookedRight(payments: seq<Payment>, x: Worker) {
    x.Confirming? || x.ConfirmingTx? ==> x.paymentId < |payments| && payments[x.paymentId].provider == x.booked
  }

  ghost predicate AllBookedRight(w: World) { forall a :: a in w.workers ==> BookedRight(w.payments, w.workers[a]) }

  lemma ProvidersStay(w: World, step: Step)
    ensures |Next(w, step).payments| >= |w.payments|
    ensures forall i :: 0 <= i < |w.payments| ==> Next(w, step).payments[i].provider == w.payments[i].provider
  {
  }

  lemma WorkerBookedRight(w: World, step: Step, a: nat)
    requires AllBookedRight(w) && !Crosses(w, step) && a in Next(w, step).workers
    ensures BookedRight(w.payments, Next(w, step).workers[a])
  {
  }

  lemma StepKeepsBookedRight(w: World, step: Step)
    requires AllBookedRight(w) && !Crosses(w, step)
    ensures AllBookedRight(Next(w, step)) && !CommitsToWrongProvider(w, step)
  {
    ProvidersStay(w, step);
    forall a | a in Next(w, step).workers ensures BookedRight(Next(w, step).payments, Next(w, step).workers[a]) {
      WorkerBookedRight(w, step, a);
    }
  }

  /**
   So in every run in which each webhook is about a payment of its sender, every provider's cash is
   the sum of its paid payments.
   */
  lemma {:induction false} CashAgreesIfWebhooksMatch(steps: seq<Step>)
    requires forall k :: 0 <= k < |steps| ==> !Crosses(Run(INITIAL_WORLD, steps[..k]), steps[k])
    ensures AllBookedRight(Run(INITIAL_WORLD, steps)) && CashAgrees(Run(INITIAL_WORLD, steps))
  {
    if steps != [] {
      var front := steps[..|steps| - 1];
      forall k | 0 <= k < |front| ensures !Crosses(Run(INITIAL_WORLD, front[..k]), front[k]) {
        assert front[..k] == steps[..k];
      }
      CashAgreesIfWebhooksMatch(front);
      EveryRunIsSound(front);
      StepKeepsBookedRight(Run(INITIAL_WORLD, front), steps[|steps| - 1]);
      CashAgreementStep(Run(INITIAL_WORLD, front), steps[|steps| - 1]);
    }
  }

  /** And one that is not, for a payment that it may still mark as paid, can break it in two more steps. */
  lemma CrossingWebhookBreaks(w: World, step: Step, id: nat)
    requires Inv(w) && CashAgrees(w) && Crosses(w, step) && Free(WorkerAt(w, step.worker))
    requires WebhookTarget(w.payments, step.code, step.tx, step.merchantRef) == Some(id)
    requires w.payments[id].status == Created && TxFree(w.payments, id, Some(step.tx))
    requires w.payments[id].amount == step.amount > 0 && w.payments[id].currency == step.currency
    ensures !CashAgrees(Next(Next(Next(w, step), BeginSuccess(step.worker)), CommitSuccess(step.worker)))
  {
    var a := step.worker;
    EntryFeeBooks(step.code, step.amount, OrganizerPayable);
    var w1 := Next(w, step);
    assert WorkerAt(w1, a).Confirming? && w1.payments == w.payments && w1.ledger == w.ledger;
    var w2 := Next(w1, BeginSuccess(a));
    assert WorkerAt(w2, a).ConfirmingTx? && w2.payments == w.payments && w2.ledger == w.ledger;
    StepKeepsInv(w, step);
    StepKeepsInv(w1, BeginSuccess(a));
    assert CommitsToWrongProvider(w2, CommitSuccess(a));
    CashAgreementStep(w2, CommitSuccess(a));
  }

  // ---------------------------------------------------------------------------------------
  //  Two ways the books could go wrong
  // ---------------------------------------------------------------------------------------

  function ClickPayment(): Payment { Payment(0, Click, Created, 100, "UZS", "key", None, None) }

  lemma WrongProviderPrepares(w: World)
    requires w == World([ClickPayment()], [], map[])
    ensures Next(w, Webhook(1, Payme, "tx", Some(0), 100, "UZS")) ==
            SetWorker(w, 1, Confirming(0, EntryFeeEntries(Payme, 100), Payme, Some("tx")))
  {
    assert w.payments[..0] == [];
    EntryFeeBooks(Payme, 100, OrganizerPayable);
  }

  lemma WrongProviderBegins(w: World)
    requires w.payments == [ClickPayment()] && w.ledger == []
    requires WorkerAt(w, 1) == Confirming(0, EntryFeeEntries(Payme, 100), Payme, Some("tx"))
    ensures var w' := Next(w, BeginSuccess(1));
            && w'.payments == [ClickPayment()] && w'.ledger == []
            && WorkerAt(w', 1) == ConfirmingTx(0, EntryFeeEntries(Payme, 100), Payme, Some("tx"), Created)
  {
  }

  lemma WrongProviderCommits(w: World)
    requires w.payments == [ClickPayment()] && w.ledger == []
    requires WorkerAt(w, 1) == ConfirmingTx(0, EntryFeeEntries(Payme, 100), Payme, Some("tx"), Created)
    ensures var w' := Next(w, CommitSuccess(1));
            && w'.ledger == [Batch(0, Success, EntryFeeEntries(Payme, 100))]
            && |w'.payments| == 1 && w'.payments[0].status == Paid && w'.payments[0].provider == Click
  {
    assert TxFree(w.payments, 0, Some("tx"));
  }

  lemma RunSnoc(w: World, steps: seq<Step>, last: Step)
    ensures Run(w, steps + [last]) == Next(Run(w, steps), last)
  {
    assert (steps + [last])[..|steps|] == steps;
  }

  /**
   A provider's webhook that finds no payment under its own transaction falls back to the payment
   id it carries, whatever provider that payment has: the money lands on the wrong cash account.
   */
  lemma WrongProviderHappens()
    ensures exists steps :: CashWithoutPayment(Run(INITIAL_WORLD, steps))
  {
    var s1 := Initiate(0, Click, 100, "UZS", "key");
    var s2 := Webhook(1, Payme, "tx", Some(0), 100, "UZS");
    ClickInitiated(s1);
    WrongProviderPays(Next(INITIAL_WORLD, s1), s2);
    var steps := FourSteps(INITIAL_WORLD, s1, s2, BeginSuccess(1), CommitSuccess(1));
    assert CashWithoutPayment(Run(INITIAL_WORLD, steps));
  }

  ghost predicate CashWithoutPayment(w: World) {
    LedgerBalanceOf(w.ledger, Cash(Payme)) == 100 && Sum(w.payments, PaidTo(Payme)) == 0
  }

  lemma ClickInitiated(step: Step)
    requires step == Initiate(0, Click, 100, "UZS", "key")
    ensures Next(INITIAL_WORLD, step) == World([ClickPayment()], [], map[])
  {
  }

  lemma WrongProviderPays(w: World, step: Step)
    requires w == World([ClickPayment()], [], map[]) && step == Webhook(1, Payme, "tx", Some(0), 100, "UZS")
    ensures CashWithoutPayment(Next(Next(Next(w, step), BeginSuccess(1)), CommitSuccess(1)))
  {
    WrongProviderPrepares(w);
    WrongProviderBegins(Next(w, step));
    WrongProviderCommits(Next(Next(w, step), BeginSuccess(1)));
    WrongProviderBalances(Next(Next(Next(w, step), BeginSuccess(1)), CommitSuccess(1)));
  }

  lemma FourSteps(w: World, a: Step, b: Step, c: Step, d: Step) returns (steps: seq<Step>)
    ensures Run(w, steps) == Next(Next(Next(Next(w, a), b), c), d)
  {
    steps := [];
    RunSnoc(w, steps, a);
    steps := steps + [a];
    RunSnoc(w, steps, b);
    steps := steps + [b];
    RunSnoc(w, steps, c);
    steps := steps + [c];
    RunSnoc(w, steps, d);
    steps := steps + [d];
  }

  lemma WrongProviderBalances(w: World)
    requires w.ledger == [Batch(0, Success, EntryFeeEntries(Payme, 100))]
    requires |w.payments| == 1 && w.payments[0].status == Paid && w.payments[0].provider == Click
    ensures CashWithoutPayment(w)
  {
    EntryFeeBooks(Payme, 100, Cash(Payme));
    LedgerSnoc([], w.ledger[0], Cash(Payme));
    assert [] + [w.ledger[0]] == w.ledger;
    SumSnoc([], PaidTo(Payme), w.payments[0]);
    assert [] + [w.payments[0]] == w.payments;
  }

  /**
   The transition table would let a payment whose refund is merely requested be paid again, with a
   second success batch. No step ever stores that status, which is why the invariant excludes it.
   */
  lemma RequestedRefundWouldBookTwice(w: World, id: nat, entries: seq<Entry>, booked: Provider)
    requires id < |w.payments| && w.payments[id].status == RefundRequested
    ensures CanTransition(RefundRequested, Paid)
    ensures History(SuccessCommitted(w, id, entries, booked, None, RefundRequested).ledger, id) ==
            History(w.ledger, id) + [Batch(id, Success, entries)]
    ensures !Inv(w)
  {
    HistorySnoc(w.ledger, Batch(id, Success, entries), id);
    assert !PaymentSound(w.ledger, id, w.payments[id]);
  }

  /** So in every run a payment is created, paid or refunded, and that way back is never taken. */
  lemma NoRefundIsEverRequested(steps: seq<Step>, id: nat)
    requires id < |Run(INITIAL_WORLD, steps).payments|
    ensures Run(INITIAL_WORLD, steps).payments[id].status in {Created, Paid, Refunded}
  {
    var w := Run(INITIAL_WORLD, steps);
    EveryRunIsSound(steps);
    if w.payments[id].status == RefundRequested { RequestedRefundWouldBookTwice(w, id, [], Manual); }
    assert PaymentSound(w.ledger, id, w.payments[id]);
  }
}
