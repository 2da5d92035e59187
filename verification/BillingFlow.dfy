/**
 What the steps of a payment bring about: a confirmation that meets its condition does mark the
 payment paid and books it, a refund does refund it and books the reverse, and nothing else moves.
 */
module BillingFlow {
  import opened Wrappers
  import opened Ledger
  import opened Billing

  /** Between the two states exactly this batch was booked: one account more, one account less. */
  ghost predicate Moves(w: World, w': World, up: Account, down: Account, amount: int) {
    && LedgerBalanceOf(w'.ledger, up) == LedgerBalanceOf(w.ledger, up) + amount
    && LedgerBalanceOf(w'.ledger, down) == LedgerBalanceOf(w.ledger, down) - amount
    && forall account :: account != up && account != down ==>
        LedgerBalanceOf(w'.ledger, account) == LedgerBalanceOf(w.ledger, account)
  }

  lemma OneBatchMoves(w: World, w': World, b: Batch, provider: Provider, amount: int)
    requires w'.ledger == w.ledger + [b]
    ensures b.entries == EntryFeeEntries(provider, amount) ==>
            Moves(w, w', Cash(provider), OrganizerPayable, amount)
    ensures b.entries == ReversedAll(EntryFeeEntries(provider, amount)) ==>
            Moves(w, w', OrganizerPayable, Cash(provider), amount)
  {
    forall account
      ensures LedgerBalanceOf(w'.ledger, account) == LedgerBalanceOf(w.ledger, account) + Balance(b.entries, account)
      ensures Balance(ReversedAll(EntryFeeEntries(provider, amount)), account) ==
              -Balance(EntryFeeEntries(provider, amount), account)
      ensures Balance(EntryFeeEntries(provider, amount), account) ==
              if account == Cash(provider) then amount else if account == OrganizerPayable then -amount else 0
    {
      LedgerSnoc(w.ledger, b, account);
      EntryFeeBooks(provider, amount, account);
      ReversedSums(EntryFeeEntries(provider, amount), account);
    }
  }

  /** Only this payment's history grows, by this batch. */
  ghost predicate Adds(w: World, w': World, id: nat, b: Batch) {
    && History(w'.ledger, id) == History(w.ledger, id) + [b]
    && forall other: nat :: other != id ==> History(w'.ledger, other) == History(w.ledger, other)
  }

  lemma OneBatchAdds(w: World, w': World, b: Batch)
    requires w'.ledger == w.ledger + [b]
    ensures Adds(w, w', b.paymentId, b)
  {
    forall other: nat
      ensures History(w'.ledger, other) ==
              if other == b.paymentId then History(w.ledger, other) + [b] else History(w.ledger, other)
    {
      HistorySnoc(w.ledger, b, other);
    }
  }

  // ---------------------------------------------------------------------------------------
  //  Statuses
  // ---------------------------------------------------------------------------------------

  /** What ended without money, or was refunded, stays so; money can come only once and go only after a request. */
  lemma TransitionsMean(from: PaymentStatus, to: PaymentStatus)
    ensures from in {Failed, Expired, Cancelled, Refunded} ==> !CanTransition(from, to)
    ensures CanTransition(from, Paid) <==> from in {Created, Pending, RefundRequested}
    ensures CanTransition(from, Refunded) <==> from == RefundRequested
    ensures CanTransition(from, RefundRequested) <==> from == Paid
    ensures CanTransition(from, to) ==> to != Created
    ensures RefundPathOpen(from) <==> from == Paid
  {
  }

  /** In every step a payment's status stays, or goes from waiting to paid, or from paid to refunded. */
  lemma StatusesMoveForward(w: World, step: Step, i: nat)
    requires Inv(w) && i < |w.payments|
    ensures i < |Next(w, step).payments|
    ensures var s, s' := w.payments[i].status, Next(w, step).payments[i].status;
            s' == s || (s == Created && s' == Paid) || (s == Paid && s' == Refunded)
  {
    assert PaymentSound(w.ledger, i, w.payments[i]);
    if step.CommitSuccess? && WorkerAt(w, step.worker).ConfirmingTx? {
      assert PaymentSound(w.ledger, WorkerAt(w, step.worker).paymentId, w.payments[WorkerAt(w, step.worker).paymentId]);
    }
  }

  // ---------------------------------------------------------------------------------------
  //  Refunds
  // ---------------------------------------------------------------------------------------

  /**
   The last step of a refund, on a payment that is paid: its row is refunded and no other row changes,
   one reversing batch joins its history, the provider's cash and the organiser's claim both go down by
   the amount, and the worker is told so.
   */
  lemma RefundTakesEffect(w: World, a: nat)
    requires Inv(w) && WorkerAt(w, a).RefundingTx?
    requires w.payments[WorkerAt(w, a).paymentId].status == Paid
    ensures var id, w' := WorkerAt(w, a).paymentId, Next(w, CommitRefund(a));
            var p := w.payments[id];
            && w'.payments == w.payments[id := p.(status := Refunded)] && WorkerAt(w', a) == Done(true)
            && Adds(w, w', id, Batch(id, Refund, ReversedAll(EntryFeeEntries(p.provider, p.amount))))
            && Moves(w, w', OrganizerPayable, Cash(p.provider), p.amount)
  {
    var x, w' := WorkerAt(w, a), Next(w, CommitRefund(a));
    var p, b := w.payments[x.paymentId], Batch(x.paymentId, Refund, x.entries);
    RefundCommits(w, a);
    OneBatchAdds(w, w', b);
    OneBatchMoves(w, w', b, p.provider, p.amount);
  }

  lemma RefundCommits(w: World, a: nat)
    requires Inv(w) && WorkerAt(w, a).RefundingTx?
    requires w.payments[WorkerAt(w, a).paymentId].status == Paid
    ensures var x, w' := WorkerAt(w, a), Next(w, CommitRefund(a));
            var p := w.payments[x.paymentId];
            && w'.payments == w.payments[x.paymentId := p.(status := Refunded)] && WorkerAt(w', a) == Done(true)
            && w'.ledger == w.ledger + [Batch(x.paymentId, Refund, x.entries)]
            && x.entries == ReversedAll(EntryFeeEntries(p.provider, p.amount))
  {
  }

  /** On a payment that is not paid any more it changes no row and says so. */
  lemma LateRefundChangesNothing(w: World, a: nat)
    requires Inv(w) && WorkerAt(w, a).RefundingTx?
    requires w.payments[WorkerAt(w, a).paymentId].status != Paid
    ensures Next(w, CommitRefund(a)) == SetWorker(w, a, Done(false))
  {
  }

  /** A refund that is requested for a paid payment and not disturbed goes through. */
  lemma RefundGoesThrough(w: World, a: nat, id: nat)
    requires Inv(w) && Free(WorkerAt(w, a)) && id < |w.payments| && w.payments[id].status == Paid
    ensures var p, w' := w.payments[id], Next(Next(Next(w, RequestRefund(a, id)), BeginRefund(a)), CommitRefund(a));
            && w'.payments == w.payments[id := p.(status := Refunded)] && WorkerAt(w', a) == Done(true)
            && Adds(w, w', id, Batch(id, Refund, ReversedAll(EntryFeeEntries(p.provider, p.amount))))
            && Moves(w, w', OrganizerPayable, Cash(p.provider), p.amount)
  {
    var w1 := Next(w, RequestRefund(a, id));
    RefundIsPrepared(w, a, id, w1);
    var w2 := Next(w1, BeginRefund(a));
    RefundBegins(w1, a, w2);
    StepKeepsInv(w, RequestRefund(a, id));
    StepKeepsInv(w1, BeginRefund(a));
    RefundTakesEffect(w2, a);
  }

  lemma RefundIsPrepared(w: World, a: nat, id: nat, w': World)
    requires Inv(w) && Free(WorkerAt(w, a)) && id < |w.payments| && w.payments[id].status == Paid
    requires w' == Next(w, RequestRefund(a, id))
    ensures w'.payments == w.payments && w'.ledger == w.ledger
    ensures WorkerAt(w', a).Refunding? && WorkerAt(w', a).paymentId == id
  {
    var p := w.payments[id];
    assert PaymentSound(w.ledger, id, p);
    EntryFeeBooks(p.provider, p.amount, OrganizerPayable);
    ReverseUndoes(EntryFeeEntries(p.provider, p.amount), OrganizerPayable);
  }

  lemma RefundBegins(w: World, a: nat, w': World)
    requires WorkerAt(w, a).Refunding? && WorkerAt(w, a).paymentId < |w.payments|
    requires w.payments[WorkerAt(w, a).paymentId].status == Paid && w' == Next(w, BeginRefund(a))
    ensures w'.payments == w.payments && w'.ledger == w.ledger
    ensures WorkerAt(w', a).RefundingTx? && WorkerAt(w', a).paymentId == WorkerAt(w, a).paymentId
  {
  }

  // ---------------------------------------------------------------------------------------
  //  Payments
  // ---------------------------------------------------------------------------------------

  /**
   The last step of a confirmation, if the status is still the one read and the transaction is free: the
   row is paid, with the new transaction if there is one, no other row changes, one success joins its
   history, and the booked provider's cash and the organiser's claim go up by the amount.
   */
  lemma SuccessTakesEffect(w: World, a: nat)
    requires Inv(w) && WorkerAt(w, a).ConfirmingTx?
    requires var x := WorkerAt(w, a);
             w.payments[x.paymentId].status == x.read && TxFree(w.payments, x.paymentId, x.newTx)
    ensures var x, w' := WorkerAt(w, a), Next(w, CommitSuccess(a));
            var id, p := x.paymentId, w.payments[x.paymentId];
            && |w'.payments| == |w.payments| && WorkerAt(w', a) == Done(true)
            && (forall i :: 0 <= i < |w.payments| && i != id ==> w'.payments[i] == w.payments[i])
            && w'.payments[id].status == Paid && w'.payments[id].amount == p.amount
            && w'.payments[id].provider == p.provider && w'.payments[id].invoiceId == p.invoiceId
            && w'.payments[id].providerTransactionId == (if x.newTx.Some? then x.newTx else p.providerTransactionId)
            && Adds(w, w', id, Batch(id, Success, EntryFeeEntries(x.booked, p.amount)))
            && Moves(w, w', Cash(x.booked), OrganizerPayable, p.amount)
  {
    var x, w' := WorkerAt(w, a), Next(w, CommitSuccess(a));
    var p, b := w.payments[x.paymentId], Batch(x.paymentId, Success, x.entries);
    SuccessCommits(w, a);
    OneBatchAdds(w, w', b);
    OneBatchMoves(w, w', b, x.booked, p.amount);
  }

  lemma SuccessCommits(w: World, a: nat)
    requires Inv(w) && WorkerAt(w, a).ConfirmingTx?
    requires var x := WorkerAt(w, a);
             w.payments[x.paymentId].status == x.read && TxFree(w.payments, x.paymentId, x.newTx)
    ensures var x, w' := WorkerAt(w, a), Next(w, CommitSuccess(a));
            var id, p := x.paymentId, w.payments[x.paymentId];
            && |w'.payments| == |w.payments| && WorkerAt(w', a) == Done(true)
            && (forall i :: 0 <= i < |w.payments| && i != id ==> w'.payments[i] == w.payments[i])
            && w'.payments[id].status == Paid && w'.payments[id].amount == p.amount
            && w'.payments[id].provider == p.provider && w'.payments[id].invoiceId == p.invoiceId
            && w'.payments[id].providerTransactionId == (if x.newTx.Some? then x.newTx else p.providerTransactionId)
            && w'.ledger == w.ledger + [Batch(id, Success, x.entries)]
            && x.entries == EntryFeeEntries(x.booked, p.amount)
  {
    assert PaymentSound(w.ledger, WorkerAt(w, a).paymentId, w.payments[WorkerAt(w, a).paymentId]);
  }

  /** If the status has moved on, or another payment has the transaction, nothing changes. */
  lemma LateSuccessChangesNothing(w: World, a: nat)
    requires Inv(w) && WorkerAt(w, a).ConfirmingTx?
    requires var x := WorkerAt(w, a);
             w.payments[x.paymentId].status != x.read || !TxFree(w.payments, x.paymentId, x.newTx)
    ensures Next(w, CommitSuccess(a)) == SetWorker(w, a, Done(false))
  {
  }

  /** The worker is about to confirm this payment for this provider and transaction. */
  predicate Confirms(w: World, a: nat, id: nat, code: Provider, newTx: Option<string>) {
    var x := WorkerAt(w, a);
    x.Confirming? && x.paymentId == id && x.booked == code && x.newTx == newTx
  }

  /** A payment that waits and is confirmed without disturbance is paid and booked to the confirming provider. */
  lemma ConfirmationGoesThrough(w: World, a: nat, id: nat, code: Provider, newTx: Option<string>)
    requires Inv(w) && Confirms(w, a, id, code, newTx)
    requires w.payments[id].status == Created && TxFree(w.payments, id, newTx)
    ensures var p, w' := w.payments[id], Next(Next(w, BeginSuccess(a)), CommitSuccess(a));
            && |w'.payments| == |w.payments| && w'.payments[id].status == Paid && WorkerAt(w', a) == Done(true)
            && (forall i :: 0 <= i < |w.payments| && i != id ==> w'.payments[i] == w.payments[i])
            && Adds(w, w', id, Batch(id, Success, EntryFeeEntries(code, p.amount)))
            && Moves(w, w', Cash(code), OrganizerPayable, p.amount)
  {
    var w1 := Next(w, BeginSuccess(a));
    ConfirmationBegins(w, a, w1);
    StepKeepsInv(w, BeginSuccess(a));
    SuccessTakesEffect(w1, a);
  }

  lemma ConfirmationBegins(w: World, a: nat, w': World)
    requires Inv(w) && WorkerAt(w, a).Confirming? && w.payments[WorkerAt(w, a).paymentId].status == Created
    requires w' == Next(w, BeginSuccess(a))
    ensures w'.payments == w.payments && w'.ledger == w.ledger
    ensures var x := WorkerAt(w, a);
            WorkerAt(w', a) == ConfirmingTx(x.paymentId, x.entries, x.booked, x.newTx, Created)
  {
  }

  /** Cash on the spot: a waiting manual payment of a positive amount is prepared for its own provider. */
  lemma ManualIsPrepared(w: World, a: nat, id: nat)
    requires Free(WorkerAt(w, a)) && id < |w.payments| && w.payments[id].provider == Manual && w.payments[id].amount > 0
    ensures Confirms(Next(w, ConfirmManual(a, id)), a, id, Manual, None)
    ensures Next(w, ConfirmManual(a, id)).payments == w.payments
  {
    EntryFeeBooks(Manual, w.payments[id].amount, OrganizerPayable);
  }

  /** A webhook whose amount and currency are those of the payment it is about is prepared for its sender. */
  lemma WebhookIsPrepared(w: World, step: Step, id: nat)
    requires step.Webhook? && Free(WorkerAt(w, step.worker)) && id < |w.payments| && w.payments[id].amount > 0
    requires WebhookTarget(w.payments, step.code, step.tx, step.merchantRef) == Some(id)
    ensures var agrees := w.payments[id].amount == step.amount && w.payments[id].currency == step.currency;
            && (agrees ==> Confirms(Next(w, step), step.worker, id, step.code, Some(step.tx)))
            && (!agrees ==> Next(w, step) == w)
    ensures Next(w, step).payments == w.payments
  {
    EntryFeeBooks(step.code, w.payments[id].amount, OrganizerPayable);
  }

  predicate HasTx(p: Payment, code: Provider, tx: string) {
    p.provider == code && p.providerTransactionId == Some(tx)
  }

  /** The payment a webhook is about has its transaction at its provider; if none has, it is the one it names. */
  lemma WebhookTargetIs(payments: seq<Payment>, code: Provider, tx: string, merchantRef: Option<nat>)
    requires TxsUnique(payments)
    ensures forall i: nat :: i < |payments| && HasTx(payments[i], code, tx) ==>
              WebhookTarget(payments, code, tx, merchantRef) == Some(i)
    ensures (forall i: nat :: i < |payments| ==> !HasTx(payments[i], code, tx)) ==>
              WebhookTarget(payments, code, tx, merchantRef) ==
              if merchantRef.Some? && merchantRef.value < |payments| then merchantRef else None
  {
    FindByTxIs(payments, code, tx);
  }

  lemma {:induction false} FindByTxIs(payments: seq<Payment>, code: Provider, tx: string)
    ensures var i := FindByTx(payments, code, tx);
            && (i.Some? ==> i.value < |payments| && HasTx(payments[i.value], code, tx))
            && (i.None? ==> forall k: nat :: k < |payments| ==> !HasTx(payments[k], code, tx))
  {
    if payments != [] {
      var front := payments[..|payments| - 1];
      FindByTxIs(front, code, tx);
      if FindByTx(payments, code, tx).None? {
        forall k: nat | k < |payments| ensures !HasTx(payments[k], code, tx) {
          if k < |front| { assert payments[k] == front[k]; }
        }
      }
    }
  }

  /** A new key gives a new waiting payment with the terms asked for; the others stay. */
  lemma InitiateTakesEffect(w: World, step: Step)
    requires step.Initiate? && !KeyTaken(w.payments, step.idempotencyKey)
    ensures var w' := Next(w, step);
            && |w'.payments| == |w.payments| + 1 && w'.payments[..|w.payments|] == w.payments && w'.ledger == w.ledger
            && var p := w'.payments[|w.payments|];
               && p.status == Created && p.provider == step.provider && p.amount == step.amount
               && p.currency == step.currency && p.invoiceId == step.invoiceId
               && p.idempotencyKey == step.idempotencyKey
               && p.providerTransactionId == None
  {
  }

  /** A checkout gives the payment its transaction, so that the provider's webhook finds it by that. */
  lemma CheckoutIsFound(w: World, step: Step, merchantRef: Option<nat>)
    requires Inv(w) && step.Checkout? && step.paymentId < |w.payments|
    requires !TxTaken(w.payments, w.payments[step.paymentId].provider, step.providerTransactionId, step.paymentId)
    ensures var w', id := Next(w, step), step.paymentId;
            && |w'.payments| == |w.payments|
            && w'.payments[id].status == w.payments[id].status
            && WebhookTarget(w'.payments, w.payments[id].provider, step.providerTransactionId, merchantRef) == Some(id)
  {
    var w' := Next(w, step);
    StepKeepsInv(w, step);
    WebhookTargetIs(w'.payments, w.payments[step.paymentId].provider, step.providerTransactionId, merchantRef);
  }
}
