/**
 What each step leaves on the user row and in the ledger, column by column: the purchase as booked,
 the two ways down to FREE, what Stripe's notices mirror, and what a deferred change writes.
 */
module BillingRows {
  import opened Wrappers
  import opened Tiers
  import opened Billing

  // ---------------------------------------------------------------- a purchase

  /** What a persisted purchase always books: the tier, Stripe as provider, the subscription and the invoice. */
  predicate BooksPurchase(row: LedgerRow, target: Tier, charge: Charge) {
    && row.reference == target && row.metadata.tier == Some(target) && row.metadata.provider == Some("stripe")
    && row.metadata.stripeSubscriptionId == charge.subId && row.metadata.latestInvoiceId == charge.invoiceId
  }

  /**
   A persist books the purchase in one row, keyed by the invoice when there is one and by the retry
   key otherwise. A new row is a completed fee of amount zero under the client's key. A row that the
   invoice's own delivery has written keeps its kind, status, amount, client key and other metadata.
   */
  lemma PersistBooksOneRow(w: World)
    requires w.flight.Charged? && Provisions(w.row, w.flight.charge)
    ensures var charge, retryKey := w.flight.charge, w.flight.retryKey;
            var key := if charge.invoiceId.Some? && charge.invoiceId.value != "" then "stripe_invoice:" + charge.invoiceId.value
                       else retryKey;
            var after := Next(w, Persist).ledger;
            && after.Keys == w.ledger.Keys + {key} && BooksPurchase(after[key], w.flight.target, charge)
            && (forall k :: k in w.ledger && k != key ==> after[k] == w.ledger[k])
            && (key !in w.ledger ==>
                  && after[key].kind == FEE && after[key].status == COMPLETED && after[key].amount == 0
                  && after[key].clientKey == Some(retryKey)
                  && after[key].currency == (if charge.currency.Some? then charge.currency.value else "USD"))
            && (key in w.ledger ==>
                  && after[key].kind == w.ledger[key].kind && after[key].status == w.ledger[key].status
                  && after[key].amount == w.ledger[key].amount && after[key].currency == w.ledger[key].currency
                  && after[key].clientKey == (if w.ledger[key].clientKey.Some? then w.ledger[key].clientKey else Some(retryKey))
                  && after[key].metadata.invoiceId == w.ledger[key].metadata.invoiceId
                  && after[key].metadata.subscriptionId == w.ledger[key].metadata.subscriptionId
                  && after[key].metadata.other == w.ledger[key].metadata.other)
  {
  }

  /** The row of a persisted purchase: tier, subscription and paid period as charged, not cancelled, the pending change kept. */
  lemma PersistMovesRow(w: World)
    requires w.flight.Charged? && Provisions(w.row, w.flight.charge)
    ensures var charge, row := w.flight.charge, Next(w, Persist).row;
            && row.tier == w.flight.target && !row.cancelAtPeriodEnd
            && (charge.subId.Some? ==> row.subId == charge.subId)
            && (charge.periodStart.Some? ==> row.periodStart == charge.periodStart)
            && (charge.periodStart.None? ==> row.periodStart == w.row.periodStart)
            && (charge.periodEnd.Some? ==> row.periodEnd == charge.periodEnd)
            && (charge.periodEnd.None? ==> row.periodEnd == w.row.periodEnd)
            && row.pendingTier == w.row.pendingTier && row.pendingAt == w.row.pendingAt && row.scheduleId == w.row.scheduleId
  {
  }

  /** A delivered invoice leaves one completed fee of its own amount, keeps what the purchase booked there, and repeats to the same. */
  lemma InvoiceBooksOneRow(w: World, snap: UserRow, inv: Invoice, billed: Option<Tier>)
    ensures var key, after := "stripe_invoice:" + inv.id, Next(w, Paid(snap, inv, billed)).ledger;
            && after.Keys == w.ledger.Keys + {key}
            && (forall k :: k in w.ledger && k != key ==> after[k] == w.ledger[k])
            && after[key].kind == FEE && after[key].status == COMPLETED && after[key].amount == inv.amount
            && after[key].currency == inv.currency && after[key].paymentIntent == inv.paymentIntent && after[key].invoiceUrl == inv.url
            && after[key].reference == (if billed.Some? then billed.value else snap.tier)
            && after[key].metadata.tier == Some(after[key].reference) && after[key].metadata.provider == Some("stripe")
            && after[key].metadata.invoiceId == Some(inv.id) && after[key].metadata.subscriptionId == Some(inv.subId)
            && (key in w.ledger ==>
                  && after[key].clientKey == w.ledger[key].clientKey
                  && after[key].metadata.stripeSubscriptionId == w.ledger[key].metadata.stripeSubscriptionId
                  && after[key].metadata.latestInvoiceId == w.ledger[key].metadata.latestInvoiceId
                  && after[key].metadata.other == w.ledger[key].metadata.other)
            && (key !in w.ledger ==> after[key].clientKey.None?)
            && Next(Next(w, Paid(snap, inv, billed)), Paid(snap, inv, billed)).ledger == after
  {
  }

  // ---------------------------------------------------------------- down to FREE

  /**
   A failed payment on a paid tier drops to FREE and drops all that was scheduled, but keeps the
   subscription and its period; on FREE it changes nothing, so a redelivery is harmless.
   */
  lemma FailedPaymentDropsSchedule(w: World)
    ensures var row := Next(w, Failed(w.row)).row;
            && row.tier == FREE && row.subId == w.row.subId && row.periodStart == w.row.periodStart && row.periodEnd == w.row.periodEnd
            && (w.row.tier != FREE ==>
                  row.pendingTier.None? && row.pendingAt.None? && row.scheduleId.None? && !row.cancelAtPeriodEnd)
            && (w.row.tier == FREE ==> row == w.row)
            && Next(Next(w, Failed(w.row)), Failed(row)).row == row
  {
  }

  /**
   The deletion of the recorded subscription drops to FREE and forgets subscription and period, but
   keeps the schedule; any other subscription's deletion, a redelivery included, changes nothing.
   */
  lemma DeletionForgetsSubscription(w: World, sub: SubId)
    requires sub !in w.stripe.live
    ensures var row := Next(w, Deleted(w.row, sub)).row;
            && (w.row.subId == Some(sub) ==>
                  && row.tier == FREE && row.subId.None? && row.periodStart.None? && row.periodEnd.None? && !row.cancelAtPeriodEnd
                  && row.pendingTier == w.row.pendingTier && row.pendingAt == w.row.pendingAt && row.scheduleId == w.row.scheduleId)
            && (w.row.subId != Some(sub) ==> row == w.row)
            && Next(Next(w, Deleted(w.row, sub)), Deleted(row, sub)).row == row
  {
  }

  // ---------------------------------------------------------------- what Stripe's notices mirror

  /** An update mirrors Stripe's cancel flag, and its period end when it names one; nothing else moves. */
  lemma UpdateMirrorsFlag(w: World, flag: bool, end: Option<Time>)
    ensures var row := Next(w, Updated(flag, end)).row;
            && row.cancelAtPeriodEnd == flag
            && (end.Some? ==> row.periodEnd == end) && (end.None? ==> row.periodEnd == w.row.periodEnd)
            && row.tier == w.row.tier && row.subId == w.row.subId && row.periodStart == w.row.periodStart
            && row.pendingTier == w.row.pendingTier && row.pendingAt == w.row.pendingAt && row.scheduleId == w.row.scheduleId
  {
  }

  /** The end of a schedule clears its own id and nothing else; a schedule that replaced it is left alone. */
  lemma EndedScheduleIsForgotten(w: World, schedule: string)
    ensures var row := Next(w, ScheduleEnded(schedule)).row;
            && row.scheduleId != Some(schedule)
            && (w.row.scheduleId != Some(schedule) ==> row == w.row)
            && row.tier == w.row.tier && row.subId == w.row.subId && row.periodEnd == w.row.periodEnd
            && row.periodStart == w.row.periodStart && row.cancelAtPeriodEnd == w.row.cancelAtPeriodEnd
            && row.pendingTier == w.row.pendingTier && row.pendingAt == w.row.pendingAt
  {
  }

  // ---------------------------------------------------------------- deferred and local changes

  /** A zero-amount completed adjustment for a tier. */
  predicate AdjustsTo(row: LedgerRow, tier: Tier, currency: string) {
    && row.kind == ADJUSTMENT && row.status == COMPLETED && row.amount == 0 && row.currency == currency
    && row.reference == tier && row.clientKey.None? && row.metadata.tier == Some(tier) && row.metadata.provider == Some("stripe")
  }

  /** Only `key` is new in the ledger. */
  predicate AddsOnly(before: Ledger, after: Ledger, key: string) {
    after.Keys == before.Keys + {key} && forall k :: k in before ==> after[k] == before[k]
  }

  /** A committed cancellation keeps tier, subscription and period, drops the schedule, and books itself under the tier it ends. */
  lemma CancellationBooks(w: World, currency: string)
    requires w.flight.Cancelling? && w.flight.key !in w.ledger
    ensures var t := Next(w, CommitCancel(CancelAccepted(currency)));
            && AddsOnly(w.ledger, t.ledger, w.flight.key) && AdjustsTo(t.ledger[w.flight.key], w.flight.locked.tier, currency)
            && t.ledger[w.flight.key].metadata.scheduledCancel && !t.ledger[w.flight.key].metadata.scheduledChange
            && t.row.cancelAtPeriodEnd && t.row.pendingTier.None? && t.row.pendingAt.None? && t.row.scheduleId.None?
            && t.row.tier == w.row.tier && t.row.subId == w.row.subId
            && t.row.periodStart == w.row.periodStart && t.row.periodEnd == w.row.periodEnd
  {
  }

  /** A committed schedule records the tier, its date and the schedule, and books where the change comes from and when it applies. */
  lemma ScheduleBooks(w: World, schedule: string, at: Time, currency: string)
    requires w.flight.Scheduling? && w.flight.key !in w.ledger && w.flight.locked.subId.Some?
    ensures var t := Next(w, CommitSchedule(Scheduled(schedule, at, currency)));
            && AddsOnly(w.ledger, t.ledger, w.flight.key) && AdjustsTo(t.ledger[w.flight.key], w.flight.target, currency)
            && t.ledger[w.flight.key].metadata.scheduledChange && !t.ledger[w.flight.key].metadata.scheduledCancel
            && t.ledger[w.flight.key].metadata.switchedFrom == Some(w.flight.locked.tier)
            && t.ledger[w.flight.key].metadata.effectiveAt == Some(at)
            && t.row.pendingTier == Some(w.flight.target) && t.row.pendingAt == Some(at) && t.row.scheduleId == Some(schedule)
            && t.row.tier == w.row.tier && t.row.subId == w.row.subId && t.row.cancelAtPeriodEnd == w.row.cancelAtPeriodEnd
            && t.row.periodStart == w.row.periodStart && t.row.periodEnd == w.row.periodEnd
  {
  }

  /** A local change moves the tier at once, marks the row as not renewing, and books itself in dollars. */
  lemma LocalChangeBooks(w: World, target: Tier, key: string)
    requires key !in w.ledger
    ensures var t := Next(w, Local(target, key));
            && AddsOnly(w.ledger, t.ledger, key) && AdjustsTo(t.ledger[key], target, "USD")
            && !t.ledger[key].metadata.scheduledCancel && !t.ledger[key].metadata.scheduledChange
            && t.row.tier == target && t.row.cancelAtPeriodEnd && t.row.subId == w.row.subId
            && t.row.pendingTier == w.row.pendingTier && t.row.pendingAt == w.row.pendingAt && t.row.scheduleId == w.row.scheduleId
            && t.row.periodStart == w.row.periodStart && t.row.periodEnd == w.row.periodEnd
  {
  }

  /** Releasing undoes a committed schedule: the row is as before it, when nothing was pending then. */
  lemma ReleaseUndoesSchedule(w: World, schedule: string, at: Time, currency: string)
    requires w.flight.Scheduling? && w.flight.key !in w.ledger && w.flight.locked.subId.Some?
    requires w.row.pendingTier.None? && w.row.pendingAt.None? && w.row.scheduleId.None?
    ensures Next(Next(w, CommitSchedule(Scheduled(schedule, at, currency))), Release).row == w.row
  {
  }
}
