/** What every run of the billing state machine keeps. */
module BillingRuns {
  import opened Wrappers
  import opened Tiers
  import opened Billing

  // ---------------------------------------------------------------- one live subscription

  /**
   Between requests every live subscription is the one on the row. While the lock holder works, the
   old one is live until it is cancelled, and after the charge only the new one can be.
   */
  predicate OneLive(w: World) {
    match w.flight
    case Idle => w.stripe.live <= Recorded(w.row.subId)
    case Cancelling(_, _) => w.stripe.live <= Recorded(w.row.subId)
    case Scheduling(_, _, _) => w.stripe.live <= Recorded(w.row.subId)
    case Charging(_, _, old_) => w.stripe.live <= Recorded(w.row.subId) && w.stripe.live <= {old_}
    case Cleared(_, _) => w.stripe.live == {}
    case Charged(_, _, charge) => w.stripe.live <= Recorded(charge.subId)
  }

  /**
   No paid invoice names a replaced subscription (one that is dead while another lives), and no
   deletion is applied over a row that has meanwhile moved on to a live subscription. A persist
   fails only when what was charged is dead already, or a webhook has recorded it.
   */
  predicate Admissible(w: World, e: Event) {
    match e
    case Paid(snap, inv, billed) =>
      inv.periodEnd.Some? && inv.subId.Some? ==>
        w.flight.Charged? || inv.subId.value in w.stripe.live || w.stripe.live == {}
    case Deleted(snap, sub) =>
      snap.subId == Some(sub) ==>
        w.flight.Charged? || w.row.subId.None? || w.row.subId.value !in w.stripe.live
    case PersistFails =>
      w.flight.Charged? && w.flight.charge.subId.Some? ==>
        w.flight.charge.subId == w.row.subId || w.flight.charge.subId.value !in w.stripe.live
    case _ => true
  }

  ghost predicate AdmissibleRun(w: World, events: seq<Event>)
    requires EnabledRun(w, events)
    decreases |events|
  {
    |events| != 0 ==> Admissible(w, events[0]) && AdmissibleRun(Next(w, events[0]), events[1..])
  }

  lemma NextKeepsOneLive(w: World, e: Event)
    requires OneLive(w) && Enabled(w, e) && Admissible(w, e)
    ensures OneLive(Next(w, e))
  {
    if e.Deleted? && e.deletedSnap.subId == Some(e.deleted) && w.row.subId.Some? && !w.flight.Charged? {
      assert w.stripe.live == {};
    }
  }

  /** The three conditions are exact: a step that misses its condition leaves a live subscription unrecorded. */
  lemma OneLiveNeedsAdmissible(w: World, e: Event)
    requires OneLive(w) && Enabled(w, e) && (e.Paid? || e.Deleted? || e.PersistFails?)
    ensures OneLive(Next(w, e)) <==> Admissible(w, e)
  {
    if Admissible(w, e) {
      NextKeepsOneLive(w, e);
    } else if !e.PersistFails? {
      var sub :| sub in w.stripe.live;
      assert w.row.subId == Some(sub);
    }
  }

  /**
   A deletion handled on the row as it is, and a paid invoice for the subscription on the row or
   for a live one, always meet their condition.
   */
  lemma FreshWebhooksAreAdmissible(w: World, e: Event)
    requires OneLive(w) && Enabled(w, e)
    requires (e.Deleted? && e.deletedSnap == w.row)
          || (e.Paid? && (e.inv.subId == w.row.subId || (e.inv.subId.Some? && e.inv.subId.value in w.stripe.live)))
    ensures Admissible(w, e)
  {
    if e.Paid? && !w.flight.Charged? && w.stripe.live != {} {
      var sub :| sub in w.stripe.live;
      assert w.row.subId == Some(sub);
    }
  }

  /**
   Over every run of subscribes, cancellations, scheduled changes and webhooks: never two live
   subscriptions, and whenever no request holds the lock each live one is the one on the row.
   */
  lemma {:induction false} EveryRunHasOneLive(w: World, events: seq<Event>)
    requires OneLive(w) && EnabledRun(w, events) && AdmissibleRun(w, events)
    ensures OneLive(Run(w, events))
    ensures |Run(w, events).stripe.live| <= 1
    ensures Run(w, events).flight.Idle? ==>
              forall sub :: sub in Run(w, events).stripe.live ==> Run(w, events).row.subId == Some(sub)
    decreases |events|
  {
    if |events| == 0 {
      AtMostOne(w);
    } else {
      NextKeepsOneLive(w, events[0]);
      EveryRunHasOneLive(Next(w, events[0]), events[1..]);
    }
  }

  lemma AtMostOne(w: World)
    requires OneLive(w)
    ensures |w.stripe.live| <= 1
  {
    var live := w.stripe.live;
    forall a, b | a in live && b in live ensures a == b {}
    if live != {} {
      var a :| a in live;
      assert live == {a};
    }
  }

  // ---------------------------------------------------------------- what Stripe and the row know

  /** Every subscription recorded, live, in flight or replayable is one that Stripe created, for a paid tier. */
  ghost predicate Known(w: World) {
    && Recorded(w.row.subId) <= w.stripe.created
    && w.stripe.live <= w.stripe.created
    && (forall key :: key in w.stripe.byKey ==> w.stripe.byKey[key] in w.stripe.created)
    && (w.flight.Charged? ==> Recorded(w.flight.charge.subId) <= w.stripe.created)
    && (FlightKey(w.flight).Some? ==> w.flight.target != FREE)
  }

  /** Invoices name subscriptions that Stripe created. */
  predicate NamesCreated(w: World, e: Event) {
    e.Paid? ==> Recorded(e.inv.subId) <= w.stripe.created
  }

  ghost predicate NamesCreatedRun(w: World, events: seq<Event>)
    requires EnabledRun(w, events)
    decreases |events|
  {
    |events| != 0 ==> NamesCreated(w, events[0]) && NamesCreatedRun(Next(w, events[0]), events[1..])
  }

  lemma NextKeepsKnown(w: World, e: Event)
    requires Known(w) && Enabled(w, e) && NamesCreated(w, e)
    ensures Known(Next(w, e))
  {
  }

  lemma {:induction false} EveryRunKnows(w: World, events: seq<Event>)
    requires Known(w) && EnabledRun(w, events) && NamesCreatedRun(w, events)
    ensures Known(Run(w, events))
    decreases |events|
  {
    if |events| != 0 {
      NextKeepsKnown(w, events[0]);
      EveryRunKnows(Next(w, events[0]), events[1..]);
    }
  }

  // ---------------------------------------------------------------- one charge per double click

  /** Same-tier first subscribes, racing each other and the webhooks of whatever is live. */
  predicate SameTierSubscribes(w: World, e: Event, t: Tier) {
    match e
    case Acquire(target, retryKey) => target == t
    case CancelOld(ok) => true
    case Create(answer) => true
    case Persist => true
    case Paid(snap, inv, billed) =>
      (billed.None? || billed == Some(t)) && (inv.subId.Some? ==> inv.subId.value in w.stripe.live)
    case Updated(flag, end) => true
    case ScheduleEnded(schedule) => true
    case _ => false
  }

  ghost predicate SameTierRun(w: World, events: seq<Event>, t: Tier)
    requires EnabledRun(w, events)
    decreases |events|
  {
    |events| != 0 ==> SameTierSubscribes(w, events[0], t) && SameTierRun(Next(w, events[0]), events[1..], t)
  }

  /** Either nothing has been charged, or one charge is being persisted, or the tier is reached. */
  predicate ChargedOnce(w: World, t: Tier, before: nat) {
    && w.stripe.charges >= before
    && (w.stripe.charges == before ==>
          w.stripe.live == {} && w.row.subId.None? && (w.flight.Idle? || w.flight.Cleared?))
    && (w.stripe.charges > before ==>
          && w.stripe.charges == before + 1
          && (if w.flight.Charged?
              then w.flight.charge.subId.Some? && w.flight.target == t && w.stripe.live <= Recorded(w.flight.charge.subId)
                   && Provisions(w.row, w.flight.charge)
              else w.flight.Idle? && Rank(w.row.tier) >= Rank(t)))
    && (w.flight.Cleared? ==> w.flight.target == t)
  }

  lemma NextKeepsChargedOnce(w: World, e: Event, t: Tier, before: nat)
    requires ChargedOnce(w, t, before) && Enabled(w, e) && SameTierSubscribes(w, e, t)
    ensures ChargedOnce(Next(w, e), t, before)
  {
  }

  /** Any number of concurrent same-tier first subscribes from a row with no id: at most one successful create. */
  lemma {:induction false} DoubleClickChargesOnce(w: World, events: seq<Event>, t: Tier, before: nat)
    requires ChargedOnce(w, t, before) && EnabledRun(w, events) && SameTierRun(w, events, t)
    ensures Run(w, events).stripe.charges <= before + 1
    decreases |events|
  {
    if |events| != 0 {
      NextKeepsChargedOnce(w, events[0], t, before);
      DoubleClickChargesOnce(Next(w, events[0]), events[1..], t, before);
    }
  }

  // ---------------------------------------------------------------- client retry keys

  function FlightKey(f: Flight): Option<string> {
    match f
    case Charging(_, key, _) => Some(key)
    case Cleared(_, key) => Some(key)
    case Charged(_, key, _) => Some(key)
    case _ => None
  }

  /** A client key is on at most one ledger row, and never on one while a charge under it is under way. */
  ghost predicate UniqueClientKeys(w: World) {
    && UniqueKeys(w.ledger)
    && (FlightKey(w.flight).Some? ==> !HasClientKey(w.ledger, FlightKey(w.flight).value))
  }

  ghost predicate UniqueKeys(ledger: Ledger) {
    forall a, b :: a in ledger && b in ledger && ledger[a].clientKey.Some? && ledger[a].clientKey == ledger[b].clientKey ==> a == b
  }

  lemma NextKeepsUniqueClientKeys(w: World, e: Event)
    requires UniqueClientKeys(w) && Enabled(w, e)
    ensures UniqueClientKeys(Next(w, e))
  {
  }

  lemma NextKeepsClientKeys(w: World, e: Event, clientKey: string)
    requires Enabled(w, e) && HasClientKey(w.ledger, clientKey)
    ensures HasClientKey(Next(w, e).ledger, clientKey)
  {
    var k :| k in w.ledger && w.ledger[k].clientKey == Some(clientKey);
    assert Next(w, e).ledger[k].clientKey == Some(clientKey);
  }

  /**
   Once a client key is recorded, it stays recorded on exactly one row and is never charged under
   again: in every later state, a first subscribe that takes the lock with it finds its outcome.
   */
  lemma {:induction false} RetryNeverChargesAgain(w: World, events: seq<Event>, clientKey: string, target: Tier)
    requires UniqueClientKeys(w) && HasClientKey(w.ledger, clientKey) && EnabledRun(w, events)
    ensures var end := Run(w, events);
            && UniqueKeys(end.ledger) && HasClientKey(end.ledger, clientKey)
            && FlightKey(end.flight) != Some(clientKey)
            && (Enabled(end, Acquire(target, clientKey)) ==> Next(end, Acquire(target, clientKey)) == end)
    decreases |events|
  {
    if |events| != 0 {
      NextKeepsUniqueClientKeys(w, events[0]);
      NextKeepsClientKeys(w, events[0], clientKey);
      RetryNeverChargesAgain(Next(w, events[0]), events[1..], clientKey, target);
    }
  }

  /** A persisted upgrade records its retry key, unless the invoice's row already carries another one. */
  lemma PersistRecordsKey(w: World)
    requires w.flight.Charged? && Provisions(w.row, w.flight.charge) && UniqueClientKeys(w)
    ensures var key := RowKey(w.flight.charge, w.flight.retryKey);
            HasClientKey(Next(w, Persist).ledger, w.flight.retryKey)
            <==> (key in w.ledger ==> w.ledger[key].clientKey.None?)
  {
    var key := RowKey(w.flight.charge, w.flight.retryKey);
    var after := Next(w, Persist).ledger;
    assert forall k :: k in after && k != key ==> k in w.ledger && after[k] == w.ledger[k];
    if key in w.ledger ==> w.ledger[key].clientKey.None? {
      assert after[key].clientKey == Some(w.flight.retryKey);
    }
  }

  // ---------------------------------------------------------------- scheduled changes

  predicate PendingPaired(row: UserRow) {
    row.pendingTier.Some? <==> row.pendingAt.Some?
  }

  /** Over every run, the pending tier and its date are both null or both set. */
  lemma {:induction false} PendingStaysPaired(w: World, events: seq<Event>)
    requires PendingPaired(w.row) && EnabledRun(w, events)
    ensures PendingPaired(Run(w, events).row)
    decreases |events|
  {
    if |events| != 0 {
      PendingStaysPaired(Next(w, events[0]), events[1..]);
    }
  }

  /** Steps of a scheduled change, its release, or the cancellation of a recorded subscription. */
  predicate KeepsTier(e: Event) {
    e.BeginCancel? || e.CommitCancel? || e.BeginSchedule? || e.CommitSchedule? || e.Release? || e.Updated?
    || e.ScheduleEnded? || e.StripeEnds?
  }

  /** Scheduling, releasing and cancelling never touch the tier, the subscription or the paid period's start. */
  lemma {:induction false} SchedulingKeepsTier(w: World, events: seq<Event>)
    requires EnabledRun(w, events) && forall i :: 0 <= i < |events| ==> KeepsTier(events[i])
    ensures var end := Run(w, events).row;
            end.tier == w.row.tier && end.subId == w.row.subId && end.periodStart == w.row.periodStart
    decreases |events|
  {
    if |events| != 0 {
      assert KeepsTier(events[0]);
      SchedulingKeepsTier(Next(w, events[0]), events[1..]);
    }
  }

  /**
   Paying for the pending tier clears both pending fields when the handler read them, and moves the
   tier there exactly when the handler read another tier or the row is on it already. A handler
   that decides on the row as it is therefore always does both.
   */
  lemma PaidPendingTakesEffect(w: World, snap: UserRow, inv: Invoice, t: Tier)
    requires snap.pendingTier == Some(t)
    ensures var row := Next(w, Paid(snap, inv, Some(t))).row;
            && row.pendingTier.None? && row.pendingAt.None?
            && (row.tier == t <==> snap.tier != t || w.row.tier == t)
            && (snap == w.row ==> row.tier == t)
  {
  }

  /** Deleting a subscription keeps its pending change on the row. */
  lemma DeletionKeepsPending(w: World, sub: SubId)
    requires sub !in w.stripe.live && w.row.subId == Some(sub)
    ensures var row := Next(w, Deleted(w.row, sub)).row;
            row.tier == FREE && row.subId.None? && row.pendingTier == w.row.pendingTier && row.pendingAt == w.row.pendingAt
  {
  }
}
