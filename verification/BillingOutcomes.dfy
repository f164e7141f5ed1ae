/**
 What a billing request's answer is worth: when a first subscribe really upgrades, what a refusal
 leaves behind, and when retrying after a lost persist recovers the charge.
 */
module BillingOutcomes {
  import opened Wrappers
  import opened Tiers
  import B = Billing
  import opened BillingRuns
  import opened BillingService

  /** The row has the tier, and the subscription it records is live. */
  predicate Upgraded(w: B.World, target: Tier) {
    w.row.tier == target && w.row.subId.Some? && w.row.subId.value in w.stripe.live
  }

  predicate Succeeds(answer: Result<Outcome, BillingError>) {
    answer.Ok? && answer.value.success
  }

  // ---------------------------------------------------------------- one request

  /** A first subscribe that gets as far as a create Stripe accepts. */
  ghost predicate Creates(w: B.World, target: Tier, req: Request, script: Script) {
    && req.paymentMethod.Some? && Rank(w.row.tier) < Rank(target) && !B.HasClientKey(w.ledger, req.retryKey)
    && (w.row.subId.Some? ==> script.cancelOldOk) && script.create.Created?
  }

  /** The retry key is new to Stripe, or what it replays is still live. */
  predicate ReplaysLive(stripe: B.Stripe, retryKey: string) {
    retryKey in stripe.byKey ==> stripe.byKey[retryKey] in stripe.live
  }

  /** The world in which the persist of a charged request runs. */
  ghost function ChargedWorld(w: B.World, target: Tier, req: Request, charge: B.Charge): B.World
    requires charge.subId.Some?
  {
    var cancelled := if w.row.subId.Some? then w.stripe.CancelNow(w.row.subId.value) else w.stripe;
    B.World(w.row, w.ledger, B.Charged(target, req.retryKey, charge), cancelled.Create(req.retryKey, charge.subId.value))
  }

  lemma ChargedThenPersisted(w: B.World, target: Tier, req: Request, script: Script)
    requires Fits(w, req, script) && Creates(w, target, req, script)
    ensures var effect, charged := FirstSubscribe(w, target, req, script), ChargedWorld(w, target, req, script.create.charge);
            && effect.world == B.Next(charged, B.Persist)
            && effect.answer == Ok(Succeeded(script.create.charge.periodEnd))
            && effect.rewrite == if B.Provisions(w.row, script.create.charge) then Some(target) else None
  {
  }

  lemma UnchargedChangesNothing(w: B.World, target: Tier, req: Request, script: Script)
    requires Fits(w, req, script) && !Creates(w, target, req, script)
    ensures var effect := FirstSubscribe(w, target, req, script);
            && effect.world.row == w.row && effect.world.ledger == w.ledger && effect.rewrite.None?
            && effect.world.stripe.charges == w.stripe.charges && effect.world.flight.Idle?
            && effect.world.stripe.live <= w.stripe.live
  {
  }

  /**
   A first subscribe that is charged always answers success. It leaves the user on the tier with a
   live subscription exactly when the row recorded none before and Stripe did not replay a dead one.
   A request that is not charged changes neither row nor ledger nor sessions.
   */
  lemma ChargedSubscribeUpgradesExactly(w: B.World, target: Tier, req: Request, script: Script)
    requires Fits(w, req, script) && Known(w)
    ensures var effect := FirstSubscribe(w, target, req, script);
            && (effect.world.stripe.charges > w.stripe.charges <==> Creates(w, target, req, script))
            && (Creates(w, target, req, script) ==>
                  && effect.answer == Ok(Succeeded(script.create.charge.periodEnd))
                  && (Upgraded(effect.world, target) <==> w.row.subId.None? && ReplaysLive(w.stripe, req.retryKey)))
            && (!Creates(w, target, req, script) ==>
                  effect.world.row == w.row && effect.world.ledger == w.ledger && effect.rewrite.None?)
  {
    if Creates(w, target, req, script) {
      ChargedThenPersisted(w, target, req, script);
    } else {
      UnchargedChangesNothing(w, target, req, script);
    }
  }

  /**
   On a row that still records a subscription, a charged first subscribe answers success and leaves
   nothing live: the old one is cancelled first, and the new one by the persist, which leaves row
   and ledger alone. If Stripe replays the old one instead, the row gets the tier all the same.
   */
  lemma OccupiedRowLosesBoth(w: B.World, target: Tier, req: Request, script: Script)
    requires Fits(w, req, script) && OneLive(w) && w.row.subId.Some? && Creates(w, target, req, script)
    ensures var effect, charge := FirstSubscribe(w, target, req, script), script.create.charge;
            && Succeeds(effect.answer) && (Known(w) ==> effect.world.stripe.live == {})
            && (charge.subId != w.row.subId ==>
                  effect.world.row == w.row && effect.world.ledger == w.ledger && effect.rewrite.None?)
            && (charge.subId == w.row.subId ==> effect.world.row.tier == target && effect.rewrite == Some(target))
  {
    ChargedThenPersisted(w, target, req, script);
  }

  /** On every branch, a request leaves each live subscription on the row, and the lock free. */
  lemma SubscribeKeepsOneLive(w: B.World, target: Tier, req: Request, script: Script)
    requires Fits(w, req, script) && OneLive(w)
    ensures var end := Subscribe(w, target, req, script).world;
            OneLive(end) && end.flight.Idle? && |end.stripe.live| <= 1
  {
    FirstSubscribeKeepsOneLive(w, target, req, script);
    DeferredKeepsOneLive(w, target, req, script);
    AtMostOne(Subscribe(w, target, req, script).world);
  }

  lemma FirstSubscribeKeepsOneLive(w: B.World, target: Tier, req: Request, script: Script)
    requires Fits(w, req, script) && OneLive(w)
    ensures var end := FirstSubscribe(w, target, req, script).world; OneLive(end) && end.flight.Idle?
  {
    if Creates(w, target, req, script) {
      ChargedThenPersisted(w, target, req, script);
      var charged := ChargedWorld(w, target, req, script.create.charge);
      NextKeepsOneLive(charged, B.Persist);
    } else {
      UnchargedChangesNothing(w, target, req, script);
    }
  }

  lemma DeferredKeepsOneLive(w: B.World, target: Tier, req: Request, script: Script)
    requires Fits(w, req, script) && OneLive(w)
    ensures var end := FullCancellation(w, req, script).world; OneLive(end) && end.flight.Idle?
    ensures var end := TierChange(w, target, req, script).world; OneLive(end) && end.flight.Idle?
    ensures var end := ReleaseChange(w, script).world; OneLive(end) && end.flight.Idle?
  {
    CancellationOutcome(w, req, script);
    TierChangeOutcome(w, target, req, script);
  }

  /** What a cancellation does with Stripe, the row and its answer. */
  lemma CancellationOutcome(w: B.World, req: Request, script: Script)
    requires Fits(w, req, script)
    ensures var effect := FullCancellation(w, req, script);
            var end := effect.world.row;
            && effect.world.stripe == w.stripe && effect.world.flight.Idle? && end.subId == w.row.subId
            && (!Succeeds(effect.answer) ==> end == w.row && effect.world.ledger == w.ledger && effect.rewrite.None?)
            && (Succeeds(effect.answer) ==>
                  if w.row.subId.None? then end.tier == FREE && effect.rewrite == Some(FREE)
                  else end.tier == w.row.tier && end.cancelAtPeriodEnd)
  {
  }

  /** The same for a change between paid tiers. */
  lemma TierChangeOutcome(w: B.World, target: Tier, req: Request, script: Script)
    requires Fits(w, req, script)
    ensures var effect := TierChange(w, target, req, script);
            var end := effect.world.row;
            && effect.world.stripe == w.stripe && effect.world.flight.Idle? && end.subId == w.row.subId
            && (!Succeeds(effect.answer) ==> end == w.row && effect.world.ledger == w.ledger && effect.rewrite.None?)
            && (Succeeds(effect.answer) ==>
                  if w.row.subId.None? then end.tier == target && effect.rewrite == Some(target)
                  else end.tier == w.row.tier && (w.row.tier != target ==> end.pendingTier == Some(target)))
  {
  }

  /** A refusal or an error changes neither row nor ledger nor sessions; at most it has cancelled a subscription. */
  lemma RefusalChangesNothing(w: B.World, target: Tier, req: Request, script: Script)
    requires Fits(w, req, script) && !Succeeds(Subscribe(w, target, req, script).answer)
    ensures var effect := Subscribe(w, target, req, script);
            && effect.world.row == w.row && effect.world.ledger == w.ledger && effect.rewrite.None?
            && effect.world.stripe.live <= w.stripe.live
  {
    if Creates(w, target, req, script) {
      ChargedThenPersisted(w, target, req, script);
    } else {
      UnchargedChangesNothing(w, target, req, script);
    }
    CancellationOutcome(w, req, script);
    TierChangeOutcome(w, target, req, script);
  }

  /** What a success means on the branches that defer to the end of the period, or need no Stripe. */
  lemma SuccessMeans(w: B.World, target: Tier, req: Request, script: Script)
    requires Fits(w, req, script) && Succeeds(Subscribe(w, target, req, script).answer)
    requires w.row.tier != FREE || target == FREE
    ensures var effect := Subscribe(w, target, req, script);
            var end := effect.world.row;
            && effect.world.stripe == w.stripe && end.subId == w.row.subId
            && if target == w.row.tier then end.tier == target && end.pendingTier.None? && end.scheduleId.None?
               else if w.row.subId.None? then end.tier == target && effect.rewrite == Some(target)
               else if target == FREE then end.tier == w.row.tier && end.cancelAtPeriodEnd
               else end.tier == w.row.tier && end.pendingTier == Some(target)
  {
    RankIsInjective(target, w.row.tier);
    CancellationOutcome(w, req, script);
    TierChangeOutcome(w, target, req, script);
  }

  // ---------------------------------------------------------------- retrying after a lost persist

  /** What runs without the user's lock: webhooks, admin changes, and Stripe itself. */
  predicate Outside(e: B.Event) {
    e.Paid? || e.Failed? || e.Deleted? || e.Updated? || e.ScheduleEnded? || e.StripeEnds? || e.Admin?
  }

  predicate AllOutside(events: seq<B.Event>) {
    forall i :: 0 <= i < |events| ==> Outside(events[i])
  }

  lemma PaidKeepsClientKeys(ledger: B.Ledger, snap: B.UserRow, inv: B.Invoice, billed: Option<Tier>, clientKey: string)
    ensures B.HasClientKey(B.PaidLedger(ledger, snap, inv, billed), clientKey) <==> B.HasClientKey(ledger, clientKey)
  {
    var after, key := B.PaidLedger(ledger, snap, inv, billed), B.InvoiceKey(inv.id);
    if B.HasClientKey(ledger, clientKey) {
      var k :| k in ledger && ledger[k].clientKey == Some(clientKey);
      assert after[k].clientKey == Some(clientKey);
    }
    if B.HasClientKey(after, clientKey) {
      var k :| k in after && after[k].clientKey == Some(clientKey);
      assert k in ledger && ledger[k].clientKey == Some(clientKey);
    }
  }

  /** None of them creates a subscription, records a client key or takes the lock. */
  lemma {:induction false} OutsideOnlyEnds(w: B.World, events: seq<B.Event>, clientKey: string)
    requires w.flight.Idle? && B.EnabledRun(w, events) && AllOutside(events)
    ensures var end := B.Run(w, events);
            && end.flight.Idle? && end.stripe.live <= w.stripe.live && end.stripe == w.stripe.(live := end.stripe.live)
            && (B.HasClientKey(end.ledger, clientKey) <==> B.HasClientKey(w.ledger, clientKey))
    decreases |events|
  {
    if |events| != 0 {
      var e := events[0];
      assert Outside(e);
      if e.Paid? { PaidKeepsClientKeys(w.ledger, e.snap, e.inv, e.billed, clientKey); }
      OutsideOnlyEnds(B.Next(w, e), events[1..], clientKey);
    }
  }

  /** Without an invoice that names a subscription and a period end, a row that records none stays so. */
  lemma {:induction false} UnpaidRowStaysEmpty(w: B.World, events: seq<B.Event>)
    requires B.EnabledRun(w, events) && AllOutside(events) && w.row.subId.None?
    requires forall i :: 0 <= i < |events| && events[i].Paid? ==> events[i].inv.subId.None? || events[i].inv.periodEnd.None?
    ensures B.Run(w, events).row.subId.None?
    decreases |events|
  {
    if |events| != 0 {
      assert Outside(events[0]);
      UnpaidRowStaysEmpty(B.Next(w, events[0]), events[1..]);
    }
  }

  /** The world after a charge whose persist threw. */
  ghost function Lost(w: B.World, charge: B.Charge): B.World
    requires w.flight.Cleared? && w.stripe.Answers(w.flight.retryKey, B.Created(charge))
  {
    B.Next(B.Next(w, B.Create(B.Created(charge))), B.PersistFails)
  }

  /** A charge whose persist throws is live and unrecorded. */
  lemma LostChargeIsUnrecorded(w: B.World, charge: B.Charge)
    requires OneLive(w) && Known(w) && w.flight.Cleared? && w.flight.retryKey !in w.stripe.byKey
    requires w.stripe.Answers(w.flight.retryKey, B.Created(charge))
    ensures var lost := Lost(w, charge);
            && lost.flight.Idle? && lost.row == w.row && lost.ledger == w.ledger && Known(lost)
            && lost.stripe.live == Recorded(charge.subId) && !OneLive(lost)
            && lost.stripe.byKey == w.stripe.byKey[w.flight.retryKey := charge.subId.value]
  {
    assert charge.subId.value in Lost(w, charge).stripe.live;
  }

  /** The charge is on the row: its tier, its subscription, and that subscription live. */
  predicate Recovered(w: B.World, target: Tier, charge: B.Charge) {
    Upgraded(w, target) && w.row.subId == charge.subId
  }

  /** A request repeated under a key whose subscription Stripe already holds, on every branch it can take. */
  lemma RetryByCases(m: B.World, target: Tier, charge: B.Charge, req: Request, script: Script)
    requires Fits(m, req, script) && !B.HasClientKey(m.ledger, req.retryKey) && charge.subId.Some? && target != FREE
    requires req.retryKey in m.stripe.byKey && m.stripe.byKey[req.retryKey] == charge.subId.value
    ensures var end := Subscribe(m, target, req, script).world;
            && end.stripe.created == m.stripe.created
            && (Recovered(end, target, charge) <==>
                  if m.row.tier == target then m.row.subId == charge.subId && charge.subId.value in m.stripe.live
                  else && m.row.tier == FREE && m.row.subId.None? && charge.subId.value in m.stripe.live
                       && req.paymentMethod.Some? && script.create.Created?)
  {
    RankIsInjective(target, m.row.tier);
    if Creates(m, target, req, script) {
      ChargedThenPersisted(m, target, req, script);
    } else {
      UnchargedCreatesNothing(m, target, req, script);
    }
    TierChangeOutcome(m, target, req, script);
  }

  /** A retry whose early read is stale, and which finds the row as `m` only under the lock. */
  lemma LockedRetryByCases(m: B.World, target: Tier, charge: B.Charge, req: Request, script: Script)
    requires Fits(m, req, script) && !B.HasClientKey(m.ledger, req.retryKey) && charge.subId.Some?
    requires req.retryKey in m.stripe.byKey && m.stripe.byKey[req.retryKey] == charge.subId.value
    ensures var end := FirstSubscribe(m, target, req, script).world;
            if Rank(m.row.tier) >= Rank(target) then end == m
            else
              && (Upgraded(end, target) <==>
                    && m.row.subId.None? && charge.subId.value in m.stripe.live
                    && req.paymentMethod.Some? && script.create.Created?)
              && (Upgraded(end, target) ==> end.row.subId == charge.subId && end.stripe.created == m.stripe.created)
  {
  }

  lemma UnchargedCreatesNothing(w: B.World, target: Tier, req: Request, script: Script)
    requires Fits(w, req, script) && !Creates(w, target, req, script)
    ensures FirstSubscribe(w, target, req, script).world.stripe.created == w.stripe.created
    ensures FirstSubscribe(w, target, req, script).world.row == w.row
  {
  }

  /**
   Webhooks, admin changes and Stripe run on, and then the whole request is repeated under the same
   key. It creates no other subscription. The charge is on the row afterwards exactly when it was
   already, on the bought tier; or when the user is still on FREE, the row records no subscription,
   the charged one is live, and the request has a payment method that Stripe accepts.
   */
  lemma RetryRecoversExactly(w: B.World, charge: B.Charge, events: seq<B.Event>, req: Request, script: Script)
    requires OneLive(w) && Known(w) && w.flight.Cleared? && w.flight.retryKey !in w.stripe.byKey
    requires !B.HasClientKey(w.ledger, w.flight.retryKey) && w.stripe.Answers(w.flight.retryKey, B.Created(charge))
    requires B.EnabledRun(Lost(w, charge), events) && AllOutside(events)
    requires req.retryKey == w.flight.retryKey && Fits(B.Run(Lost(w, charge), events), req, script)
    ensures var target, m := w.flight.target, B.Run(Lost(w, charge), events);
            var end := Subscribe(m, target, req, script).world;
            && end.stripe.created == m.stripe.created
            && (Recovered(end, target, charge) <==>
                  if m.row.tier == target then m.row.subId == charge.subId && charge.subId.value in m.stripe.live
                  else && m.row.tier == FREE && m.row.subId.None? && charge.subId.value in m.stripe.live
                       && req.paymentMethod.Some? && script.create.Created?)
  {
    var lost := Lost(w, charge);
    LostChargeIsUnrecorded(w, charge);
    OutsideOnlyEnds(lost, events, req.retryKey);
    RetryByCases(B.Run(lost, events), w.flight.target, charge, req, script);
  }

  /** So while the user is on FREE, no invoice has recorded the subscription and Stripe has not ended it, an accepted retry recovers it. */
  lemma UnpaidRetryRecovers(w: B.World, charge: B.Charge, events: seq<B.Event>, req: Request, script: Script)
    requires OneLive(w) && Known(w) && w.flight.Cleared? && w.flight.retryKey !in w.stripe.byKey && w.row.subId.None?
    requires !B.HasClientKey(w.ledger, w.flight.retryKey) && w.stripe.Answers(w.flight.retryKey, B.Created(charge))
    requires B.EnabledRun(Lost(w, charge), events) && AllOutside(events)
    requires forall i :: 0 <= i < |events| && events[i].Paid? ==> events[i].inv.subId.None? || events[i].inv.periodEnd.None?
    requires var m := B.Run(Lost(w, charge), events);
             && m.row.tier == FREE && charge.subId.value in m.stripe.live
             && Fits(m, req, script) && req.retryKey == w.flight.retryKey && req.paymentMethod.Some? && script.create.Created?
    ensures Recovered(Subscribe(B.Run(Lost(w, charge), events), w.flight.target, req, script).world, w.flight.target, charge)
  {
    UnpaidRowStaysEmpty(Lost(w, charge), events);
    RetryRecoversExactly(w, charge, events, req, script);
  }

  /**
   Repeating a request for the tier the row has by now is no retry: it drops a pending change, or is
   refused, and leaves tier, recorded subscription, ledger and Stripe alone.
   */
  lemma RepeatOnReachedTier(m: B.World, target: Tier, req: Request, script: Script)
    requires Fits(m, req, script) && m.row.tier == target
    ensures var effect := Subscribe(m, target, req, script);
            && effect.world.stripe == m.stripe && effect.world.ledger == m.ledger && effect.rewrite.None?
            && effect.world.row.tier == target && effect.world.row.subId == m.row.subId
            && (m.row.pendingTier.None? ==> effect.answer == Err(AlreadyOnThisTier) && effect.world == m)
            && (m.row.pendingTier.Some? && (m.row.scheduleId.None? || script.releaseOk) ==>
                  Succeeds(effect.answer) && effect.world.row == B.ReleasedUser(m.row))
  {
  }

  /**
   A failing input: the charge's own invoice is delivered before the retry and its billed tier
   does not resolve. The delivery is in order and repairs the record, but the retry then cancels
   the recorded subscription, is given it back dead, and answers success for the tier.
   */
  lemma PaidInvoiceSpoilsRetry(w: B.World, charge: B.Charge, inv: B.Invoice, req: Request, script: Script)
    requires OneLive(w) && Known(w) && w.flight.Cleared? && w.flight.retryKey !in w.stripe.byKey && w.row.subId.None?
    requires !B.HasClientKey(w.ledger, w.flight.retryKey) && w.stripe.Answers(w.flight.retryKey, B.Created(charge))
    requires inv.subId == charge.subId && inv.periodEnd.Some? && w.row.tier == FREE
    requires req.retryKey == w.flight.retryKey && req.paymentMethod.Some?
    requires var m := B.Next(Lost(w, charge), B.Paid(w.row, inv, None));
             Fits(m, req, script) && script.cancelOldOk && script.create.Created?
    ensures var paid := B.Paid(w.row, inv, None);
            var m := B.Next(Lost(w, charge), paid);
            var effect := Subscribe(m, w.flight.target, req, script);
            && Admissible(Lost(w, charge), paid) && OneLive(m) && m.stripe.live == Recorded(charge.subId)
            && Succeeds(effect.answer) && effect.world.stripe.live == {}
            && effect.world.row.tier == w.flight.target && effect.world.row.subId == charge.subId
  {
    LostChargeIsUnrecorded(w, charge);
    PaidKeepsClientKeys(w.ledger, w.row, inv, None, req.retryKey);
    ChargedThenPersisted(B.Next(Lost(w, charge), B.Paid(w.row, inv, None)), w.flight.target, req, script);
  }

  /**
   Another failing input: an admin moves the user to any other paid tier before the retry. The retry
   then takes the local branch: it answers success for the bought tier, moving the row up or down to
   it, while the charged subscription stays live on no row.
   */
  lemma AdminChangeSpoilsRetry(w: B.World, charge: B.Charge, tier: Tier, req: Request, script: Script)
    requires OneLive(w) && Known(w) && w.flight.Cleared? && w.flight.retryKey !in w.stripe.byKey && w.row.subId.None?
    requires w.stripe.Answers(w.flight.retryKey, B.Created(charge))
    requires tier != FREE && tier != w.flight.target && req.generatedKey !in w.ledger
    requires req.retryKey == w.flight.retryKey && Fits(B.Next(Lost(w, charge), B.Admin(tier)), req, script)
    ensures var effect := Subscribe(B.Next(Lost(w, charge), B.Admin(tier)), w.flight.target, req, script);
            && Succeeds(effect.answer) && effect.world.row.tier == w.flight.target && effect.world.row.subId.None?
            && effect.world.stripe.live == Recorded(charge.subId) && !OneLive(effect.world)
  {
    LostChargeIsUnrecorded(w, charge);
    RankIsInjective(tier, w.flight.target);
  }

  /**
   When the billed tier resolves to the bought one, that delivery completes the upgrade. The repeated
   request leaves it standing: it is refused, or drops a change that was pending for another tier.
   */
  lemma PaidInvoiceCompletesUpgrade(w: B.World, charge: B.Charge, inv: B.Invoice, req: Request, script: Script)
    requires OneLive(w) && Known(w) && w.flight.Cleared? && w.flight.retryKey !in w.stripe.byKey
    requires w.stripe.Answers(w.flight.retryKey, B.Created(charge))
    requires inv.subId == charge.subId && inv.periodEnd.Some? && Rank(w.row.tier) < Rank(w.flight.target)
    requires Fits(B.Next(Lost(w, charge), B.Paid(w.row, inv, Some(w.flight.target))), req, script)
    ensures var m := B.Next(Lost(w, charge), B.Paid(w.row, inv, Some(w.flight.target)));
            var effect := Subscribe(m, w.flight.target, req, script);
            && Recovered(m, w.flight.target, charge) && OneLive(m)
            && Recovered(effect.world, w.flight.target, charge) && OneLive(effect.world)
            && (m.row.pendingTier.None? ==> effect.world == m && effect.answer == Err(AlreadyOnThisTier))
  {
    LostChargeIsUnrecorded(w, charge);
    RepeatOnReachedTier(B.Next(Lost(w, charge), B.Paid(w.row, inv, Some(w.flight.target))), w.flight.target, req, script);
  }

  // ---------------------------------------------------------------- repeating a recorded request

  /**
   Once a client key is recorded, then over every run, no request under it, for any tier and on any
   branch, ever touches Stripe's subscriptions again; and from FREE, a purchase under it changes
   nothing at all.
   */
  lemma RecordedKeyNeverCharges(w: B.World, events: seq<B.Event>, target: Tier, req: Request, script: Script)
    requires UniqueClientKeys(w) && B.HasClientKey(w.ledger, req.retryKey) && B.EnabledRun(w, events)
    requires Fits(B.Run(w, events), req, script)
    ensures var end := B.Run(w, events);
            var effect := Subscribe(end, target, req, script);
            && effect.world.stripe == end.stripe
            && (end.row.tier == FREE && target != FREE ==> effect.world == end && effect.rewrite.None?)
  {
    RetryNeverChargesAgain(w, events, req.retryKey, target);
    var end := B.Run(w, events);
    RecordedKeyEndsFirstSubscribe(end, target, req, script);
    CancellationOutcome(end, req, script);
    TierChangeOutcome(end, target, req, script);
    RankIsInjective(target, end.row.tier);
  }

  lemma RecordedKeyEndsFirstSubscribe(w: B.World, target: Tier, req: Request, script: Script)
    requires Fits(w, req, script) && B.HasClientKey(w.ledger, req.retryKey)
    ensures FirstSubscribe(w, target, req, script).world == w && FirstSubscribe(w, target, req, script).rewrite.None?
  {
  }

  /** The other branches do not look the key up: repeated on the tier it bought, a request drops a change pending since. */
  lemma RecordedKeyStillReleases(w: B.World, target: Tier, req: Request, script: Script)
    requires Fits(w, req, script) && B.HasClientKey(w.ledger, req.retryKey)
    requires w.row.tier == target && w.row.pendingTier.Some? && (w.row.scheduleId.None? || script.releaseOk)
    ensures Succeeds(Subscribe(w, target, req, script).answer)
    ensures Subscribe(w, target, req, script).world.row == B.ReleasedUser(w.row) != w.row
  {
    RepeatOnReachedTier(w, target, req, script);
  }

  // ---------------------------------------------------------------- what a recorded key answers

  /**
   A repeated first subscribe is answered by the row that carries its key: success exactly when that
   row is completed, and otherwise a refusal with the row's reason, or "declined" if it has none.
   */
  lemma RecordedRowIsAnswered(w: B.World, k: string, target: Tier, req: Request, script: Script)
    requires Fits(w, req, script) && UniqueKeys(w.ledger) && k in w.ledger && w.ledger[k].clientKey == Some(req.retryKey)
    requires req.paymentMethod.Some? && Rank(w.row.tier) < Rank(target)
    ensures var effect, other := FirstSubscribe(w, target, req, script), w.ledger[k].metadata.other;
            && effect.world == w && effect.rewrite.None?
            && effect.answer ==
               if w.ledger[k].status == B.COMPLETED then Ok(Outcome(true, None, None, None, None))
               else if "reason" in other then Ok(Outcome(false, Some(other["reason"]), None, None, None))
               else Ok(Outcome(false, Some("declined"), None, None, None))
  {
    assert B.HasClientKey(w.ledger, req.retryKey);
    assert RetryRow(w.ledger, req.retryKey) == w.ledger[k];
  }

  /** A completed row stays completed under its client key, whatever is booked onto it later. */
  predicate CompletedUnder(ledger: B.Ledger, k: string, clientKey: string) {
    k in ledger && ledger[k].status == B.COMPLETED && ledger[k].clientKey == Some(clientKey)
  }

  lemma {:induction false} CompletedStays(w: B.World, events: seq<B.Event>, k: string, clientKey: string)
    requires UniqueClientKeys(w) && CompletedUnder(w.ledger, k, clientKey) && B.EnabledRun(w, events)
    ensures UniqueClientKeys(B.Run(w, events)) && CompletedUnder(B.Run(w, events).ledger, k, clientKey)
    decreases |events|
  {
    if |events| != 0 {
      NextKeepsUniqueClientKeys(w, events[0]);
      CompletedStays(B.Next(w, events[0]), events[1..], k, clientKey);
    }
  }

  /**
   Once a purchase is persisted in a new row, then over every run, a repetition under its key from a
   lower tier is answered success without a charge or any other change.
   */
  lemma PersistedPurchaseAnswersSuccess(w: B.World, events: seq<B.Event>, target: Tier, req: Request, script: Script)
    requires w.flight.Charged? && B.Provisions(w.row, w.flight.charge) && UniqueClientKeys(w)
    requires B.RowKey(w.flight.charge, w.flight.retryKey) !in w.ledger && req.retryKey == w.flight.retryKey
    requires B.EnabledRun(B.Next(w, B.Persist), events)
    requires var end := B.Run(B.Next(w, B.Persist), events);
             Fits(end, req, script) && req.paymentMethod.Some? && Rank(end.row.tier) < Rank(target)
    ensures var end := B.Run(B.Next(w, B.Persist), events);
            var effect := FirstSubscribe(end, target, req, script);
            effect.world == end && effect.answer == Ok(Outcome(true, None, None, None, None))
  {
    var k := B.RowKey(w.flight.charge, w.flight.retryKey);
    NextKeepsUniqueClientKeys(w, B.Persist);
    assert CompletedUnder(B.Next(w, B.Persist).ledger, k, req.retryKey);
    CompletedStays(B.Next(w, B.Persist), events, k, req.retryKey);
    RecordedRowIsAnswered(B.Run(B.Next(w, B.Persist), events), k, target, req, script);
  }

  /** What a first subscribe answers when it is not charged: which error, the period it already has, or Stripe's reason. */
  lemma UnchargedAnswers(w: B.World, target: Tier, req: Request, script: Script)
    requires Fits(w, req, script)
    ensures var answer := FirstSubscribe(w, target, req, script).answer;
            && (answer == Err(PaymentMethodRequired) <==> req.paymentMethod.None?)
            && (req.paymentMethod.Some? && Rank(w.row.tier) >= Rank(target) ==>
                  answer == Ok(Outcome(true, None, w.row.periodEnd, None, None)))
            && (req.paymentMethod.Some? && Rank(w.row.tier) < Rank(target) && !B.HasClientKey(w.ledger, req.retryKey) ==>
                  if w.row.subId.Some? && !script.cancelOldOk then answer == Err(StripeFailed)
                  else if script.create.Declined? then answer == Ok(Outcome(false, Some(script.create.reason), None, None, None))
                  else answer == Ok(Outcome(true, None, script.create.charge.periodEnd, None, None)))
  {
  }

  /** What a request answers on the branches that defer, for a row that records a subscription, and on the same tier. */
  lemma DeferredAnswers(w: B.World, target: Tier, req: Request, script: Script)
    requires Fits(w, req, script) && w.row.tier != FREE && (w.row.tier == target || w.row.subId.Some?)
    ensures var answer := Subscribe(w, target, req, script).answer;
            if target == w.row.tier then
              if w.row.pendingTier.None? then answer == Err(AlreadyOnThisTier)
              else if w.row.scheduleId.Some? && !script.releaseOk then answer == Err(StripeFailed)
              else answer == Ok(Outcome(true, Some("pending_change_cancelled"), None, None, None))
            else if target == FREE then
              if w.row.cancelAtPeriodEnd then answer == Ok(Outcome(true, None, None, None, None))
              else if script.cancel.CancelFailed? then answer == Err(StripeFailed)
              else if req.generatedKey in w.ledger then answer == Err(DuplicateKey)
              else answer == Ok(Outcome(true, None, None, None, None))
            else if w.row.pendingTier == Some(target) then
              answer == Ok(Outcome(true, None, w.row.pendingAt, Some(target), w.row.pendingAt))
            else if script.schedule.ScheduleRefused? then
              answer == Ok(Outcome(false, Some(script.schedule.reason), None, None, None))
            else if req.generatedKey in w.ledger then answer == Err(DuplicateKey)
            else answer == Ok(Outcome(true, None, Some(script.schedule.at), Some(target), Some(script.schedule.at)))
  {
    RankIsInjective(target, w.row.tier);
  }
}
