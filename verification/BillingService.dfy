/**
 The handlers of src/billing/billing.service.ts and src/billing/stripe-webhook.controller.ts, run
 one at a time: each works through the row, the ledger, Stripe and the session store step by step,
 and is proved equal to its uninterrupted steps in the state machine of `Billing`.
 */
module BillingService {
  import opened Wrappers
  import opened Tiers
  import opened Tokens
  import opened SessionStore
  import opened TokenStoreService
  import B = Billing
  import opened BillingRuns

  datatype Outcome = Outcome(
    success: bool, reason: Option<string>, periodEnd: Option<B.Time>, pendingTier: Option<Tier>, pendingAt: Option<B.Time>)

  datatype BillingError = AlreadyOnThisTier | PaymentMethodRequired | StripeFailed | DuplicateKey

  /** What the client sends: its payment method, its retry key, and the minute's generated key. */
  datatype Request = Request(paymentMethod: Option<string>, retryKey: string, generatedKey: string)

  /** What Stripe answers to each call a request may make. */
  datatype Script = Script(
    cancelOldOk: bool, create: B.CreateAnswer, cancel: B.CancelAnswer, schedule: B.ScheduleAnswer, releaseOk: bool)

  /** A handler's end state, its answer, and the tier it writes into the user's sessions, if any. */
  datatype Effect = Effect(world: B.World, answer: Result<Outcome, BillingError>, rewrite: Option<Tier>)

  function Succeeded(periodEnd: Option<B.Time>): Outcome {
    Outcome(true, None, periodEnd, None, None)
  }

  function Refused(reason: string): Outcome {
    Outcome(false, Some(reason), None, None, None)
  }

  function ReasonOf(row: B.LedgerRow): string {
    if "reason" in row.metadata.other then row.metadata.other["reason"] else "declined"
  }

  function RetryOutcome(row: B.LedgerRow): Outcome {
    if row.status == B.COMPLETED then Succeeded(None) else Refused(ReasonOf(row))
  }

  ghost function RetryRow(ledger: B.Ledger, clientKey: string): B.LedgerRow
    requires B.HasClientKey(ledger, clientKey)
  {
    var k :| k in ledger && ledger[k].clientKey == Some(clientKey);
    ledger[k]
  }

  // ---------------------------------------------------------------- uninterrupted requests

  ghost predicate Fits(w: B.World, req: Request, script: Script) {
    w.flight.Idle? && w.stripe.Answers(req.retryKey, script.create)
  }

  ghost function FirstSubscribe(w: B.World, target: Tier, req: Request, script: Script): Effect
    requires Fits(w, req, script)
  {
    if req.paymentMethod.None? then Effect(w, Err(PaymentMethodRequired), None)
    else if Rank(w.row.tier) >= Rank(target) then Effect(w, Ok(Succeeded(w.row.periodEnd)), None)
    else if B.HasClientKey(w.ledger, req.retryKey) then Effect(w, Ok(RetryOutcome(RetryRow(w.ledger, req.retryKey))), None)
    else
      var w1 := B.Next(w, B.Acquire(target, req.retryKey));
      if w1.flight.Charging? && !script.cancelOldOk then Effect(B.Next(w1, B.CancelOld(false)), Err(StripeFailed), None)
      else
        var w2 := if w1.flight.Charging? then B.Next(w1, B.CancelOld(true)) else w1;
        var w3 := B.Next(w2, B.Create(script.create));
        if script.create.Declined? then Effect(w3, Ok(Refused(script.create.reason)), None)
        else Effect(B.Next(w3, B.Persist), Ok(Succeeded(script.create.charge.periodEnd)),
                    if B.Provisions(w3.row, script.create.charge) then Some(target) else None)
  }

  ghost function LocalChange(w: B.World, target: Tier, req: Request): Effect {
    if req.generatedKey in w.ledger then Effect(w, Err(DuplicateKey), None)
    else Effect(B.Next(w, B.Local(target, req.generatedKey)), Ok(Succeeded(None)), Some(target))
  }

  ghost function FullCancellation(w: B.World, req: Request, script: Script): Effect
    requires Fits(w, req, script)
  {
    if w.row.subId.None? then LocalChange(w, FREE, req)
    else
      var w1 := B.Next(w, B.BeginCancel(req.generatedKey));
      if w1.flight.Idle? then Effect(w1, Ok(Succeeded(None)), None)
      else Effect(B.Next(w1, B.CommitCancel(script.cancel)),
                  if script.cancel.CancelFailed? then Err(StripeFailed)
                  else if req.generatedKey in w.ledger then Err(DuplicateKey) else Ok(Succeeded(None)), None)
  }

  ghost function TierChange(w: B.World, target: Tier, req: Request, script: Script): Effect
    requires Fits(w, req, script)
  {
    if w.row.subId.None? then LocalChange(w, target, req)
    else if w.row.tier == target then Effect(w, Ok(Succeeded(w.row.periodEnd)), None)
    else if w.row.pendingTier == Some(target)
      then Effect(w, Ok(Outcome(true, None, w.row.pendingAt, w.row.pendingTier, w.row.pendingAt)), None)
    else
      var w1 := B.Next(w, B.BeginSchedule(target, req.generatedKey));
      Effect(B.Next(w1, B.CommitSchedule(script.schedule)),
             match script.schedule
             case ScheduleRefused(reason) => Ok(Refused(reason))
             case Scheduled(_, at, _) =>
               if req.generatedKey in w.ledger then Err(DuplicateKey)
               else Ok(Outcome(true, None, Some(at), Some(target), Some(at))), None)
  }

  ghost function ReleaseChange(w: B.World, script: Script): Effect {
    if w.row.scheduleId.Some? && !script.releaseOk then Effect(w, Err(StripeFailed), None)
    else Effect(B.Next(w, B.Release), Ok(Outcome(true, Some("pending_change_cancelled"), None, None, None)), None)
  }

  /** `subscribeToPlan`: which of the branches a target tier leads to. */
  ghost function Subscribe(w: B.World, target: Tier, req: Request, script: Script): Effect
    requires Fits(w, req, script)
  {
    if Rank(target) == Rank(w.row.tier) then
      if w.row.pendingTier.Some? then ReleaseChange(w, script) else Effect(w, Err(AlreadyOnThisTier), None)
    else if w.row.tier == FREE then FirstSubscribe(w, target, req, script)
    else if target == FREE then FullCancellation(w, req, script)
    else TierChange(w, target, req, script)
  }

  function TierPatch(t: Tier): Patch {
    Patch(Some(t), map[])
  }

  function Rewritten(store: Store, u: UserId, rewrite: Option<Tier>): Store {
    if rewrite.Some? then store.Rewrite(u, TierPatch(rewrite.value)) else store
  }

  class BillingHandlers {
    const userId: UserId
    const tokenStore: TokenStore
    var row: B.UserRow
    var ledger: B.Ledger
    var stripe: B.Stripe

    ghost function View(): B.World
      reads this
    {
      B.World(row, ledger, B.Idle, stripe)
    }

    constructor (u: UserId, store: TokenStore, row: B.UserRow)
      ensures View() == B.World(row, map[], B.Idle, B.Stripe({}, {}, map[], 0)) && userId == u && tokenStore == store
    {
      userId, tokenStore, this.row := u, store, row;
      ledger, stripe := map[], B.Stripe({}, {}, map[], 0);
    }

    /** A scan of the user's session set, as `rewriteFieldsForUser` will walk it. */
    ghost predicate Scans(pages: seq<seq<CompoundKey>>)
      reads tokenStore
    {
      pages != [] && Scanned(pages) == tokenStore.View().Members(userId)
    }

    method RewriteTier(t: Tier, pages: seq<seq<CompoundKey>>)
      requires Scans(pages)
      modifies tokenStore
      ensures tokenStore.View() == old(tokenStore.View()).Rewrite(userId, TierPatch(t))
    {
      var _ := tokenStore.RewriteFieldsForUser(userId, Patch(Some(t), map[]), pages);
    }

    method FindRetryResult(retryKey: string) returns (r: Option<Outcome>)
      requires UniqueKeys(ledger)
      ensures r.None? <==> !B.HasClientKey(ledger, retryKey)
      ensures r.Some? ==> r.value == RetryOutcome(RetryRow(ledger, retryKey))
      ensures forall k :: k in ledger && ledger[k].clientKey == Some(retryKey) ==>
                && r.Some? && (r.value.success <==> ledger[k].status == B.COMPLETED)
                && (ledger[k].status != B.COMPLETED ==> r.value.reason == Some(ReasonOf(ledger[k])))
    {
      var rest := ledger.Keys;
      while rest != {}
        invariant rest <= ledger.Keys
        invariant forall k :: k in ledger.Keys - rest ==> ledger[k].clientKey != Some(retryKey)
        decreases rest
      {
        var key :| key in rest;
        if ledger[key].clientKey == Some(retryKey) {
          var existing := ledger[key];
          if existing.status == B.COMPLETED {
            return Some(Outcome(true, None, None, None, None));
          }
          var meta := existing.metadata.other;
          return Some(Refused(if "reason" in meta then meta["reason"] else "declined"));
        }
        rest := rest - {key};
      }
      r := None;
    }

    method PersistUpgrade(target: Tier, charge: B.Charge, retryKey: string) returns (provisioned: bool)
      modifies this
      ensures View() == B.Next(B.World(old(row), old(ledger), B.Charged(target, retryKey, charge), old(stripe)), B.Persist)
      ensures provisioned == B.Provisions(old(row), charge)
    {
      if row.subId.Some? && row.subId != charge.subId {
        if charge.subId.Some? {
          stripe := stripe.CancelNow(charge.subId.value);
        }
        return false;
      }
      var rowKey := B.RowKey(charge, retryKey);
      if rowKey in ledger {
        var existing := ledger[rowKey];
        var clientKey := if existing.clientKey.Some? then existing.clientKey.value else retryKey;
        ledger := ledger[rowKey := existing.(
          clientKey := Some(clientKey), reference := target,
          metadata := B.UpgradeMetadata(existing.metadata, target, charge))];
      } else {
        var currency := if charge.currency.Some? then charge.currency.value else "USD";
        ledger := ledger[rowKey := B.LedgerRow(B.FEE, B.COMPLETED, 0, currency, Some(retryKey), target, None, None,
                                               B.UpgradeMetadata(B.NO_METADATA, target, charge))];
      }
      row := row.(tier := target, cancelAtPeriodEnd := false);
      if charge.subId.Some? { row := row.(subId := charge.subId); }
      if charge.periodStart.Some? { row := row.(periodStart := charge.periodStart); }
      if charge.periodEnd.Some? { row := row.(periodEnd := charge.periodEnd); }
      provisioned := true;
    }

    method HandleFirstSubscribe(target: Tier, req: Request, script: Script, pages: seq<seq<CompoundKey>>)
      returns (r: Result<Outcome, BillingError>)
      requires Fits(View(), req, script) && UniqueKeys(ledger) && Scans(pages)
      modifies this, tokenStore
      ensures var effect := FirstSubscribe(old(View()), target, req, script);
              && View() == effect.world && r == effect.answer
              && tokenStore.View() == Rewritten(old(tokenStore.View()), userId, effect.rewrite)
    {
      if req.paymentMethod.None? { return Err(PaymentMethodRequired); }
      if Rank(row.tier) >= Rank(target) {
        return Ok(Outcome(true, None, row.periodEnd, None, None));
      }
      var prior := FindRetryResult(req.retryKey);
      if prior.Some? { return Ok(prior.value); }
      if row.subId.Some? {
        if !script.cancelOldOk { return Err(StripeFailed); }
        stripe := stripe.CancelNow(row.subId.value);
      }
      if script.create.Declined? {
        return Ok(Refused(script.create.reason));
      }
      var charge := script.create.charge;
      stripe := stripe.Create(req.retryKey, charge.subId.value);
      var provisioned := PersistUpgrade(target, charge, req.retryKey);
      if provisioned {
        RewriteTier(target, pages);
      }
      r := Ok(Succeeded(charge.periodEnd));
    }

    method ApplyLocalTierChange(target: Tier, req: Request, pages: seq<seq<CompoundKey>>)
      returns (r: Result<Outcome, BillingError>)
      requires Scans(pages)
      modifies this, tokenStore
      ensures var effect := LocalChange(old(View()), target, req);
              && View() == effect.world && r == effect.answer
              && tokenStore.View() == Rewritten(old(tokenStore.View()), userId, effect.rewrite)
    {
      if req.generatedKey in ledger { return Err(DuplicateKey); }
      row := row.(tier := target, cancelAtPeriodEnd := true);
      ledger := ledger[req.generatedKey := B.Adjustment("USD", target, B.NO_METADATA)];
      RewriteTier(target, pages);
      r := Ok(Succeeded(None));
    }

    method HandleFullCancellation(req: Request, script: Script, pages: seq<seq<CompoundKey>>)
      returns (r: Result<Outcome, BillingError>)
      requires Fits(View(), req, script) && Scans(pages)
      modifies this, tokenStore
      ensures var effect := FullCancellation(old(View()), req, script);
              && View() == effect.world && r == effect.answer
              && tokenStore.View() == Rewritten(old(tokenStore.View()), userId, effect.rewrite)
    {
      if row.subId.None? {
        r := ApplyLocalTierChange(FREE, req, pages);
        return;
      }
      if row.cancelAtPeriodEnd { return Ok(Succeeded(None)); }
      if script.cancel.CancelFailed? { return Err(StripeFailed); }
      if req.generatedKey in ledger { return Err(DuplicateKey); }
      var reference := row.tier;
      row := row.(cancelAtPeriodEnd := true, pendingTier := None, pendingAt := None, scheduleId := None);
      ledger := ledger[req.generatedKey :=
        B.Adjustment(script.cancel.currency, reference, B.NO_METADATA.(scheduledCancel := true))];
      r := Ok(Succeeded(None));
    }

    method HandleTierChange(target: Tier, req: Request, script: Script, pages: seq<seq<CompoundKey>>)
      returns (r: Result<Outcome, BillingError>)
      requires Fits(View(), req, script) && Scans(pages)
      modifies this, tokenStore
      ensures var effect := TierChange(old(View()), target, req, script);
              && View() == effect.world && r == effect.answer
              && tokenStore.View() == Rewritten(old(tokenStore.View()), userId, effect.rewrite)
    {
      if row.subId.None? {
        r := ApplyLocalTierChange(target, req, pages);
        return;
      }
      if row.tier == target { return Ok(Succeeded(row.periodEnd)); }
      if row.pendingTier == Some(target) {
        return Ok(Outcome(true, None, row.pendingAt, row.pendingTier, row.pendingAt));
      }
      if script.schedule.ScheduleRefused? { return Ok(Refused(script.schedule.reason)); }
      if req.generatedKey in ledger { return Err(DuplicateKey); }
      var Scheduled(schedule, at, currency) := script.schedule;
      ledger := ledger[req.generatedKey := B.Adjustment(currency, target, B.ScheduledMetadata(row.tier, at))];
      row := row.(pendingTier := Some(target), pendingAt := Some(at), scheduleId := Some(schedule));
      r := Ok(Outcome(true, None, Some(at), Some(target), Some(at)));
    }

    method ReleasePendingChange(script: Script) returns (r: Result<Outcome, BillingError>)
      modifies this
      ensures var effect := ReleaseChange(old(View()), script);
              View() == effect.world && r == effect.answer
    {
      if row.scheduleId.Some? && !script.releaseOk { return Err(StripeFailed); }
      row := row.(pendingTier := None, pendingAt := None, scheduleId := None);
      r := Ok(Outcome(true, Some("pending_change_cancelled"), None, None, None));
    }

    method SubscribeToPlan(target: Tier, req: Request, script: Script, pages: seq<seq<CompoundKey>>)
      returns (r: Result<Outcome, BillingError>)
      requires Fits(View(), req, script) && UniqueKeys(ledger) && Scans(pages)
      modifies this, tokenStore
      ensures var effect := Subscribe(old(View()), target, req, script);
              && View() == effect.world && r == effect.answer
              && tokenStore.View() == Rewritten(old(tokenStore.View()), userId, effect.rewrite)
      ensures UniqueKeys(ledger)
    {
      SubscribeKeepsUniqueKeys(View(), target, req, script);
      RankIsInjective(target, row.tier);
      if Rank(target) == Rank(row.tier) {
        if row.pendingTier.Some? && row.tier == target {
          r := ReleasePendingChange(script);
          return;
        }
        return Err(AlreadyOnThisTier);
      }
      if row.tier == FREE {
        r := HandleFirstSubscribe(target, req, script, pages);
      } else if target == FREE {
        r := HandleFullCancellation(req, script, pages);
      } else {
        r := HandleTierChange(target, req, script, pages);
      }
    }

    method HandleInvoicePaid(inv: B.Invoice, billed: Option<Tier>, pages: seq<seq<CompoundKey>>)
      requires Scans(pages)
      modifies this, tokenStore
      ensures var effect := PaidEffect(old(View()), inv, billed);
              && View() == effect.world
              && tokenStore.View() == Rewritten(old(tokenStore.View()), userId, effect.rewrite)
    {
      var user := row;
      var effective := if billed.Some? then billed.value else user.tier;
      UpsertInvoiceTransaction(inv, effective);
      if inv.periodEnd.Some? {
        row := row.(periodEnd := inv.periodEnd);
        if inv.subId.Some? { row := row.(subId := inv.subId); }
      }
      if billed.Some? && billed.value != user.tier {
        row := row.(tier := billed.value);
      }
      if user.pendingTier.Some? && billed == user.pendingTier {
        row := row.(pendingTier := None, pendingAt := None);
      }
      if billed.Some? && billed.value != user.tier {
        RewriteTier(billed.value, pages);
      }
    }

    method UpsertInvoiceTransaction(inv: B.Invoice, effective: Tier)
      modifies this`ledger
      ensures ledger == old(ledger)[B.InvoiceKey(inv.id) := B.InvoiceRow(old(ledger), inv, effective)]
    {
      var key := B.InvoiceKey(inv.id);
      if key in ledger {
        var existing := ledger[key];
        ledger := ledger[key := existing.(
          kind := B.FEE, status := B.COMPLETED, amount := inv.amount, currency := inv.currency,
          paymentIntent := inv.paymentIntent, invoiceUrl := inv.url, reference := effective,
          metadata := B.InvoiceMetadata(existing.metadata, inv, effective))];
        return;
      }
      ledger := ledger[key := B.LedgerRow(B.FEE, B.COMPLETED, inv.amount, inv.currency, None, effective,
                                          inv.paymentIntent, inv.url, B.InvoiceMetadata(B.NO_METADATA, inv, effective))];
    }

    method HandleInvoiceFailed(pages: seq<seq<CompoundKey>>)
      requires Scans(pages)
      modifies this, tokenStore
      ensures var effect := FailedEffect(old(View()));
              && View() == effect.world
              && tokenStore.View() == Rewritten(old(tokenStore.View()), userId, effect.rewrite)
    {
      if row.tier == FREE { return; }
      row := row.(tier := FREE, cancelAtPeriodEnd := false, pendingTier := None, pendingAt := None, scheduleId := None);
      RewriteTier(FREE, pages);
    }

    method HandleSubscriptionDeleted(sub: B.SubId, pages: seq<seq<CompoundKey>>)
      requires Scans(pages) && sub !in stripe.live
      modifies this, tokenStore
      ensures var effect := DeletedEffect(old(View()), sub);
              && View() == effect.world
              && tokenStore.View() == Rewritten(old(tokenStore.View()), userId, effect.rewrite)
    {
      if row.subId != Some(sub) { return; }
      row := row.(tier := FREE, subId := None, periodStart := None, periodEnd := None, cancelAtPeriodEnd := false);
      RewriteTier(FREE, pages);
    }

    /** The admin mutation of src/authorization/admin.resolver.ts. */
    method SetUserTier(tier: Tier, pages: seq<seq<CompoundKey>>)
      requires Scans(pages)
      modifies this, tokenStore
      ensures View() == B.Next(old(View()), B.Admin(tier))
      ensures tokenStore.View() == Rewritten(old(tokenStore.View()), userId, Some(tier))
    {
      row := row.(tier := tier);
      RewriteTier(tier, pages);
    }
  }

  // ---------------------------------------------------------------- uninterrupted webhooks

  ghost function PaidEffect(w: B.World, inv: B.Invoice, billed: Option<Tier>): Effect {
    Effect(B.Next(w, B.Paid(w.row, inv, billed)), Ok(Succeeded(None)),
           if billed.Some? && billed.value != w.row.tier then billed else None)
  }

  ghost function FailedEffect(w: B.World): Effect {
    Effect(B.Next(w, B.Failed(w.row)), Ok(Succeeded(None)), if w.row.tier == FREE then None else Some(FREE))
  }

  ghost function DeletedEffect(w: B.World, sub: B.SubId): Effect
    requires sub !in w.stripe.live
  {
    Effect(B.Next(w, B.Deleted(w.row, sub)), Ok(Succeeded(None)), if w.row.subId == Some(sub) then Some(FREE) else None)
  }

  lemma SubscribeKeepsUniqueKeys(w: B.World, target: Tier, req: Request, script: Script)
    requires Fits(w, req, script) && UniqueKeys(w.ledger)
    ensures UniqueKeys(Subscribe(w, target, req, script).world.ledger)
  {
    if Rank(target) != Rank(w.row.tier) {
      if w.row.tier == FREE {
        FirstSubscribeKeepsUniqueKeys(w, target, req, script);
      } else if w.row.subId.None? {
        if req.generatedKey !in w.ledger { NextKeepsUniqueClientKeys(w, B.Local(target, req.generatedKey)); }
      } else if target == FREE {
        var w1 := B.Next(w, B.BeginCancel(req.generatedKey));
        if !w1.flight.Idle? { NextKeepsUniqueClientKeys(w1, B.CommitCancel(script.cancel)); }
      } else if w.row.pendingTier != Some(target) {
        NextKeepsUniqueClientKeys(B.Next(w, B.BeginSchedule(target, req.generatedKey)), B.CommitSchedule(script.schedule));
      }
    }
  }

  lemma FirstSubscribeKeepsUniqueKeys(w: B.World, target: Tier, req: Request, script: Script)
    requires Fits(w, req, script) && UniqueKeys(w.ledger)
    ensures UniqueKeys(FirstSubscribe(w, target, req, script).world.ledger)
  {
    if Rank(w.row.tier) < Rank(target) && !B.HasClientKey(w.ledger, req.retryKey) {
      var w1 := B.Next(w, B.Acquire(target, req.retryKey));
      if !(w1.flight.Charging? && !script.cancelOldOk) {
        var w2 := if w1.flight.Charging? then B.Next(w1, B.CancelOld(true)) else w1;
        var w3 := B.Next(w2, B.Create(script.create));
        if script.create.Created? { NextKeepsUniqueClientKeys(w3, B.Persist); }
      }
    }
  }
}
