/**
 One user's subscription (src/billing/billing.service.ts, src/billing/stripe-webhook.controller.ts):
 the user row, the ledger keyed by idempotency key, and what Stripe holds. Every effect is a
 function of the row it updates; where the code decides on an earlier read, that read is `snap`.
 */
module Billing {
  import opened Wrappers
  import opened Tiers

  type Time = int
  type SubId = string

  datatype UserRow = UserRow(
    tier: Tier, subId: Option<SubId>, periodStart: Option<Time>, periodEnd: Option<Time>, cancelAtPeriodEnd: bool,
    pendingTier: Option<Tier>, pendingAt: Option<Time>, scheduleId: Option<string>)

  // ---------------------------------------------------------------- the ledger

  datatype Kind = FEE | ADJUSTMENT

  datatype Status = PENDING | COMPLETED | FAILED

  /** The JSON metadata of a row; an absent key is None, and a null subscription id is Some(None). */
  datatype Metadata = Metadata(
    tier: Option<Tier>, provider: Option<string>, stripeSubscriptionId: Option<SubId>, latestInvoiceId: Option<string>,
    invoiceId: Option<string>, subscriptionId: Option<Option<SubId>>, scheduledCancel: bool, scheduledChange: bool,
    switchedFrom: Option<Tier>, effectiveAt: Option<Time>, other: map<string, string>)

  const NO_METADATA := Metadata(None, None, None, None, None, None, false, false, None, None, map[])

  datatype LedgerRow = LedgerRow(
    kind: Kind, status: Status, amount: int, currency: string, clientKey: Option<string>, reference: Tier,
    paymentIntent: Option<string>, invoiceUrl: Option<string>, metadata: Metadata)

  type Ledger = map<string, LedgerRow>

  function InvoiceKey(invoiceId: string): string {
    "stripe_invoice:" + invoiceId
  }

  // ---------------------------------------------------------------- first subscription

  /** What Stripe reports of a successful create. */
  datatype Charge = Charge(
    subId: Option<SubId>, periodStart: Option<Time>, periodEnd: Option<Time>, invoiceId: Option<string>,
    currency: Option<string>)

  function RowKey(charge: Charge, retryKey: string): string {
    if charge.invoiceId.Some? && charge.invoiceId.value != "" then InvoiceKey(charge.invoiceId.value) else retryKey
  }

  /** `{ ...existing, ...data }`: an undefined value drops the key from the stored JSON. */
  function UpgradeMetadata(m: Metadata, target: Tier, charge: Charge): Metadata {
    m.(tier := Some(target), provider := Some("stripe"), stripeSubscriptionId := charge.subId,
       latestInvoiceId := charge.invoiceId)
  }

  /** The ledger row a persisted upgrade leaves under `key`: reconciled into an existing one, or new. */
  function UpgradeRow(ledger: Ledger, key: string, target: Tier, charge: Charge, clientKey: string): LedgerRow {
    if key in ledger then
      ledger[key].(clientKey := Some(ledger[key].clientKey.GetOr(clientKey)), reference := target,
                   metadata := UpgradeMetadata(ledger[key].metadata, target, charge))
    else
      LedgerRow(FEE, COMPLETED, 0, charge.currency.GetOr("USD"), Some(clientKey), target, None, None,
                UpgradeMetadata(NO_METADATA, target, charge))
  }

  /** A row that records another subscription refuses the new one. */
  predicate Provisions(row: UserRow, charge: Charge) {
    row.subId.None? || row.subId == charge.subId
  }

  function UpgradeUser(row: UserRow, target: Tier, charge: Charge): UserRow {
    row.(tier := target, subId := charge.subId.OrElse(row.subId), periodStart := charge.periodStart.OrElse(row.periodStart),
         periodEnd := charge.periodEnd.OrElse(row.periodEnd), cancelAtPeriodEnd := false)
  }

  // ---------------------------------------------------------------- webhooks

  datatype Invoice = Invoice(
    id: string, subId: Option<SubId>, amount: int, currency: string, paymentIntent: Option<string>, url: Option<string>,
    periodEnd: Option<Time>)

  function InvoiceMetadata(m: Metadata, inv: Invoice, effective: Tier): Metadata {
    m.(invoiceId := Some(inv.id), subscriptionId := Some(inv.subId), tier := Some(effective), provider := Some("stripe"))
  }

  function InvoiceRow(ledger: Ledger, inv: Invoice, effective: Tier): LedgerRow {
    var key := InvoiceKey(inv.id);
    var (clientKey, m) := if key in ledger then (ledger[key].clientKey, ledger[key].metadata) else (None, NO_METADATA);
    LedgerRow(FEE, COMPLETED, inv.amount, inv.currency, clientKey, effective, inv.paymentIntent, inv.url,
              InvoiceMetadata(m, inv, effective))
  }

  function PaidLedger(ledger: Ledger, snap: UserRow, inv: Invoice, billed: Option<Tier>): Ledger {
    ledger[InvoiceKey(inv.id) := InvoiceRow(ledger, inv, billed.GetOr(snap.tier))]
  }

  function PaidUser(row: UserRow, snap: UserRow, inv: Invoice, billed: Option<Tier>): UserRow {
    var a := if inv.periodEnd.Some? then row.(periodEnd := inv.periodEnd, subId := inv.subId.OrElse(row.subId)) else row;
    var b := if billed.Some? && billed.value != snap.tier then a.(tier := billed.value) else a;
    if snap.pendingTier.Some? && billed == snap.pendingTier then b.(pendingTier := None, pendingAt := None) else b
  }

  function FailedUser(row: UserRow, snap: UserRow): UserRow {
    if snap.tier == FREE then row
    else row.(tier := FREE, cancelAtPeriodEnd := false, pendingTier := None, pendingAt := None, scheduleId := None)
  }

  function DeletedUser(row: UserRow, snap: UserRow, deleted: SubId): UserRow {
    if snap.subId != Some(deleted) then row
    else row.(tier := FREE, subId := None, periodStart := None, periodEnd := None, cancelAtPeriodEnd := false)
  }

  function UpdatedUser(row: UserRow, cancelAtPeriodEnd: bool, periodEnd: Option<Time>): UserRow {
    row.(cancelAtPeriodEnd := cancelAtPeriodEnd, periodEnd := periodEnd.OrElse(row.periodEnd))
  }

  function ScheduleEndedUser(row: UserRow, schedule: string): UserRow {
    if row.scheduleId == Some(schedule) then row.(scheduleId := None) else row
  }

  // ---------------------------------------------------------------- cancellations and scheduled changes

  function CancelledUser(row: UserRow): UserRow {
    row.(cancelAtPeriodEnd := true, pendingTier := None, pendingAt := None, scheduleId := None)
  }

  function ReleasedUser(row: UserRow): UserRow {
    row.(pendingTier := None, pendingAt := None, scheduleId := None)
  }

  function ScheduledUser(row: UserRow, target: Tier, schedule: string, at: Time): UserRow {
    row.(pendingTier := Some(target), pendingAt := Some(at), scheduleId := Some(schedule))
  }

  function LocalUser(row: UserRow, target: Tier): UserRow {
    row.(tier := target, cancelAtPeriodEnd := true)
  }

  function Adjustment(currency: string, reference: Tier, metadata: Metadata): LedgerRow {
    LedgerRow(ADJUSTMENT, COMPLETED, 0, currency, None, reference, None, None,
              metadata.(tier := Some(reference), provider := Some("stripe")))
  }

  function ScheduledMetadata(from: Tier, at: Time): Metadata {
    NO_METADATA.(scheduledChange := true, switchedFrom := Some(from), effectiveAt := Some(at))
  }

  // ---------------------------------------------------------------- Stripe

  /** Live subscriptions, every one ever created, and the replies Stripe replays per idempotency key. */
  datatype Stripe = Stripe(live: set<SubId>, created: set<SubId>, byKey: map<string, SubId>, charges: nat)
  {
    function CancelNow(sub: SubId): Stripe {
      this.(live := live - {sub})
    }

    /** A known key replays the earlier subscription; a new key creates one under a new id. */
    function Create(retryKey: string, sub: SubId): Stripe {
      if retryKey in byKey then this.(charges := charges + 1)
      else Stripe(live + {sub}, created + {sub}, byKey[retryKey := sub], charges + 1)
    }

    predicate Answers(retryKey: string, answer: CreateAnswer) {
      answer.Created? ==>
        && answer.charge.subId.Some?
        && (retryKey in byKey ==> answer.charge.subId.value == byKey[retryKey])
        && (retryKey !in byKey ==> answer.charge.subId.value !in created)
    }
  }

  datatype CreateAnswer = Declined(reason: string) | Created(charge: Charge)

  datatype CancelAnswer = CancelFailed | CancelAccepted(currency: string)

  datatype ScheduleAnswer = ScheduleRefused(reason: string) | Scheduled(schedule: string, at: Time, currency: string)

  // ---------------------------------------------------------------- the state machine

  /**
   How far the one request that holds the user's advisory lock has come. Webhooks take no lock, so
   they run between any two of these steps.
   */
  datatype Flight =
    | Idle
    | Charging(target: Tier, retryKey: string, oldSub: SubId)
    | Cleared(target: Tier, retryKey: string)
    | Charged(target: Tier, retryKey: string, charge: Charge)
    | Cancelling(locked: UserRow, key: string)
    | Scheduling(locked: UserRow, target: Tier, key: string)

  datatype World = World(row: UserRow, ledger: Ledger, flight: Flight, stripe: Stripe)

  datatype Event =
    | Acquire(target: Tier, retryKey: string)
    | CancelOld(ok: bool)
    | Create(answer: CreateAnswer)
    | Persist
    | PersistFails
    | BeginCancel(cancelKey: string)
    | CommitCancel(cancelAnswer: CancelAnswer)
    | BeginSchedule(to: Tier, scheduleKey: string)
    | CommitSchedule(scheduleAnswer: ScheduleAnswer)
    | Release
    | Local(localTier: Tier, localKey: string)
    | Admin(adminTier: Tier)
    | Paid(snap: UserRow, inv: Invoice, billed: Option<Tier>)
    | Failed(failedSnap: UserRow)
    | Deleted(deletedSnap: UserRow, deleted: SubId)
    | Updated(cancelFlag: bool, newEnd: Option<Time>)
    | ScheduleEnded(schedule: string)
    | StripeEnds(ended: SubId)

  /** Some ledger row carries the client's retry key. */
  ghost predicate HasClientKey(ledger: Ledger, clientKey: string) {
    exists k :: k in ledger && ledger[k].clientKey == Some(clientKey)
  }

  ghost predicate Enabled(w: World, e: Event) {
    match e
    case Acquire(target, retryKey) => w.flight.Idle?
    case CancelOld(ok) => w.flight.Charging?
    case Create(answer) => w.flight.Cleared? && w.stripe.Answers(w.flight.retryKey, answer)
    case Persist => w.flight.Charged?
    case PersistFails => w.flight.Charged?
    case BeginCancel(key) => w.flight.Idle?
    case CommitCancel(answer) => w.flight.Cancelling?
    case BeginSchedule(to, key) => w.flight.Idle?
    case CommitSchedule(answer) => w.flight.Scheduling? && (answer.Scheduled? ==> w.flight.locked.subId.Some?)
    case Deleted(snap, sub) => sub !in w.stripe.live
    case _ => true
  }

  ghost function Next(w: World, e: Event): World
    requires Enabled(w, e)
  {
    match e
    case Acquire(target, retryKey) =>
      if Rank(w.row.tier) >= Rank(target) || HasClientKey(w.ledger, retryKey) then w
      else w.(flight := if w.row.subId.Some? then Charging(target, retryKey, w.row.subId.value) else Cleared(target, retryKey))
    case CancelOld(ok) =>
      if !ok then w.(flight := Idle)
      else w.(stripe := w.stripe.CancelNow(w.flight.oldSub), flight := Cleared(w.flight.target, w.flight.retryKey))
    case Create(answer) =>
      if answer.Declined? then w.(flight := Idle)
      else w.(stripe := w.stripe.Create(w.flight.retryKey, answer.charge.subId.value),
              flight := Charged(w.flight.target, w.flight.retryKey, answer.charge))
    case Persist =>
      var f := w.flight;
      if !Provisions(w.row, f.charge) then
        w.(flight := Idle, stripe := if f.charge.subId.Some? then w.stripe.CancelNow(f.charge.subId.value) else w.stripe)
      else
        var key := RowKey(f.charge, f.retryKey);
        w.(flight := Idle, row := UpgradeUser(w.row, f.target, f.charge),
           ledger := w.ledger[key := UpgradeRow(w.ledger, key, f.target, f.charge, f.retryKey)])
    case PersistFails =>
      // The transaction rolls back; the charge stands.
      w.(flight := Idle)
    case BeginCancel(key) =>
      if w.row.cancelAtPeriodEnd || w.row.subId.None? then w else w.(flight := Cancelling(w.row, key))
    case CommitCancel(answer) =>
      // A ledger row that already has the key makes the insert fail and the transaction roll back.
      if answer.CancelFailed? || w.flight.key in w.ledger then w.(flight := Idle)
      else w.(flight := Idle, row := CancelledUser(w.row),
              ledger := w.ledger[w.flight.key :=
                Adjustment(answer.currency, w.flight.locked.tier, NO_METADATA.(scheduledCancel := true))])
    case BeginSchedule(to, key) =>
      if w.row.tier == to || w.row.pendingTier == Some(to) then w else w.(flight := Scheduling(w.row, to, key))
    case CommitSchedule(answer) =>
      if answer.ScheduleRefused? || w.flight.key in w.ledger then w.(flight := Idle)
      else w.(flight := Idle, row := ScheduledUser(w.row, w.flight.target, answer.schedule, answer.at),
              ledger := w.ledger[w.flight.key :=
                Adjustment(answer.currency, w.flight.target, ScheduledMetadata(w.flight.locked.tier, answer.at))])
    case Release => w.(row := ReleasedUser(w.row))
    case Local(target, key) =>
      if key in w.ledger then w
      else w.(row := LocalUser(w.row, target), ledger := w.ledger[key := Adjustment("USD", target, NO_METADATA)])
    case Admin(tier) => w.(row := w.row.(tier := tier))
    case Paid(snap, inv, billed) =>
      w.(row := PaidUser(w.row, snap, inv, billed), ledger := PaidLedger(w.ledger, snap, inv, billed))
    case Failed(snap) => w.(row := FailedUser(w.row, snap))
    case Deleted(snap, sub) => w.(row := DeletedUser(w.row, snap, sub))
    case Updated(flag, end) => w.(row := UpdatedUser(w.row, flag, end))
    case ScheduleEnded(schedule) => w.(row := ScheduleEndedUser(w.row, schedule))
    case StripeEnds(sub) => w.(stripe := w.stripe.CancelNow(sub))
  }

  ghost predicate EnabledRun(w: World, events: seq<Event>)
    decreases |events|
  {
    |events| != 0 ==> Enabled(w, events[0]) && EnabledRun(Next(w, events[0]), events[1..])
  }

  ghost function Run(w: World, events: seq<Event>): World
    requires EnabledRun(w, events)
    decreases |events|
  {
    if |events| == 0 then w else Run(Next(w, events[0]), events[1..])
  }
}
