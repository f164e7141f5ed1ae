/**
 The race for the first invoice: the request's own persist and any number of deliveries of
 `invoice.paid` for the same invoice, in any order, each delivery deciding on a row it read at any
 earlier point. All of them reconcile into one ledger row and one user row.
 */
module InvoiceRace {
  import opened Wrappers
  import opened Tiers
  import opened Billing

  datatype Race = Race(
    row0: UserRow, ledger0: Ledger, target: Tier, retryKey: string, charge: Charge, inv: Invoice, billed: Option<Tier>)
  {
    /** A row of another tier with no subscription, an invoice not booked yet, and one Stripe charge. */
    predicate Valid() {
      && row0.subId.None? && row0.tier != target
      && inv.id != "" && InvoiceKey(inv.id) !in ledger0
      && charge.subId.Some? && charge.invoiceId == Some(inv.id)
      && (inv.subId.None? || inv.subId == charge.subId)
      && (billed.None? || billed == Some(target))
    }

    function Key(): string {
      InvoiceKey(inv.id)
    }

    predicate Starts(w: World) {
      w.row == row0 && w.ledger == ledger0 && w.flight == Charged(target, retryKey, charge)
    }

    /** The tier an event books in the ledger row, and the period end it leaves. */
    function Reference(e: Event): Tier {
      match e
      case Paid(snap, _, _) => billed.GetOr(snap.tier)
      case _ => target
    }

    function PeriodEnd(e: Event, before: Option<Time>): Option<Time> {
      match e
      case Paid(_, _, _) => inv.periodEnd.OrElse(before)
      case _ => charge.periodEnd.OrElse(before)
    }

    /** The ledger row after some deliveries and perhaps the persist. */
    function Booked(paid: bool, persisted: bool, reference: Tier): LedgerRow {
      if !paid then UpgradeRow(map[], Key(), reference, charge, retryKey)
      else
        LedgerRow(FEE, COMPLETED, inv.amount, inv.currency, if persisted then Some(retryKey) else None, reference,
                  inv.paymentIntent, inv.url,
                  InvoiceMetadata(if persisted then UpgradeMetadata(NO_METADATA, reference, charge) else NO_METADATA, inv, reference))
    }

    /** The user row after the same. */
    function User(paid: bool, persisted: bool, end: Option<Time>): UserRow {
      var cleared := paid && row0.pendingTier.Some? && billed == row0.pendingTier;
      UserRow(
        if persisted || (paid && billed.Some?) then target else row0.tier,
        if persisted then charge.subId else if paid && inv.periodEnd.Some? then inv.subId else None,
        if persisted then charge.periodStart.OrElse(row0.periodStart) else row0.periodStart,
        end,
        !persisted && row0.cancelAtPeriodEnd,
        if cleared then None else row0.pendingTier,
        if cleared then None else row0.pendingAt,
        row0.scheduleId)
    }

    ghost predicate At(w: World, paid: bool, persisted: bool, reference: Tier, end: Option<Time>) {
      && w.row == User(paid, persisted, end)
      && w.flight == (if persisted then Idle else Charged(target, retryKey, charge))
      && w.ledger == if paid || persisted then ledger0[Key() := Booked(paid, persisted, reference)] else ledger0
    }

    /** What every row read so far looks like. */
    ghost predicate SeenRows(seen: set<UserRow>, paid: bool, persisted: bool) {
      forall s :: s in seen ==>
        && (s.tier == row0.tier || (s.tier == target && (persisted || (paid && billed.Some?))))
        && (s.pendingTier == row0.pendingTier || (paid && s.pendingTier.None?))
    }

    /** The persist, and deliveries deciding on rows seen so far. */
    ghost predicate Runs(w: World, seen: set<UserRow>, events: seq<Event>)
      decreases |events|
    {
      |events| != 0 ==>
        && (events[0] == Persist || (events[0].Paid? && events[0].inv == inv && events[0].billed == billed && events[0].snap in seen))
        && Enabled(w, events[0])
        && Runs(Next(w, events[0]), seen + {Next(w, events[0]).row}, events[1..])
    }
  }

  lemma NextMovesOn(c: Race, w: World, seen: set<UserRow>, e: Event, paid: bool, persisted: bool, reference: Tier, end: Option<Time>)
    requires c.Valid() && c.At(w, paid, persisted, reference, end) && c.SeenRows(seen, paid, persisted) && w.row in seen
    requires (e == Persist && !persisted) || (e.Paid? && e.inv == c.inv && e.billed == c.billed && e.snap in seen)
    requires Enabled(w, e)
    requires persisted && !paid ==> reference == c.target
    ensures c.At(Next(w, e), paid || e.Paid?, persisted || e == Persist, c.Reference(e), c.PeriodEnd(e, end))
    ensures c.SeenRows(seen + {Next(w, e).row}, paid || e.Paid?, persisted || e == Persist)
  {
    if e == Persist {
      PersistMovesOn(c, w, paid, reference, end);
    } else {
      PaidMovesOn(c, w, e.snap, paid, persisted, reference, end);
    }
  }

  lemma PersistMovesOn(c: Race, w: World, paid: bool, reference: Tier, end: Option<Time>)
    requires c.Valid() && c.At(w, paid, false, reference, end)
    ensures c.At(Next(w, Persist), paid, true, c.target, c.charge.periodEnd.OrElse(end))
  {
    var t := Next(w, Persist);
    assert t.ledger[c.Key()] == c.Booked(paid, true, c.target);
    assert t.ledger == c.ledger0[c.Key() := c.Booked(paid, true, c.target)];
  }

  lemma PaidMovesOn(c: Race, w: World, snap: UserRow, paid: bool, persisted: bool, reference: Tier, end: Option<Time>)
    requires c.Valid() && c.At(w, paid, persisted, reference, end) && c.SeenRows({snap}, paid, persisted)
    requires persisted && !paid ==> reference == c.target
    ensures c.At(Next(w, Paid(snap, c.inv, c.billed)), true, persisted, c.billed.GetOr(snap.tier), c.inv.periodEnd.OrElse(end))
  {
    var effective := c.billed.GetOr(snap.tier);
    var t := Next(w, Paid(snap, c.inv, c.billed));
    assert snap in {snap};
    assert t.ledger[c.Key()] == c.Booked(true, persisted, effective);
    assert t.ledger == c.ledger0[c.Key() := c.Booked(true, persisted, effective)];
    assert t.row == c.User(true, persisted, c.inv.periodEnd.OrElse(end));
  }

  /** The period end left by the last writer. */
  function EndAfter(c: Race, events: seq<Event>, end: Option<Time>): Option<Time>
    decreases |events|
  {
    if |events| == 0 then end else EndAfter(c, events[1..], c.PeriodEnd(events[0], end))
  }

  lemma {:induction false} RunMovesOn(c: Race, w: World, seen: set<UserRow>, events: seq<Event>,
                                      paid: bool, persisted: bool, reference: Tier, end: Option<Time>)
    requires c.Valid() && c.At(w, paid, persisted, reference, end) && c.SeenRows(seen, paid, persisted) && w.row in seen
    requires c.Runs(w, seen, events) && (persisted && !paid ==> reference == c.target)
    ensures EnabledRun(w, events)
    ensures c.At(Run(w, events), paid || Delivered(events), persisted || Persist in events,
                 if |events| == 0 then reference else c.Reference(events[|events| - 1]), EndAfter(c, events, end))
    decreases |events|
  {
    if |events| != 0 {
      var e, rest := events[0], events[1..];
      NextMovesOn(c, w, seen, e, paid, persisted, reference, end);
      RunMovesOn(c, Next(w, e), seen + {Next(w, e).row}, rest, paid || e.Paid?, persisted || e == Persist,
                 c.Reference(e), c.PeriodEnd(e, end));
      assert Persist in events <==> e == Persist || Persist in rest;
      assert |rest| != 0 ==> rest[|rest| - 1] == events[|events| - 1];
    }
  }

  predicate Delivered(events: seq<Event>)
  {
    |events| != 0 && (events[0].Paid? || Delivered(events[1..]))
  }

  /**
   However the persist and one or more deliveries interleave, one ledger row is added for the
   invoice, carrying the invoice's amount, the retry key and the merged metadata; the tier and the
   subscription are the bought ones. Only the booked tier and the period end can depend on the
   order, through the last event alone.
   */
  lemma FirstInvoiceConverges(c: Race, w: World, events: seq<Event>)
    requires c.Valid() && c.Starts(w) && c.Runs(w, {w.row}, events)
    requires Persist in events && Delivered(events)
    ensures EnabledRun(w, events)
    ensures var end, last := Run(w, events), events[|events| - 1];
            && end.row == c.User(true, true, EndAfter(c, events, c.row0.periodEnd))
            && end.row.tier == c.target && end.row.subId == c.charge.subId
            && end.ledger == c.ledger0[c.Key() := c.Booked(true, true, c.Reference(last))]
            && end.ledger.Keys == c.ledger0.Keys + {c.Key()}
            && end.ledger[c.Key()].clientKey == Some(c.retryKey) && end.ledger[c.Key()].amount == c.inv.amount
            && (c.Reference(last) == c.target
                <==> last == Persist || c.billed.Some? || (last.Paid? && last.snap.tier == c.target))
  {
    RaceEnds(c, w, events);
    LastEvent(c, w, {w.row}, events);
    var reference := c.Reference(events[|events| - 1]);
    assert c.ledger0[c.Key() := c.Booked(true, true, reference)].Keys == c.ledger0.Keys + {c.Key()};
  }

  lemma RaceEnds(c: Race, w: World, events: seq<Event>)
    requires c.Valid() && c.Starts(w) && c.Runs(w, {w.row}, events)
    requires Persist in events && Delivered(events)
    ensures EnabledRun(w, events)
    ensures c.At(Run(w, events), true, true, c.Reference(events[|events| - 1]), EndAfter(c, events, c.row0.periodEnd))
  {
    assert c.User(false, false, c.row0.periodEnd) == c.row0;
    RunMovesOn(c, w, {w.row}, events, false, false, c.target, c.row0.periodEnd);
  }

  lemma {:induction false} LastEvent(c: Race, w: World, seen: set<UserRow>, events: seq<Event>)
    requires c.Runs(w, seen, events) && |events| != 0
    ensures events[|events| - 1] == Persist || events[|events| - 1].Paid?
    decreases |events|
  {
    if |events| > 1 {
      LastEvent(c, Next(w, events[0]), seen + {Next(w, events[0]).row}, events[1..]);
    }
  }

  lemma {:induction false} EndsAgree(c: Race, w: World, seen: set<UserRow>, events: seq<Event>, end: Option<Time>)
    requires c.Runs(w, seen, events)
    requires c.charge.periodEnd.Some? && (c.inv.periodEnd.None? || c.inv.periodEnd == c.charge.periodEnd)
    requires Persist in events || end == c.charge.periodEnd
    ensures EndAfter(c, events, end) == c.charge.periodEnd
    decreases |events|
  {
    if |events| != 0 {
      EndsAgree(c, Next(w, events[0]), seen + {Next(w, events[0]).row}, events[1..], c.PeriodEnd(events[0], end));
    }
  }

  /** When Stripe's billed tier resolves and both writers name one period end, every order ends in the same state. */
  lemma EveryOrderAgrees(c: Race, w: World, one: seq<Event>, other: seq<Event>)
    requires c.Valid() && c.Starts(w) && c.Runs(w, {w.row}, one) && c.Runs(w, {w.row}, other)
    requires Persist in one && Delivered(one) && Persist in other && Delivered(other)
    requires c.billed.Some? && c.charge.periodEnd.Some?
    requires c.inv.periodEnd.None? || c.inv.periodEnd == c.charge.periodEnd
    ensures EnabledRun(w, one) && EnabledRun(w, other)
    ensures Run(w, one).row == Run(w, other).row && Run(w, one).ledger == Run(w, other).ledger
  {
    FirstInvoiceConverges(c, w, one);
    FirstInvoiceConverges(c, w, other);
    EndsAgree(c, w, {w.row}, one, c.row0.periodEnd);
    EndsAgree(c, w, {w.row}, other, c.row0.periodEnd);
  }

  /**
   Deliveries that read the row in the step that writes it agree as well when the billed tier does
   not resolve: after the persist such a read finds the bought tier.
   */
  predicate ReadsCurrentRow(w: World, e: Event) {
    e.Paid? ==> e.snap == w.row
  }

  ghost predicate CurrentReads(w: World, events: seq<Event>)
    requires EnabledRun(w, events)
    decreases |events|
  {
    |events| != 0 ==> ReadsCurrentRow(w, events[0]) && CurrentReads(Next(w, events[0]), events[1..])
  }

  lemma {:induction false} CurrentReadsBookTarget(c: Race, w: World, seen: set<UserRow>, events: seq<Event>,
                                                  paid: bool, persisted: bool, reference: Tier, end: Option<Time>)
    requires c.Valid() && c.At(w, paid, persisted, reference, end) && c.SeenRows(seen, paid, persisted) && w.row in seen
    requires c.Runs(w, seen, events) && EnabledRun(w, events) && CurrentReads(w, events)
    requires (persisted ==> reference == c.target) && (persisted || Persist in events)
    ensures |events| != 0 ==> c.Reference(events[|events| - 1]) == c.target
    decreases |events|
  {
    if |events| != 0 {
      var e := events[0];
      NextMovesOn(c, w, seen, e, paid, persisted, reference, end);
      CurrentReadsBookTarget(c, Next(w, e), seen + {Next(w, e).row}, events[1..], paid || e.Paid?,
                             persisted || e == Persist, c.Reference(e), c.PeriodEnd(e, end));
    }
  }

  /** With current reads, every order books the bought tier, whether the billed tier resolves or not. */
  lemma CurrentReadsConverge(c: Race, w: World, events: seq<Event>)
    requires c.Valid() && c.Starts(w) && c.Runs(w, {w.row}, events)
    requires Persist in events && Delivered(events)
    requires EnabledRun(w, events) && CurrentReads(w, events)
    ensures Run(w, events).ledger == c.ledger0[c.Key() := c.Booked(true, true, c.target)]
  {
    assert c.User(false, false, c.row0.periodEnd) == c.row0;
    CurrentReadsBookTarget(c, w, {w.row}, events, false, false, c.target, c.row0.periodEnd);
    FirstInvoiceConverges(c, w, events);
  }

  /** So with current reads and one period end, any two orders end alike, whether the billed tier resolves or not. */
  lemma CurrentReadsAgree(c: Race, w: World, one: seq<Event>, other: seq<Event>)
    requires c.Valid() && c.Starts(w) && c.Runs(w, {w.row}, one) && c.Runs(w, {w.row}, other)
    requires Persist in one && Delivered(one) && Persist in other && Delivered(other)
    requires EnabledRun(w, one) && CurrentReads(w, one) && EnabledRun(w, other) && CurrentReads(w, other)
    requires c.charge.periodEnd.Some? && (c.inv.periodEnd.None? || c.inv.periodEnd == c.charge.periodEnd)
    ensures Run(w, one).row == Run(w, other).row && Run(w, one).ledger == Run(w, other).ledger
  {
    CurrentReadsConverge(c, w, one);
    CurrentReadsConverge(c, w, other);
    FirstInvoiceConverges(c, w, one);
    FirstInvoiceConverges(c, w, other);
    EndsAgree(c, w, {w.row}, one, c.row0.periodEnd);
    EndsAgree(c, w, {w.row}, other, c.row0.periodEnd);
  }

  /**
   A delivery that read the row before the persist and commits after it books the old tier when the
   billed tier does not resolve, although the user has the bought one.
   */
  lemma StaleDeliveryBooksOldTier(c: Race, w: World)
    requires c.Valid() && c.Starts(w) && c.billed.None?
    ensures var events := [Persist, Paid(w.row, c.inv, None)];
            && c.Runs(w, {w.row}, events) && EnabledRun(w, events)
            && Run(w, events).row.tier == c.target
            && c.Key() in Run(w, events).ledger
            && Run(w, events).ledger[c.Key()].reference == c.row0.tier != c.target
  {
    var late := Paid(w.row, c.inv, None);
    var w1 := Next(w, Persist);
    var w2 := Next(w1, late);
    assert [Persist, late][1..] == [late] && |[late][1..]| == 0;
    assert c.Runs(w2, {w.row} + {w1.row} + {w2.row}, [late][1..]) && EnabledRun(w2, [late][1..]);
    assert c.Runs(w1, {w.row} + {w1.row}, [late]) && EnabledRun(w1, [late]) && Run(w1, [late]) == Run(w2, [late][1..]);
    assert EnabledRun(w, [Persist, late]) && Run(w, [Persist, late]) == Run(w1, [late]);
  }
}
