/**
 The tier a user's sessions carry against the tier on the user row, over runs of logins,
 refreshes, store calls, billing requests, webhooks and admin changes that do not overlap.
 */
module TierSync {
  import opened Wrappers
  import opened Tiers
  import opened Tokens
  import opened SessionStore
  import B = Billing
  import opened BillingService

  datatype System = System(user: UserId, world: B.World, store: Store)

  datatype Event =
    | Login(key: CompoundKey, data: Session)
    | Refresh(token: SessionId, newKey: CompoundKey, newData: Session)
    | StoreCall(op: Op)
    | SubscribeToPlan(target: Tier, req: Request, script: Script)
    | InvoicePaid(inv: B.Invoice, billed: Option<Tier>)
    | InvoiceFailed
    | SubscriptionDeleted(sub: B.SubId)
    | SubscriptionUpdated(cancelFlag: bool, newEnd: Option<B.Time>)
    | ScheduleEnded(schedule: string)
    | SetUserTier(tier: Tier)
    | StripeEnds(ended: B.SubId)

  /** Between operations every live session of the user carries the row's tier, and the store is linked. */
  ghost predicate Synced(s: System) {
    && s.world.flight.Idle?
    && s.store.Indexed()
    && forall k :: k in s.store.sessions && s.store.sessions[k].user == s.user ==> s.store.sessions[k].tier == s.world.row.tier
  }

  /** A token is issued with the tier its user's row has at that moment. */
  predicate IssuesCurrentTier(s: System, data: Session) {
    data.user == s.user ==> data.tier == s.world.row.tier
  }

  ghost predicate Enabled(s: System, e: Event) {
    match e
    case Login(key, data) => IssuesCurrentTier(s, data) && CanWrite(s.store, key, data)
    case Refresh(token, key, data) =>
      IssuesCurrentTier(s, data) && CanWrite(s.store.RevokeByRefresh(token), key, data)
    case StoreCall(op) =>
      && !op.OpWrite? && Allowed(s.store, op)
      && (op.OpUpdateFields? ==> op.patch.tier.None?)
      && (op.OpRewrite? && op.user == s.user ==> op.patch.tier.None?)
    case SubscribeToPlan(target, req, script) => Fits(s.world, req, script)
    case SubscriptionDeleted(sub) => sub !in s.world.stripe.live
    case _ => true
  }

  function Bill(s: System, effect: Effect): System {
    s.(world := effect.world, store := Rewritten(s.store, s.user, effect.rewrite))
  }

  ghost function Next(s: System, e: Event): System
    requires Enabled(s, e)
  {
    match e
    case Login(key, data) => s.(store := s.store.Write(key, data))
    case Refresh(token, key, data) => s.(store := s.store.RevokeByRefresh(token).Write(key, data))
    case StoreCall(op) => s.(store := Step(s.store, op))
    case SubscribeToPlan(target, req, script) => Bill(s, Subscribe(s.world, target, req, script))
    case InvoicePaid(inv, billed) => Bill(s, PaidEffect(s.world, inv, billed))
    case InvoiceFailed => Bill(s, FailedEffect(s.world))
    case SubscriptionDeleted(sub) => Bill(s, DeletedEffect(s.world, sub))
    case SubscriptionUpdated(flag, end) => s.(world := B.Next(s.world, B.Updated(flag, end)))
    case ScheduleEnded(schedule) => s.(world := B.Next(s.world, B.ScheduleEnded(schedule)))
    case SetUserTier(tier) => Bill(s, Effect(B.Next(s.world, B.Admin(tier)), Ok(Succeeded(None)), Some(tier)))
    case StripeEnds(sub) => s.(world := B.Next(s.world, B.StripeEnds(sub)))
  }

  /** Every handler that moves the row's tier writes that tier into the sessions, and no other. */
  predicate Announces(before: B.World, effect: Effect) {
    effect.world.row.tier == effect.rewrite.GetOr(before.row.tier)
  }

  lemma SubscribeAnnounces(w: B.World, target: Tier, req: Request, script: Script)
    requires Fits(w, req, script)
    ensures Announces(w, Subscribe(w, target, req, script)) && Subscribe(w, target, req, script).world.flight.Idle?
  {
    FirstSubscribeAnnounces(w, target, req, script);
    CancellationAnnounces(w, req, script);
    TierChangeAnnounces(w, target, req, script);
  }

  lemma FirstSubscribeAnnounces(w: B.World, target: Tier, req: Request, script: Script)
    requires Fits(w, req, script)
    ensures Announces(w, FirstSubscribe(w, target, req, script)) && FirstSubscribe(w, target, req, script).world.flight.Idle?
  {
  }

  lemma CancellationAnnounces(w: B.World, req: Request, script: Script)
    requires Fits(w, req, script)
    ensures Announces(w, FullCancellation(w, req, script)) && FullCancellation(w, req, script).world.flight.Idle?
  {
  }

  lemma TierChangeAnnounces(w: B.World, target: Tier, req: Request, script: Script)
    requires Fits(w, req, script)
    ensures Announces(w, TierChange(w, target, req, script)) && TierChange(w, target, req, script).world.flight.Idle?
  {
  }

  lemma PaidAnnounces(w: B.World, inv: B.Invoice, billed: Option<Tier>)
    ensures Announces(w, PaidEffect(w, inv, billed)) && PaidEffect(w, inv, billed).world.flight == w.flight
  {
  }

  lemma FailedAnnounces(w: B.World)
    ensures Announces(w, FailedEffect(w)) && FailedEffect(w).world.flight == w.flight
  {
  }

  lemma DeletedAnnounces(w: B.World, sub: B.SubId)
    requires sub !in w.stripe.live
    ensures Announces(w, DeletedEffect(w, sub)) && DeletedEffect(w, sub).world.flight == w.flight
  {
  }

  lemma BillKeepsSynced(s: System, effect: Effect)
    requires Synced(s) && Announces(s.world, effect) && effect.world.flight.Idle?
    ensures Synced(Bill(s, effect))
  {
    if effect.rewrite.Some? {
      RewritePatchesExactly(s.store, s.user, TierPatch(effect.rewrite.value));
    }
  }

  /** Writing a tier into a user's sessions changes nothing else in them, and nobody else's. */
  lemma RewriteMovesOnlyTheTier(store: Store, u: UserId, tier: Tier)
    requires store.Indexed()
    ensures var t := Rewritten(store, u, Some(tier));
            && t.sessions.Keys == store.sessions.Keys
            && forall k :: k in store.sessions ==>
                 && t.sessions[k].tier == (if store.sessions[k].user == u then tier else store.sessions[k].tier)
                 && t.sessions[k].user == store.sessions[k].user && t.sessions[k].sid == store.sessions[k].sid
                 && t.sessions[k].unread == store.sessions[k].unread && t.sessions[k].fields == store.sessions[k].fields
  {
    RewriteSetsFields(store, u, TierPatch(tier));
  }

  lemma StoreCallKeepsSynced(s: System, op: Op)
    requires Synced(s) && Enabled(s, StoreCall(op))
    ensures Synced(s.(store := Step(s.store, op)))
  {
    StepKeepsIndexed(s.store, op);
    match op
    case OpRevokeByRefresh(sid) => RevokeByRefreshRefinesRemove(s.store, sid);
    case OpRewrite(u, patch) => RewritePatchesExactly(s.store, u, patch);
    case OpIncrUnread(u, delta) => IncrUnreadKeepsIndexed(s.store, u, delta);
    case OpUpdateFields(key, patch) => UpdateKeepsIndexed(s.store, key, patch);
    case _ =>
  }

  lemma LoginKeepsSynced(s: System, key: CompoundKey, data: Session)
    requires Synced(s) && IssuesCurrentTier(s, data) && CanWrite(s.store, key, data)
    ensures Synced(s.(store := s.store.Write(key, data)))
  {
    WriteKeepsIndexed(s.store, key, data);
  }

  lemma NextKeepsSynced(s: System, e: Event)
    requires Synced(s) && Enabled(s, e)
    ensures Synced(Next(s, e))
  {
    match e
    case Login(key, data) => LoginKeepsSynced(s, key, data);
    case Refresh(token, key, data) =>
      StoreCallKeepsSynced(s, OpRevokeByRefresh(token));
      LoginKeepsSynced(s.(store := s.store.RevokeByRefresh(token)), key, data);
    case StoreCall(op) => StoreCallKeepsSynced(s, op);
    case SubscribeToPlan(target, req, script) =>
      SubscribeAnnounces(s.world, target, req, script);
      BillKeepsSynced(s, Subscribe(s.world, target, req, script));
    case InvoicePaid(inv, billed) =>
      PaidAnnounces(s.world, inv, billed);
      BillKeepsSynced(s, PaidEffect(s.world, inv, billed));
    case InvoiceFailed =>
      FailedAnnounces(s.world);
      BillKeepsSynced(s, FailedEffect(s.world));
    case SubscriptionDeleted(sub) =>
      DeletedAnnounces(s.world, sub);
      BillKeepsSynced(s, DeletedEffect(s.world, sub));
    case SetUserTier(tier) =>
      BillKeepsSynced(s, Effect(B.Next(s.world, B.Admin(tier)), Ok(Succeeded(None)), Some(tier)));
    case _ =>
  }

  ghost predicate EnabledRun(s: System, steps: seq<Event>)
    decreases |steps|
  {
    |steps| != 0 ==> Enabled(s, steps[0]) && EnabledRun(Next(s, steps[0]), steps[1..])
  }

  ghost function Run(s: System, steps: seq<Event>): System
    requires EnabledRun(s, steps)
    decreases |steps|
  {
    if |steps| == 0 then s else Run(Next(s, steps[0]), steps[1..])
  }

  /** After every run, every live session of the user carries the tier stored on the user row. */
  lemma {:induction false} SessionsCarryTheTier(s: System, steps: seq<Event>)
    requires Synced(s) && EnabledRun(s, steps)
    ensures var end := Run(s, steps);
            Synced(end) && forall k :: k in end.store.SessionsOf(end.user) ==> end.store.sessions[k].tier == end.world.row.tier
    decreases |steps|
  {
    if |steps| != 0 {
      NextKeepsSynced(s, steps[0]);
      SessionsCarryTheTier(Next(s, steps[0]), steps[1..]);
    }
  }
}
