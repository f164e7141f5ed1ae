/**
 Refresh rotation (src/auth/auth-session.service.ts). The service looks a refresh token up, then
 revokes its session, then issues a new one, each in its own await: the machine below takes them
 as separate steps of concurrent requests, and `Refresh` is the same three steps uninterrupted.
 */
module SessionRefresh {
  import opened Wrappers
  import opened Tiers
  import opened Tokens
  import opened SessionStore
  import opened TokenStoreService
  import opened AuthTokens

  datatype Status = ACTIVE | PENDING_VERIFICATION | SUSPENDED | BANNED

  datatype Account = Account(status: Status, tier: Tier)

  predicate Refreshable(status: Status) {
    status == ACTIVE || status == PENDING_VERIFICATION
  }

  datatype RefreshError = MissingToken | InvalidToken | UserNotFound | AccountInactive

  /** `resolveRefreshContext`: the session behind a refresh token and its owner's row, or the refusal. */
  function Resolve(store: Store, users: map<UserId, Account>, sid: Option<SessionId>)
    : Result<(Session, Account), RefreshError>
  {
    if sid.None? || sid.value == "" then Err(MissingToken)
    else
      var session := store.FindByRefresh(sid.value);
      if session.None? then Err(InvalidToken)
      else if session.value.user !in users then Err(UserNotFound)
      else if !Refreshable(users[session.value.user].status) then Err(AccountInactive)
      else Ok((session.value, users[session.value.user]))
  }

  /**
   A refresh token resolves exactly when it is not empty, leads to a session, and that session's
   user exists and is active or awaiting verification; the answer is then that session and the
   user's row as it is now. The refusals come in this order.
   */
  lemma ResolveExactly(store: Store, users: map<UserId, Account>, sid: SessionId)
    ensures Resolve(store, users, None) == Err(MissingToken) && Resolve(store, users, Some("")) == Err(MissingToken)
    ensures var found := store.FindByRefresh(sid);
            Resolve(store, users, Some(sid)).Ok? <==>
              && sid != "" && found.Some? && found.value.user in users
              && (users[found.value.user].status == ACTIVE || users[found.value.user].status == PENDING_VERIFICATION)
    ensures Resolve(store, users, Some(sid)).Ok? ==>
              Resolve(store, users, Some(sid)).value == (store.FindByRefresh(sid).value, users[store.FindByRefresh(sid).value.user])
    ensures sid != "" ==>
              var found := store.FindByRefresh(sid);
              && (found.None? ==> Resolve(store, users, Some(sid)) == Err(InvalidToken))
              && (found.Some? && found.value.user !in users ==> Resolve(store, users, Some(sid)) == Err(UserNotFound))
              && (found.Some? && found.value.user in users
                  && (users[found.value.user].status == SUSPENDED || users[found.value.user].status == BANNED) ==>
                    Resolve(store, users, Some(sid)) == Err(AccountInactive))
  {
  }

  class AuthSessionService {
    const tokenStore: TokenStore
    const authTokens: AuthTokenService
    var users: map<UserId, Account>

    constructor (tokens: AuthTokenService)
      ensures authTokens == tokens && tokenStore == tokens.tokenStore && users == map[]
    {
      authTokens, tokenStore, users := tokens, tokens.tokenStore, map[];
    }

    method ResolveRefreshContext(sid: Option<SessionId>) returns (r: Result<(Session, Account), RefreshError>)
      ensures r == Resolve(tokenStore.View(), users, sid)
    {
      if sid.None? || sid.value == "" { return Err(MissingToken); }
      var session := tokenStore.FindByRefreshSessionId(sid.value);
      if session.None? { return Err(InvalidToken); }
      if session.value.user !in users { return Err(UserNotFound); }
      var user := users[session.value.user];
      if user.status != ACTIVE && user.status != PENDING_VERIFICATION { return Err(AccountInactive); }
      r := Ok((session.value, user));
    }

    /** A refusal changes nothing; a success is the removal of the old session and the write of the new one. */
    method Refresh(sid: Option<SessionId>, device: Option<Token>, at: IssueTimes,
                   newSid: SessionId, unread: int, fields: map<string, string>)
      returns (r: Result<Minted, RefreshError>)
      requires tokenStore.View().Indexed() && authTokens.tokenStore == tokenStore
      modifies tokenStore
      ensures var context := Resolve(old(tokenStore.View()), users, sid);
              if context.Err? then r == Err(context.error) && tokenStore.View() == old(tokenStore.View())
              else
                var (session, user) := context.value;
                && r == Ok(Mint(session.user, user.tier, device, authTokens.lifetime, at))
                && tokenStore.View() == Rotate(old(tokenStore.View()), sid.value, r.value.Key(),
                     IssuedSession(session.user, user.tier, newSid, unread, fields))
    {
      ghost var s := tokenStore.View();
      var context := ResolveRefreshContext(sid);
      if context.Err? { return Err(context.error); }
      var (session, user) := context.value;
      assert s.Owns(s.refresh[sid.value], sid.value);
      var _ := tokenStore.RevokeByRefreshSessionId(session.sid);
      var tokens := authTokens.IssueTokens(session.user, user.tier, device, at, newSid, unread, fields);
      r := Ok(tokens);
    }
  }

  /** A successful refresh as one step. */
  function Rotate(s: Store, sid: SessionId, key: CompoundKey, data: Session): Store {
    s.RevokeByRefresh(sid).Write(key, data)
  }

  /**
   Rotation replaces the one session of the presented id by the new one: the user keeps the same
   number of live sessions, every other user's sessions are untouched, and the old id is dead.
   */
  lemma RotateReplacesOneSession(s: Store, sid: SessionId, key: CompoundKey, data: Session)
    requires s.Indexed() && sid in s.refresh && s.FindByRefresh(sid).value.user == data.user
    requires key !in s.RevokeByRefresh(sid).sessions && data.sid != "" && data.sid !in s.refresh
    ensures var t := Rotate(s, sid, key, data);
            && t.Indexed()
            && t.ById() == (s.ById() - {sid})[data.sid := data]
            && sid !in t.refresh
            && |t.SessionsOf(data.user)| == |s.SessionsOf(data.user)|
            && forall u :: u != data.user ==> t.SessionsOf(u) == s.SessionsOf(u)
  {
    var mid := s.RevokeByRefresh(sid);
    assert s.Owns(s.refresh[sid], sid);
    RevokeByRefreshRefinesRemove(s, sid);
    RevokeRefinesRemove(s, s.refresh[sid]);
    WriteRefinesInsert(mid, key, data);
    RotateCounts(s, mid, Rotate(s, sid, key, data), s.refresh[sid], key, data);
  }

  lemma RotateCounts(s: Store, mid: Store, t: Store, gone: CompoundKey, key: CompoundKey, data: Session)
    requires forall u :: mid.SessionsOf(u) == s.SessionsOf(u) - {gone}
    requires forall u :: t.SessionsOf(u) == mid.SessionsOf(u) + if u == data.user then {key} else {}
    requires gone in s.sessions && s.sessions[gone].user == data.user && key !in mid.sessions
    ensures |t.SessionsOf(data.user)| == |s.SessionsOf(data.user)|
    ensures forall u :: u != data.user ==> t.SessionsOf(u) == s.SessionsOf(u)
  {
    var before := s.SessionsOf(data.user);
    assert gone in before && key !in mid.SessionsOf(data.user);
    assert t.SessionsOf(data.user) == before - {gone} + {key};
    forall u | u != data.user ensures t.SessionsOf(u) == s.SessionsOf(u) {
      assert mid.SessionsOf(u) == s.SessionsOf(u) - {gone};
      assert gone !in s.SessionsOf(u);
    }
  }

  // ---------------------------------------------------------------- concurrent requests

  /** How far a request that passed its lookup has come. */
  datatype Phase = LookedUp(sid: SessionId, user: UserId) | Revoked(sid: SessionId, user: UserId)

  /** `used`: every id ever issued. `spent`: ids a refresh has revoked. `redeemed`: ids answered with new tokens. */
  datatype World = World(
    store: Store, users: map<UserId, Account>, requests: map<nat, Phase>,
    used: set<SessionId>, spent: set<SessionId>, redeemed: seq<SessionId>)

  datatype Event =
    | Lookup(request: nat, token: SessionId)
    | RevokeOld(request: nat)
    | Issue(request: nat, key: CompoundKey, data: Session)
    | Login(key: CompoundKey, data: Session)
    | StoreCall(op: Op)
    | SetAccount(user: UserId, account: Account)

  predicate FreshSession(w: World, key: CompoundKey, data: Session) {
    key !in w.store.sessions && data.sid != "" && data.sid !in w.used
  }

  predicate Enabled(w: World, e: Event) {
    match e
    case Lookup(request, token) => request !in w.requests
    case RevokeOld(request) => request in w.requests && w.requests[request].LookedUp?
    case Issue(request, key, data) =>
      request in w.requests && w.requests[request].Revoked? && data.user == w.requests[request].user
      && FreshSession(w, key, data)
    case Login(key, data) => FreshSession(w, key, data)
    case StoreCall(op) => !op.OpWrite? && Allowed(w.store, op)
    case SetAccount(user, account) => true
  }

  function Next(w: World, e: Event): World
    requires Enabled(w, e)
  {
    match e
    case Lookup(request, token) =>
      var context := Resolve(w.store, w.users, Some(token));
      if context.Err? then w
      else w.(requests := w.requests[request := LookedUp(token, context.value.0.user)])
    case RevokeOld(request) =>
      var p := w.requests[request];
      w.(store := w.store.RevokeByRefresh(p.sid), spent := w.spent + {p.sid},
         requests := w.requests[request := Revoked(p.sid, p.user)])
    case Issue(request, key, data) =>
      w.(store := w.store.Write(key, data), used := w.used + {data.sid},
         redeemed := w.redeemed + [w.requests[request].sid], requests := w.requests - {request})
    case Login(key, data) =>
      w.(store := w.store.Write(key, data), used := w.used + {data.sid})
    case StoreCall(op) => w.(store := Step(w.store, op))
    case SetAccount(user, account) => w.(users := w.users[user := account])
  }

  ghost predicate EnabledRun(w: World, events: seq<Event>)
    decreases |events|
  {
    |events| != 0 ==> Enabled(w, events[0]) && EnabledRun(Next(w, events[0]), events[1..])
  }

  ghost function RunEvents(w: World, events: seq<Event>): World
    requires EnabledRun(w, events)
    decreases |events|
  {
    if |events| == 0 then w else RunEvents(Next(w, events[0]), events[1..])
  }

  ghost predicate Inv(w: World) {
    && w.store.Indexed()
    && w.store.refresh.Keys <= w.used
    && w.spent <= w.used
    && w.spent !! w.store.refresh.Keys
    && (forall r :: r in w.requests ==> w.requests[r].sid in w.used)
    && (forall r :: r in w.requests && w.requests[r].Revoked? ==> w.requests[r].sid in w.spent)
    && (forall i :: 0 <= i < |w.redeemed| ==> w.redeemed[i] in w.spent)
  }

  /** No store call but a write adds a refresh entry. */
  lemma StepShrinksRefresh(s: Store, op: Op)
    requires !op.OpWrite?
    ensures Step(s, op).refresh.Keys <= s.refresh.Keys
  {
  }

  lemma NextKeepsInv(w: World, e: Event)
    requires Inv(w) && Enabled(w, e)
    ensures Inv(Next(w, e)) && w.spent <= Next(w, e).spent
  {
    var t := Next(w, e);
    match e
    case Lookup(request, token) =>
    case RevokeOld(request) =>
      var sid := w.requests[request].sid;
      RevokeByRefreshRefinesRemove(w.store, sid);
      assert t.store.refresh.Keys <= w.store.refresh.Keys;
    case Issue(request, key, data) => WriteRefinesInsert(w.store, key, data);
    case Login(key, data) => WriteRefinesInsert(w.store, key, data);
    case StoreCall(op) =>
      StepKeepsIndexed(w.store, op);
      StepShrinksRefresh(w.store, op);
    case SetAccount(user, account) =>
  }

  lemma {:induction false} RunKeepsInv(w: World, events: seq<Event>)
    requires Inv(w) && EnabledRun(w, events)
    ensures Inv(RunEvents(w, events)) && w.spent <= RunEvents(w, events).spent
    decreases |events|
  {
    if |events| != 0 {
      NextKeepsInv(w, events[0]);
      RunKeepsInv(Next(w, events[0]), events[1..]);
    }
  }

  /**
   In every interleaving of logins, refreshes and store calls, once some refresh of a token has
   reached its revoke step, no later lookup of that token succeeds.
   */
  lemma SpentTokensStayDead(w: World, before: seq<Event>, request: nat, after: seq<Event>, later: nat)
    requires Inv(w) && EnabledRun(w, before)
    requires var m := RunEvents(w, before);
             Enabled(m, RevokeOld(request)) && EnabledRun(Next(m, RevokeOld(request)), after)
    ensures var m := RunEvents(w, before);
            var end := RunEvents(Next(m, RevokeOld(request)), after);
            && Resolve(end.store, end.users, Some(m.requests[request].sid)).Err?
            && (Enabled(end, Lookup(later, m.requests[request].sid)) ==>
                  Next(end, Lookup(later, m.requests[request].sid)) == end)
  {
    RunKeepsInv(w, before);
    var m := RunEvents(w, before);
    NextKeepsInv(m, RevokeOld(request));
    RunKeepsInv(Next(m, RevokeOld(request)), after);
    var end := RunEvents(Next(m, RevokeOld(request)), after);
    assert m.requests[request].sid in end.spent;
  }

  /** No token resolves for one request while another request for it is under way. */
  predicate LooksUpAlone(w: World, e: Event) {
    e.Lookup? && Resolve(w.store, w.users, Some(e.token)).Ok? ==> forall r :: r in w.requests ==> w.requests[r].sid != e.token
  }

  ghost predicate NeverShared(w: World, events: seq<Event>)
    requires EnabledRun(w, events)
    decreases |events|
  {
    |events| != 0 ==> LooksUpAlone(w, events[0]) && NeverShared(Next(w, events[0]), events[1..])
  }

  ghost predicate Distinct(s: seq<SessionId>) {
    forall i, j :: 0 <= i < j < |s| ==> s[i] != s[j]
  }

  /** No token is redeemed twice, or is redeemed and still under way, or under way twice. */
  ghost predicate HeldOnce(w: World) {
    && Distinct(w.redeemed)
    && (forall r, q :: r in w.requests && q in w.requests && w.requests[r].sid == w.requests[q].sid ==> r == q)
    && (forall r :: r in w.requests ==> w.requests[r].sid !in w.redeemed)
  }

  lemma NextKeepsHeldOnce(w: World, e: Event)
    requires Inv(w) && HeldOnce(w) && Enabled(w, e) && LooksUpAlone(w, e)
    ensures HeldOnce(Next(w, e))
  {
    if e.Lookup? && Resolve(w.store, w.users, Some(e.token)).Ok? {
      assert e.token in w.store.refresh;
    }
  }

  /**
   In every interleaving in which no token resolves while another request holds it, each
   refresh token is redeemed at most once. Refreshes of different tokens may overlap freely.
   */
  lemma {:induction false} EachTokenIsRedeemedOnce(w: World, events: seq<Event>)
    requires Inv(w) && HeldOnce(w) && EnabledRun(w, events) && NeverShared(w, events)
    ensures Distinct(RunEvents(w, events).redeemed)
    ensures HeldOnce(RunEvents(w, events))
    decreases |events|
  {
    if |events| != 0 {
      NextKeepsInv(w, events[0]);
      NextKeepsHeldOnce(w, events[0]);
      EachTokenIsRedeemedOnce(Next(w, events[0]), events[1..]);
    }
  }

  /** The rest of two refreshes of one token: the second lookup, both revokes, both issues. */
  function SharedRest(r: nat, q: nat, sid: SessionId, ka: CompoundKey, a: Session, kb: CompoundKey, b: Session): seq<Event> {
    [Lookup(q, sid)] + ([RevokeOld(r)] + ([RevokeOld(q)] + ([Issue(r, ka, a)] + ([Issue(q, kb, b)] + []))))
  }

  /**
   The condition is exact: whenever a token resolves while another request holds it, the two can
   be run on to two redemptions, whatever else is under way.
   */
  lemma SharedLookupRedeemsTwice(w: World, r: nat, q: nat, sid: SessionId, ka: CompoundKey, a: Session, kb: CompoundKey, b: Session)
    requires Inv(w) && Enabled(w, Lookup(q, sid)) && r in w.requests && w.requests[r].sid == sid
    requires Resolve(w.store, w.users, Some(sid)).Ok?
    requires ka != kb && a.sid != b.sid && FreshSession(w, ka, a) && FreshSession(w, kb, b)
    requires a.user == w.requests[r].user && b.user == w.store.FindByRefresh(sid).value.user
    ensures !LooksUpAlone(w, Lookup(q, sid))
    ensures var events := SharedRest(r, q, sid, ka, a, kb, b);
            EnabledRun(w, events) && RunEvents(w, events).redeemed == w.redeemed + [sid, sid]
  {
    var w3 := BothRevoked(w, r, q, sid);
    BothIssued(w3, r, q, sid, ka, a, kb, b);
    var w1 := Next(w, Lookup(q, sid));
    var w2 := Next(w1, RevokeOld(r));
    var issues := [Issue(r, ka, a)] + ([Issue(q, kb, b)] + []);
    Prepend(w2, RevokeOld(q), issues);
    Prepend(w1, RevokeOld(r), [RevokeOld(q)] + issues);
    Prepend(w, Lookup(q, sid), [RevokeOld(r)] + ([RevokeOld(q)] + issues));
  }

  lemma BothRevoked(w: World, r: nat, q: nat, sid: SessionId) returns (w3: World)
    requires Inv(w) && Enabled(w, Lookup(q, sid)) && r in w.requests && w.requests[r].sid == sid
    requires Resolve(w.store, w.users, Some(sid)).Ok?
    ensures var w1 := Next(w, Lookup(q, sid));
            && Enabled(w1, RevokeOld(r))
            && var w2 := Next(w1, RevokeOld(r));
            && Enabled(w2, RevokeOld(q)) && w3 == Next(w2, RevokeOld(q))
    ensures r in w3.requests && w3.requests[r] == Revoked(sid, w.requests[r].user)
    ensures q in w3.requests && w3.requests[q] == Revoked(sid, w.store.FindByRefresh(sid).value.user)
    ensures w3.store.sessions.Keys <= w.store.sessions.Keys && w3.used == w.used && w3.redeemed == w.redeemed
  {
    assert w.requests[r].LookedUp? by { assert sid in w.store.refresh; }
    var w2 := Next(Next(w, Lookup(q, sid)), RevokeOld(r));
    w3 := Next(w2, RevokeOld(q));
    RevokeByRefreshRefinesRemove(w.store, sid);
    RevokeByRefreshRefinesRemove(w2.store, sid);
  }

  lemma BothIssued(w: World, r: nat, q: nat, sid: SessionId, ka: CompoundKey, a: Session, kb: CompoundKey, b: Session)
    requires r != q && r in w.requests && w.requests[r] == Revoked(sid, a.user)
    requires q in w.requests && w.requests[q] == Revoked(sid, b.user)
    requires ka != kb && a.sid != b.sid && FreshSession(w, ka, a) && FreshSession(w, kb, b)
    ensures var issues := [Issue(r, ka, a)] + ([Issue(q, kb, b)] + []);
            EnabledRun(w, issues) && RunEvents(w, issues).redeemed == w.redeemed + [sid, sid]
  {
    var w1 := Next(w, Issue(r, ka, a));
    var w2 := Next(w1, Issue(q, kb, b));
    assert EnabledRun(w2, []) && RunEvents(w2, []) == w2;
    Prepend(w1, Issue(q, kb, b), []);
    Prepend(w, Issue(r, ka, a), [Issue(q, kb, b)] + []);
  }

  lemma Prepend(w: World, e: Event, rest: seq<Event>)
    requires Enabled(w, e) && EnabledRun(Next(w, e), rest)
    ensures EnabledRun(w, [e] + rest) && RunEvents(w, [e] + rest) == RunEvents(Next(w, e), rest)
  {
    assert ([e] + rest)[1..] == rest;
  }

  /** So from a quiet world, two overlapping refreshes of any token that resolves redeem it twice. */
  lemma InterleavedRefreshesRedeemTwice(w: World, sid: SessionId, a: Session, b: Session, ka: CompoundKey, kb: CompoundKey)
    requires Inv(w) && w.requests == map[] && Resolve(w.store, w.users, Some(sid)).Ok?
    requires ka != kb && a.sid != b.sid && a.user == b.user == w.store.FindByRefresh(sid).value.user
    requires FreshSession(w, ka, a) && FreshSession(w, kb, b)
    ensures var events := [Lookup(1, sid)] + SharedRest(1, 2, sid, ka, a, kb, b);
            EnabledRun(w, events) && RunEvents(w, events).redeemed == w.redeemed + [sid, sid]
  {
    var w1 := Next(w, Lookup(1, sid));
    NextKeepsInv(w, Lookup(1, sid));
    SharedLookupRedeemsTwice(w1, 1, 2, sid, ka, a, kb, b);
    Prepend(w, Lookup(1, sid), SharedRest(1, 2, sid, ka, a, kb, b));
  }

  // ---------------------------------------------------------------- blocked accounts

  lemma {:induction false} AccountStands(w: World, events: seq<Event>, u: UserId)
    requires EnabledRun(w, events) && u in w.users
    requires forall i :: 0 <= i < |events| ==> !(events[i].SetAccount? && events[i].user == u)
    ensures u in RunEvents(w, events).users && RunEvents(w, events).users[u] == w.users[u]
    decreases |events|
  {
    if |events| != 0 {
      assert !(events[0].SetAccount? && events[0].user == u);
      AccountStands(Next(w, events[0]), events[1..], u);
    }
  }

  /**
   Once an account is suspended or banned, then in every run until it is set again, no token of any
   of its sessions resolves and a lookup of one starts nothing, however many sessions it has or gets.
   */
  lemma BlockedAccountCannotRefresh(w: World, u: UserId, account: Account, events: seq<Event>, request: nat, token: SessionId)
    requires account.status == SUSPENDED || account.status == BANNED
    requires EnabledRun(Next(w, SetAccount(u, account)), events)
    requires forall i :: 0 <= i < |events| ==> !(events[i].SetAccount? && events[i].user == u)
    requires var end := RunEvents(Next(w, SetAccount(u, account)), events);
             && end.store.FindByRefresh(token).Some? && end.store.FindByRefresh(token).value.user == u
             && Enabled(end, Lookup(request, token))
    ensures var end := RunEvents(Next(w, SetAccount(u, account)), events);
            && Resolve(end.store, end.users, Some(token)).Err?
            && Next(end, Lookup(request, token)) == end
  {
    AccountStands(Next(w, SetAccount(u, account)), events, u);
    var end := RunEvents(Next(w, SetAccount(u, account)), events);
    ResolveExactly(end.store, end.users, token);
  }

  // ---------------------------------------------------------------- refresh as one step

  datatype Move =
    | Refresh(token: SessionId, key: CompoundKey, data: Session)
    | Other(event: Event)

  /** The three steps of one refresh, or one event that belongs to no refresh. */
  ghost predicate MoveEnabled(w: World, m: Move) {
    && w.requests == map[]
    && match m
       case Other(event) => (event.Login? || event.StoreCall? || event.SetAccount?) && Enabled(w, event)
       case Refresh(token, key, data) =>
         var context := Resolve(w.store, w.users, Some(token));
         context.Ok? ==> data.user == context.value.0.user && FreshSession(w, key, data)
  }

  ghost function MoveEvents(w: World, m: Move): seq<Event> {
    match m
    case Other(event) => [event]
    case Refresh(token, key, data) =>
      if Resolve(w.store, w.users, Some(token)).Ok? then [Lookup(0, token), RevokeOld(0), Issue(0, key, data)]
      else [Lookup(0, token)]
  }

  ghost function Play(w: World, m: Move): World
    requires MoveEnabled(w, m)
  {
    match m
    case Other(event) => Next(w, event)
    case Refresh(token, key, data) =>
      if Resolve(w.store, w.users, Some(token)).Err? then w
      else w.(store := Rotate(w.store, token, key, data), used := w.used + {data.sid},
              spent := w.spent + {token}, redeemed := w.redeemed + [token])
  }

  /** An uninterrupted refresh is its three steps, one after the other. */
  lemma PlayIsThreeSteps(w: World, m: Move)
    requires Inv(w) && MoveEnabled(w, m)
    ensures EnabledRun(w, MoveEvents(w, m)) && RunEvents(w, MoveEvents(w, m)) == Play(w, m)
  {
    var events := MoveEvents(w, m);
    var w1 := Next(w, events[0]);
    assert EnabledRun(w1, []) && RunEvents(w1, []) == w1;
    if |events| == 1 {
      assert events[1..] == [];
    } else {
      var sid := m.token;
      assert w1.requests == map[0 := LookedUp(sid, m.data.user)];
      var w2 := Next(w1, events[1]);
      assert w2.requests == map[0 := Revoked(sid, m.data.user)];
      RevokeByRefreshRefinesRemove(w.store, sid);
      assert Enabled(w2, events[2]);
      var w3 := Next(w2, events[2]);
      assert w3.requests == map[];
      var e1, e2 := events[1..], events[2..];
      assert e1[1..] == e2 && |e2[1..]| == 0;
      assert EnabledRun(w3, e2[1..]) && EnabledRun(w2, e2) && EnabledRun(w1, e1);
      assert RunEvents(w2, e2) == RunEvents(w3, e2[1..]) == w3;
      assert RunEvents(w1, e1) == RunEvents(w2, e2);
    }
  }

  ghost predicate EnabledPlay(w: World, moves: seq<Move>)
    decreases |moves|
  {
    |moves| != 0 ==> MoveEnabled(w, moves[0]) && EnabledPlay(Play(w, moves[0]), moves[1..])
  }

  ghost function PlayAll(w: World, moves: seq<Move>): World
    requires EnabledPlay(w, moves)
    decreases |moves|
  {
    if |moves| == 0 then w else PlayAll(Play(w, moves[0]), moves[1..])
  }

  /** With refresh as one step there is nothing to hold, and every run redeems each refresh token at most once. */
  lemma {:induction false} AtomicRefreshRedeemsOnce(w: World, moves: seq<Move>)
    requires Inv(w) && Distinct(w.redeemed) && EnabledPlay(w, moves)
    ensures Distinct(PlayAll(w, moves).redeemed)
    decreases |moves|
  {
    if |moves| != 0 {
      PlayIsThreeSteps(w, moves[0]);
      RunKeepsInv(w, MoveEvents(w, moves[0]));
      AtomicRefreshRedeemsOnce(Play(w, moves[0]), moves[1..]);
    }
  }
}
