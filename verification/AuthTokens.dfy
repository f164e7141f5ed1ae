/**
 Issuing the four tokens of a session (src/auth/auth-token.service.ts,
 src/auth/token-derivation.service.ts) and checking them against the store
 (src/auth/session-validator.service.ts).
 */
module AuthTokens {
  import opened Wrappers
  import opened Tiers
  import opened Tokens
  import opened SessionStore
  import opened TokenStoreService

  /** The instants at which the JWT is signed and the two dated digests are derived. */
  datatype IssueTimes = IssueTimes(signed: Seconds, rbac: Seconds, user: Seconds)

  /** The instants at which a validation reads the clock, in the order in which it does. */
  datatype CheckTimes = CheckTimes(jwt: Seconds, user: Seconds, rbac: Seconds)

  datatype Minted = Minted(access: Token, rbac: Token, device: Option<Token>, user: Token)
  {
    function Key(): CompoundKey {
      BuildKey(access, rbac, device.GetOr(Text("")), user)
    }

    function Presented(): SessionTokens {
      SessionTokens(Some(access), Some(rbac), device, Some(user))
    }
  }

  function Mint(u: UserId, tier: Tier, device: Option<Token>, lifetime: Seconds, at: IssueTimes): Minted {
    Minted(
      AccessJwt(u, at.signed, at.signed + lifetime),
      RbacDigest(UtcDay(at.rbac), u, tier),
      device,
      UserDigest(UtcDay(at.user), u))
  }

  /** The session `issueTokens` stores: the hydrated fields vary, the identity and the tier do not. */
  function IssuedSession(u: UserId, tier: Tier, sid: SessionId, unread: int, fields: map<string, string>): Session {
    Session(u, sid, tier, unread, fields)
  }

  class AuthTokenService {
    const tokenStore: TokenStore
    const lifetime: Seconds

    constructor (store: TokenStore, lifetime: Seconds)
      ensures tokenStore == store && this.lifetime == lifetime
    {
      tokenStore, this.lifetime := store, lifetime;
    }

    /** Derives the tokens, builds the compound key from them and stores the session under it. */
    method IssueTokens(u: UserId, tier: Tier, device: Option<Token>, at: IssueTimes,
                       sid: SessionId, unread: int, fields: map<string, string>) returns (tokens: Minted)
      modifies tokenStore
      ensures tokens == Mint(u, tier, device, lifetime, at)
      ensures tokenStore.View() == old(tokenStore.View()).Write(tokens.Key(), IssuedSession(u, tier, sid, unread, fields))
    {
      var access := AccessJwt(u, at.signed, at.signed + lifetime);
      var rbac := RbacDigest(UtcDay(at.rbac), u, tier);
      var user := UserDigest(UtcDay(at.user), u);
      var key := BuildKey(access, rbac, if device.Some? then device.value else Text(""), user);
      tokenStore.Write(key, Session(u, sid, tier, unread, fields));
      tokens := Minted(access, rbac, device, user);
    }
  }

  // ---------------------------------------------------------------- validation

  datatype SessionTokens = SessionTokens(
    access: Option<Token>, rbac: Option<Token>, device: Option<Token>, user: Option<Token>)

  datatype Reason =
    | MissingAccessToken | InvalidJwt | MissingRbacToken | MissingUserToken
    | UserTokenExpired | RedisUnavailable | SessionMiss | UserMismatch | RbacMismatch

  predicate Present(t: Option<Token>) {
    t.Some? && Truthy(t.value)
  }

  function Validate(store: Store, redisUp: bool, t: SessionTokens, at: CheckTimes)
    : Result<(Session, CompoundKey), Reason>
  {
    if !Present(t.access) then Err(MissingAccessToken)
    else if !(t.access.value.AccessJwt? && at.jwt < t.access.value.expiresAt) then Err(InvalidJwt)
    else
      var sub := t.access.value.sub;
      if !Present(t.rbac) then Err(MissingRbacToken)
      else if !Present(t.user) then Err(MissingUserToken)
      else if t.user.value != UserDigest(UtcDay(at.user), sub) then Err(UserTokenExpired)
      else
        var key := BuildKey(t.access.value, t.rbac.value, t.device.GetOr(Text("")), t.user.value);
        if !redisUp then Err(RedisUnavailable)
        else if key !in store.sessions then Err(SessionMiss)
        else
          var session := store.sessions[key];
          if sub != session.user then Err(UserMismatch)
          else if t.rbac.value != RbacDigest(UtcDay(at.rbac), session.user, session.tier) then Err(RbacMismatch)
          else Ok((session, key))
  }

  /** Whatever tokens are presented, acceptance means they are today's digests for that session's user and tier. */
  lemma AcceptanceIsAuthentic(store: Store, redisUp: bool, t: SessionTokens, at: CheckTimes)
    requires Validate(store, redisUp, t, at).Ok?
    ensures var (session, key) := Validate(store, redisUp, t, at).value;
            && key in store.sessions && store.sessions[key] == session
            && t.access.Some? && t.access.value.AccessJwt? && at.jwt < t.access.value.expiresAt
            && t == SessionTokens(Some(AccessJwt(session.user, t.access.value.issuedAt, t.access.value.expiresAt)),
                                  Some(RbacDigest(UtcDay(at.rbac), session.user, session.tier)), t.device,
                                  Some(UserDigest(UtcDay(at.user), session.user)))
  {
  }

  /** The user a compound key was derived for, when its fourth part is a user digest. */
  function NamedUser(key: CompoundKey): Option<UserId> {
    if |key.parts| == 4 && key.parts[3].UserDigest? then Some(key.parts[3].user) else None
  }

  /** Every stored session belongs to the user its key names, unless a late update revived its hash without an owner. */
  ghost predicate KeysNameUsers(store: Store) {
    forall k :: k in store.sessions && NamedUser(k).Some? ==> OwnedOrOwnerless(store.sessions[k], NamedUser(k).value)
  }

  predicate OwnedOrOwnerless(session: Session, u: UserId) {
    session.user == u || session.user == OWNERLESS.user
  }

  predicate NamesItsUser(op: Op) {
    op.OpWrite? && NamedUser(op.key).Some? ==> op.data.user == NamedUser(op.key).value
  }

  lemma {:induction false} RunKeepsKeysNameUsers(s: Store, ops: seq<Op>)
    requires KeysNameUsers(s) && forall i :: 0 <= i < |ops| ==> NamesItsUser(ops[i])
    ensures KeysNameUsers(Run(s, ops))
    decreases |ops|
  {
    if |ops| != 0 {
      assert NamesItsUser(ops[0]);
      var t := Step(s, ops[0]);
      forall k | k in t.sessions && NamedUser(k).Some? ensures OwnedOrOwnerless(t.sessions[k], NamedUser(k).value) {
        assert k in s.sessions || ops[0].OpWrite? || ops[0].OpUpdateFields?;
      }
      RunKeepsKeysNameUsers(t, ops[1..]);
    }
  }

  /** What validating one login's tokens answers: the first of the conditions that fails. */
  lemma MintedTokensValidate(s: Store, redisUp: bool, u: UserId, tier: Tier, device: Option<Token>, lifetime: Seconds,
                             at: IssueTimes, now: CheckTimes)
    ensures var m := Mint(u, tier, device, lifetime, at);
            Validate(s, redisUp, m.Presented(), now) ==
            if at.signed + lifetime <= now.jwt then Err(InvalidJwt)
            else if UtcDay(now.user) != UtcDay(at.user) then Err(UserTokenExpired)
            else if !redisUp then Err(RedisUnavailable)
            else if m.Key() !in s.sessions then Err(SessionMiss)
            else if s.sessions[m.Key()].user != u then Err(UserMismatch)
            else if UtcDay(now.rbac) != UtcDay(at.rbac) || s.sessions[m.Key()].tier != tier then Err(RbacMismatch)
            else Ok((s.sessions[m.Key()], m.Key()))
  {
  }

  /**
   Issue, then any run of store calls, then validate: the four tokens are accepted exactly while
   the JWT is unexpired, the UTC day is the day of issue, the user's session is live, and its
   stored tier is the tier it was issued with. Nobody else's session can be under that key.
   */
  lemma IssuedTokensValidateExactly(s: Store, u: UserId, tier: Tier, device: Option<Token>, lifetime: Seconds,
                                    issuedAt: Seconds, session: Session, ops: seq<Op>, now: Seconds)
    requires KeysNameUsers(s) && session.user == u
    requires forall i :: 0 <= i < |ops| ==> NamesItsUser(ops[i])
    ensures var m := Mint(u, tier, device, lifetime, IssueTimes(issuedAt, issuedAt, issuedAt));
            var end := Run(s.Write(m.Key(), session), ops);
            Validate(end, true, m.Presented(), CheckTimes(now, now, now)).Ok?
            <==> && now < issuedAt + lifetime
                 && UtcDay(now) == UtcDay(issuedAt)
                 && m.Key() in end.sessions && end.sessions[m.Key()].user == u && end.sessions[m.Key()].tier == tier
    ensures var m := Mint(u, tier, device, lifetime, IssueTimes(issuedAt, issuedAt, issuedAt));
            var end := Run(s.Write(m.Key(), session), ops);
            m.Key() in end.sessions ==> OwnedOrOwnerless(end.sessions[m.Key()], u)
  {
    var at := IssueTimes(issuedAt, issuedAt, issuedAt);
    var m := Mint(u, tier, device, lifetime, at);
    var all := [OpWrite(m.Key(), session)] + ops;
    assert NamedUser(m.Key()) == Some(u);
    forall i | 0 <= i < |all| ensures NamesItsUser(all[i]) {
      if i > 0 { assert all[i] == ops[i - 1]; }
    }
    assert all[1..] == ops;
    RunKeepsKeysNameUsers(s, all);
    MintedTokensValidate(Run(s, all), true, u, tier, device, lifetime, at, CheckTimes(now, now, now));
  }

  /**
   What a login stores is what its tokens are checked against: with nothing in between, they are
   accepted exactly while the JWT is unexpired and the UTC day is the day of issue.
   */
  lemma FreshTokensValidate(s: Store, u: UserId, tier: Tier, device: Option<Token>, lifetime: Seconds, issuedAt: Seconds,
                            sid: SessionId, unread: int, fields: map<string, string>, now: Seconds)
    ensures var m := Mint(u, tier, device, lifetime, IssueTimes(issuedAt, issuedAt, issuedAt));
            var t := s.Write(m.Key(), IssuedSession(u, tier, sid, unread, fields));
            Validate(t, true, m.Presented(), CheckTimes(now, now, now)).Ok?
            <==> now < issuedAt + lifetime && UtcDay(now) == UtcDay(issuedAt)
  {
    var at := IssueTimes(issuedAt, issuedAt, issuedAt);
    var m := Mint(u, tier, device, lifetime, at);
    var t := s.Write(m.Key(), IssuedSession(u, tier, sid, unread, fields));
    MintedTokensValidate(t, true, u, tier, device, lifetime, at, CheckTimes(now, now, now));
  }

  /** The refresh id of a login finds the session that was asked for, whatever the store held before. */
  lemma FreshSessionIsFound(s: Store, key: CompoundKey, u: UserId, tier: Tier, sid: SessionId, unread: int, fields: map<string, string>)
    requires sid != ""
    ensures var found := s.Write(key, IssuedSession(u, tier, sid, unread, fields)).FindByRefresh(sid);
            && found.Some? && found.value.user == u && found.value.sid == sid && found.value.tier == tier
            && found.value.unread == unread && found.value.fields == fields
  {
  }

  /** A missing or empty token is named before anything is looked up, in the order access, JWT, rbac, user. */
  lemma MissingTokensAreNamed(store: Store, redisUp: bool, t: SessionTokens, at: CheckTimes)
    ensures t.access == None || t.access == Some(Text("")) ==> Validate(store, redisUp, t, at) == Err(MissingAccessToken)
    ensures t.access.Some? && t.access.value.AccessJwt? && t.access.value.expiresAt <= at.jwt ==>
              Validate(store, redisUp, t, at) == Err(InvalidJwt)
    ensures t.access.Some? && t.access.value.AccessJwt? && at.jwt < t.access.value.expiresAt ==>
              && (t.rbac == None || t.rbac == Some(Text("")) ==> Validate(store, redisUp, t, at) == Err(MissingRbacToken))
              && (t.rbac.Some? && t.rbac.value.RbacDigest? && (t.user == None || t.user == Some(Text(""))) ==>
                    Validate(store, redisUp, t, at) == Err(MissingUserToken))
  {
  }
}
