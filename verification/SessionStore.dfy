/**
 The session store of src/auth/token-store.service.ts without expiry: three linked Redis
 structures (compound key to session hash, user to the set of that user's keys, session id to
 compound key). `Store` holds their contents and gives each call's effect as a function;
 `TokenStore` is the service, whose methods work step by step and are proved against `Store`.
 */
module SessionStore {
  import opened Wrappers
  import opened Tiers
  import opened Tokens

  datatype Session = Session(user: UserId, sid: SessionId, tier: Tier, unread: int, fields: map<string, string>)

  /** The fields a rewrite sets; the callers never rewrite the user or the session id. */
  datatype Patch = Patch(tier: Option<Tier>, fields: map<string, string>)

  /** HSET of the patch's fields onto one session hash. */
  function Apply(session: Session, patch: Patch): Session {
    session.(tier := patch.tier.GetOr(session.tier), fields := session.fields + patch.fields)
  }

  datatype Store = Store(
    sessions: map<CompoundKey, Session>,
    byUser: map<UserId, set<CompoundKey>>,
    refresh: map<SessionId, CompoundKey>)
  {
    function Members(u: UserId): set<CompoundKey> {
      if u in byUser then byUser[u] else {}
    }

    /** A user's live sessions, by compound key. */
    function SessionsOf(u: UserId): set<CompoundKey> {
      set k | k in sessions && sessions[k].user == u
    }

    /** A user's set holds exactly the keys of that user's sessions. */
    ghost predicate UsersLinked() {
      forall u :: Members(u) == SessionsOf(u)
    }

    /** A session id leads to a key exactly when that key's session has that (non-empty) id. */
    ghost predicate RefreshLinked() {
      && (forall sid :: sid in refresh ==> Owns(refresh[sid], sid))
      && (forall k :: k in sessions && sessions[k].sid != "" ==>
                        sessions[k].sid in refresh && refresh[sessions[k].sid] == k)
    }

    predicate Owns(k: CompoundKey, sid: SessionId) {
      sid != "" && k in sessions && sessions[k].sid == sid
    }

    /** The three structures describe the same sessions. */
    ghost predicate Indexed() {
      UsersLinked() && RefreshLinked()
    }

    /** The plain map the store stands for: session id to session. */
    function ById(): map<SessionId, Session> {
      map sid | sid in refresh && refresh[sid] in sessions :: sessions[refresh[sid]]
    }

    function Write(key: CompoundKey, data: Session): Store {
      Store(
        sessions[key := data],
        byUser[data.user := Members(data.user) + {key}],
        if data.sid != "" then refresh[data.sid := key] else refresh)
    }

    function RemoveMember(u: UserId, key: CompoundKey): map<UserId, set<CompoundKey>> {
      // Redis drops a set together with its last member.
      if Members(u) - {key} == {} then byUser - {u} else byUser[u := Members(u) - {key}]
    }

    function Revoke(key: CompoundKey): Store {
      if key !in sessions then this
      else
        var s := sessions[key];
        Store(sessions - {key}, RemoveMember(s.user, key), if s.sid != "" then refresh - {s.sid} else refresh)
    }

    function FindByRefresh(sid: SessionId): Option<Session> {
      if sid in refresh && refresh[sid] in sessions then Some(sessions[refresh[sid]]) else None
    }

    function RevokeByRefresh(sid: SessionId): Store {
      if sid in refresh then Revoke(refresh[sid]) else this
    }

    /** The keys `listSessionsWithKeys` returns: set members whose hash still exists. */
    function Listed(u: UserId): set<CompoundKey> {
      set k | k in Members(u) && k in sessions
    }

    /** The MULTI of `revokeAllForUserOnce`, given the keys listed before it and their session ids. */
    function RevokeListed(u: UserId, listed: set<CompoundKey>, sids: set<SessionId>): Store {
      Store(sessions - listed, byUser - {u}, refresh - (sids - {""}))
    }

    function SidsOf(keys: set<CompoundKey>): set<SessionId> {
      set k | k in keys && k in sessions :: sessions[k].sid
    }

    function RevokeAll(u: UserId): Store {
      RevokeListed(u, Listed(u), SidsOf(Listed(u)))
    }

    function PatchKeys(keys: set<CompoundKey>, patch: Patch): Store {
      this.(sessions := map k | k in sessions :: if k in keys then Apply(sessions[k], patch) else sessions[k])
    }

    function Rewrite(u: UserId, patch: Patch): Store {
      PatchKeys(Members(u), patch)
    }

    /** HSET on one key. On a missing key Redis creates a hash of these fields alone, without user or id. */
    function UpdateFields(key: CompoundKey, patch: Patch): Store {
      this.(sessions := sessions[key := Apply(if key in sessions then sessions[key] else OWNERLESS, patch)])
    }

    /** HINCRBY on every member. In the untimed store a member always exists. */
    function IncrUnread(u: UserId, delta: int): Store {
      this.(sessions := map k | k in sessions ::
        if k in Members(u) then sessions[k].(unread := sessions[k].unread + delta) else sessions[k])
    }
  }

  /** How a hash without the fields of a session reads. */
  const OWNERLESS := Session("", "", FREE, 0, map[])

  const EMPTY := Store(map[], map[], map[])

  // ---------------------------------------------------------------- one call at a time

  /**
   What a write must find for the three structures to stay linked: it may only overwrite a
   session of the same user under the same id, and may not take another key's session id.
   */
  predicate CanWrite(s: Store, key: CompoundKey, data: Session) {
    && (key in s.sessions ==>
          s.sessions[key].user == data.user && (s.sessions[key].sid == "" || s.sessions[key].sid == data.sid))
    && (data.sid == "" || data.sid !in s.refresh || s.refresh[data.sid] == key)
  }

  /** A write keeps the structures linked exactly when it meets `CanWrite`. */
  lemma WriteKeepsIndexed(s: Store, key: CompoundKey, data: Session)
    requires s.Indexed()
    ensures s.Write(key, data).Indexed() <==> CanWrite(s, key, data)
  {
    WriteUsers(s, key, data);
    WriteRefresh(s, key, data);
  }

  lemma WriteUsers(s: Store, key: CompoundKey, data: Session)
    requires s.UsersLinked()
    ensures s.Write(key, data).UsersLinked() <==> (key in s.sessions ==> s.sessions[key].user == data.user)
  {
    var t := s.Write(key, data);
    if key in s.sessions && s.sessions[key].user != data.user {
      var o := s.sessions[key].user;
      assert key in s.SessionsOf(o) && key in t.Members(o) && key !in t.SessionsOf(o);
    } else {
      forall u ensures t.Members(u) == t.SessionsOf(u) {
        assert t.Members(u) == s.SessionsOf(u) + if u == data.user then {key} else {};
      }
    }
  }

  lemma WriteRefresh(s: Store, key: CompoundKey, data: Session)
    requires s.RefreshLinked()
    ensures s.Write(key, data).RefreshLinked() <==>
            && (key in s.sessions ==> s.sessions[key].sid == "" || s.sessions[key].sid == data.sid)
            && (data.sid == "" || data.sid !in s.refresh || s.refresh[data.sid] == key)
  {
    var t := s.Write(key, data);
    if key in s.sessions && s.sessions[key].sid != "" && s.sessions[key].sid != data.sid {
      assert s.sessions[key].sid in t.refresh && !t.Owns(key, s.sessions[key].sid);
    } else if data.sid != "" && data.sid in s.refresh && s.refresh[data.sid] != key {
      assert s.Owns(s.refresh[data.sid], data.sid);
      assert t.sessions[s.refresh[data.sid]].sid == data.sid;
    } else {
      forall sid | sid in t.refresh ensures t.Owns(t.refresh[sid], sid) {
        if sid != data.sid { assert s.Owns(s.refresh[sid], sid); }
      }
    }
  }

  /** With a fresh key and a fresh id, a write adds one entry to the plain map and nothing else. */
  lemma WriteRefinesInsert(s: Store, key: CompoundKey, data: Session)
    requires s.Indexed() && key !in s.sessions && data.sid !in s.refresh
    ensures s.Write(key, data).Indexed()
    ensures s.Write(key, data).ById() == if data.sid == "" then s.ById() else s.ById()[data.sid := data]
    ensures forall u :: s.Write(key, data).SessionsOf(u) == s.SessionsOf(u) + if u == data.user then {key} else {}
  {
    WriteKeepsIndexed(s, key, data);
    WriteInserts(s, key, data);
    forall u ensures s.Write(key, data).SessionsOf(u) == s.SessionsOf(u) + if u == data.user then {key} else {} {}
  }

  lemma WriteInserts(s: Store, key: CompoundKey, data: Session)
    requires s.RefreshLinked() && key !in s.sessions && data.sid !in s.refresh
    ensures s.Write(key, data).ById() == if data.sid == "" then s.ById() else s.ById()[data.sid := data]
  {
    assert forall sid :: sid in s.refresh ==> s.Owns(s.refresh[sid], sid);
  }

  /**
   A key that two logins share breaks the linkage: the first login's refresh id then leads to
   the second login's session. Two access tokens signed for one user in the same second are equal.
   */
  lemma ReusedKeyBreaksIndexes()
    ensures exists key, a: Session, b: Session ::
      && a.sid != b.sid && EMPTY.Write(key, a).Indexed()
      && var t := EMPTY.Write(key, a).Write(key, b);
         !t.Indexed() && t.FindByRefresh(a.sid) == Some(b)
  {
    var key := BuildKey(AccessJwt("u", 7, 907), RbacDigest(0, "u", FREE), Text(""), UserDigest(0, "u"));
    var a, b := Session("u", "a", FREE, 0, map[]), Session("u", "b", FREE, 0, map[]);
    EmptyIsIndexed();
    WriteKeepsIndexed(EMPTY, key, a);
    WriteKeepsIndexed(EMPTY.Write(key, a), key, b);
    assert a.sid != b.sid by { assert |a.sid| == 1 && a.sid[0] == 'a' && b.sid[0] == 'b'; }
  }

  /** Revoking a key removes that session from every structure and leaves every other one alone. */
  lemma RevokeRefinesRemove(s: Store, key: CompoundKey)
    requires s.Indexed()
    ensures s.Revoke(key).Indexed()
    ensures s.Revoke(key).sessions == s.sessions - {key}
    ensures s.Revoke(key).ById() == s.ById() - if key in s.sessions then {s.sessions[key].sid} else {}
    ensures forall u :: s.Revoke(key).SessionsOf(u) == s.SessionsOf(u) - {key}
  {
    RevokeUsers(s, key);
    RevokeRefresh(s, key);
  }

  lemma RevokeUsers(s: Store, key: CompoundKey)
    requires s.UsersLinked()
    ensures s.Revoke(key).UsersLinked()
    ensures forall u :: s.Revoke(key).SessionsOf(u) == s.SessionsOf(u) - {key}
  {
    var t := s.Revoke(key);
    forall u ensures t.SessionsOf(u) == s.SessionsOf(u) - {key} {}
    forall u ensures t.Members(u) == t.SessionsOf(u) {
      assert s.Members(u) == s.SessionsOf(u);
    }
  }

  lemma RevokeRefresh(s: Store, key: CompoundKey)
    requires s.RefreshLinked()
    ensures s.Revoke(key).RefreshLinked()
    ensures s.Revoke(key).ById() == s.ById() - if key in s.sessions then {s.sessions[key].sid} else {}
  {
    RevokeKeepsRefreshLinked(s, key);
    if key in s.sessions {
      var t, sid := s.Revoke(key), s.sessions[key].sid;
      assert forall id :: id in s.refresh ==> s.Owns(s.refresh[id], id);
      assert "" !in s.ById();
      assert t.ById().Keys == s.ById().Keys - {sid};
    }
  }

  lemma RevokeKeepsRefreshLinked(s: Store, key: CompoundKey)
    requires s.RefreshLinked()
    ensures s.Revoke(key).RefreshLinked()
  {
    var t := s.Revoke(key);
    forall sid | sid in t.refresh ensures t.Owns(t.refresh[sid], sid) {
      assert s.Owns(s.refresh[sid], sid);
    }
  }

  /** Revoking through the refresh index removes exactly the session with that id. */
  lemma RevokeByRefreshRefinesRemove(s: Store, sid: SessionId)
    requires s.Indexed()
    ensures s.RevokeByRefresh(sid).Indexed()
    ensures s.RevokeByRefresh(sid).ById() == s.ById() - {sid}
    ensures s.RevokeByRefresh(sid).refresh == s.refresh - {sid}
    ensures s.RevokeByRefresh(sid).sessions
         == map k | k in s.sessions && (sid == "" || s.sessions[k].sid != sid) :: s.sessions[k]
  {
    if sid in s.refresh {
      assert s.Owns(s.refresh[sid], sid);
      RevokeRefinesRemove(s, s.refresh[sid]);
    }
  }

  /** After the listed keys are removed, the user's remaining sessions are those that were not listed. */
  lemma RevokeListedLeaves(s: Store, u: UserId, listed: set<CompoundKey>, sids: set<SessionId>)
    ensures s.RevokeListed(u, listed, sids).SessionsOf(u) == s.SessionsOf(u) - listed
    ensures s.RevokeListed(u, listed, sids).SessionsOf(u) == {} <==> s.SessionsOf(u) <= listed
  {
    var t := s.RevokeListed(u, listed, sids);
    assert t.SessionsOf(u) == s.SessionsOf(u) - listed;
    if t.SessionsOf(u) == {} {
      forall k | k in s.SessionsOf(u) ensures k in listed { assert k !in t.SessionsOf(u); }
    }
  }

  /**
   A survivor of that MULTI also drops out of its user's set, so every later revoke-all misses it
   as well: the structures stay linked exactly when nothing of the user survived.
   */
  lemma MissedSessionStaysMissed(s: Store, u: UserId, listed: set<CompoundKey>, sids: set<SessionId>)
    requires s.UsersLinked() && forall k :: k in listed && k in s.sessions ==> s.sessions[k].user == u
    ensures var t := s.RevokeListed(u, listed, sids);
            && t.SessionsOf(u) == s.SessionsOf(u) - listed
            && (t.UsersLinked() <==> s.SessionsOf(u) <= listed)
            && t.Listed(u) == {}
            && t.RevokeAll(u).SessionsOf(u) == s.SessionsOf(u) - listed
  {
    var t := s.RevokeListed(u, listed, sids);
    RevokeListedLeaves(s, u, listed, sids);
    assert t.Members(u) == {};
    if s.SessionsOf(u) <= listed {
      forall v ensures t.Members(v) == t.SessionsOf(v) {
        if v != u {
          assert t.Members(v) == s.Members(v) == s.SessionsOf(v);
          forall k | k in s.SessionsOf(v) ensures k !in listed {}
        }
      }
    } else {
      assert t.Members(u) != t.SessionsOf(u);
    }
    RevokeListedLeaves(t, u, t.Listed(u), t.SidsOf(t.Listed(u)));
  }

  /** With no call in between, `revokeAllForUser` removes exactly the user's sessions. */
  lemma RevokeAllRefinesFilter(s: Store, u: UserId)
    requires s.Indexed()
    ensures s.RevokeAll(u).Indexed()
    ensures s.RevokeAll(u).sessions == map k | k in s.sessions && s.sessions[k].user != u :: s.sessions[k]
    ensures s.RevokeAll(u).ById() == map sid | sid in s.ById() && s.ById()[sid].user != u :: s.ById()[sid]
    ensures s.RevokeAll(u).SessionsOf(u) == {}
  {
    RevokeAllUsers(s, u);
    RevokeAllRefresh(s, u);
  }

  lemma RevokeAllUsers(s: Store, u: UserId)
    requires s.UsersLinked()
    ensures s.Listed(u) == s.SessionsOf(u)
    ensures s.RevokeAll(u).UsersLinked()
    ensures s.RevokeAll(u).SessionsOf(u) == {}
  {
    var t := s.RevokeAll(u);
    assert s.Members(u) == s.SessionsOf(u);
    forall v ensures t.Members(v) == t.SessionsOf(v) {
      assert s.Members(v) == s.SessionsOf(v);
    }
  }

  lemma RevokeAllRefresh(s: Store, u: UserId)
    requires s.RefreshLinked() && s.Listed(u) == s.SessionsOf(u)
    ensures s.RevokeAll(u).RefreshLinked()
    ensures s.RevokeAll(u).ById() == map sid | sid in s.ById() && s.ById()[sid].user != u :: s.ById()[sid]
  {
    var t := s.RevokeAll(u);
    forall sid | sid in s.refresh
      ensures s.Owns(s.refresh[sid], sid)
      ensures sid in t.refresh <==> s.sessions[s.refresh[sid]].user != u
    {
      assert s.Owns(s.refresh[sid], sid);
      if s.sessions[s.refresh[sid]].user == u { assert s.refresh[sid] in s.Listed(u); }
    }
    forall k | k in t.sessions && t.sessions[k].sid != ""
      ensures t.sessions[k].sid in t.refresh && t.refresh[t.sessions[k].sid] == k
    {
      assert s.refresh[s.sessions[k].sid] == k;
    }
  }

  /** A rewrite patches exactly the user's live sessions, and moves no session between structures. */
  lemma RewritePatchesExactly(s: Store, u: UserId, patch: Patch)
    requires s.Indexed()
    ensures s.Rewrite(u, patch).Indexed()
    ensures s.Rewrite(u, patch).sessions
         == map k | k in s.sessions :: if s.sessions[k].user == u then Apply(s.sessions[k], patch) else s.sessions[k]
    ensures s.Rewrite(u, patch).ById()
         == map sid | sid in s.ById() :: if s.ById()[sid].user == u then Apply(s.ById()[sid], patch) else s.ById()[sid]
  {
    var t := s.Rewrite(u, patch);
    assert s.Members(u) == s.SessionsOf(u);
    SameShape(s, t);
  }

  /** What a patch makes of one session: the given fields and tier have the given values, all else stays. */
  ghost predicate Patched(before: Session, after: Session, patch: Patch) {
    && (forall f :: f in patch.fields ==> f in after.fields && after.fields[f] == patch.fields[f])
    && (forall f :: f !in patch.fields ==> (f in after.fields <==> f in before.fields))
    && (forall f :: f in before.fields && f !in patch.fields ==> f in after.fields && after.fields[f] == before.fields[f])
    && after.tier == (if patch.tier.Some? then patch.tier.value else before.tier)
    && after.user == before.user && after.sid == before.sid && after.unread == before.unread
  }

  /** Field by field, a rewrite gives each of the user's sessions the patched values, and changes no other session. */
  lemma RewriteSetsFields(s: Store, u: UserId, patch: Patch)
    requires s.Indexed()
    ensures var t := s.Rewrite(u, patch);
            && t.sessions.Keys == s.sessions.Keys && t.byUser == s.byUser && t.refresh == s.refresh
            && forall k :: k in s.sessions ==>
                 if s.sessions[k].user == u then Patched(s.sessions[k], t.sessions[k], patch) else t.sessions[k] == s.sessions[k]
  {
    RewritePatchesExactly(s, u, patch);
  }

  /** Field by field, a narrow update sets one session's values; a missing hash then has these fields and nothing else. */
  lemma UpdateSetsFields(s: Store, key: CompoundKey, patch: Patch)
    ensures var t := s.UpdateFields(key, patch);
            && key in t.sessions && t.byUser == s.byUser && t.refresh == s.refresh
            && Patched(if key in s.sessions then s.sessions[key] else Session("", "", FREE, 0, map[]), t.sessions[key], patch)
            && (forall k :: k != key ==> (k in t.sessions <==> k in s.sessions))
            && (forall k :: k in s.sessions && k != key ==> t.sessions[k] == s.sessions[k])
  {
  }

  /** Changing only what is stored inside the session hashes keeps the structures linked. */
  lemma SameShape(s: Store, t: Store)
    requires s.Indexed() && t.byUser == s.byUser && t.refresh == s.refresh && t.sessions.Keys == s.sessions.Keys
    requires forall k :: k in s.sessions ==> t.sessions[k].user == s.sessions[k].user && t.sessions[k].sid == s.sessions[k].sid
    ensures t.Indexed()
  {
    forall u ensures t.Members(u) == t.SessionsOf(u) {
      assert s.Members(u) == s.SessionsOf(u);
    }
    forall sid | sid in t.refresh ensures t.Owns(t.refresh[sid], sid) {
      assert s.Owns(s.refresh[sid], sid);
    }
    forall k | k in t.sessions && t.sessions[k].sid != ""
      ensures t.sessions[k].sid in t.refresh && t.refresh[t.sessions[k].sid] == k
    {
      assert s.refresh[s.sessions[k].sid] == k;
    }
  }

  /** A narrow update keeps the structures linked exactly when the session still exists. */
  lemma UpdateKeepsIndexed(s: Store, key: CompoundKey, patch: Patch)
    requires s.Indexed()
    ensures s.UpdateFields(key, patch).Indexed() <==> key in s.sessions
    ensures key in s.sessions ==> forall u :: s.UpdateFields(key, patch).SessionsOf(u) == s.SessionsOf(u)
  {
    var t := s.UpdateFields(key, patch);
    if key in s.sessions {
      SameShape(s, t);
      forall u ensures t.SessionsOf(u) == s.SessionsOf(u) {}
    } else {
      assert key !in s.SessionsOf("") && s.Members("") == s.SessionsOf("");
      assert t.Members("") == s.Members("") && key in t.SessionsOf("");
    }
  }

  /**
   What reading a key means in a linked store: a session is in its owner's set and is the one its
   id finds, and a key that reads as nothing is in no set and behind no id.
   */
  lemma ReadAgreesWithIndexes(s: Store, key: CompoundKey)
    requires s.Indexed()
    ensures key in s.sessions <==> exists u :: key in s.Members(u)
    ensures key in s.sessions ==>
              var session := s.sessions[key];
              && (forall u :: key in s.Members(u) <==> u == session.user)
              && (session.sid != "" ==> s.FindByRefresh(session.sid) == Some(session))
    ensures key !in s.sessions ==> key !in s.refresh.Values
  {
    if key in s.sessions {
      assert key in s.SessionsOf(s.sessions[key].user);
      assert key in s.Members(s.sessions[key].user);
    }
    forall u ensures key in s.Members(u) <==> key in s.sessions && u == s.sessions[key].user {
      assert s.Members(u) == s.SessionsOf(u);
    }
    forall sid | sid in s.refresh ensures s.refresh[sid] in s.sessions { assert s.Owns(s.refresh[sid], sid); }
  }

  /** Counting notifications touches no session's tier, id or owner. */
  lemma IncrUnreadKeepsIndexed(s: Store, u: UserId, delta: int)
    requires s.Indexed()
    ensures s.IncrUnread(u, delta).Indexed()
    ensures forall k :: k in s.sessions ==> s.IncrUnread(u, delta).sessions[k].tier == s.sessions[k].tier
    ensures forall k :: k in s.sessions && s.sessions[k].user == u ==>
              s.IncrUnread(u, delta).sessions[k].unread - s.sessions[k].unread == delta
    ensures forall k :: k in s.sessions && s.sessions[k].user != u ==> s.IncrUnread(u, delta).sessions[k] == s.sessions[k]
    ensures forall k :: k in s.sessions ==> s.IncrUnread(u, delta).sessions[k].fields == s.sessions[k].fields
  {
    SameShape(s, s.IncrUnread(u, delta));
    assert s.Members(u) == s.SessionsOf(u);
  }

  // ---------------------------------------------------------------- whole runs

  datatype Op =
    | OpWrite(key: CompoundKey, data: Session)
    | OpRevoke(key: CompoundKey)
    | OpRevokeByRefresh(sid: SessionId)
    | OpRevokeAll(user: UserId)
    | OpRewrite(user: UserId, patch: Patch)
    | OpIncrUnread(user: UserId, delta: int)
    | OpUpdateFields(key: CompoundKey, patch: Patch)

  function Step(s: Store, op: Op): Store {
    match op
    case OpWrite(key, data) => s.Write(key, data)
    case OpRevoke(key) => s.Revoke(key)
    case OpRevokeByRefresh(sid) => s.RevokeByRefresh(sid)
    case OpRevokeAll(u) => s.RevokeAll(u)
    case OpRewrite(u, patch) => s.Rewrite(u, patch)
    case OpIncrUnread(u, delta) => s.IncrUnread(u, delta)
    case OpUpdateFields(key, patch) => s.UpdateFields(key, patch)
  }

  function Run(s: Store, ops: seq<Op>): Store
    decreases |ops|
  {
    if |ops| == 0 then s else Run(Step(s, ops[0]), ops[1..])
  }

  /** A write finds what `CanWrite` asks for, and a narrow update finds its session. */
  predicate Allowed(s: Store, op: Op) {
    match op
    case OpWrite(key, data) => CanWrite(s, key, data)
    case OpUpdateFields(key, patch) => key in s.sessions
    case _ => true
  }

  predicate AllAllowed(s: Store, ops: seq<Op>)
    decreases |ops|
  {
    |ops| != 0 ==> Allowed(s, ops[0]) && AllAllowed(Step(s, ops[0]), ops[1..])
  }

  lemma StepKeepsIndexed(s: Store, op: Op)
    requires s.Indexed() && Allowed(s, op)
    ensures Step(s, op).Indexed()
  {
    match op
    case OpWrite(key, data) => WriteKeepsIndexed(s, key, data);
    case OpRevoke(key) => RevokeRefinesRemove(s, key);
    case OpRevokeByRefresh(sid) => RevokeByRefreshRefinesRemove(s, sid);
    case OpRevokeAll(u) => RevokeAllRefinesFilter(s, u);
    case OpRewrite(u, patch) => RewritePatchesExactly(s, u, patch);
    case OpIncrUnread(u, delta) => IncrUnreadKeepsIndexed(s, u, delta);
    case OpUpdateFields(key, patch) => UpdateKeepsIndexed(s, key, patch);
  }

  /**
   After every run from a linked store, such as the empty one: a user's set holds exactly the keys of that user's
   sessions, and refresh id sid leads to key k exactly when k's session has that id.
   */
  lemma {:induction false} EveryRunIsIndexed(s: Store, ops: seq<Op>)
    requires s.Indexed() && AllAllowed(s, ops)
    ensures Run(s, ops).Indexed()
    ensures forall u :: Run(s, ops).Members(u) == Run(s, ops).SessionsOf(u)
    ensures forall sid, k :: (sid in Run(s, ops).refresh && Run(s, ops).refresh[sid] == k)
                        <==> (sid != "" && k in Run(s, ops).sessions && Run(s, ops).sessions[k].sid == sid)
    decreases |ops|
  {
    if |ops| == 0 {
      forall sid, k ensures sid in s.refresh && s.refresh[sid] == k <==> sid != "" && k in s.sessions && s.sessions[k].sid == sid {
        if sid in s.refresh { assert s.Owns(s.refresh[sid], sid); }
      }
    } else {
      StepKeepsIndexed(s, ops[0]);
      EveryRunIsIndexed(Step(s, ops[0]), ops[1..]);
    }
  }

  lemma EmptyIsIndexed()
    ensures EMPTY.Indexed()
  {
    assert forall u :: EMPTY.Members(u) == {};
  }
}
