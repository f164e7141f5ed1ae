/**
 The session store with expiry. Every entry carries its deadline; `Tick` moves the clock and
 drops what is due, as Redis does. Forgetting the deadlines gives back `SessionStore.Store`.
 The wire-crypto keys, and writes to an expired hash, which would revive it without a deadline
 (`incrUnreadForUser`, a late `updateFields`), are not part of this layer.
 */
module TimedStore {
  import opened Tokens
  import opened SessionStore

  datatype Timed<+T> = Timed(item: T, deadline: int)

  datatype TStore = TStore(
    now: int,
    ttl: int,
    sessions: map<CompoundKey, Timed<Session>>,
    byUser: map<UserId, Timed<set<CompoundKey>>>,
    refresh: map<SessionId, Timed<CompoundKey>>)
  {
    function Members(u: UserId): set<CompoundKey> {
      if u in byUser then byUser[u].item else {}
    }

    /** HSET, EXPIRE, SADD, EXPIRE and SET EX in one MULTI: all three deadlines restart. */
    function Write(key: CompoundKey, data: Session): TStore {
      this.(
        sessions := sessions[key := Timed(data, now + ttl)],
        byUser := byUser[data.user := Timed(Members(data.user) + {key}, now + ttl)],
        refresh := if data.sid != "" then refresh[data.sid := Timed(key, now + ttl)] else refresh)
    }

    /** Slides the session and its refresh entry, not the user's set. */
    function ExtendTTL(key: CompoundKey): TStore {
      if key !in sessions then this
      else
        var s := sessions[key].item;
        this.(
          sessions := sessions[key := Timed(s, now + ttl)],
          refresh := if s.sid != "" && s.sid in refresh
                     then refresh[s.sid := Timed(refresh[s.sid].item, now + ttl)] else refresh)
    }

    function Revoke(key: CompoundKey): TStore {
      if key !in sessions then this
      else
        var s := sessions[key].item;
        this.(
          sessions := sessions - {key},
          byUser := if Members(s.user) - {key} == {} then byUser - {s.user}
                    else byUser[s.user := Timed(Members(s.user) - {key}, byUser[s.user].deadline)],
          refresh := if s.sid != "" then refresh - {s.sid} else refresh)
    }

    function Listed(u: UserId): set<CompoundKey> {
      set k | k in Members(u) && k in sessions
    }

    function RevokeAll(u: UserId): TStore {
      var sids := set k | k in Listed(u) && k in sessions :: sessions[k].item.sid;
      this.(sessions := sessions - Listed(u), byUser := byUser - {u}, refresh := refresh - (sids - {""}))
    }

    /** HSET of one live session keeps its deadline. */
    function UpdateFields(key: CompoundKey, patch: Patch): TStore
      requires key in sessions
    {
      this.(sessions := sessions[key := Timed(Apply(sessions[key].item, patch), sessions[key].deadline)])
    }

    /** HSET on existing keys keeps their deadlines. */
    function Rewrite(u: UserId, patch: Patch): TStore {
      this.(sessions := map k | k in sessions ::
        if k in Members(u) then Timed(Apply(sessions[k].item, patch), sessions[k].deadline) else sessions[k])
    }

    function Tick(seconds: nat): TStore {
      var t := now + seconds;
      this.(
        now := t,
        sessions := map k | k in sessions && t < sessions[k].deadline :: sessions[k],
        byUser := map u | u in byUser && t < byUser[u].deadline :: byUser[u],
        refresh := map sid | sid in refresh && t < refresh[sid].deadline :: refresh[sid])
    }

    /** The store without its deadlines. */
    function Erase(): Store {
      Store(
        map k | k in sessions :: sessions[k].item,
        map u | u in byUser :: byUser[u].item,
        map sid | sid in refresh :: refresh[sid].item)
    }

    /** A session and its refresh entry share one deadline, in both directions. */
    ghost predicate SharedDeadlines() {
      && (forall k :: k in sessions && sessions[k].item.sid != "" ==>
            sessions[k].item.sid in refresh && refresh[sessions[k].item.sid] == Timed(k, sessions[k].deadline))
      && (forall sid :: sid in refresh ==> Backs(refresh[sid], sid))
    }

    predicate Backs(entry: Timed<CompoundKey>, sid: SessionId) {
      && sid != "" && entry.item in sessions && sessions[entry.item].item.sid == sid
      && sessions[entry.item].deadline == entry.deadline
    }

    /** Every live session is in its owner's set, and that set lives at least as long. */
    ghost predicate Covered() {
      forall k :: k in sessions ==> CoveredKey(k)
    }

    predicate CoveredKey(k: CompoundKey)
      requires k in sessions
    {
      var u := sessions[k].item.user;
      u in byUser && k in byUser[u].item && sessions[k].deadline <= byUser[u].deadline
    }
  }

  datatype TimedOp =
    | TimedWrite(key: CompoundKey, data: Session)
    | TimedExtend(key: CompoundKey)
    | TimedRevoke(key: CompoundKey)
    | TimedRevokeAll(user: UserId)
    | TimedRewrite(user: UserId, patch: Patch)
    | TimedUpdate(key: CompoundKey, patch: Patch)
    | TimedTick(seconds: nat)

  /** A narrow update finds its session, as its caller has just validated it. */
  predicate FindsSession(s: TStore, op: TimedOp) {
    op.TimedUpdate? ==> op.key in s.sessions
  }

  function Step(s: TStore, op: TimedOp): TStore
    requires FindsSession(s, op)
  {
    match op
    case TimedWrite(key, data) => s.Write(key, data)
    case TimedExtend(key) => s.ExtendTTL(key)
    case TimedRevoke(key) => s.Revoke(key)
    case TimedRevokeAll(u) => s.RevokeAll(u)
    case TimedRewrite(u, patch) => s.Rewrite(u, patch)
    case TimedUpdate(key, patch) => s.UpdateFields(key, patch)
    case TimedTick(seconds) => s.Tick(seconds)
  }

  /** Logins use a compound key and a session id that no live session has. */
  predicate Fresh(s: TStore, op: TimedOp) {
    FindsSession(s, op) && (op.TimedWrite? ==> op.key !in s.sessions && op.data.sid !in s.refresh)
  }

  predicate FreshRun(s: TStore, ops: seq<TimedOp>)
    decreases |ops|
  {
    |ops| != 0 ==> Fresh(s, ops[0]) && FreshRun(Step(s, ops[0]), ops[1..])
  }

  function Run(s: TStore, ops: seq<TimedOp>): TStore
    requires FreshRun(s, ops)
    decreases |ops|
  {
    if |ops| == 0 then s else Run(Step(s, ops[0]), ops[1..])
  }

  const START := TStore(0, 900, map[], map[], map[])

  // ---------------------------------------------------------------- refinement

  /** The untimed call a timed call stands for; sliding a deadline is no call at all. */
  function Untimed(s: Store, op: TimedOp): Store
    requires !op.TimedTick?
  {
    match op
    case TimedWrite(key, data) => s.Write(key, data)
    case TimedExtend(key) => s
    case TimedRevoke(key) => s.Revoke(key)
    case TimedRevokeAll(u) => s.RevokeAll(u)
    case TimedRewrite(u, patch) => s.Rewrite(u, patch)
    case TimedUpdate(key, patch) => s.UpdateFields(key, patch)
  }

  /** Apart from the clock, each timed call is the untimed call on what the store holds. */
  lemma StepErases(s: TStore, op: TimedOp)
    requires !op.TimedTick? && FindsSession(s, op)
    ensures Step(s, op).Erase() == Untimed(s.Erase(), op)
  {
    EraseMembers(s);
    match op
    case TimedWrite(key, data) => WriteErases(s, key, data);
    case TimedExtend(key) => ExtendErases(s, key);
    case TimedRevoke(key) => RevokeErases(s, key);
    case TimedRevokeAll(u) => RevokeAllErases(s, u);
    case TimedRewrite(u, patch) =>
      assert s.Rewrite(u, patch).Erase().sessions == s.Erase().Rewrite(u, patch).sessions;
    case TimedUpdate(key, patch) =>
      assert s.UpdateFields(key, patch).Erase().sessions == s.Erase().UpdateFields(key, patch).sessions;
  }

  lemma EraseMembers(s: TStore)
    ensures forall u :: s.Erase().Members(u) == s.Members(u)
  {
  }

  lemma WriteErases(s: TStore, key: CompoundKey, data: Session)
    ensures s.Write(key, data).Erase() == s.Erase().Write(key, data)
  {
    var t, d := s.Write(key, data).Erase(), s.Erase().Write(key, data);
    assert t.sessions == d.sessions;
    assert s.Erase().Members(data.user) == s.Members(data.user);
    assert t.byUser == d.byUser;
    assert t.refresh == d.refresh;
  }

  lemma ExtendErases(s: TStore, key: CompoundKey)
    ensures s.ExtendTTL(key).Erase() == s.Erase()
  {
    var t := s.ExtendTTL(key).Erase();
    assert t.sessions == s.Erase().sessions;
    assert t.refresh == s.Erase().refresh;
  }

  lemma RevokeErases(s: TStore, key: CompoundKey)
    ensures s.Revoke(key).Erase() == s.Erase().Revoke(key)
  {
    var t, d := s.Revoke(key).Erase(), s.Erase().Revoke(key);
    if key in s.sessions {
      assert s.Erase().Members(s.sessions[key].item.user) == s.Members(s.sessions[key].item.user);
      assert t.sessions == d.sessions;
      assert t.byUser == d.byUser;
      assert t.refresh == d.refresh;
    }
  }

  lemma RevokeAllErases(s: TStore, u: UserId)
    ensures s.RevokeAll(u).Erase() == s.Erase().RevokeAll(u)
  {
    var e, t, d := s.Erase(), s.RevokeAll(u).Erase(), s.Erase().RevokeAll(u);
    assert e.Members(u) == s.Members(u);
    assert e.Listed(u) == s.Listed(u);
    assert e.SidsOf(s.Listed(u)) == set k | k in s.Listed(u) && k in s.sessions :: s.sessions[k].item.sid;
    assert t.sessions == d.sessions;
    assert t.byUser == d.byUser;
    assert t.refresh == d.refresh;
  }

  // ---------------------------------------------------------------- who moves which deadline

  /** Every entry that both stores hold has the same deadline in both. */
  ghost predicate SameDeadlines(s: TStore, t: TStore) {
    && (forall k :: k in s.sessions && k in t.sessions ==> t.sessions[k].deadline == s.sessions[k].deadline)
    && (forall u :: u in s.byUser && u in t.byUser ==> t.byUser[u].deadline == s.byUser[u].deadline)
    && (forall sid :: sid in s.refresh && sid in t.refresh ==> t.refresh[sid].deadline == s.refresh[sid].deadline)
  }

  /** Only writing and sliding move a deadline: whatever any other call leaves dies when it would have. */
  lemma OthersKeepDeadlines(s: TStore, op: TimedOp)
    requires FindsSession(s, op) && !op.TimedWrite? && !op.TimedExtend?
    ensures SameDeadlines(s, Step(s, op))
  {
  }

  /** A login lives a full lifetime from now in all three places; nothing else moves. */
  lemma WriteStartsLifetime(s: TStore, key: CompoundKey, data: Session)
    ensures var t := s.Write(key, data);
            && key in t.sessions && t.sessions[key] == Timed(data, s.now + s.ttl)
            && data.user in t.byUser && key in t.byUser[data.user].item && t.byUser[data.user].deadline == s.now + s.ttl
            && (data.sid != "" ==> data.sid in t.refresh && t.refresh[data.sid] == Timed(key, s.now + s.ttl))
            && (forall k :: k in s.sessions && k != key ==> k in t.sessions && t.sessions[k] == s.sessions[k])
            && (forall u :: u in s.byUser && u != data.user ==> u in t.byUser && t.byUser[u] == s.byUser[u])
            && (forall sid :: sid in s.refresh && sid != data.sid ==> sid in t.refresh && t.refresh[sid] == s.refresh[sid])
  {
  }

  /** A slide gives one session and its refresh entry a full lifetime from now; nothing else moves. */
  lemma ExtendRestartsLifetime(s: TStore, key: CompoundKey)
    requires key in s.sessions
    ensures var t, sid := s.ExtendTTL(key), s.sessions[key].item.sid;
            && t.sessions.Keys == s.sessions.Keys && t.byUser == s.byUser && t.refresh.Keys == s.refresh.Keys
            && t.sessions[key] == Timed(s.sessions[key].item, s.now + s.ttl)
            && (sid != "" && sid in s.refresh ==> t.refresh[sid] == Timed(s.refresh[sid].item, s.now + s.ttl))
            && (forall k :: k in s.sessions && k != key ==> t.sessions[k] == s.sessions[k])
            && (forall other :: other in s.refresh && other != sid ==> t.refresh[other] == s.refresh[other])
  {
  }

  // ---------------------------------------------------------------- one deadline per session

  lemma StepKeepsSharedDeadlines(s: TStore, op: TimedOp)
    requires s.SharedDeadlines() && Fresh(s, op)
    ensures Step(s, op).SharedDeadlines()
  {
    match op
    case TimedWrite(key, data) => WriteSharesDeadlines(s, key, data);
    case TimedExtend(key) => ExtendSharesDeadlines(s, key);
    case TimedRevoke(key) => RevokeThins(s, key);
    case TimedRevokeAll(u) => RevokeAllThins(s, u);
    case TimedRewrite(u, patch) =>
    case TimedUpdate(key, patch) =>
    case TimedTick(seconds) => TickThins(s, seconds);
    if !op.TimedWrite? && !op.TimedExtend? { ThinningSharesDeadlines(s, Step(s, op)); }
  }

  lemma WriteSharesDeadlines(s: TStore, key: CompoundKey, data: Session)
    requires s.SharedDeadlines() && key !in s.sessions && data.sid !in s.refresh
    ensures s.Write(key, data).SharedDeadlines()
  {
    var t := s.Write(key, data);
    forall sid | sid in t.refresh ensures t.Backs(t.refresh[sid], sid) {
      if sid in s.refresh { assert s.Backs(s.refresh[sid], sid); }
    }
  }

  lemma ExtendSharesDeadlines(s: TStore, key: CompoundKey)
    requires s.SharedDeadlines()
    ensures s.ExtendTTL(key).SharedDeadlines()
  {
    var t := s.ExtendTTL(key);
    assert key in s.sessions && s.sessions[key].item.sid != "" ==> s.refresh[s.sessions[key].item.sid].item == key;
    forall sid | sid in t.refresh ensures t.Backs(t.refresh[sid], sid) {
      assert s.Backs(s.refresh[sid], sid);
    }
  }

  /** `t` holds some of the sessions of `s` with their ids and deadlines, and for those their refresh entries. */
  ghost predicate Thins(s: TStore, t: TStore) {
    && (forall k :: k in t.sessions ==>
          k in s.sessions && t.sessions[k].item.sid == s.sessions[k].item.sid && t.sessions[k].deadline == s.sessions[k].deadline)
    && (forall sid :: sid in t.refresh ==> sid in s.refresh && t.refresh[sid] == s.refresh[sid])
    && (forall k :: k in s.sessions && s.sessions[k].item.sid != "" ==> (k in t.sessions <==> s.sessions[k].item.sid in t.refresh))
  }

  lemma ThinningSharesDeadlines(s: TStore, t: TStore)
    requires s.SharedDeadlines() && Thins(s, t)
    ensures t.SharedDeadlines()
  {
    forall sid | sid in t.refresh ensures t.Backs(t.refresh[sid], sid) {
      assert s.Backs(s.refresh[sid], sid);
    }
  }

  lemma RevokeThins(s: TStore, key: CompoundKey)
    requires s.SharedDeadlines()
    ensures Thins(s, s.Revoke(key))
  {
  }

  lemma RevokeAllThins(s: TStore, u: UserId)
    requires s.SharedDeadlines()
    ensures Thins(s, s.RevokeAll(u))
  {
    var t, sids := s.RevokeAll(u), set k | k in s.Listed(u) && k in s.sessions :: s.sessions[k].item.sid;
    assert t.refresh == s.refresh - (sids - {""});
    forall k | k in s.sessions && s.sessions[k].item.sid != "" ensures k in t.sessions <==> s.sessions[k].item.sid in t.refresh {
      if s.sessions[k].item.sid in sids {
        var other :| other in s.Listed(u) && s.sessions[other].item.sid == s.sessions[k].item.sid;
        assert other == s.refresh[s.sessions[k].item.sid].item == k;
      }
    }
  }

  lemma TickThins(s: TStore, seconds: nat)
    requires s.SharedDeadlines()
    ensures Thins(s, s.Tick(seconds))
  {
  }

  /**
   In every run, sliding or not, neither a session nor its refresh entry outlives the other: a
   session with an id is live exactly when that id's entry is, and then both have one deadline.
   */
  lemma {:induction false} EveryRunSharesDeadlines(s: TStore, ops: seq<TimedOp>)
    requires s.SharedDeadlines() && FreshRun(s, ops)
    ensures Run(s, ops).SharedDeadlines()
    decreases |ops|
  {
    if |ops| != 0 {
      StepKeepsSharedDeadlines(s, ops[0]);
      EveryRunSharesDeadlines(Step(s, ops[0]), ops[1..]);
    }
  }

  // ---------------------------------------------------------------- the user's set

  lemma StepKeepsCovered(s: TStore, op: TimedOp)
    requires s.Covered() && !op.TimedExtend? && Fresh(s, op) && s.ttl >= 0
    requires forall u :: u in s.byUser ==> s.byUser[u].deadline <= s.now + s.ttl
    ensures Step(s, op).Covered()
    ensures forall u :: u in Step(s, op).byUser ==> Step(s, op).byUser[u].deadline <= Step(s, op).now + s.ttl
  {
    var t := Step(s, op);
    forall k | k in t.sessions ensures t.CoveredKey(k) {
      if k in s.sessions { assert s.CoveredKey(k); }
    }
  }

  /** In every run without `extendTTL`, every live session is listed in its owner's set. */
  lemma {:induction false} EveryRunIsCovered(s: TStore, ops: seq<TimedOp>)
    requires s.Covered() && FreshRun(s, ops) && s.ttl >= 0
    requires forall u :: u in s.byUser ==> s.byUser[u].deadline <= s.now + s.ttl
    requires forall i :: 0 <= i < |ops| ==> !ops[i].TimedExtend?
    ensures forall k :: k in Run(s, ops).sessions ==> k in Run(s, ops).Members(Run(s, ops).sessions[k].item.user)
    decreases |ops|
  {
    if |ops| != 0 {
      StepKeepsCovered(s, ops[0]);
      EveryRunIsCovered(Step(s, ops[0]), ops[1..]);
    } else {
      forall k | k in s.sessions ensures k in s.Members(s.sessions[k].item.user) { assert s.CoveredKey(k); }
    }
  }

  ghost predicate AllListed(s: TStore) {
    forall k :: k in s.sessions ==> k in s.Members(s.sessions[k].item.user)
  }

  /** Redis keeps nothing that is due. */
  ghost predicate NothingDue(s: TStore) {
    && (forall k :: k in s.sessions ==> s.now < s.sessions[k].deadline)
    && (forall u :: u in s.byUser ==> s.now < s.byUser[u].deadline)
  }

  /**
   What coverage is worth: it holds exactly when, however long nothing but time happens, every
   session still live is still in its owner's set. A session that is not covered is sooner or
   later live and unlisted.
   */
  lemma CoveredMeansListedForGood(s: TStore)
    requires NothingDue(s)
    ensures s.Covered() <==> forall seconds: nat :: AllListed(s.Tick(seconds))
  {
    if s.Covered() {
      forall seconds: nat ensures AllListed(s.Tick(seconds)) {
        var t := s.Tick(seconds);
        forall k | k in t.sessions ensures k in t.Members(t.sessions[k].item.user) { assert s.CoveredKey(k); }
      }
    } else {
      var k :| k in s.sessions && !s.CoveredKey(k);
      var u := s.sessions[k].item.user;
      var seconds := if u in s.byUser && k in s.byUser[u].item then s.byUser[u].deadline - s.now else 0;
      assert k in s.Tick(seconds).sessions && k !in s.Tick(seconds).Members(u);
      assert !AllListed(s.Tick(seconds));
    }
  }

  /** `extendTTL` keeps the coverage exactly when the owner's set already lives as long as the new deadline. */
  lemma ExtendKeepsCovered(s: TStore, key: CompoundKey)
    requires s.Covered() && key in s.sessions
    ensures s.ExtendTTL(key).Covered() <==> s.now + s.ttl <= s.byUser[s.sessions[key].item.user].deadline
  {
    var t := s.ExtendTTL(key);
    assert s.CoveredKey(key);
    if s.now + s.ttl <= s.byUser[s.sessions[key].item.user].deadline {
      forall k | k in t.sessions ensures t.CoveredKey(k) { assert s.CoveredKey(k); }
    } else {
      assert !t.CoveredKey(key);
    }
  }

  /**
   Sliding can therefore lose a live session from the set: a session that is kept alive by one
   request after ten minutes is missed by `revokeAllForUser` six minutes later.
   */
  lemma SlidSessionSurvivesRevokeAll(key: CompoundKey, data: Session)
    requires data.sid != ""
    ensures var ops := [TimedWrite(key, data), TimedTick(600), TimedExtend(key), TimedTick(360), TimedRevokeAll(data.user)];
            && FreshRun(START, ops)
            && Run(START, ops).sessions.Keys == {key}
            && Run(START, ops).refresh.Keys == {data.sid}
  {
    var ops := [TimedWrite(key, data), TimedTick(600), TimedExtend(key), TimedTick(360), TimedRevokeAll(data.user)];
    var a, b, c, d := SlidStates(key, data);
    assert |ops[1..][1..][1..][1..][1..]| == 0;
    Unroll(d, ops[1..][1..][1..][1..]);
    Unroll(c, ops[1..][1..][1..]);
    Unroll(b, ops[1..][1..]);
    Unroll(a, ops[1..]);
    Unroll(START, ops);
  }

  /** The store of one session that was last slid at `slid`, with or without its owner's set. */
  function OneSession(key: CompoundKey, data: Session, now: int, slid: int, listed: bool): TStore {
    TStore(now, 900, map[key := Timed(data, slid + 900)], if listed then map[data.user := Timed({key}, 900)] else map[],
           map[data.sid := Timed(key, slid + 900)])
  }

  lemma SlidStates(key: CompoundKey, data: Session) returns (a: TStore, b: TStore, c: TStore, d: TStore)
    requires data.sid != ""
    ensures a == START.Write(key, data) && b == a.Tick(600) && c == b.ExtendTTL(key) && d == c.Tick(360)
    ensures d.RevokeAll(data.user) == d && d.sessions.Keys == {key} && d.refresh.Keys == {data.sid}
  {
    a, b := OneSession(key, data, 0, 0, true), OneSession(key, data, 600, 0, true);
    c, d := OneSession(key, data, 600, 600, true), OneSession(key, data, 960, 600, false);
    FirstWrite(key, data);
    TickKeepsAll(a, 600);
    SetExpires(key, data);
  }

  lemma FirstWrite(key: CompoundKey, data: Session)
    requires data.sid != ""
    ensures START.Write(key, data) == OneSession(key, data, 0, 0, true)
  {
    assert START.Members(data.user) + {key} == {key};
  }

  lemma SetExpires(key: CompoundKey, data: Session)
    ensures var d := OneSession(key, data, 960, 600, false);
            OneSession(key, data, 600, 600, true).Tick(360) == d && d.RevokeAll(data.user) == d
  {
    var c, d := OneSession(key, data, 600, 600, true), OneSession(key, data, 960, 600, false);
    assert c.Tick(360).sessions == d.sessions && c.Tick(360).byUser == d.byUser && c.Tick(360).refresh == d.refresh;
    assert d.Listed(data.user) == {};
  }

  lemma TickKeepsAll(s: TStore, seconds: nat)
    requires forall k :: k in s.sessions ==> s.now + seconds < s.sessions[k].deadline
    requires forall u :: u in s.byUser ==> s.now + seconds < s.byUser[u].deadline
    requires forall sid :: sid in s.refresh ==> s.now + seconds < s.refresh[sid].deadline
    ensures s.Tick(seconds) == s.(now := s.now + seconds)
  {
    var t := s.Tick(seconds);
    assert t.sessions == s.sessions && t.byUser == s.byUser && t.refresh == s.refresh;
  }

  lemma Unroll(s: TStore, ops: seq<TimedOp>)
    requires |ops| > 0 && Fresh(s, ops[0]) && FreshRun(Step(s, ops[0]), ops[1..])
    ensures FreshRun(s, ops) && Run(s, ops) == Run(Step(s, ops[0]), ops[1..])
  {
  }

  /** The timed service: the same structures with deadlines, updated in place. */
  class TimedTokenStore {
    const ttl: int
    var now: int
    var sessions: map<CompoundKey, Timed<Session>>
    var byUser: map<UserId, Timed<set<CompoundKey>>>
    var refresh: map<SessionId, Timed<CompoundKey>>

    function View(): TStore
      reads this
    {
      TStore(now, ttl, sessions, byUser, refresh)
    }

    constructor (ttl: int)
      ensures View() == TStore(0, ttl, map[], map[], map[])
    {
      this.ttl := ttl;
      now, sessions, byUser, refresh := 0, map[], map[], map[];
    }

    method Write(key: CompoundKey, data: Session)
      modifies this
      ensures View() == old(View()).Write(key, data)
    {
      sessions := sessions[key := Timed(data, now + ttl)];
      var members := if data.user in byUser then byUser[data.user].item else {};
      byUser := byUser[data.user := Timed(members + {key}, now + ttl)];
      if data.sid != "" {
        refresh := refresh[data.sid := Timed(key, now + ttl)];
      }
    }

    method ExtendTTL(key: CompoundKey)
      modifies this
      ensures View() == old(View()).ExtendTTL(key)
    {
      if key !in sessions { return; }
      var sid := sessions[key].item.sid;
      sessions := sessions[key := Timed(sessions[key].item, now + ttl)];
      if sid != "" && sid in refresh {
        refresh := refresh[sid := Timed(refresh[sid].item, now + ttl)];
      }
    }

    method Revoke(key: CompoundKey)
      modifies this
      ensures View() == old(View()).Revoke(key)
    {
      if key !in sessions { return; }
      var data := sessions[key].item;
      sessions := sessions - {key};
      if data.user in byUser {
        var rest := byUser[data.user].item - {key};
        if rest == {} {
          byUser := byUser - {data.user};
        } else {
          byUser := byUser[data.user := Timed(rest, byUser[data.user].deadline)];
        }
      } else {
        assert byUser == byUser - {data.user};
      }
      if data.sid != "" {
        refresh := refresh - {data.sid};
      }
    }
  }
}
