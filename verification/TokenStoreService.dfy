/** The service class of src/auth/token-store.service.ts, each method proved against `Store`. */
module TokenStoreService {
  import opened Wrappers
  import opened Tokens
  import opened SessionStore

  /** How one attempt to talk to Redis ends: it works, it is lost on the way out, or its reply is. */
  datatype Fault = Clean | LostBeforeExec | LostAfterExec

  datatype StoreError = StoreUnavailable

  const MAX_ATTEMPTS := 3

  /** All keys a scan returned. */
  function Scanned(pages: seq<seq<CompoundKey>>): set<CompoundKey> {
    set i, j | 0 <= i < |pages| && 0 <= j < |pages[i]| :: pages[i][j]
  }

  function Distinct(page: seq<CompoundKey>): set<CompoundKey> {
    set k | k in page
  }

  /** How often a scan returned a key that exists. */
  function CountIn(page: seq<CompoundKey>, keys: set<CompoundKey>): nat {
    if page == [] then 0 else CountIn(page[..|page| - 1], keys) + if page[|page| - 1] in keys then 1 else 0
  }

  function CountInAll(pages: seq<seq<CompoundKey>>, keys: set<CompoundKey>): nat {
    if pages == [] then 0 else CountInAll(pages[..|pages| - 1], keys) + CountIn(pages[|pages| - 1], keys)
  }

  lemma {:induction false} CountInCovers(page: seq<CompoundKey>, keys: set<CompoundKey>)
    ensures |(set k | k in page && k in keys)| <= CountIn(page, keys)
  {
    if page == [] {
      assert (set k | k in page && k in keys) == {};
    } else {
      var init, last := page[..|page| - 1], page[|page| - 1];
      CountInCovers(init, keys);
      assert page == init + [last];
      var extra := if last in keys then {last} else {};
      assert (set k | k in page && k in keys) == (set k | k in init && k in keys) + extra;
    }
  }

  /** A scan that repeats keys counts them again, so the count is at least the number of distinct keys. */
  lemma {:induction false} CountInAllCovers(pages: seq<seq<CompoundKey>>, keys: set<CompoundKey>)
    ensures |Scanned(pages) * keys| <= CountInAll(pages, keys)
  {
    if pages == [] {
      assert Scanned(pages) * keys == {};
    } else {
      var init, last := pages[..|pages| - 1], pages[|pages| - 1];
      CountInAllCovers(init, keys);
      CountInCovers(last, keys);
      ScannedSnoc(init, last);
      assert pages == init + [last];
      assert Scanned(pages) * keys == Scanned(init) * keys + (set k | k in last && k in keys);
    }
  }

  /** One page's count is the number of its positions that hold a live key. */
  lemma {:induction false} CountInIsExact(page: seq<CompoundKey>, keys: set<CompoundKey>)
    ensures CountIn(page, keys) == |(set i | 0 <= i < |page| && page[i] in keys)|
  {
    var positions := set i | 0 <= i < |page| && page[i] in keys;
    if page == [] {
      assert positions == {};
    } else {
      var n := |page| - 1;
      var init := page[..n];
      CountInIsExact(init, keys);
      var here := if page[n] in keys then {n} else {};
      assert positions == (set i | 0 <= i < |init| && init[i] in keys) + here;
    }
  }

  lemma ScannedSnoc(pages: seq<seq<CompoundKey>>, page: seq<CompoundKey>)
    ensures Scanned(pages + [page]) == Scanned(pages) + Distinct(page)
  {
    var all := pages + [page];
    forall k | k in Scanned(pages) ensures k in Scanned(all) {
      var i, j :| 0 <= i < |pages| && 0 <= j < |pages[i]| && pages[i][j] == k;
      assert all[i][j] == k;
    }
    forall k | k in page ensures k in Scanned(all) {
      var j :| 0 <= j < |page| && page[j] == k;
      assert all[|pages|][j] == k;
    }
  }

  /** Patching twice is patching once, so repeats in a scan do no harm. */
  lemma PatchKeysTwice(s: Store, a: set<CompoundKey>, b: set<CompoundKey>, patch: Patch)
    ensures s.PatchKeys(a, patch).PatchKeys(b, patch) == s.PatchKeys(a + b, patch)
  {
    forall x: Session ensures Apply(Apply(x, patch), patch) == Apply(x, patch) {
      assert x.fields + patch.fields + patch.fields == x.fields + patch.fields;
    }
  }

  /** Patching the live keys of the next page extends the patch, and the count, by that page. */
  lemma PageExtendsScan(s: Store, pages: seq<seq<CompoundKey>>, n: nat, alive: seq<CompoundKey>, patch: Patch)
    requires n < |pages| && forall k :: k in alive <==> k in pages[n] && k in s.sessions
    ensures s.PatchKeys(Scanned(pages[..n]), patch).PatchKeys(Distinct(alive), patch) == s.PatchKeys(Scanned(pages[..n + 1]), patch)
    ensures CountInAll(pages[..n + 1], s.sessions.Keys) == CountInAll(pages[..n], s.sessions.Keys) + CountIn(pages[n], s.sessions.Keys)
  {
    assert pages[..n + 1] == pages[..n] + [pages[n]];
    assert pages[..n + 1][..n] == pages[..n];
    ScannedSnoc(pages[..n], pages[n]);
    PatchKeysTwice(s, Scanned(pages[..n]), Distinct(alive), patch);
  }

  lemma ScanStarts(s: Store, pages: seq<seq<CompoundKey>>, patch: Patch)
    ensures s.PatchKeys(Scanned(pages[..0]), patch) == s && CountInAll(pages[..0], s.sessions.Keys) == 0
  {
    assert pages[..0] == [] && Scanned([]) == {};
    assert s.PatchKeys({}, patch) == s;
  }

  lemma ScanEnds(s: Store, pages: seq<seq<CompoundKey>>, u: UserId, patch: Patch)
    requires Scanned(pages) == s.Members(u)
    ensures s.PatchKeys(Scanned(pages), patch) == s.Rewrite(u, patch)
    ensures CountInAll(pages, s.sessions.Keys) >= |s.Listed(u)|
  {
    CountInAllCovers(pages, s.sessions.Keys);
    assert Scanned(pages) * s.sessions.Keys == s.Listed(u);
  }

  /** The user's session with a given id, when there is one, is the one its refresh entry names. */
  lemma FoundById(s: Store, u: UserId, sid: SessionId, key: CompoundKey)
    requires s.Indexed() && sid != "" && key in s.SessionsOf(u) && s.sessions[key].sid == sid
    ensures sid in s.ById() && s.ById()[sid].user == u && s.RevokeByRefresh(sid) == s.Revoke(key)
  {
    assert s.refresh[s.sessions[key].sid] == key;
  }

  lemma NotFoundById(s: Store, u: UserId, sid: SessionId)
    requires s.Indexed() && forall k :: k in s.SessionsOf(u) ==> sid == "" || s.sessions[k].sid != sid
    ensures !(sid in s.ById() && s.ById()[sid].user == u)
  {
    if sid in s.refresh {
      assert s.Owns(s.refresh[sid], sid);
    }
  }

  class TokenStore {
    var sessions: map<CompoundKey, Session>
    var byUser: map<UserId, set<CompoundKey>>
    var refresh: map<SessionId, CompoundKey>

    function View(): Store
      reads this
    {
      Store(sessions, byUser, refresh)
    }

    constructor ()
      ensures View() == EMPTY && View().Indexed()
    {
      sessions, byUser, refresh := map[], map[], map[];
      EmptyIsIndexed();
    }

    method Write(key: CompoundKey, data: Session)
      modifies this
      ensures View() == old(View()).Write(key, data)
    {
      sessions := sessions[key := data];
      var members := if data.user in byUser then byUser[data.user] else {};
      byUser := byUser[data.user := members + {key}];
      if data.sid != "" {
        refresh := refresh[data.sid := key];
      }
    }

    method Read(key: CompoundKey) returns (session: Option<Session>)
      ensures session.Some? <==> key in View().sessions
      ensures session.Some? ==> session.value == View().sessions[key]
    {
      session := if key in sessions then Some(sessions[key]) else None;
    }

    method UpdateFields(key: CompoundKey, patch: Patch)
      modifies this`sessions
      ensures View() == old(View()).UpdateFields(key, patch)
    {
      var hash := if key in sessions then sessions[key] else OWNERLESS;
      sessions := sessions[key := Apply(hash, patch)];
    }

    method SRem(u: UserId, key: CompoundKey)
      modifies this`byUser
      ensures byUser == old(View()).RemoveMember(u, key)
    {
      if u in byUser {
        var rest := byUser[u] - {key};
        if rest == {} {
          byUser := byUser - {u};
        } else {
          byUser := byUser[u := rest];
        }
      } else {
        assert byUser == byUser - {u};
      }
    }

    method Revoke(key: CompoundKey)
      modifies this
      ensures View() == old(View()).Revoke(key)
    {
      var data := Read(key);
      if data.None? { return; }
      SRem(data.value.user, key);
      sessions := sessions - {key};
      if data.value.sid != "" {
        refresh := refresh - {data.value.sid};
      }
    }

    method FindByRefreshSessionId(sid: SessionId) returns (session: Option<Session>)
      ensures session == View().FindByRefresh(sid)
    {
      if sid !in refresh { return None; }
      session := Read(refresh[sid]);
    }

    method RevokeByRefreshSessionId(sid: SessionId) returns (found: bool)
      modifies this
      ensures View() == old(View()).RevokeByRefresh(sid)
      ensures found == (sid in old(refresh))
    {
      if sid !in refresh { return false; }
      Revoke(refresh[sid]);
      found := true;
    }

    /** Every member whose hash still exists, once each, with that hash. */
    method ListSessionsWithKeys(u: UserId) returns (result: map<CompoundKey, Session>)
      ensures result.Keys == View().Listed(u)
      ensures forall k :: k in result ==> result[k] == sessions[k]
    {
      result := map[];
      var rest := if u in byUser then byUser[u] else {};
      var members := rest;
      while rest != {}
        invariant rest <= members
        invariant result.Keys == set k | k in members - rest && k in sessions
        invariant forall k :: k in result ==> result[k] == sessions[k]
        decreases rest
      {
        var key :| key in rest;
        var session := Read(key);
        if session.Some? {
          result := result[key := session.value];
        }
        rest := rest - {key};
      }
    }

    /** Revokes the user's session with the given id, if the user has one. */
    method RevokeSessionBySessionId(u: UserId, sid: SessionId) returns (revoked: bool)
      requires View().Indexed()
      modifies this
      ensures revoked <==> sid in old(View()).ById() && old(View()).ById()[sid].user == u
      ensures View() == if revoked then old(View()).RevokeByRefresh(sid) else old(View())
    {
      ghost var s := View();
      var rest := if u in byUser then byUser[u] else {};
      assert rest == s.SessionsOf(u) by { assert rest == s.Members(u); }
      while rest != {}
        invariant View() == s
        invariant rest <= s.SessionsOf(u)
        invariant forall k :: k in s.SessionsOf(u) - rest ==> sid == "" || sessions[k].sid != sid
        decreases rest
      {
        var key :| key in rest;
        var session := Read(key);
        if session.Some? && session.value.sid != "" && session.value.sid == sid {
          FoundById(s, u, sid, key);
          Revoke(key);
          return true;
        }
        rest := rest - {key};
      }
      NotFoundById(s, u, sid);
      revoked := false;
    }

    /** One attempt: list, queue the deletions, run them as one MULTI. */
    method RevokeAllForUserOnce(u: UserId, fault: Fault) returns (r: Result<nat, StoreError>)
      modifies this
      ensures View() == if fault.LostBeforeExec? then old(View()) else old(View()).RevokeAll(u)
      ensures r == if fault.Clean? then Ok(|old(View()).Listed(u)|) else Err(StoreUnavailable)
    {
      ghost var s := View();
      var listed := ListSessionsWithKeys(u);
      var refreshDels := IdsOf(listed);
      assert s.SidsOf(listed.Keys) == set k | k in listed :: listed[k].sid;
      if fault.LostBeforeExec? { return Err(StoreUnavailable); }
      sessions, refresh, byUser := sessions - listed.Keys, refresh - refreshDels, byUser - {u};
      assert View() == s.RevokeListed(u, listed.Keys, s.SidsOf(listed.Keys)) == s.RevokeAll(u);
      if fault.LostAfterExec? { return Err(StoreUnavailable); }
      assert |listed| == |listed.Keys|;
      r := Ok(|listed|);
    }

    /** The non-empty session ids of the listed sessions, whose refresh entries are deleted with them. */
    static method IdsOf(listed: map<CompoundKey, Session>) returns (sids: set<SessionId>)
      ensures sids == (set k | k in listed :: listed[k].sid) - {""}
    {
      sids := {};
      var rest := listed.Keys;
      while rest != {}
        invariant rest <= listed.Keys
        invariant sids == (set k | k in listed.Keys - rest :: listed[k].sid) - {""}
        decreases rest
      {
        var key :| key in rest;
        if listed[key].sid != "" {
          sids := sids + {listed[key].sid};
        }
        rest := rest - {key};
      }
      assert listed.Keys - rest == listed.Keys;
    }

    /**
     Up to three attempts. A normal return leaves the user without sessions; a thrown error
     means no attempt came back clean. The count is that of the last attempt, so it misses
     sessions an attempt removed before its reply was lost.
     */
    method RevokeAllForUser(u: UserId, faults: seq<Fault>) returns (r: Result<nat, StoreError>)
      requires |faults| == MAX_ATTEMPTS && View().Indexed()
      modifies this
      ensures r.Ok? <==> Clean in faults
      ensures View() == old(View()) || View() == old(View()).RevokeAll(u)
      ensures r.Ok? ==> View() == old(View()).RevokeAll(u) && View().SessionsOf(u) == {}
      ensures r.Err? ==> (View() == old(View()).RevokeAll(u) <==>
                            LostAfterExec in faults || old(View()) == old(View()).RevokeAll(u))
      ensures r == Ok(|old(View()).SessionsOf(u)|)
              <==> exists i :: 0 <= i < |faults| && faults[i] == Clean
                               && (old(View()).SessionsOf(u) == {} || LostAfterExec !in faults[..i])
    {
      ghost var s := View();
      RevokeAllRefinesFilter(s, u);
      RevokeAllTwice(s, u);
      RevokeAllUsers(s, u);
      var attempt := 0;
      while attempt < MAX_ATTEMPTS
        invariant 0 <= attempt <= MAX_ATTEMPTS
        invariant Clean !in faults[..attempt]
        invariant View() == if LostAfterExec in faults[..attempt] then s.RevokeAll(u) else s
      {
        assert faults[..attempt + 1] == faults[..attempt] + [faults[attempt]];
        r := RevokeAllForUserOnce(u, faults[attempt]);
        if r.Ok? {
          assert |s.SessionsOf(u)| == 0 <==> s.SessionsOf(u) == {};
          forall i | 0 <= i < attempt ensures faults[i] != Clean {
            assert faults[i] == faults[..attempt][i];
          }
          if LostAfterExec in faults[..attempt] {
            forall i | attempt <= i < |faults| ensures LostAfterExec in faults[..i] {
              assert faults[..attempt] <= faults[..i];
            }
          }
          return;
        }
        attempt := attempt + 1;
      }
      assert faults[..attempt] == faults;
      r := Err(StoreUnavailable);
    }

    /**
     Walks the scan page by page, skipping members that no longer exist. Any scan that returns
     every member at least once, in any order and with repeats, patches exactly those sessions.
     */
    method RewriteFieldsForUser(u: UserId, patch: Patch, pages: seq<seq<CompoundKey>>) returns (updated: nat)
      requires pages != [] && Scanned(pages) == View().Members(u)
      modifies this`sessions
      ensures View() == old(View()).Rewrite(u, patch)
      ensures updated == CountInAll(pages, old(sessions).Keys)
      ensures updated >= |old(View()).Listed(u)|
    {
      ghost var s := View();
      updated := 0;
      var cursor := 0;
      ScanStarts(s, pages, patch);
      while cursor < |pages|
        invariant 0 <= cursor <= |pages|
        invariant View() == s.PatchKeys(Scanned(pages[..cursor]), patch)
        invariant updated == CountInAll(pages[..cursor], s.sessions.Keys)
      {
        var page := pages[cursor];
        var alive := KeepExisting(page);
        HSetAll(alive, patch);
        updated := updated + |alive|;
        PageExtendsScan(s, pages, cursor, alive, patch);
        cursor := cursor + 1;
      }
      assert pages[..cursor] == pages;
      ScanEnds(s, pages, u, patch);
    }

    /** The members of a page that still exist, in page order. */
    method KeepExisting(page: seq<CompoundKey>) returns (alive: seq<CompoundKey>)
      ensures |alive| == CountIn(page, sessions.Keys)
      ensures forall k :: k in alive <==> k in page && k in sessions
    {
      alive := [];
      for i := 0 to |page|
        invariant |alive| == CountIn(page[..i], sessions.Keys)
        invariant forall k :: k in alive <==> k in page[..i] && k in sessions
      {
        assert page[..i + 1][..i] == page[..i];
        assert page[..i + 1] == page[..i] + [page[i]];
        if page[i] in sessions {
          alive := alive + [page[i]];
        }
      }
      assert page[..|page|] == page;
    }

    method HSetAll(keys: seq<CompoundKey>, patch: Patch)
      requires forall k :: k in keys ==> k in sessions
      modifies this`sessions
      ensures View() == old(View()).PatchKeys(Distinct(keys), patch)
    {
      ghost var s := View();
      assert s.PatchKeys({}, patch) == s;
      for i := 0 to |keys|
        invariant sessions.Keys == s.sessions.Keys
        invariant View() == s.PatchKeys(Distinct(keys[..i]), patch)
      {
        sessions := sessions[keys[i] := Apply(sessions[keys[i]], patch)];
        PatchKeysTwice(s, Distinct(keys[..i]), {keys[i]}, patch);
        assert Distinct(keys[..i + 1]) == Distinct(keys[..i]) + {keys[i]};
      }
      assert keys[..|keys|] == keys;
    }

    method IncrUnreadForUser(u: UserId, delta: int)
      requires View().Indexed()
      modifies this`sessions
      ensures View() == old(View()).IncrUnread(u, delta)
    {
      ghost var s := View();
      var rest := if u in byUser then byUser[u] else {};
      assert rest == s.SessionsOf(u) by { assert rest == s.Members(u); }
      while rest != {}
        invariant rest <= s.Members(u) && rest <= s.sessions.Keys
        invariant sessions == map k | k in s.sessions ::
          if k in s.Members(u) - rest then s.sessions[k].(unread := s.sessions[k].unread + delta) else s.sessions[k]
        decreases rest
      {
        var key :| key in rest;
        sessions := sessions[key := sessions[key].(unread := sessions[key].unread + delta)];
        rest := rest - {key};
      }
    }
  }

  /** Revoking all of a user's sessions twice is revoking them once. */
  lemma RevokeAllTwice(s: Store, u: UserId)
    requires s.Indexed()
    ensures s.RevokeAll(u).RevokeAll(u) == s.RevokeAll(u)
    ensures s.RevokeAll(u).Listed(u) == {}
  {
    var t := s.RevokeAll(u);
    assert t.Members(u) == {};
    assert t.SidsOf(t.Listed(u)) == {};
  }
}
