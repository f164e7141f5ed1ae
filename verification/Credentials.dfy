/**
 One user's password, failed-login counter, lock and single-use tokens
 (src/auth/auth-login.service.ts, src/auth/auth-registration.service.ts). Each database
 transaction is one step; reads made before a transaction are steps of their own.
 */
module Credentials {
  import opened Wrappers
  import opened Tokens
  import opened TokenStoreService

  /** An argon2 hash: salted, and verified against the password it was made from. */
  datatype PasswordHash = Argon(salt: nat, password: string)

  datatype TokenKind = EMAIL_VERIFICATION | PASSWORD_RESET | PASSWORD_CHANGE_UNDO

  datatype VerificationToken = VerificationToken(
    kind: TokenKind, consumed: bool, expiresAt: Seconds, previous: Option<PasswordHash>)

  datatype Audit =
    | LoginFailed(number: nat, locked: bool)
    | LoggedIn
    | OAuthLoggedIn
    | PasswordChanged

  const MAX_FAILED_LOGINS: nat := 5
  const LOCK_SECONDS: int := 900
  const EMAIL_TOKEN_TTL: int := 86400

  datatype Account = Account(
    hash: Option<PasswordHash>, failedLoginCount: nat, lockedUntil: Option<Seconds>,
    tokens: map<string, VerificationToken>, outbox: seq<Audit>)
  {
    /** `registerFailedLogin`: atomic increment, conditional lock and audit event together. */
    function FailLogin(now: Seconds): Account {
      var count := failedLoginCount + 1;
      this.(
        failedLoginCount := count,
        lockedUntil := if count >= MAX_FAILED_LOGINS then Some(now + LOCK_SECONDS) else lockedUntil,
        outbox := outbox + [LoginFailed(count, count >= MAX_FAILED_LOGINS)])
    }

    function Unlock(): Account {
      this.(failedLoginCount := 0, lockedUntil := None)
    }

    /** The reset both password login and second-factor login commit. */
    function CompleteLogin(): Account {
      Unlock().(outbox := outbox + [LoggedIn])
    }

    /** A social login is audited, but resets nothing. */
    function OAuthLogin(): Account {
      this.(outbox := outbox + [OAuthLoggedIn])
    }

    function SetPassword(h: PasswordHash): Account {
      Unlock().(hash := Some(h), outbox := outbox + [PasswordChanged])
    }

    /** The change transaction, which parks the hash read before it on the undo token. */
    function ChangePassword(before: PasswordHash, new_: PasswordHash, token: string, now: Seconds): Account {
      SetPassword(new_).(tokens := tokens[token :=
        VerificationToken(PASSWORD_CHANGE_UNDO, false, now + EMAIL_TOKEN_TTL, Some(before))])
    }

    function RequestReset(token: string, now: Seconds): Account {
      this.(tokens := tokens[token := VerificationToken(PASSWORD_RESET, false, now + EMAIL_TOKEN_TTL, None)])
    }

    predicate Redeemable(token: string, kind: TokenKind, now: Seconds) {
      token in tokens && tokens[token].kind == kind && !tokens[token].consumed && now <= tokens[token].expiresAt
    }

    predicate CanUndo(token: string, now: Seconds) {
      Redeemable(token, PASSWORD_CHANGE_UNDO, now) && tokens[token].previous.Some?
    }

    function Spend(token: string): Account
      requires token in tokens
    {
      this.(tokens := tokens[token := tokens[token].(consumed := true)])
    }
  }

  datatype AuthError = InvalidCredentials | AccountLocked | AccountInactive | InvalidToken | StoreFailed

  datatype LoginOutcome = SignedIn | MfaRequired

  class CredentialService {
    const userId: UserId
    const tokenStore: TokenStore
    var hash: Option<PasswordHash>
    var failedLoginCount: nat
    var lockedUntil: Option<Seconds>
    var tokens: map<string, VerificationToken>
    var outbox: seq<Audit>

    function View(): Account
      reads this
    {
      Account(hash, failedLoginCount, lockedUntil, tokens, outbox)
    }

    constructor (u: UserId, store: TokenStore, h: Option<PasswordHash>)
      ensures View() == Account(h, 0, None, map[], []) && userId == u && tokenStore == store
    {
      userId, tokenStore, hash := u, store, h;
      failedLoginCount, lockedUntil, tokens, outbox := 0, None, map[], [];
    }

    method RegisterFailedLogin(now: Seconds)
      modifies this
      ensures View() == old(View()).FailLogin(now)
      ensures failedLoginCount == old(failedLoginCount) + 1
      ensures lockedUntil == if failedLoginCount < 5 then old(lockedUntil) else Some(now + 15 * 60)
    {
      failedLoginCount := failedLoginCount + 1;
      var lock := failedLoginCount >= MAX_FAILED_LOGINS;
      if lock {
        lockedUntil := Some(now + LOCK_SECONDS);
      }
      outbox := outbox + [LoginFailed(failedLoginCount, lock)];
    }

    /** A locked account is refused before its password is looked at, and is not counted again. */
    method Login(password: string, active: bool, needsMfa: bool, now: Seconds) returns (r: Result<LoginOutcome, AuthError>)
      modifies this
      ensures var s := old(View());
              if s.hash.None? then r == Err(InvalidCredentials) && View() == s
              else if s.lockedUntil.Some? && s.lockedUntil.value > now then r == Err(AccountLocked) && View() == s
              else if s.hash.value.password != password then r == Err(InvalidCredentials) && View() == s.FailLogin(now)
              else if !active then r == Err(AccountInactive) && View() == s
              else if needsMfa then r == Ok(MfaRequired) && View() == s
              else r == Ok(SignedIn) && View() == s.CompleteLogin()
    {
      if hash.None? { return Err(InvalidCredentials); }
      if lockedUntil.Some? && lockedUntil.value > now { return Err(AccountLocked); }
      if hash.value.password != password {
        RegisterFailedLogin(now);
        return Err(InvalidCredentials);
      }
      if !active { return Err(AccountInactive); }
      if needsMfa { return Ok(MfaRequired); }
      failedLoginCount, lockedUntil := 0, None;
      outbox := outbox + [LoggedIn];
      r := Ok(SignedIn);
    }

    method ChangePassword(current: string, new_: PasswordHash, token: string, now: Seconds)
      returns (r: Result<(), AuthError>)
      requires token !in tokens
      modifies this
      ensures var s := old(View());
              if s.hash.Some? && s.hash.value.password == current
              then r == Ok(()) && View() == s.ChangePassword(s.hash.value, new_, token, now)
              else r == Err(InvalidCredentials) && View() == s
    {
      if hash.None? || hash.value.password != current { return Err(InvalidCredentials); }
      var previous := hash.value;
      hash, failedLoginCount, lockedUntil := Some(new_), 0, None;
      tokens := tokens[token := VerificationToken(PASSWORD_CHANGE_UNDO, false, now + EMAIL_TOKEN_TTL, Some(previous))];
      outbox := outbox + [PasswordChanged];
      r := Ok(());
    }

    /** A normal return means the user has no session left. */
    method UndoPasswordChange(token: string, now: Seconds, faults: seq<Fault>) returns (r: Result<(), AuthError>)
      requires |faults| == MAX_ATTEMPTS && tokenStore.View().Indexed()
      modifies this, tokenStore
      ensures var s := old(View());
              if s.CanUndo(token, now)
              then View() == s.Spend(token).SetPassword(s.tokens[token].previous.value) && (r.Ok? || r == Err(StoreFailed))
              else View() == s && r == Err(InvalidToken) && tokenStore.View() == old(tokenStore.View())
      ensures r.Ok? <==> old(View()).CanUndo(token, now) && Clean in faults
      ensures r.Ok? ==> tokenStore.View() == old(tokenStore.View()).RevokeAll(userId)
                        && tokenStore.View().SessionsOf(userId) == {}
    {
      if token !in tokens || tokens[token].kind != PASSWORD_CHANGE_UNDO || tokens[token].consumed
         || tokens[token].expiresAt < now || tokens[token].previous.None? {
        return Err(InvalidToken);
      }
      var restored := tokens[token].previous;
      tokens := tokens[token := tokens[token].(consumed := true)];
      hash, failedLoginCount, lockedUntil := restored, 0, None;
      outbox := outbox + [PasswordChanged];
      var revoked := tokenStore.RevokeAllForUser(userId, faults);
      r := if revoked.Ok? then Ok(()) else Err(StoreFailed);
    }

    method ResetPassword(token: string, new_: PasswordHash, now: Seconds, faults: seq<Fault>)
      returns (r: Result<(), AuthError>)
      requires |faults| == MAX_ATTEMPTS && tokenStore.View().Indexed()
      modifies this, tokenStore
      ensures var s := old(View());
              if s.Redeemable(token, PASSWORD_RESET, now)
              then View() == s.Spend(token).SetPassword(new_) && (r.Ok? || r == Err(StoreFailed))
              else View() == s && r == Err(InvalidToken) && tokenStore.View() == old(tokenStore.View())
      ensures r.Ok? <==> old(View()).Redeemable(token, PASSWORD_RESET, now) && Clean in faults
      ensures r.Ok? ==> tokenStore.View() == old(tokenStore.View()).RevokeAll(userId)
                        && tokenStore.View().SessionsOf(userId) == {}
    {
      if token !in tokens || tokens[token].kind != PASSWORD_RESET || tokens[token].consumed
         || tokens[token].expiresAt < now {
        return Err(InvalidToken);
      }
      tokens := tokens[token := tokens[token].(consumed := true)];
      hash, failedLoginCount, lockedUntil := Some(new_), 0, None;
      outbox := outbox + [PasswordChanged];
      var revoked := tokenStore.RevokeAllForUser(userId, faults);
      r := if revoked.Ok? then Ok(()) else Err(StoreFailed);
    }
  }

  // ---------------------------------------------------------------- runs of committed transactions

  /** `snapshots`: password hashes read by change requests that have not committed yet. */
  /**
   `redeeming`: tokens whose redemption has read them as valid and not committed yet; the read locks
   nothing. `redeemed`: the tokens that changed a password, in order.
   */
  datatype World = World(
    account: Account, snapshots: map<nat, PasswordHash>, lastFailure: Option<Seconds>,
    redeeming: map<nat, string>, redeemed: seq<string>)

  datatype Event =
    | Fail(now: Seconds)
    | Complete
    | OAuth
    | ReadForChange(request: nat)
    | Change(request: nat, new_: PasswordHash, token: string, at: Seconds)
    | AskReset(resetToken: string, askedAt: Seconds)
    | Reset(spentReset: string, reset: PasswordHash, resetAt: Seconds)
    | Undo(undo: string, undoneAt: Seconds)
    | ReadToken(reader: nat, read: string, readAt: Seconds)
    | CommitToken(committer: nat, newHash: PasswordHash)

  /** A reset or undo redemption finds the token valid. */
  predicate Passes(a: Account, token: string, now: Seconds) {
    a.Redeemable(token, PASSWORD_RESET, now) || a.CanUndo(token, now)
  }

  /** What its redemption writes: the new password for a reset, the parked one for an undo. */
  function NewHash(token: VerificationToken, h: PasswordHash): PasswordHash {
    if token.kind == PASSWORD_CHANGE_UNDO then token.previous.GetOr(h) else h
  }

  function Redeem(a: Account, token: string, h: PasswordHash): Account
    requires token in a.tokens
  {
    a.Spend(token).SetPassword(NewHash(a.tokens[token], h))
  }

  predicate Enabled(w: World, e: Event) {
    match e
    case ReadForChange(r) => r !in w.snapshots && w.account.hash.Some?
    case Change(r, new_, token, at) => r in w.snapshots && token !in w.account.tokens
    case AskReset(token, at) => token !in w.account.tokens
    case ReadToken(r, token, at) => r !in w.redeeming
    case CommitToken(r, h) => r in w.redeeming && w.redeeming[r] in w.account.tokens
    case _ => true
  }

  function Next(w: World, e: Event): World
    requires Enabled(w, e)
  {
    match e
    case Fail(now) => w.(account := w.account.FailLogin(now), lastFailure := Some(now))
    case Complete => w.(account := w.account.CompleteLogin())
    case OAuth => w.(account := w.account.OAuthLogin())
    case ReadForChange(r) => w.(snapshots := w.snapshots[r := w.account.hash.value])
    case Change(r, new_, token, at) =>
      w.(account := w.account.ChangePassword(w.snapshots[r], new_, token, at), snapshots := w.snapshots - {r})
    case AskReset(token, at) => w.(account := w.account.RequestReset(token, at))
    case Reset(token, h, at) =>
      if w.account.Redeemable(token, PASSWORD_RESET, at)
      then w.(account := w.account.Spend(token).SetPassword(h), redeemed := w.redeemed + [token]) else w
    case Undo(token, at) =>
      if w.account.CanUndo(token, at)
      then w.(account := w.account.Spend(token).SetPassword(w.account.tokens[token].previous.value),
              redeemed := w.redeemed + [token]) else w
    case ReadToken(r, token, at) =>
      if Passes(w.account, token, at) then w.(redeeming := w.redeeming[r := token]) else w
    case CommitToken(r, h) =>
      w.(account := Redeem(w.account, w.redeeming[r], h), redeeming := w.redeeming - {r},
         redeemed := w.redeemed + [w.redeeming[r]])
  }

  ghost predicate EnabledRun(w: World, events: seq<Event>)
    decreases |events|
  {
    |events| != 0 ==> Enabled(w, events[0]) && EnabledRun(Next(w, events[0]), events[1..])
  }

  ghost function Run(w: World, events: seq<Event>): World
    requires EnabledRun(w, events)
    decreases |events|
  {
    if |events| == 0 then w else Run(Next(w, events[0]), events[1..])
  }

  /** The failures an audit trail shows after its last reset. */
  function FailuresSinceReset(trail: seq<Audit>): nat {
    if trail == [] then 0
    else
      match trail[|trail| - 1]
      case LoginFailed(_, _) => FailuresSinceReset(trail[..|trail| - 1]) + 1
      case OAuthLoggedIn => FailuresSinceReset(trail[..|trail| - 1])
      case _ => 0
  }

  function CountFailures(trail: seq<Audit>): nat {
    if trail == [] then 0
    else CountFailures(trail[..|trail| - 1]) + if trail[|trail| - 1].LoginFailed? then 1 else 0
  }

  function FailEvents(events: seq<Event>): nat {
    if |events| == 0 then 0 else FailEvents(events[1..]) + if events[0].Fail? then 1 else 0
  }

  /** The counter is what the audit trail says, and five or more means locked for 15 minutes from the last failure. */
  predicate Inv(w: World) {
    var a := w.account;
    && a.failedLoginCount == FailuresSinceReset(a.outbox)
    && (a.failedLoginCount > 0 ==> w.lastFailure.Some?)
    && (a.failedLoginCount >= MAX_FAILED_LOGINS ==> a.lockedUntil == Some(w.lastFailure.value + LOCK_SECONDS))
  }

  lemma NextKeepsInv(w: World, e: Event)
    requires Inv(w) && Enabled(w, e)
    ensures Inv(Next(w, e))
    ensures CountFailures(Next(w, e).account.outbox) == CountFailures(w.account.outbox) + if e.Fail? then 1 else 0
  {
    var before, after := w.account.outbox, Next(w, e).account.outbox;
    if |after| > |before| { assert after[..|after| - 1] == before; }
  }

  /**
   In every interleaving of committed login and password transactions: the failure count is the
   number of failures since the last reset, five or more of them imply a lock, and the trail holds
   exactly one failure event per failure.
   */
  lemma {:induction false} FailuresAreNeverLost(w: World, events: seq<Event>)
    requires Inv(w) && EnabledRun(w, events)
    ensures Inv(Run(w, events))
    ensures CountFailures(Run(w, events).account.outbox) == CountFailures(w.account.outbox) + FailEvents(events)
    decreases |events|
  {
    if |events| != 0 {
      NextKeepsInv(w, events[0]);
      FailuresAreNeverLost(Next(w, events[0]), events[1..]);
    }
  }

  /** Locked exactly from the fifth failure on. */
  predicate LockMatches(a: Account) {
    a.lockedUntil.Some? <==> a.failedLoginCount >= 5
  }

  /** Each failure event carries its number since the last reset, and says it locked exactly from the fifth on. */
  predicate WellNumbered(trail: seq<Audit>) {
    forall i :: 0 <= i < |trail| && trail[i].LoginFailed? ==>
      trail[i].number == FailuresSinceReset(trail[..i + 1]) && (trail[i].locked <==> trail[i].number >= 5)
  }

  lemma NumberedSnoc(trail: seq<Audit>, x: Audit)
    requires WellNumbered(trail)
    requires x.LoginFailed? ==> x.number == FailuresSinceReset(trail) + 1 && (x.locked <==> x.number >= 5)
    ensures WellNumbered(trail + [x])
  {
    var after := trail + [x];
    forall i | 0 <= i < |after| && after[i].LoginFailed?
      ensures after[i].number == FailuresSinceReset(after[..i + 1]) && (after[i].locked <==> after[i].number >= 5)
    {
      if i < |trail| {
        assert after[..i + 1] == trail[..i + 1];
      } else {
        assert after[..i + 1] == after && after[..i] == trail;
      }
    }
  }

  /** Every committed transaction adds at most one audit event; a failure's carries the number after the counter's. */
  lemma NextAppends(w: World, e: Event) returns (x: Option<Audit>)
    requires Enabled(w, e)
    ensures Next(w, e).account.outbox == if x.Some? then w.account.outbox + [x.value] else w.account.outbox
    ensures x.Some? && x.value.LoginFailed? ==>
              x.value.number == w.account.failedLoginCount + 1 && (x.value.locked <==> x.value.number >= 5)
  {
    var before, after := w.account.outbox, Next(w, e).account.outbox;
    x := if |after| > |before| then Some(after[|before|]) else None;
  }

  lemma NextLocksExactly(w: World, e: Event)
    requires Inv(w) && Enabled(w, e) && LockMatches(w.account) && WellNumbered(w.account.outbox)
    ensures LockMatches(Next(w, e).account) && WellNumbered(Next(w, e).account.outbox)
  {
    var x := NextAppends(w, e);
    if x.Some? { NumberedSnoc(w.account.outbox, x.value); }
  }

  /**
   Over every run from an unlocked account, the account has a lock exactly when five or more
   failures stand since the last reset, and every failure event says which failure it was.
   */
  lemma {:induction false} LockedExactlyFromTheFifth(w: World, events: seq<Event>)
    requires Inv(w) && EnabledRun(w, events) && LockMatches(w.account) && WellNumbered(w.account.outbox)
    ensures var end := Run(w, events).account;
            && (end.lockedUntil.Some? <==> FailuresSinceReset(end.outbox) >= 5)
            && WellNumbered(end.outbox)
    decreases |events|
  {
    if |events| != 0 {
      NextKeepsInv(w, events[0]);
      NextLocksExactly(w, events[0]);
      LockedExactlyFromTheFifth(Next(w, events[0]), events[1..]);
    }
  }

  // ---------------------------------------------------------------- single-use tokens

  /** A reset or undo token works, as what it was issued for, through the second a day after its issue. */
  lemma TokensLastADay(a: Account, before: PasswordHash, new_: PasswordHash, token: string, at: Seconds, now: Seconds)
    ensures var changed := a.ChangePassword(before, new_, token, at);
            (changed.CanUndo(token, now) <==> now <= at + 24 * 60 * 60) && !changed.Redeemable(token, PASSWORD_RESET, now)
    ensures var asked := a.RequestReset(token, at);
            (asked.Redeemable(token, PASSWORD_RESET, now) <==> now <= at + 24 * 60 * 60) && !asked.CanUndo(token, now)
  {
  }

  /** A reset puts the new password in force, spends its token and lifts the lock. */
  lemma ResetSetsPassword(w: World, token: string, h: PasswordHash, at: Seconds)
    requires w.account.Redeemable(token, PASSWORD_RESET, at)
    ensures var a := Next(w, Reset(token, h, at)).account;
            && a.hash == Some(h) && a.failedLoginCount == 0 && a.lockedUntil.None?
            && token in a.tokens && a.tokens[token].consumed && a.tokens.Keys == w.account.tokens.Keys
  {
  }

  /** Tokens are never rewritten: only their consumed mark changes, and only from false to true. */
  lemma {:induction false} TokensOnlyGetSpent(w: World, events: seq<Event>, token: string)
    requires EnabledRun(w, events) && token in w.account.tokens
    ensures var end := Run(w, events).account;
            && token in end.tokens
            && end.tokens[token] == w.account.tokens[token].(consumed := end.tokens[token].consumed)
            && (w.account.tokens[token].consumed ==> end.tokens[token].consumed)
    decreases |events|
  {
    if |events| != 0 {
      TokensOnlyGetSpent(Next(w, events[0]), events[1..], token);
    }
  }

  /**
   Redeeming an undo token, whatever was committed since its change, restores the hash the change
   request had read. That is the hash in force just before the change exactly when the hash read
   was still in force then.
   */
  lemma UndoRestoresTheHashRead(w: World, request: nat, new_: PasswordHash, token: string, at: Seconds,
                                since: seq<Event>, now: Seconds)
    requires Enabled(w, Change(request, new_, token, at)) && w.account.hash.Some?
    requires EnabledRun(Next(w, Change(request, new_, token, at)), since)
    requires Run(Next(w, Change(request, new_, token, at)), since).account.CanUndo(token, now)
    ensures var m := Run(Next(w, Change(request, new_, token, at)), since);
            && Next(m, Undo(token, now)).account.hash == Some(w.snapshots[request])
            && (Next(m, Undo(token, now)).account.hash == w.account.hash <==> w.snapshots[request] == w.account.hash.value)
  {
    TokensOnlyGetSpent(Next(w, Change(request, new_, token, at)), since, token);
  }

  /** Reading and changing with nothing in between: undo restores exactly the hash before the change. */
  lemma AtomicChangeIsUndone(w: World, request: nat, new_: PasswordHash, token: string, at: Seconds,
                             since: seq<Event>, now: Seconds)
    requires Enabled(w, ReadForChange(request)) && token !in w.account.tokens
    requires var c := Next(Next(w, ReadForChange(request)), Change(request, new_, token, at));
             EnabledRun(c, since) && Run(c, since).account.CanUndo(token, now)
    ensures var c := Next(Next(w, ReadForChange(request)), Change(request, new_, token, at));
            Next(Run(c, since), Undo(token, now)).account.hash == w.account.hash
  {
    UndoRestoresTheHashRead(Next(w, ReadForChange(request)), request, new_, token, at, since, now);
  }

  /** The steps that write the password. */
  predicate WritesPassword(w: World, e: Event) {
    match e
    case Change(_, _, _, _) => true
    case Reset(token, h, at) => w.account.Redeemable(token, PASSWORD_RESET, at)
    case Undo(token, at) => w.account.CanUndo(token, at)
    case CommitToken(_, _) => true
    case _ => false
  }

  ghost predicate LeavesPassword(w: World, events: seq<Event>)
    requires EnabledRun(w, events)
    decreases |events|
  {
    |events| != 0 ==> !WritesPassword(w, events[0]) && LeavesPassword(Next(w, events[0]), events[1..])
  }

  lemma {:induction false} QuietRunKeepsHash(w: World, events: seq<Event>, request: nat)
    requires EnabledRun(w, events) && LeavesPassword(w, events) && request in w.snapshots
    ensures Run(w, events).account.hash == w.account.hash
    ensures request in Run(w, events).snapshots && Run(w, events).snapshots[request] == w.snapshots[request]
    decreases |events|
  {
    if |events| != 0 {
      QuietRunKeepsHash(Next(w, events[0]), events[1..], request);
    }
  }

  /**
   Whatever else is committed between a change's read and its transaction, such as failed and
   completed logins, reset requests or other reads: as long as none of it writes the password,
   undo restores exactly the hash the change replaced.
   */
  lemma UndoRestoresTheHashReplaced(w: World, request: nat, between: seq<Event>, new_: PasswordHash, token: string, at: Seconds,
                                    since: seq<Event>, now: Seconds)
    requires Enabled(w, ReadForChange(request))
    requires var r := Next(w, ReadForChange(request));
             && EnabledRun(r, between) && LeavesPassword(r, between)
             && var m := Run(r, between);
             && Enabled(m, Change(request, new_, token, at))
             && var c := Next(m, Change(request, new_, token, at));
             EnabledRun(c, since) && Run(c, since).account.CanUndo(token, now)
    ensures var m := Run(Next(w, ReadForChange(request)), between);
            var c := Next(m, Change(request, new_, token, at));
            Next(Run(c, since), Undo(token, now)).account.hash == m.account.hash == w.account.hash
  {
    var r := Next(w, ReadForChange(request));
    QuietRunKeepsHash(r, between, request);
    UndoRestoresTheHashRead(Run(r, between), request, new_, token, at, since, now);
  }

  /**
   The failing run: two changes that read the same hash. Undoing the second skips back over the
   first, to the hash both had read.
   */
  lemma OverlappingChangesUndoTooFar(w: World, a: nat, b: nat, x: PasswordHash, y: PasswordHash, s: string, t: string,
                                     at: Seconds, now: Seconds)
    requires a != b && s != t && Enabled(w, ReadForChange(a)) && Enabled(w, ReadForChange(b))
    requires s !in w.account.tokens && t !in w.account.tokens && now <= at + EMAIL_TOKEN_TTL
    ensures var both := Next(Next(w, ReadForChange(a)), ReadForChange(b));
            && Enabled(both, Change(a, x, s, at))
            && var first := Next(both, Change(a, x, s, at));
            && Enabled(first, Change(b, y, t, at))
            && var second := Next(first, Change(b, y, t, at));
            && first.account.hash == Some(x)
            && Next(second, Undo(t, now)).account.hash == w.account.hash
  {
  }

  /** Each token works at most once: after a redemption, no later redemption changes anything. */
  lemma TokensWorkOnce(w: World, token: string, now: Seconds, h: PasswordHash, since: seq<Event>, later: Seconds, h': PasswordHash)
    requires w.account.CanUndo(token, now) || w.account.Redeemable(token, PASSWORD_RESET, now)
    requires var e := if w.account.CanUndo(token, now) then Undo(token, now) else Reset(token, h, now);
             EnabledRun(Next(w, e), since)
    ensures var e := if w.account.CanUndo(token, now) then Undo(token, now) else Reset(token, h, now);
            var end := Run(Next(w, e), since);
            Next(end, Undo(token, later)) == end && Next(end, Reset(token, h', later)) == end
  {
    var e := if w.account.CanUndo(token, now) then Undo(token, now) else Reset(token, h, now);
    TokensOnlyGetSpent(Next(w, e), since, token);
  }

  // ---------------------------------------------------------------- overlapping redemptions

  /** The token an event finds valid, read or redeemed at once. */
  function PassedToken(w: World, e: Event): Option<string> {
    match e
    case Reset(token, h, at) => if w.account.Redeemable(token, PASSWORD_RESET, at) then Some(token) else None
    case Undo(token, at) => if w.account.CanUndo(token, at) then Some(token) else None
    case ReadToken(r, token, at) => if Passes(w.account, token, at) then Some(token) else None
    case _ => None
  }

  /** No token is found valid while another redemption of it is between its read and its commit. */
  predicate RedeemsAlone(w: World, e: Event) {
    PassedToken(w, e).Some? ==> forall r :: r in w.redeeming ==> w.redeeming[r] != PassedToken(w, e).value
  }

  ghost predicate NeverOverlaps(w: World, events: seq<Event>)
    requires EnabledRun(w, events)
    decreases |events|
  {
    |events| != 0 ==> RedeemsAlone(w, events[0]) && NeverOverlaps(Next(w, events[0]), events[1..])
  }

  ghost predicate Distinct(s: seq<string>) {
    forall i, j :: 0 <= i < j < |s| ==> s[i] != s[j]
  }

  predicate Consumed(w: World, token: string) {
    token in w.account.tokens && w.account.tokens[token].consumed
  }

  /** Every redeemed token is consumed, and no token is redeemed twice, or redeemed and still held, or held twice. */
  ghost predicate HeldOnce(w: World) {
    && Distinct(w.redeemed)
    && (forall i :: 0 <= i < |w.redeemed| ==> Consumed(w, w.redeemed[i]))
    && (forall r :: r in w.redeeming ==> w.redeeming[r] !in w.redeemed)
    && (forall r, q :: r in w.redeeming && q in w.redeeming && w.redeeming[r] == w.redeeming[q] ==> r == q)
  }

  lemma NextKeepsHeldOnce(w: World, e: Event)
    requires HeldOnce(w) && Enabled(w, e) && RedeemsAlone(w, e)
    ensures HeldOnce(Next(w, e))
  {
    var t := Next(w, e);
    forall i | 0 <= i < |t.redeemed| ensures Consumed(t, t.redeemed[i]) {
      if i < |w.redeemed| { assert Consumed(w, w.redeemed[i]); }
    }
    if PassedToken(w, e).Some? {
      assert !Consumed(w, PassedToken(w, e).value);
      assert PassedToken(w, e).value !in w.redeemed;
    }
  }

  /**
   Redemption reads the token and marks it consumed in two statements, and nothing ties the mark to
   the read. In every interleaving in which no token is found valid while another redemption of it
   is under way, each token changes a password at most once; other transactions overlap freely.
   */
  lemma {:induction false} EachTokenIsRedeemedOnce(w: World, events: seq<Event>)
    requires HeldOnce(w) && EnabledRun(w, events) && NeverOverlaps(w, events)
    ensures HeldOnce(Run(w, events)) && Distinct(Run(w, events).redeemed)
    decreases |events|
  {
    if |events| != 0 {
      NextKeepsHeldOnce(w, events[0]);
      EachTokenIsRedeemedOnce(Next(w, events[0]), events[1..]);
    }
  }

  /**
   The condition is exact: a second redemption that finds the token valid while the first is under
   way commits as well, whichever of the two commits first, and the last one's password stands.
   */
  lemma OverlappingRedemptionsBothWork(w: World, r: nat, q: nat, token: string, now: Seconds, h: PasswordHash, h': PasswordHash)
    requires r in w.redeeming && w.redeeming[r] == token && q !in w.redeeming && Passes(w.account, token, now)
    ensures !RedeemsAlone(w, ReadToken(q, token, now))
    ensures var both := Next(w, ReadToken(q, token, now));
            && Enabled(both, CommitToken(r, h)) && Enabled(both, CommitToken(q, h'))
            && var first, second := Next(both, CommitToken(r, h)), Next(both, CommitToken(q, h'));
            && Enabled(first, CommitToken(q, h')) && Enabled(second, CommitToken(r, h))
            && Next(first, CommitToken(q, h')).redeemed == w.redeemed + [token, token]
            && Next(second, CommitToken(r, h)).redeemed == w.redeemed + [token, token]
            && Next(first, CommitToken(q, h')).account.hash == Some(NewHash(w.account.tokens[token], h'))
  {
  }

  /** The same holds of a redemption that reads and commits at once while the first is under way. */
  lemma RedemptionInBetweenBothWork(w: World, r: nat, e: Event, h: PasswordHash)
    requires r in w.redeeming && (e.Reset? || e.Undo?) && PassedToken(w, e) == Some(w.redeeming[r])
    ensures !RedeemsAlone(w, e)
    ensures Enabled(Next(w, e), CommitToken(r, h))
    ensures Next(Next(w, e), CommitToken(r, h)).redeemed == w.redeemed + [w.redeeming[r], w.redeeming[r]]
  {
  }

  /** A redemption in one step is its read and its commit with nothing in between. */
  lemma RedemptionIsTwoSteps(w: World, r: nat, token: string, h: PasswordHash, now: Seconds)
    requires r !in w.redeeming && Passes(w.account, token, now)
    ensures var mid := Next(w, ReadToken(r, token, now));
            && Enabled(mid, CommitToken(r, h))
            && Next(mid, CommitToken(r, h))
               == Next(w, if w.account.CanUndo(token, now) then Undo(token, now) else Reset(token, h, now))
  {
    assert w.redeeming[r := token] - {r} == w.redeeming;
  }
}
