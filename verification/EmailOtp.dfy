/**
 Email one-time codes for one purpose and subject (src/auth/email-otp.service.ts over the OTP
 records of src/auth/token-store.service.ts): the stored code, its sibling wrong-guess counter,
 the resend cooldown, and the clock. A code is known by its hash.
 */
module EmailOtp {
  import opened Wrappers

  type Hash = string

  const MAX_OTP_ATTEMPTS: nat := 5
  const EMAIL_OTP_TTL: nat := 600
  const RESEND_COOLDOWN_SECONDS: nat := 60

  /** A stored value and the time at which Redis drops it. */
  datatype Expiring<+T> = Expiring(item: T, deadline: int)

  function Unexpired<T>(e: Option<Expiring<T>>, now: int): Option<Expiring<T>> {
    if e.Some? && e.value.deadline <= now then None else e
  }

  datatype Stored = Stored(codeHash: Hash, attempts: nat)

  datatype OtpStore = OtpStore(
    now: int, code: Option<Expiring<Hash>>, attempts: Option<Expiring<nat>>, cooldown: Option<Expiring<()>>)
  {
    function Count(): nat {
      if attempts.Some? then attempts.value.item else 0
    }

    function Peek(): Option<Stored> {
      if code.None? then None else Some(Stored(code.value.item, Count()))
    }

    /** SET EX and DEL of the counter in one MULTI. */
    function Write(hash: Hash): OtpStore {
      this.(code := Some(Expiring(hash, now + EMAIL_OTP_TTL)), attempts := None)
    }

    /** INCR and EXPIRE of the counter in one MULTI; the code's own deadline stands. */
    function Increment(): OtpStore {
      this.(attempts := Some(Expiring(Count() + 1, now + EMAIL_OTP_TTL)))
    }

    /** DEL of both keys, or GETDEL of both when a code is consumed. */
    function Delete(): OtpStore {
      this.(code := None, attempts := None)
    }

    function SetCooldown(): OtpStore {
      this.(cooldown := Some(Expiring((), now + RESEND_COOLDOWN_SECONDS)))
    }

    function Tick(seconds: nat): OtpStore {
      OtpStore(now + seconds, Unexpired(code, now + seconds), Unexpired(attempts, now + seconds),
               Unexpired(cooldown, now + seconds))
    }
  }

  datatype OtpError = Expired | MaxAttempts | Invalid(remaining: int) | Cooldown(remaining: int)

  // ---------------------------------------------------------------- the service, one call at a time

  class EmailOtpService {
    var now: int
    var code: Option<Expiring<Hash>>
    var attempts: Option<Expiring<nat>>
    var cooldown: Option<Expiring<()>>

    function View(): OtpStore
      reads this
    {
      OtpStore(now, code, attempts, cooldown)
    }

    constructor (now: int)
      ensures View() == OtpStore(now, None, None, None)
    {
      this.now, code, attempts, cooldown := now, None, None, None;
    }

    method IncrementOtpAttempts() returns (count: nat)
      modifies this`attempts
      ensures View() == old(View()).Increment() && count == old(View()).Count() + 1
    {
      count := if attempts.Some? then attempts.value.item + 1 else 1;
      attempts := Some(Expiring(count, now + EMAIL_OTP_TTL));
    }

    method DeleteEmailOtp()
      modifies this`code, this`attempts
      ensures View() == old(View()).Delete()
    {
      code, attempts := None, None;
    }

    method Generate(hash: Hash) returns (r: Result<(), OtpError>)
      modifies this
      ensures var s := old(View());
              if s.cooldown.Some? && s.cooldown.value.deadline > s.now
              then View() == s && r == Err(Cooldown(s.cooldown.value.deadline - s.now))
              else View() == s.Write(hash).SetCooldown() && r == Ok(())
    {
      if cooldown.Some? && cooldown.value.deadline - now > 0 {
        return Err(Cooldown(cooldown.value.deadline - now));
      }
      code, attempts := Some(Expiring(hash, now + EMAIL_OTP_TTL)), None;
      cooldown := Some(Expiring((), now + RESEND_COOLDOWN_SECONDS));
      r := Ok(());
    }

    /** Uninterrupted, a verification is the steps a guess takes in the machine below. */
    method Verify(hash: Hash) returns (r: Result<(), OtpError>)
      modifies this
      ensures var s := old(View());
              var (end, outcome) := Alone(s, hash);
              View() == end && r == outcome
    {
      AloneByCases(View(), hash);
      if code.None? { return Err(Expired); }
      var stored := Stored(code.value.item, if attempts.Some? then attempts.value.item else 0);
      if stored.attempts >= MAX_OTP_ATTEMPTS {
        DeleteEmailOtp();
        return Err(MaxAttempts);
      }
      if stored.codeHash != hash {
        var count := IncrementOtpAttempts();
        if count >= MAX_OTP_ATTEMPTS {
          DeleteEmailOtp();
          return Err(MaxAttempts);
        }
        return Err(Invalid(MAX_OTP_ATTEMPTS - count));
      }
      DeleteEmailOtp();
      r := Ok(());
    }

    method Resend(hash: Hash) returns (r: Result<(), OtpError>)
      modifies this
      ensures var s := old(View());
              if s.cooldown.Some? && s.cooldown.value.deadline > s.now
              then View() == s && r == Err(Cooldown(s.cooldown.value.deadline - s.now))
              else r == Ok(()) && View() == s.Write(hash).SetCooldown()
    {
      if cooldown.Some? && cooldown.value.deadline - now > 0 {
        return Err(Cooldown(cooldown.value.deadline - now));
      }
      if code.Some? {
        DeleteEmailOtp();
      }
      r := Generate(hash);
    }
  }

  // ---------------------------------------------------------------- interleaved guesses

  datatype Phase =
    | HalfPeeked(hash: Hash, raw: Option<Hash>)
    | Burning
    | Missed
    | Matched
    | Done(result: Result<(), OtpError>)

  /** `counted`: wrong guesses counted for the code in force, since that code was written. */
  datatype World = World(store: OtpStore, counted: nat, guesses: map<nat, Phase>)

  /**
   A peek is two GETs, of the code and of its counter. `Peek` takes them as one store call;
   `PeekCode` and `PeekCount` take them one by one, so that anything can run in between.
   */
  datatype Event =
    | Peek(guess: nat, hash: Hash)
    | PeekCode(guess: nat, hash: Hash)
    | PeekCount(guess: nat)
    | Burn(guess: nat)
    | CountMiss(guess: nat)
    | Consume(guess: nat)
    | WriteCode(hash: Hash)
    | DeleteCode
    | Tick(seconds: nat)

  predicate Enabled(w: World, e: Event) {
    match e
    case Peek(g, hash) => g !in w.guesses
    case PeekCode(g, hash) => g !in w.guesses
    case PeekCount(g) => g in w.guesses && w.guesses[g].HalfPeeked?
    case Burn(g) => g in w.guesses && w.guesses[g] == Burning
    case CountMiss(g) => g in w.guesses && w.guesses[g] == Missed
    case Consume(g) => g in w.guesses && w.guesses[g] == Matched
    case WriteCode(hash) => true
    case DeleteCode => true
    case Tick(seconds) => true
  }

  /** What a guess does next, from what its peek saw. */
  function AfterPeek(stored: Option<Stored>, hash: Hash): Phase {
    if stored.None? then Done(Err(Expired))
    else if stored.value.attempts >= MAX_OTP_ATTEMPTS then Burning
    else if stored.value.codeHash != hash then Missed
    else Matched
  }

  function AfterCount(count: nat): Phase {
    if count >= MAX_OTP_ATTEMPTS then Burning else Done(Err(Invalid(MAX_OTP_ATTEMPTS - count)))
  }

  /** What the two reads amount to. */
  function ParseStored(raw: Option<Hash>, count: nat): Option<Stored> {
    if raw.None? then None else Some(Stored(raw.value, count))
  }

  function Next(w: World, e: Event): World
    requires Enabled(w, e)
  {
    match e
    case Peek(g, hash) => w.(guesses := w.guesses[g := AfterPeek(w.store.Peek(), hash)])
    case PeekCode(g, hash) =>
      w.(guesses := w.guesses[g := HalfPeeked(hash, if w.store.code.Some? then Some(w.store.code.value.item) else None)])
    case PeekCount(g) =>
      var half := w.guesses[g];
      w.(guesses := w.guesses[g := AfterPeek(ParseStored(half.raw, w.store.Count()), half.hash)])
    case Burn(g) => w.(store := w.store.Delete(), guesses := w.guesses[g := Done(Err(MaxAttempts))])
    case CountMiss(g) =>
      w.(store := w.store.Increment(), counted := w.counted + 1,
         guesses := w.guesses[g := AfterCount(w.store.Increment().Count())])
    case Consume(g) => w.(store := w.store.Delete(), guesses := w.guesses[g := Done(Ok(()))])
    case WriteCode(hash) => w.(store := w.store.Write(hash), counted := 0)
    case DeleteCode => w.(store := w.store.Delete())
    case Tick(seconds) => w.(store := w.store.Tick(seconds))
  }

  ghost predicate EnabledRun(w: World, events: seq<Event>)
    decreases |events|
  {
    |events| != 0 ==> Enabled(w, events[0]) && EnabledRun(Next(w, events[0]), events[1..])
  }

  ghost function Run(w: World, events: seq<Event>): World
    requires EnabledRun(w, events)
    decreases |events|
  {
    if |events| == 0 then w else Run(Next(w, events[0]), events[1..])
  }

  /** One guess with nothing in between: its remaining steps, from each phase. */
  function Finish(w: World, g: nat): (OtpStore, Result<(), OtpError>)
    requires g in w.guesses
    decreases match w.guesses[g] case HalfPeeked(_, _) => 3 case Missed => 2 case Burning => 1 case Matched => 1 case Done(_) => 0
  {
    match w.guesses[g]
    case Done(r) => (w.store, r)
    case HalfPeeked(_, _) => Finish(Next(w, PeekCount(g)), g)
    case Burning => Finish(Next(w, Burn(g)), g)
    case Matched => Finish(Next(w, Consume(g)), g)
    case Missed => Finish(Next(w, CountMiss(g)), g)
  }

  function Alone(s: OtpStore, hash: Hash): (OtpStore, Result<(), OtpError>) {
    Finish(Next(World(s, 0, map[]), Peek(0, hash)), 0)
  }

  /** The outcome of an uninterrupted guess: the fifth counted miss burns the code on the spot. */
  lemma AloneByCases(s: OtpStore, hash: Hash)
    ensures Alone(s, hash) ==
            if s.code.None? then (s, Err(Expired))
            else if s.Count() >= MAX_OTP_ATTEMPTS then (s.Delete(), Err(MaxAttempts))
            else if s.code.value.item == hash then (s.Delete(), Ok(()))
            else if s.Count() + 1 >= MAX_OTP_ATTEMPTS then (s.Delete(), Err(MaxAttempts))
            else (s.Increment(), Err(Invalid(MAX_OTP_ATTEMPTS - (s.Count() + 1))))
  {
    var w := Next(World(s, 0, map[]), Peek(0, hash));
    if w.guesses[0] == Missed {
      var w1 := Next(w, CountMiss(0));
      assert Finish(w, 0) == Finish(w1, 0);
      if w1.guesses[0] == Burning {
        var w2 := Next(w1, Burn(0));
        assert Finish(w1, 0) == Finish(w2, 0) == (w2.store, Err(MaxAttempts));
      } else {
        assert Finish(w1, 0) == (w1.store, w1.guesses[0].result);
      }
    } else if w.guesses[0] == Burning {
      assert Finish(w, 0) == Finish(Next(w, Burn(0)), 0);
    } else if w.guesses[0] == Matched {
      assert Finish(w, 0) == Finish(Next(w, Consume(0)), 0);
    }
  }

  /** While a code is stored, its counter says how many wrong guesses it has seen, and outlives it. */
  predicate Inv(w: World) {
    w.store.code.Some? ==>
      && w.store.Count() == w.counted
      && (w.store.attempts.Some? ==> w.store.attempts.value.deadline >= w.store.code.value.deadline)
      && w.store.code.value.deadline <= w.store.now + EMAIL_OTP_TTL
  }

  lemma NextKeepsInv(w: World, e: Event)
    requires Inv(w) && Enabled(w, e)
    ensures Inv(Next(w, e))
  {
  }

  /** In every run the counter never expires before the code it counts. */
  lemma {:induction false} CounterOutlivesCode(w: World, events: seq<Event>)
    requires Inv(w) && EnabledRun(w, events)
    ensures var s := Run(w, events).store;
            s.code.Some? && s.attempts.Some? ==> s.attempts.value.deadline >= s.code.value.deadline
    ensures Inv(Run(w, events))
    decreases |events|
  {
    if |events| != 0 {
      NextKeepsInv(w, events[0]);
      CounterOutlivesCode(Next(w, events[0]), events[1..]);
    }
  }

  /** A guess on its way to be refused stays so: nothing another guess does can make it match. */
  predicate Refused(p: Phase) {
    p == Burning || (p.Done? && p.result.Err?)
  }

  lemma {:induction false} RefusedStaysRefused(w: World, events: seq<Event>, g: nat)
    requires EnabledRun(w, events) && g in w.guesses && Refused(w.guesses[g])
    ensures g in Run(w, events).guesses && Refused(Run(w, events).guesses[g])
    decreases |events|
  {
    if |events| != 0 {
      RefusedStaysRefused(Next(w, events[0]), events[1..], g);
    }
  }

  /**
   In every interleaving, a guess whose peek follows the fifth wrong guess counted for the code
   in force never succeeds, whatever runs before, between and after.
   */
  lemma LateGuessNeverSucceeds(w: World, before: seq<Event>, g: nat, hash: Hash, after: seq<Event>)
    requires Inv(w) && EnabledRun(w, before)
    requires var m := Run(w, before);
             m.counted >= MAX_OTP_ATTEMPTS && Enabled(m, Peek(g, hash)) && EnabledRun(Next(m, Peek(g, hash)), after)
    ensures var end := Run(Next(Run(w, before), Peek(g, hash)), after);
            g in end.guesses && end.guesses[g] != Done(Ok(()))
  {
    CounterOutlivesCode(w, before);
    RefusedStaysRefused(Next(Run(w, before), Peek(g, hash)), after, g);
  }

  /** Conversely, a peek before the fifth counted miss lets the right code through. */
  lemma EarlyGuessCanSucceed(w: World, g: nat)
    requires Inv(w) && w.store.code.Some? && g !in w.guesses
    ensures Next(w, Peek(g, w.store.code.value.item)).guesses[g] == Matched <==> w.counted < MAX_OTP_ATTEMPTS
  {
  }

  // ---------------------------------------------------------------- how long things last

  /** A code can be peeked at for ten minutes, with no misses to begin with, and not a second longer. */
  lemma CodeLastsTenMinutes(s: OtpStore, hash: Hash, seconds: nat)
    ensures s.Write(hash).Tick(seconds).Peek() == if seconds < 600 then Some(Stored(hash, 0)) else None
  {
  }

  /**
   After a code is generated, the next one is refused for sixty seconds with the remaining time, and
   given from then on.
   */
  lemma NextCodeTakesAMinute(s: OtpStore, hash: Hash, seconds: nat)
    ensures var t := s.Write(hash).SetCooldown().Tick(seconds);
            && (t.cooldown.Some? && t.cooldown.value.deadline > t.now <==> seconds < 60)
            && (seconds < 60 ==> t.cooldown.value.deadline - t.now == 60 - seconds)
            && (seconds < 60 ==> t.Peek() == Some(Stored(hash, 0)))
  {
  }

  // ---------------------------------------------------------------- a peek in two reads

  /** A step that leaves no counter where there was one. */
  predicate RemovesCounter(w: World, e: Event)
    requires Enabled(w, e)
  {
    w.store.attempts.Some? && Next(w, e).store.attempts.None?
  }

  /** Such a step writes or deletes a code, burns or consumes one, or lets the counter's time run out. */
  lemma WhatRemovesCounter(w: World, e: Event)
    requires Enabled(w, e)
    ensures RemovesCounter(w, e) <==>
              w.store.attempts.Some?
              && (e.WriteCode? || e.DeleteCode? || e.Burn? || e.Consume?
                  || (e.Tick? && w.store.attempts.value.deadline <= w.store.now + e.seconds))
  {
  }

  /** The misses counted since the counter was last removed, or nothing when it never was. */
  ghost function MissesSinceRemoval(w: World, events: seq<Event>): Option<nat>
    requires EnabledRun(w, events)
    decreases |events|
  {
    if |events| == 0 then None
    else
      var rest := MissesSinceRemoval(Next(w, events[0]), events[1..]);
      if rest.Some? then rest
      else if RemovesCounter(w, events[0]) then Some(Misses(events[1..]))
      else None
  }

  function Misses(events: seq<Event>): nat {
    if |events| == 0 then 0 else Misses(events[1..]) + if events[0].CountMiss? then 1 else 0
  }

  /** From a counter of `c`, a run leaves `c` plus its misses, or the misses since the last removal. */
  lemma {:induction false} CountAfterRun(w: World, events: seq<Event>)
    requires EnabledRun(w, events)
    ensures Run(w, events).store.Count() == MissesSinceRemoval(w, events).GetOr(w.store.Count() + Misses(events))
    decreases |events|
  {
    if |events| != 0 {
      CountAfterRun(Next(w, events[0]), events[1..]);
    }
  }

  lemma {:induction false} HalfPeekWaits(w: World, events: seq<Event>, g: nat)
    requires EnabledRun(w, events) && g in w.guesses && w.guesses[g].HalfPeeked? && PeekCount(g) !in events
    ensures g in Run(w, events).guesses && Run(w, events).guesses[g] == w.guesses[g]
    decreases |events|
  {
    if |events| != 0 {
      assert events[0] in events;
      HalfPeekWaits(Next(w, events[0]), events[1..], g);
    }
  }

  /**
   A late guess that reads code and counter apart: after the fifth counted miss it still matches
   exactly when it has the right code and, between its reads, the counter was removed and then
   fewer than five misses were counted.
   */
  lemma LateSplitGuessMatchesExactly(w: World, g: nat, hash: Hash, between: seq<Event>)
    requires Inv(w) && w.counted >= MAX_OTP_ATTEMPTS && Enabled(w, PeekCode(g, hash))
    requires EnabledRun(Next(w, PeekCode(g, hash)), between) && PeekCount(g) !in between
    ensures var w1 := Next(w, PeekCode(g, hash));
            var n := Run(w1, between);
            var since := MissesSinceRemoval(w1, between);
            && Enabled(n, PeekCount(g))
            && (Next(n, PeekCount(g)).guesses[g] == Matched <==>
                  && w.store.code.Some? && w.store.code.value.item == hash
                  && since.Some? && since.value < MAX_OTP_ATTEMPTS)
  {
    var w1 := Next(w, PeekCode(g, hash));
    HalfPeekWaits(w1, between, g);
    CountAfterRun(w1, between);
  }

  /** So with no removal between its reads, a late guess is refused whatever runs afterwards. */
  lemma LateSplitGuessIsSafe(w: World, g: nat, hash: Hash, between: seq<Event>, after: seq<Event>)
    requires Inv(w) && w.store.code.Some? && w.counted >= MAX_OTP_ATTEMPTS && Enabled(w, PeekCode(g, hash))
    requires var w1 := Next(w, PeekCode(g, hash));
             && EnabledRun(w1, between) && PeekCount(g) !in between && MissesSinceRemoval(w1, between).None?
             && var n := Run(w1, between);
             Enabled(n, PeekCount(g)) && EnabledRun(Next(n, PeekCount(g)), after)
    ensures var n := Run(Next(w, PeekCode(g, hash)), between);
            var end := Run(Next(n, PeekCount(g)), after);
            g in end.guesses && end.guesses[g] != Done(Ok(()))
  {
    var w1 := Next(w, PeekCode(g, hash));
    HalfPeekWaits(w1, between, g);
    CountAfterRun(w1, between);
    RefusedStaysRefused(Next(Run(w1, between), PeekCount(g)), after, g);
  }

  /**
   The failing run: another guess's deletion between the two reads hides five counted misses, and
   the late guess succeeds. The same happens when a new code is written between them.
   */
  lemma SplitPeekForgetsAttempts(w: World, g: nat, burner: nat, newHash: Hash)
    requires Inv(w) && w.store.code.Some? && w.counted >= MAX_OTP_ATTEMPTS && g !in w.guesses && Enabled(w, Burn(burner))
    ensures forall e :: e in {Burn(burner), WriteCode(newHash)} ==>
              var events := [PeekCode(g, w.store.code.value.item), e, PeekCount(g), Consume(g)];
              && EnabledRun(w, events)
              && g in Run(w, events).guesses && Run(w, events).guesses[g] == Done(Ok(()))
  {
    forall e | e in {Burn(burner), WriteCode(newHash)}
      ensures var events := [PeekCode(g, w.store.code.value.item), e, PeekCount(g), Consume(g)];
              EnabledRun(w, events) && g in Run(w, events).guesses && Run(w, events).guesses[g] == Done(Ok(()))
    {
      var first := PeekCode(g, w.store.code.value.item);
      var w1 := Next(w, first);
      var w2 := Next(w1, e);
      var w3 := Next(w2, PeekCount(g));
      FourSteps(w, first, e, PeekCount(g), Consume(g));
    }
  }

  lemma FourSteps(w: World, a: Event, b: Event, c: Event, d: Event)
    requires Enabled(w, a) && Enabled(Next(w, a), b) && Enabled(Next(Next(w, a), b), c)
    requires Enabled(Next(Next(Next(w, a), b), c), d)
    ensures EnabledRun(w, [a, b, c, d]) && Run(w, [a, b, c, d]) == Next(Next(Next(Next(w, a), b), c), d)
  {
    var w1 := Next(w, a);
    var w2 := Next(w1, b);
    var w3 := Next(w2, c);
    var w4 := Next(w3, d);
    assert EnabledRun(w4, []) && Run(w4, []) == w4;
    assert [d][1..] == [] && [c, d][1..] == [d] && [b, c, d][1..] == [c, d] && [a, b, c, d][1..] == [b, c, d];
    assert EnabledRun(w3, [d]) && Run(w3, [d]) == w4;
    assert EnabledRun(w2, [c, d]) && Run(w2, [c, d]) == w4;
  }

  // ---------------------------------------------------------------- single use

  /**
   A consume is two commands as well, of which the second drops the counter. Coming late, it does
   harm exactly when a new code is stored by then and has counted misses, which are forgotten.
   */
  lemma LateCounterDeletion(w: World)
    requires Inv(w)
    ensures var late := w.(store := w.store.(attempts := None));
            && (Inv(late) <==> w.store.code.None? || w.counted == 0)
            && (w.store.code.Some? ==> AfterPeek(late.store.Peek(), w.store.code.value.item) == Matched)
  {
  }

  lemma {:induction false} GoneStaysGone(w: World, events: seq<Event>)
    requires EnabledRun(w, events) && w.store.code.None?
    requires forall i :: 0 <= i < |events| ==> !events[i].WriteCode?
    ensures Run(w, events).store.code.None?
    decreases |events|
  {
    if |events| != 0 {
      assert !events[0].WriteCode?;
      GoneStaysGone(Next(w, events[0]), events[1..]);
    }
  }

  /** After a success, every guess that peeks before a new code is written finds the code expired, in any interleaving. */
  lemma CodeWorksOnce(w: World, g: nat, since: seq<Event>, h: nat, hash: Hash)
    requires Enabled(w, Consume(g)) && EnabledRun(Next(w, Consume(g)), since)
    requires forall i :: 0 <= i < |since| ==> !since[i].WriteCode?
    requires Enabled(Run(Next(w, Consume(g)), since), Peek(h, hash))
    ensures Next(Run(Next(w, Consume(g)), since), Peek(h, hash)).guesses[h] == Done(Err(Expired))
  {
    GoneStaysGone(Next(w, Consume(g)), since);
  }

  /** But nobody asks whether a consume found the code: of guesses that matched before it, all succeed. */
  lemma MatchedGuessesAllSucceed(w: World, g: nat, h: nat)
    requires g != h && Enabled(w, Consume(g)) && Enabled(w, Consume(h))
    ensures var w1 := Next(w, Consume(g));
            && Enabled(w1, Consume(h))
            && Next(w1, Consume(h)).guesses[g] == Next(w1, Consume(h)).guesses[h] == Done(Ok(()))
  {
  }
}
