/**
 The bearer tokens and the compound session key. Keyed digests are free constructors: two
 digests are equal exactly when their inputs are, and no client text is ever a digest.
 */
module Tokens {
  import opened Tiers

  type UserId = string
  type SessionId = string
  type Seconds = int

  const SECONDS_PER_DAY: int := 86400

  datatype Token =
    | AccessJwt(sub: UserId, issuedAt: Seconds, expiresAt: Seconds)
    | UserDigest(userDay: int, user: UserId)
    | RbacDigest(rbacDay: int, rbacUser: UserId, tier: Tier)
    | Text(text: string)

  /** JavaScript truthiness of a token string: only the empty string is falsy. */
  predicate Truthy(t: Token) {
    t != Text("")
  }

  /** The UTC date of an instant. */
  function UtcDay(now: Seconds): int {
    now / SECONDS_PER_DAY
  }

  /** Two instants share a day exactly when no UTC midnight lies between them. */
  lemma DaysAreWholeUtcDays(t: Seconds, day: int)
    ensures UtcDay(t) == day <==> day * 86400 <= t < (day + 1) * 86400
  {
  }

  datatype CompoundKey = CompoundKey(parts: seq<Token>)

  /** A falsy user token is left out of the key, which then has three parts. */
  function BuildKey(access: Token, rbac: Token, device: Token, user: Token): CompoundKey {
    if Truthy(user) then CompoundKey([access, rbac, device, user])
    else CompoundKey([access, rbac, device])
  }

  /** Distinct token quadruples give distinct keys, whichever of the two lengths they have. */
  lemma BuildKeyIsInjective(a: Token, r: Token, d: Token, u: Token, a': Token, r': Token, d': Token, u': Token)
    ensures BuildKey(a, r, d, u).parts == if u == Text("") then [a, r, d] else [a, r, d, u]
    ensures BuildKey(a, r, d, u) == BuildKey(a', r', d', u') <==> a == a' && r == r' && d == d' && u == u'
  {
    var k, k' := BuildKey(a, r, d, u), BuildKey(a', r', d', u');
    if k == k' {
      assert k.parts[0] == k'.parts[0] && k.parts[1] == k'.parts[1] && k.parts[2] == k'.parts[2];
      assert |k.parts| == 4 ==> k.parts[3] == k'.parts[3];
    }
  }
}
