/** Subscription tiers and their ranks (src/authorization/tier-rank.ts). */
module Tiers {
  datatype Tier = FREE | BASIC | MEDIUM | PREMIUM

  function Rank(t: Tier): nat {
    match t
    case FREE => 0
    case BASIC => 1
    case MEDIUM => 2
    case PREMIUM => 3
  }

  /** FREE is the lowest tier, PREMIUM the highest, and no two share a rank. */
  lemma RankOrdersTiers()
    ensures Rank(FREE) < Rank(BASIC) < Rank(MEDIUM) < Rank(PREMIUM)
  {
  }

  lemma RankIsInjective(a: Tier, b: Tier)
    ensures Rank(a) == Rank(b) <==> a == b
  {
  }
}
