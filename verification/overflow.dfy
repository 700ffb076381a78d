/**
 * Lists that show their first few items and a "+N" counter for the rest:
 * project tags (4), member avatars (3) and a user's skills (4).
 */
module Overflow {

  const TagLimit := 4
  const MemberLimit := 3
  const SkillLimit := 4

  /** `xs.slice(0, limit)`. */
  function Shown<T>(xs: seq<T>, limit: nat): (r: seq<T>)
    ensures |r| == if |xs| <= limit then |xs| else limit
    ensures r == xs[..|r|]
  {
    if |xs| <= limit then xs else xs[..limit]
  }

  /** The counter: `xs.length - limit`, shown only when `xs.length > limit`. */
  function More<T>(xs: seq<T>, limit: nat): (n: nat)
    ensures n > 0 <==> |xs| > limit
  {
    if |xs| > limit then |xs| - limit else 0
  }

  /** Shown items and the counter account for every item, and nothing hidden is shown. */
  lemma Accounts<T>(xs: seq<T>, limit: nat)
    ensures |Shown(xs, limit)| + More(xs, limit) == |xs|
    ensures More(xs, limit) == 0 ==> Shown(xs, limit) == xs
    ensures More(xs, limit) > 0 ==> Shown(xs, limit) + xs[limit..] == xs && |Shown(xs, limit)| == limit
  {
  }
}
