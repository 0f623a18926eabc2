/**
 * Counting over the credentials store. Credential ids are dense from 1, so an
 * aggregate kept by the contract (a holder's credential count and skill
 * points, an issuer's count, a category's count) is a sum over the ids 1..n.
 */
module Aggregates {
  import opened CertTypes

  /** What an aggregate counts, for one holder, issuer or category. */
  datatype Measure =
    | HeldBy(holder: Principal)
    | PointsOf(holder: Principal)
    | IssuedBy(issuer: Principal)
    | InCategory(name: string)

  /** What one credential contributes to a measure. */
  function Weight(m: Measure, c: Credential): nat {
    match m
    case HeldBy(h) => if c.holder == h then 1 else 0
    case PointsOf(h) => if c.holder == h && ValidLevel(c.level) then LevelPoints(c.level) else 0
    case IssuedBy(i) => if c.issuer == i then 1 else 0
    case InCategory(name) => if c.skillCategory == name then 1 else 0
  }

  /** The sum of the contributions of the credentials stored under ids 1..n. */
  function Tally(creds: map<nat, Credential>, n: nat, m: Measure): nat {
    if n == 0 then 0
    else Tally(creds, n - 1, m) + (if n in creds then Weight(m, creds[n]) else 0)
  }

  /** Storing a record above the counted range does not change the sum. */
  lemma {:induction false} TallyAbove(creds: map<nat, Credential>, n: nat, m: Measure, k: nat, c: Credential)
    requires n < k
    ensures Tally(creds[k := c], n, m) == Tally(creds, n, m)
  {
    if n > 0 {
      TallyAbove(creds, n - 1, m, k, c);
    }
  }

  /** Appending the record with the next id adds exactly its contribution. */
  lemma TallyAppend(creds: map<nat, Credential>, n: nat, m: Measure, c: Credential)
    ensures Tally(creds[n + 1 := c], n + 1, m) == Tally(creds, n, m) + Weight(m, c)
  {
    TallyAbove(creds, n, m, n + 1, c);
  }

  /** Replacing a stored record swaps its contribution for the new one's. */
  lemma {:induction false} TallyReplace(creds: map<nat, Credential>, n: nat, m: Measure, k: nat, c: Credential)
    requires 1 <= k <= n && k in creds
    ensures Tally(creds[k := c], n, m) + Weight(m, creds[k]) == Tally(creds, n, m) + Weight(m, c)
  {
    if k == n {
      TallyAbove(creds, n - 1, m, k, c);
    } else {
      TallyReplace(creds, n - 1, m, k, c);
    }
  }

  /** The sum is at least the contribution of any record in range. */
  lemma {:induction false} TallyAtLeast(creds: map<nat, Credential>, n: nat, m: Measure, k: nat)
    requires 1 <= k <= n && k in creds
    ensures Tally(creds, n, m) >= Weight(m, creds[k])
  {
    if k < n {
      TallyAtLeast(creds, n - 1, m, k);
    }
  }

  /** If no record in range contributes, the sum is zero. */
  lemma {:induction false} TallyZero(creds: map<nat, Credential>, n: nat, m: Measure)
    requires forall k :: 1 <= k <= n && k in creds ==> Weight(m, creds[k]) == 0
    ensures Tally(creds, n, m) == 0
  {
    if n > 0 {
      TallyZero(creds, n - 1, m);
    }
  }
}
