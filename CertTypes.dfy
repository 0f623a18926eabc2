/**
 * Records, result values, error codes and the small pure tables of the
 * SkillCert credential registry (the `skill-cert` contract).
 */
module CertTypes {

  /** A principal (account identity). Only compared for equality. */
  type Principal = string

  datatype Option<T> = None | Some(value: T)

  /** The response of a public or read-only call: `(ok v)` or `(err code)`. */
  datatype Result<T> = Ok(value: T) | Err(code: nat)

  // Error codes surfaced by the contract.
  const ERR_NOT_FOUND: nat := 0             // is-credential-valid on an unknown id
  const ERR_OWNER_ONLY: nat := 100
  const ERR_NOT_AUTHORIZED: nat := 101
  const ERR_CREDENTIAL_NOT_FOUND: nat := 102
  const ERR_INVALID_PARAMETER: nat := 103
  const ERR_ALREADY_VERIFIED: nat := 104
  const ERR_NOT_VERIFIED: nat := 105
  const ERR_EXPIRED_CREDENTIAL: nat := 106

  /** Largest accepted platform fee: 5 STX, in micro-STX. */
  const MAX_PLATFORM_FEE: nat := 5000000

  // Issuer types and certification levels.
  const ISSUER_EDUCATIONAL: nat := 1
  const ISSUER_CORPORATE: nat := 2
  const ISSUER_PROFESSIONAL: nat := 3

  const LEVEL_BASIC: nat := 1
  const LEVEL_INTERMEDIATE: nat := 2
  const LEVEL_ADVANCED: nat := 3
  const LEVEL_EXPERT: nat := 4

  datatype Issuer = Issuer(
    name: string,
    issuerType: nat,
    verified: bool,
    credentialsIssued: nat,
    reputationScore: nat)

  datatype Category = Category(
    active: bool,
    totalCredentials: nat,
    description: string)

  datatype Credential = Credential(
    holder: Principal,
    issuer: Principal,
    skillName: string,
    skillCategory: string,
    level: nat,
    issueDate: nat,
    expiryDate: nat,
    verified: bool,
    metadataUri: string,
    revoked: bool)

  datatype Profile = Profile(
    totalCredentials: nat,
    verifiedCredentials: nat,
    skillPoints: nat,
    profileActive: bool)

  predicate ValidIssuerType(t: nat) {
    ISSUER_EDUCATIONAL <= t <= ISSUER_PROFESSIONAL
  }

  predicate ValidLevel(level: nat) {
    LEVEL_BASIC <= level <= LEVEL_EXPERT
  }

  /** Skill points a credential of the given level contributes to its holder's profile. */
  function LevelPoints(level: nat): (points: nat)
    requires ValidLevel(level)
    ensures points == [10, 25, 50, 100][level - 1]
    ensures points >= 10 * level
  {
    match level
    case 1 => 10
    case 2 => 25
    case 3 => 50
    case 4 => 100
  }

  /** A higher certification level earns strictly more points. */
  lemma LevelPointsIncreasing(a: nat, b: nat)
    requires ValidLevel(a) && ValidLevel(b) && a < b
    ensures LevelPoints(a) < LevelPoints(b)
  {
  }

  /** The caller is a registered issuer whose registration was verified by the administrator. */
  predicate IsVerifiedIssuer(issuers: map<Principal, Issuer>, p: Principal) {
    p in issuers && issuers[p].verified
  }

  /** The category exists and has not been deactivated. */
  predicate IsActiveCategory(categories: map<string, Category>, name: string) {
    name in categories && categories[name].active
  }

  /**
   * A stored credential is currently valid: not revoked and the clock has not
   * reached its expiry date.
   */
  predicate IsLive(c: Credential, now: nat) {
    !c.revoked && now < c.expiryDate
  }

  /** The profile a holder has, or the fresh profile created on its first credential. */
  function ProfileOf(profiles: map<Principal, Profile>, h: Principal): Profile
  {
    if h in profiles then profiles[h] else Profile(0, 0, 0, true)
  }

  /** A profile after one credential worth `points` comes in (mint or transfer-in). */
  function Credited(p: Profile, points: nat): Profile
  {
    p.(totalCredentials := p.totalCredentials + 1,
       verifiedCredentials := p.verifiedCredentials + 1,
       skillPoints := p.skillPoints + points)
  }

  /**
   * A profile after one credential worth `points` goes out (transfer-out).
   * The contract's unsigned arithmetic would abort on underflow; the
   * requires clause states that it does not occur.
   */
  function Debited(p: Profile, points: nat): Profile
    requires p.totalCredentials >= 1 && p.verifiedCredentials >= 1 && p.skillPoints >= points
  {
    p.(totalCredentials := p.totalCredentials - 1,
       verifiedCredentials := p.verifiedCredentials - 1,
       skillPoints := p.skillPoints - points)
  }

  /** Giving up a credential undoes receiving it ... */
  lemma DebitedUndoesCredited(p: Profile, points: nat)
    ensures Debited(Credited(p, points), points) == p
  {
  }

  /** ... and receiving it back undoes giving it up. */
  lemma CreditedUndoesDebited(p: Profile, points: nat)
    requires p.totalCredentials >= 1 && p.verifiedCredentials >= 1 && p.skillPoints >= points
    ensures Credited(Debited(p, points), points) == p
  {
  }

  /** An issuer after minting one more credential. */
  function IssuerCredited(i: Issuer): Issuer
  {
    i.(credentialsIssued := i.credentialsIssued + 1, reputationScore := i.reputationScore + 1)
  }

  /** A category after one more credential was minted under it. */
  function CategoryCounted(c: Category): Category
  {
    c.(totalCredentials := c.totalCredentials + 1)
  }
}
