/**
 * The call sequences of the contract's test suite, replayed against the model:
 * each method deploys a fresh registry, makes the suite's calls and promises
 * the responses and read-backs the suite asserts.
 */
module Scenarios {
  import opened CertTypes
  import opened Bookkeeping
  import opened Registry

  const DEPLOYER: Principal := "deployer"
  const WALLET_1: Principal := "wallet_1"
  const WALLET_2: Principal := "wallet_2"
  const WALLET_3: Principal := "wallet_3"

  const TECH_UNIVERSITY := "Tech University"
  const PROGRAMMING := "Programming"
  const PROGRAMMING_DESCRIPTION := "Software development skills"
  /** The description the suite's category read-back adds and expects. */
  const PROGRAMMING_LONG_DESCRIPTION := "Software development and programming skills"
  const JS_FUNDAMENTALS := "JavaScript Fundamentals"
  const METADATA_URI := "https://example.com/metadata"

  /** Every reader on a fresh deployment finds nothing. */
  method FreshReaders(now: nat)
    returns (details: Option<Credential>, issuer: Option<Issuer>, profile: Option<Profile>,
             category: Option<Category>, total: nat, validity: Result<bool>)
    ensures details.None? && issuer.None? && profile.None? && category.None?
    ensures total == 0
    ensures validity == Err(ERR_NOT_FOUND)
  {
    var reg := new SkillCertRegistry(DEPLOYER, 0);
    details := reg.GetCredentialDetails(999);
    issuer := reg.GetIssuerInfo(WALLET_1);
    profile := reg.GetHolderProfile(WALLET_1);
    category := reg.GetSkillCategory("NonExistent");
    total := reg.GetTotalCredentials();
    validity := reg.IsCredentialValid(999, now);
  }

  /** Registration stores an unverified issuer; the same caller cannot register twice. */
  method IssuerRegistration()
    returns (first: Result<bool>, info: Option<Issuer>, again: Result<bool>,
             badType0: Result<bool>, badType4: Result<bool>)
    ensures first == Ok(true)
    ensures info == Some(Issuer(TECH_UNIVERSITY, ISSUER_EDUCATIONAL, false, 0, 0))
    ensures again == Err(ERR_INVALID_PARAMETER)
    ensures badType0 == Err(ERR_INVALID_PARAMETER) && badType4 == Err(ERR_INVALID_PARAMETER)
  {
    var reg := new SkillCertRegistry(DEPLOYER, 0);
    badType0 := reg.RegisterIssuer(WALLET_1, "Invalid Issuer", 0);
    badType4 := reg.RegisterIssuer(WALLET_1, "Invalid Issuer", 4);
    first := reg.RegisterIssuer(WALLET_1, TECH_UNIVERSITY, ISSUER_EDUCATIONAL);
    info := reg.GetIssuerInfo(WALLET_1);
    again := reg.RegisterIssuer(WALLET_1, "Another University", ISSUER_CORPORATE);
  }

  /** While paused, registration is refused. */
  method PausedRegistration() returns (toggle: Result<bool>, register: Result<bool>, info: Option<Issuer>)
    ensures toggle == Ok(true)
    ensures register == Err(ERR_INVALID_PARAMETER) && info.None?
  {
    var reg := new SkillCertRegistry(DEPLOYER, 0);
    toggle := reg.ToggleContractPause(DEPLOYER);
    register := reg.RegisterIssuer(WALLET_1, TECH_UNIVERSITY, ISSUER_EDUCATIONAL);
    info := reg.GetIssuerInfo(WALLET_1);
  }

  /** Only the administrator verifies, and only registered issuers. */
  method IssuerVerificationGates() returns (byOther: Result<bool>, unknown: Result<bool>)
    ensures byOther == Err(ERR_OWNER_ONLY)
    ensures unknown == Err(ERR_NOT_AUTHORIZED)
  {
    var reg := new SkillCertRegistry(DEPLOYER, 0);
    var _ := reg.RegisterIssuer(WALLET_1, TECH_UNIVERSITY, ISSUER_EDUCATIONAL);
    byOther := reg.VerifyIssuer(WALLET_2, WALLET_1);
    unknown := reg.VerifyIssuer(DEPLOYER, WALLET_2);
  }

  /** Verification sets only the flag, and happens once. */
  method IssuerVerification() returns (first: Result<bool>, info: Option<Issuer>, again: Result<bool>)
    ensures first == Ok(true)
    ensures info == Some(Issuer(TECH_UNIVERSITY, ISSUER_EDUCATIONAL, true, 0, 0))
    ensures again == Err(ERR_ALREADY_VERIFIED)
  {
    var reg := new SkillCertRegistry(DEPLOYER, 0);
    var _ := reg.RegisterIssuer(WALLET_1, TECH_UNIVERSITY, ISSUER_EDUCATIONAL);
    first := reg.VerifyIssuer(DEPLOYER, WALLET_1);
    info := reg.GetIssuerInfo(WALLET_1);
    again := reg.VerifyIssuer(DEPLOYER, WALLET_1);
  }

  /** Only the administrator adds categories, and names are unique. */
  method CategoryAddition()
    returns (byOther: Result<bool>, add: Result<bool>, category: Option<Category>, duplicate: Result<bool>)
    ensures byOther == Err(ERR_OWNER_ONLY) && add == Ok(true) && duplicate == Err(ERR_INVALID_PARAMETER)
    ensures category == Some(Category(true, 0, PROGRAMMING_LONG_DESCRIPTION))
  {
    var reg := new SkillCertRegistry(DEPLOYER, 0);
    byOther := reg.AddSkillCategory(WALLET_1, PROGRAMMING, PROGRAMMING_DESCRIPTION);
    add := reg.AddSkillCategory(DEPLOYER, PROGRAMMING, PROGRAMMING_LONG_DESCRIPTION);
    category := reg.GetSkillCategory(PROGRAMMING);
    duplicate := reg.AddSkillCategory(DEPLOYER, PROGRAMMING, "Different description");
  }

  /** Only the administrator deactivates, only existing categories, and only `active` changes. */
  method CategoryDeactivation()
    returns (byOther: Result<bool>, unknown: Result<bool>, deactivate: Result<bool>, category: Option<Category>)
    ensures byOther == Err(ERR_OWNER_ONLY) && unknown == Err(ERR_INVALID_PARAMETER)
    ensures deactivate == Ok(true) && category == Some(Category(false, 0, PROGRAMMING_DESCRIPTION))
  {
    var reg := new SkillCertRegistry(DEPLOYER, 0);
    var _ := reg.AddSkillCategory(DEPLOYER, PROGRAMMING, PROGRAMMING_DESCRIPTION);
    byOther := reg.DeactivateSkillCategory(WALLET_1, PROGRAMMING);
    unknown := reg.DeactivateSkillCategory(DEPLOYER, "NonExistent");
    deactivate := reg.DeactivateSkillCategory(DEPLOYER, PROGRAMMING);
    category := reg.GetSkillCategory(PROGRAMMING);
  }

  /** The fee bound and the administrator-only gates of fee, pause and withdrawal. */
  method FeeAndPause()
    returns (feeOk: Result<bool>, feeTooHigh: Result<bool>, feeByOther: Result<bool>,
             toggle: Result<bool>, toggleByOther: Result<bool>,
             withdraw: Result<bool>, withdrawByOther: Result<bool>)
    ensures feeOk == Ok(true) && feeTooHigh == Err(ERR_INVALID_PARAMETER) && feeByOther == Err(ERR_OWNER_ONLY)
    ensures toggle == Ok(true) && toggleByOther == Err(ERR_OWNER_ONLY)
    ensures withdraw == Ok(true) && withdrawByOther == Err(ERR_OWNER_ONLY)
  {
    var reg := new SkillCertRegistry(DEPLOYER, 0);
    feeOk := reg.SetPlatformFee(DEPLOYER, 1000000);
    feeTooHigh := reg.SetPlatformFee(DEPLOYER, 6000000);
    feeByOther := reg.SetPlatformFee(WALLET_1, 1000000);
    toggleByOther := reg.ToggleContractPause(WALLET_1);
    toggle := reg.ToggleContractPause(DEPLOYER);
    withdraw := reg.WithdrawPlatformFees(DEPLOYER);
    withdrawByOther := reg.WithdrawPlatformFees(WALLET_1);
  }

  /** A registry with WALLET_1 a verified issuer and an active "Programming" category. */
  method MintFixture() returns (reg: SkillCertRegistry)
    ensures fresh(reg) && reg.Valid() && reg.admin == DEPLOYER
    ensures reg.State() == RegistryState(
              map[WALLET_1 := Issuer(TECH_UNIVERSITY, ISSUER_EDUCATIONAL, true, 0, 0)],
              map[PROGRAMMING := Category(true, 0, PROGRAMMING_DESCRIPTION)],
              map[], map[], 0, false, 0)
  {
    reg := new SkillCertRegistry(DEPLOYER, 0);
    var _ := reg.RegisterIssuer(WALLET_1, TECH_UNIVERSITY, ISSUER_EDUCATIONAL);
    var _ := reg.VerifyIssuer(DEPLOYER, WALLET_1);
    var _ := reg.AddSkillCategory(DEPLOYER, PROGRAMMING, PROGRAMMING_DESCRIPTION);
  }

  /** The first mint gets id 1 and its record and the holder's new profile read back as minted. */
  method FirstMint(now: nat) returns (id: Result<nat>, details: Option<Credential>, profile: Option<Profile>)
    ensures id == Ok(1)
    ensures details == Some(Credential(WALLET_2, WALLET_1, JS_FUNDAMENTALS, PROGRAMMING, LEVEL_BASIC,
                                       now, now + 8640, true, METADATA_URI, false))
    ensures profile == Some(Profile(1, 1, 10, true))
  {
    var reg := MintFixture();
    id := reg.MintCredential(WALLET_1, now, WALLET_2, JS_FUNDAMENTALS, PROGRAMMING, LEVEL_BASIC, 8640, METADATA_URI);
    details := reg.GetCredentialDetails(1);
    profile := reg.GetHolderProfile(WALLET_2);
  }

  /** The first mint counts once for its issuer, once for its category and once in the total. */
  method FirstMintCounters(now: nat) returns (issuer: Option<Issuer>, category: Option<Category>, total: nat)
    ensures issuer == Some(Issuer(TECH_UNIVERSITY, ISSUER_EDUCATIONAL, true, 1, 1))
    ensures category == Some(Category(true, 1, PROGRAMMING_DESCRIPTION))
    ensures total == 1
  {
    var reg := MintFixture();
    var _ := reg.MintCredential(WALLET_1, now, WALLET_2, JS_FUNDAMENTALS, PROGRAMMING, LEVEL_BASIC, 8640, METADATA_URI);
    issuer := reg.GetIssuerInfo(WALLET_1);
    category := reg.GetSkillCategory(PROGRAMMING);
    total := reg.GetTotalCredentials();
  }

  /** A mint with a level or duration out of range is refused and the total stays 0. */
  method RejectedMintParameters(now: nat)
    returns (level0: Result<nat>, level5: Result<nat>, noDuration: Result<nat>, total: nat)
    ensures level0 == Err(ERR_INVALID_PARAMETER) && level5 == Err(ERR_INVALID_PARAMETER)
    ensures noDuration == Err(ERR_INVALID_PARAMETER)
    ensures total == 0
  {
    var reg := MintFixture();
    level0 := reg.MintCredential(WALLET_1, now, WALLET_2, "Test Skill", PROGRAMMING, 0, 8640, METADATA_URI);
    level5 := reg.MintCredential(WALLET_1, now, WALLET_2, "Test Skill", PROGRAMMING, 5, 8640, METADATA_URI);
    noDuration := reg.MintCredential(WALLET_1, now, WALLET_2, "Test Skill", PROGRAMMING, LEVEL_BASIC, 0, METADATA_URI);
    total := reg.GetTotalCredentials();
  }

  /** A registered but unverified issuer cannot mint. */
  method UnverifiedIssuerMint(now: nat) returns (r: Result<nat>)
    ensures r == Err(ERR_NOT_VERIFIED)
  {
    var reg := MintFixture();
    var _ := reg.RegisterIssuer(WALLET_3, "Unverified Corp", ISSUER_CORPORATE);
    r := reg.MintCredential(WALLET_3, now, WALLET_2, "Test Skill", PROGRAMMING, LEVEL_BASIC, 8640, METADATA_URI);
  }

  /** A deactivated category refuses mints. */
  method InactiveCategoryMint(now: nat) returns (r: Result<nat>)
    ensures r == Err(ERR_INVALID_PARAMETER)
  {
    var reg := MintFixture();
    var _ := reg.AddSkillCategory(DEPLOYER, "InactiveSkill", "Will be deactivated");
    var _ := reg.DeactivateSkillCategory(DEPLOYER, "InactiveSkill");
    r := reg.MintCredential(WALLET_1, now, WALLET_2, "Test Skill", "InactiveSkill", LEVEL_BASIC, 8640, METADATA_URI);
  }

  /** A paused contract refuses mints. */
  method PausedMint(now: nat) returns (r: Result<nat>)
    ensures r == Err(ERR_INVALID_PARAMETER)
  {
    var reg := MintFixture();
    var _ := reg.ToggleContractPause(DEPLOYER);
    r := reg.MintCredential(WALLET_1, now, WALLET_2, "Test Skill", PROGRAMMING, LEVEL_BASIC, 8640, METADATA_URI);
  }

  /** The first two mints of the suite's points-per-level sequence: levels 1 and 2 to WALLET_2 and WALLET_3. */
  method FirstTwoLevels(t1: nat, t2: nat) returns (reg: SkillCertRegistry, p1: Option<Profile>, p2: Option<Profile>)
    ensures fresh(reg) && reg.Valid() && reg.admin == DEPLOYER && !reg.paused
    ensures reg.issuers == map[WALLET_1 := Issuer(TECH_UNIVERSITY, ISSUER_EDUCATIONAL, true, 2, 2)]
    ensures reg.categories == map[PROGRAMMING := Category(true, 2, PROGRAMMING_DESCRIPTION)]
    ensures reg.profiles == map[WALLET_2 := Profile(1, 1, 10, true), WALLET_3 := Profile(1, 1, 25, true)]
    ensures p1 == Some(Profile(1, 1, 10, true)) && p2 == Some(Profile(1, 1, 25, true))
  {
    reg := MintFixture();
    var _ := reg.MintCredential(WALLET_1, t1, WALLET_2, "Skill Level 1", PROGRAMMING, LEVEL_BASIC, 8640, METADATA_URI);
    p1 := reg.GetHolderProfile(WALLET_2);
    var _ := reg.MintCredential(WALLET_1, t2, WALLET_3, "Skill Level 2", PROGRAMMING, LEVEL_INTERMEDIATE, 8640, METADATA_URI);
    p2 := reg.GetHolderProfile(WALLET_3);
  }

  /** The third mint of the sequence: level 3 to the deployer. */
  method FirstThreeLevels(t1: nat, t2: nat, t3: nat)
    returns (reg: SkillCertRegistry, p1: Option<Profile>, p2: Option<Profile>, p3: Option<Profile>)
    ensures fresh(reg) && reg.Valid() && reg.admin == DEPLOYER && !reg.paused
    ensures reg.issuers == map[WALLET_1 := Issuer(TECH_UNIVERSITY, ISSUER_EDUCATIONAL, true, 3, 3)]
    ensures reg.categories == map[PROGRAMMING := Category(true, 3, PROGRAMMING_DESCRIPTION)]
    ensures reg.profiles == map[WALLET_2 := Profile(1, 1, 10, true), WALLET_3 := Profile(1, 1, 25, true),
                                DEPLOYER := Profile(1, 1, 50, true)]
    ensures p1 == Some(Profile(1, 1, 10, true)) && p2 == Some(Profile(1, 1, 25, true))
    ensures p3 == Some(Profile(1, 1, 50, true))
  {
    reg, p1, p2 := FirstTwoLevels(t1, t2);
    var _ := reg.MintCredential(WALLET_1, t3, DEPLOYER, "Skill Level 3", PROGRAMMING, LEVEL_ADVANCED, 8640, METADATA_URI);
    p3 := reg.GetHolderProfile(DEPLOYER);
  }

  /**
   * The suite's four mints on one registry, levels 1 to 4, to WALLET_2, WALLET_3,
   * the deployer and finally the issuer itself: each new holder's profile reads
   * one credential worth 10, 25, 50 and 100 points.
   */
  method PointsPerLevel(t1: nat, t2: nat, t3: nat, t4: nat)
    returns (p1: Option<Profile>, p2: Option<Profile>, p3: Option<Profile>, p4: Option<Profile>)
    ensures p1 == Some(Profile(1, 1, 10, true)) && p2 == Some(Profile(1, 1, 25, true))
    ensures p3 == Some(Profile(1, 1, 50, true)) && p4 == Some(Profile(1, 1, 100, true))
  {
    var reg;
    reg, p1, p2, p3 := FirstThreeLevels(t1, t2, t3);
    var _ := reg.MintCredential(WALLET_1, t4, WALLET_1, "Skill Level 4", PROGRAMMING, LEVEL_EXPERT, 8640, METADATA_URI);
    p4 := reg.GetHolderProfile(WALLET_1);
  }

  /** A registry holding credential 1: WALLET_2's basic credential from WALLET_1, minted at `now`. */
  method CredentialFixture(now: nat, duration: nat) returns (reg: SkillCertRegistry)
    requires duration > 0
    ensures fresh(reg) && reg.Valid() && reg.admin == DEPLOYER
    ensures reg.State() == RegistryState(
              map[WALLET_1 := Issuer(TECH_UNIVERSITY, ISSUER_EDUCATIONAL, true, 1, 1)],
              map[PROGRAMMING := Category(true, 1, PROGRAMMING_DESCRIPTION)],
              map[1 := Credential(WALLET_2, WALLET_1, JS_FUNDAMENTALS, PROGRAMMING,
                                  LEVEL_BASIC, now, now + duration, true, METADATA_URI, false)],
              map[WALLET_2 := Profile(1, 1, 10, true)], 1, false, 0)
  {
    reg := MintFixture();
    var _ := reg.MintCredential(WALLET_1, now, WALLET_2, JS_FUNDAMENTALS, PROGRAMMING, LEVEL_BASIC, duration, METADATA_URI);
  }

  /** Ids are handed out in sequence: the next mint gets id 2 (the suite itself reads back only id 1). */
  method SecondMint(now: nat) returns (second: Result<nat>, total: nat)
    ensures second == Ok(2) && total == 2
  {
    var reg := CredentialFixture(now, 8640);
    second := reg.MintCredential(WALLET_1, now, WALLET_3, "Test Skill", PROGRAMMING, LEVEL_BASIC, 8640, METADATA_URI);
    total := reg.GetTotalCredentials();
  }

  /** Only the holder transfers, and only existing credentials. */
  method TransferGates(now: nat) returns (byIssuer: Result<bool>, unknown: Result<bool>)
    ensures byIssuer == Err(ERR_NOT_AUTHORIZED) && unknown == Err(ERR_CREDENTIAL_NOT_FOUND)
  {
    var reg := CredentialFixture(now, 8640);
    byIssuer := reg.TransferCredential(WALLET_1, now, 1, WALLET_3);
    unknown := reg.TransferCredential(WALLET_2, now, 999, WALLET_3);
  }

  /** The holder's transfer moves the record and its whole contribution to the new holder. */
  method Transfer(now: nat)
    returns (transfer: Result<bool>, details: Option<Credential>,
             oldProfile: Option<Profile>, newProfile: Option<Profile>)
    ensures transfer == Ok(true)
    ensures details == Some(Credential(WALLET_3, WALLET_1, JS_FUNDAMENTALS, PROGRAMMING, LEVEL_BASIC,
                                       now, now + 8640, true, METADATA_URI, false))
    ensures oldProfile == Some(Profile(0, 0, 0, true))
    ensures newProfile == Some(Profile(1, 1, 10, true))
  {
    var reg := CredentialFixture(now, 8640);
    transfer := reg.TransferCredential(WALLET_2, now, 1, WALLET_3);
    details := reg.GetCredentialDetails(1);
    oldProfile := reg.GetHolderProfile(WALLET_2);
    newProfile := reg.GetHolderProfile(WALLET_3);
  }

  /** A 100-block credential is valid at first and reads as invalid 150 blocks later. */
  method Expiry(now: nat) returns (validBefore: Result<bool>, validAfter: Result<bool>)
    ensures validBefore == Ok(true) && validAfter == Ok(false)
  {
    var reg := CredentialFixture(now, 100);
    validBefore := reg.IsCredentialValid(1, now);
    validAfter := reg.IsCredentialValid(1, now + 150);
  }

  /** 9000 blocks after its mint, an 8640-block credential can no longer be transferred. */
  method ExpiredTransfer(now: nat) returns (transfer: Result<bool>)
    ensures transfer == Err(ERR_EXPIRED_CREDENTIAL)
  {
    var reg := CredentialFixture(now, 8640);
    transfer := reg.TransferCredential(WALLET_2, now + 9000, 1, WALLET_3);
  }

  /** Only the issuer renews, only existing credentials, and never for a zero duration. */
  method RenewalGates(now: nat) returns (byHolder: Result<bool>, unknown: Result<bool>, noDuration: Result<bool>)
    ensures byHolder == Err(ERR_NOT_AUTHORIZED) && unknown == Err(ERR_CREDENTIAL_NOT_FOUND)
    ensures noDuration == Err(ERR_INVALID_PARAMETER)
  {
    var reg := CredentialFixture(now, 8640);
    byHolder := reg.RenewCredential(WALLET_2, now, 1, 10000);
    unknown := reg.RenewCredential(WALLET_1, now, 999, 10000);
    noDuration := reg.RenewCredential(WALLET_1, now, 1, 0);
  }

  /** Renewal counts the new validity from the renewal's own block. */
  method Renewal(mintedAt: nat, renewedAt: nat) returns (renew: Result<bool>, details: Option<Credential>)
    ensures renew == Ok(true)
    ensures details == Some(Credential(WALLET_2, WALLET_1, JS_FUNDAMENTALS, PROGRAMMING, LEVEL_BASIC,
                                       renewedAt, renewedAt + 10000, true, METADATA_URI, false))
  {
    var reg := CredentialFixture(mintedAt, 8640);
    renew := reg.RenewCredential(WALLET_1, renewedAt, 1, 10000);
    details := reg.GetCredentialDetails(1);
  }

  /** A paused contract refuses renewals. */
  method PausedRenewal(now: nat) returns (r: Result<bool>)
    ensures r == Err(ERR_INVALID_PARAMETER)
  {
    var reg := CredentialFixture(now, 8640);
    var _ := reg.ToggleContractPause(DEPLOYER);
    r := reg.RenewCredential(WALLET_1, now, 1, 10000);
  }

  /** Issuer revocation is refused; emergency revocation is administrator-only and needs an existing id. */
  method RevocationGates(now: nat) returns (byIssuer: Result<bool>, byOther: Result<bool>, unknown: Result<bool>)
    ensures byIssuer == Err(ERR_INVALID_PARAMETER)
    ensures byOther == Err(ERR_OWNER_ONLY) && unknown == Err(ERR_CREDENTIAL_NOT_FOUND)
  {
    var reg := CredentialFixture(now, 8640);
    byIssuer := reg.RevokeCredential(WALLET_1, 1);
    byOther := reg.EmergencyRevokeCredential(WALLET_1, 1);
    unknown := reg.EmergencyRevokeCredential(DEPLOYER, 999);
  }

  /** Emergency revocation sets only `revoked`, after which the credential reads as invalid. */
  method EmergencyRevocation(now: nat)
    returns (emergency: Result<bool>, details: Option<Credential>, validity: Result<bool>)
    ensures emergency == Ok(true)
    ensures details == Some(Credential(WALLET_2, WALLET_1, JS_FUNDAMENTALS, PROGRAMMING, LEVEL_BASIC,
                                       now, now + 8640, true, METADATA_URI, true))
    ensures validity == Ok(false)
  {
    var reg := CredentialFixture(now, 8640);
    emergency := reg.EmergencyRevokeCredential(DEPLOYER, 1);
    details := reg.GetCredentialDetails(1);
    validity := reg.IsCredentialValid(1, now);
  }

  /**
   * A refused issuer revocation changes nothing: the credential stays live and
   * renewable. (The suite's revoked-state cases that call `revoke-credential`
   * first expect otherwise; the model follows the refusal the suite asserts.)
   */
  method RefusedRevocationKeepsCredential(now: nat)
    returns (revoke: Result<bool>, validity: Result<bool>, renew: Result<bool>)
    ensures revoke == Err(ERR_INVALID_PARAMETER) && validity == Ok(true) && renew == Ok(true)
  {
    var reg := CredentialFixture(now, 8640);
    revoke := reg.RevokeCredential(WALLET_1, 1);
    validity := reg.IsCredentialValid(1, now);
    renew := reg.RenewCredential(WALLET_1, now, 1, 10000);
  }

  /** A revoked credential can be neither renewed nor transferred. */
  method RevokedIsFrozen(now: nat) returns (renew: Result<bool>, transfer: Result<bool>)
    ensures renew == Err(ERR_INVALID_PARAMETER) && transfer == Err(ERR_INVALID_PARAMETER)
  {
    var reg := CredentialFixture(now, 8640);
    var _ := reg.EmergencyRevokeCredential(DEPLOYER, 1);
    renew := reg.RenewCredential(WALLET_1, now, 1, 10000);
    transfer := reg.TransferCredential(WALLET_2, now, 1, WALLET_3);
  }

  /** Authenticity verification is administrator-only and needs an existing credential. */
  method Authenticity(now: nat) returns (byOther: Result<bool>, unknown: Result<bool>)
    ensures byOther == Err(ERR_OWNER_ONLY) && unknown == Err(ERR_CREDENTIAL_NOT_FOUND)
  {
    var reg := CredentialFixture(now, 8640);
    byOther := reg.VerifyCredentialAuthenticity(WALLET_1, 1);
    unknown := reg.VerifyCredentialAuthenticity(DEPLOYER, 999);
  }
}
