/**
 * The `skill-cert` contract as an object: its four maps and global variables
 * are fields, each public function is a method that updates them in place,
 * and each read-only function is a function of the fields.
 *
 * The caller's identity and the block height (`now`) are explicit parameters.
 * Every method that fails returns `Err(code)` and leaves every field as it
 * was, as a Clarity transaction that returns `err` is rolled back.
 */
module Registry {
  import opened CertTypes
  import opened Bookkeeping

  class SkillCertRegistry {
    /** The deployer: the one administrator identity. */
    const admin: Principal

    var issuers: map<Principal, Issuer>
    var categories: map<string, Category>
    var credentials: map<nat, Credential>
    var profiles: map<Principal, Profile>
    /** Number of credentials minted so far; the last id assigned. */
    var total: nat
    var paused: bool
    var fee: nat

    /** The fields as one value. */
    function State(): RegistryState
      reads this
    {
      RegistryState(issuers, categories, credentials, profiles, total, paused, fee)
    }

    ghost predicate Valid()
      reads this
    {
      Consistent(State())
    }

    predicate IsAdmin(caller: Principal) {
      caller == admin
    }

    /** Deployment: empty stores, counter 0, not paused. */
    constructor (deployer: Principal, initialFee: nat)
      requires initialFee <= MAX_PLATFORM_FEE
      ensures Valid()
      ensures admin == deployer && State() == Deployed(initialFee)
    {
      admin := deployer;
      issuers, categories, credentials, profiles := map[], map[], map[], map[];
      total, paused, fee := 0, false, initialFee;
      DeployedConsistent(initialFee);
    }

    // ---------------------------------------------------------------- readers

    function GetCredentialDetails(id: nat): (r: Option<Credential>)
      reads this
      ensures r.None? <==> id !in credentials
      ensures r.Some? ==> r.value == credentials[id]
    {
      if id in credentials then Some(credentials[id]) else None
    }

    function GetIssuerInfo(issuer: Principal): (r: Option<Issuer>)
      reads this
      ensures r.None? <==> issuer !in issuers
      ensures r.Some? ==> r.value == issuers[issuer]
    {
      if issuer in issuers then Some(issuers[issuer]) else None
    }

    function GetHolderProfile(holder: Principal): (r: Option<Profile>)
      reads this
      ensures r.None? <==> holder !in profiles
      ensures r.Some? ==> r.value == profiles[holder]
    {
      if holder in profiles then Some(profiles[holder]) else None
    }

    function GetSkillCategory(name: string): (r: Option<Category>)
      reads this
      ensures r.None? <==> name !in categories
      ensures r.Some? ==> r.value == categories[name]
    {
      if name in categories then Some(categories[name]) else None
    }

    /** The counter is exactly the number of credentials stored. */
    function GetTotalCredentials(): (n: nat)
      requires Valid()
      reads this
      ensures n == |credentials|
    {
      DenseCount(credentials.Keys, total);
      total
    }

    /**
     * `(err u0)` for an unknown id; otherwise whether the credential is live:
     * not revoked and not yet at its expiry date.
     */
    function IsCredentialValid(id: nat, now: nat): (r: Result<bool>)
      reads this
      ensures r.Err? <==> id !in credentials
      ensures r.Err? ==> r.code == ERR_NOT_FOUND
      ensures r == Ok(true) <==> id in credentials && !credentials[id].revoked && now < credentials[id].expiryDate
    {
      if id !in credentials then Err(ERR_NOT_FOUND) else Ok(IsLive(credentials[id], now))
    }

    // ---------------------------------------------------------------- issuers

    /** The caller registers itself as an issuer, unverified and with zero counters. */
    method RegisterIssuer(caller: Principal, name: string, issuerType: nat) returns (r: Result<bool>)
      requires Valid()
      modifies this
      ensures Valid() && Evolves(old(State()), State())
      ensures r.Ok? <==> !old(paused) && ValidIssuerType(issuerType) && caller !in old(issuers)
      ensures r.Err? ==> r.code == ERR_INVALID_PARAMETER && unchanged(this)
      ensures r.Ok? ==> (r.value
        && State() == old(State()).(issuers := old(issuers)[caller := Issuer(name, issuerType, false, 0, 0)]))
    {
      if paused || !ValidIssuerType(issuerType) || caller in issuers {
        return Err(ERR_INVALID_PARAMETER);
      }
      IssuerAddedConsistent(State(), caller, Issuer(name, issuerType, false, 0, 0));
      issuers := issuers[caller := Issuer(name, issuerType, false, 0, 0)];
      r := Ok(true);
    }

    /** The administrator marks a registered issuer verified, once. */
    method VerifyIssuer(caller: Principal, issuer: Principal) returns (r: Result<bool>)
      requires Valid()
      modifies this
      ensures Valid() && Evolves(old(State()), State())
      ensures !IsAdmin(caller) ==> r == Err(ERR_OWNER_ONLY)
      ensures IsAdmin(caller) && issuer !in old(issuers) ==> r == Err(ERR_NOT_AUTHORIZED)
      ensures IsAdmin(caller) && issuer in old(issuers) && old(issuers)[issuer].verified ==> r == Err(ERR_ALREADY_VERIFIED)
      ensures r.Ok? <==> IsAdmin(caller) && issuer in old(issuers) && !old(issuers)[issuer].verified
      ensures r.Err? ==> unchanged(this)
      ensures r.Ok? ==> (r.value
        && State() == old(State()).(issuers := old(issuers)[issuer := old(issuers)[issuer].(verified := true)]))
    {
      if !IsAdmin(caller) {
        return Err(ERR_OWNER_ONLY);
      }
      if issuer !in issuers {
        return Err(ERR_NOT_AUTHORIZED);
      }
      if issuers[issuer].verified {
        return Err(ERR_ALREADY_VERIFIED);
      }
      IssuerVerifiedConsistent(State(), issuer);
      issuers := issuers[issuer := issuers[issuer].(verified := true)];
      r := Ok(true);
    }

    // ------------------------------------------------------------- categories

    /** The administrator adds a new, active category with a zero count. */
    method AddSkillCategory(caller: Principal, name: string, description: string) returns (r: Result<bool>)
      requires Valid()
      modifies this
      ensures Valid() && Evolves(old(State()), State())
      ensures !IsAdmin(caller) ==> r == Err(ERR_OWNER_ONLY)
      ensures IsAdmin(caller) && name in old(categories) ==> r == Err(ERR_INVALID_PARAMETER)
      ensures r.Ok? <==> IsAdmin(caller) && name !in old(categories)
      ensures r.Err? ==> unchanged(this)
      ensures r.Ok? ==> (r.value
        && State() == old(State()).(categories := old(categories)[name := Category(true, 0, description)]))
    {
      if !IsAdmin(caller) {
        return Err(ERR_OWNER_ONLY);
      }
      if name in categories {
        return Err(ERR_INVALID_PARAMETER);
      }
      CategoryAddedConsistent(State(), name, Category(true, 0, description));
      categories := categories[name := Category(true, 0, description)];
      r := Ok(true);
    }

    /** The administrator deactivates an existing category; only `active` changes. */
    method DeactivateSkillCategory(caller: Principal, name: string) returns (r: Result<bool>)
      requires Valid()
      modifies this
      ensures Valid() && Evolves(old(State()), State())
      ensures !IsAdmin(caller) ==> r == Err(ERR_OWNER_ONLY)
      ensures IsAdmin(caller) && name !in old(categories) ==> r == Err(ERR_INVALID_PARAMETER)
      ensures r.Ok? <==> IsAdmin(caller) && name in old(categories)
      ensures r.Err? ==> unchanged(this)
      ensures r.Ok? ==> (r.value
        && State() == old(State()).(categories := old(categories)[name := old(categories)[name].(active := false)]))
    {
      if !IsAdmin(caller) {
        return Err(ERR_OWNER_ONLY);
      }
      if name !in categories {
        return Err(ERR_INVALID_PARAMETER);
      }
      CategoryDeactivatedConsistent(State(), name);
      categories := categories[name := categories[name].(active := false)];
      r := Ok(true);
    }

    // -------------------------------------------------------- administration

    /** The administrator sets the platform fee, at most 5 STX. */
    method SetPlatformFee(caller: Principal, amount: nat) returns (r: Result<bool>)
      requires Valid()
      modifies this
      ensures Valid() && Evolves(old(State()), State())
      ensures !IsAdmin(caller) ==> r == Err(ERR_OWNER_ONLY)
      ensures IsAdmin(caller) && amount > MAX_PLATFORM_FEE ==> r == Err(ERR_INVALID_PARAMETER)
      ensures r.Ok? <==> IsAdmin(caller) && amount <= MAX_PLATFORM_FEE
      ensures r.Err? ==> unchanged(this)
      ensures r.Ok? ==> r.value && State() == old(State()).(fee := amount)
    {
      if !IsAdmin(caller) {
        return Err(ERR_OWNER_ONLY);
      }
      if amount > MAX_PLATFORM_FEE {
        return Err(ERR_INVALID_PARAMETER);
      }
      SettingsChangedConsistent(State(), paused, amount);
      fee := amount;
      r := Ok(true);
    }

    /** The administrator flips the pause flag. */
    method ToggleContractPause(caller: Principal) returns (r: Result<bool>)
      requires Valid()
      modifies this
      ensures Valid() && Evolves(old(State()), State())
      ensures r.Ok? <==> IsAdmin(caller)
      ensures r.Err? ==> r.code == ERR_OWNER_ONLY && unchanged(this)
      ensures r.Ok? ==> r.value && State() == old(State()).(paused := !old(paused))
    {
      if !IsAdmin(caller) {
        return Err(ERR_OWNER_ONLY);
      }
      SettingsChangedConsistent(State(), !paused, fee);
      paused := !paused;
      r := Ok(true);
    }

    /** Only the authorization check of the fee withdrawal; the STX transfer is not modelled. */
    method WithdrawPlatformFees(caller: Principal) returns (r: Result<bool>)
      ensures r.Ok? <==> IsAdmin(caller)
      ensures r.Err? ==> r.code == ERR_OWNER_ONLY
      ensures r.Ok? ==> r.value
    {
      if !IsAdmin(caller) {
        return Err(ERR_OWNER_ONLY);
      }
      r := Ok(true);
    }

    // ----------------------------------------------------------- credentials

    /**
     * A verified issuer mints a credential to `holder` under the next id and
     * the cascade updates the holder profile, the issuer and the category.
     */
    method MintCredential(caller: Principal, now: nat, holder: Principal, skillName: string,
                          category: string, level: nat, duration: nat, metadataUri: string)
      returns (r: Result<nat>)
      requires Valid()
      modifies this
      ensures Valid() && Evolves(old(State()), State())
      ensures old(paused) ==> r == Err(ERR_INVALID_PARAMETER)
      ensures !old(paused) && !IsVerifiedIssuer(old(issuers), caller) ==> r == Err(ERR_NOT_VERIFIED)
      ensures !old(paused) && IsVerifiedIssuer(old(issuers), caller)
              && (!ValidLevel(level) || duration == 0 || !IsActiveCategory(old(categories), category))
              ==> r == Err(ERR_INVALID_PARAMETER)
      ensures r.Ok? <==> && !old(paused) && IsVerifiedIssuer(old(issuers), caller)
                         && ValidLevel(level) && duration > 0 && IsActiveCategory(old(categories), category)
      ensures r.Err? ==> unchanged(this)
      ensures r.Ok? ==> && r.value == old(total) + 1 && r.value !in old(credentials)
                        && State() == Minted(old(State()), Credential(holder, caller, skillName, category,
                             level, now, now + duration, true, metadataUri, false))
    {
      if paused {
        return Err(ERR_INVALID_PARAMETER);
      }
      if !IsVerifiedIssuer(issuers, caller) {
        return Err(ERR_NOT_VERIFIED);
      }
      if !ValidLevel(level) || duration == 0 || !IsActiveCategory(categories, category) {
        return Err(ERR_INVALID_PARAMETER);
      }
      var c := Credential(holder, caller, skillName, category, level, now, now + duration, true, metadataUri, false);
      ghost var s0 := State();
      MintedConsistent(s0, c);
      MintedEvolves(s0, c);
      var id := total + 1;
      credentials := credentials[id := c];
      profiles := profiles[holder := Credited(ProfileOf(profiles, holder), LevelPoints(level))];
      issuers := issuers[caller := IssuerCredited(issuers[caller])];
      categories := categories[category := CategoryCounted(categories[category])];
      total := id;
      assert State() == Minted(s0, c);
      r := Ok(id);
    }

    /** Administrator-only check that a credential exists; it changes nothing. */
    method VerifyCredentialAuthenticity(caller: Principal, id: nat) returns (r: Result<bool>)
      ensures !IsAdmin(caller) ==> r == Err(ERR_OWNER_ONLY)
      ensures IsAdmin(caller) && id !in credentials ==> r == Err(ERR_CREDENTIAL_NOT_FOUND)
      ensures r.Ok? <==> IsAdmin(caller) && id in credentials
      ensures r.Ok? ==> r.value
    {
      if !IsAdmin(caller) {
        return Err(ERR_OWNER_ONLY);
      }
      if id !in credentials {
        return Err(ERR_CREDENTIAL_NOT_FOUND);
      }
      r := Ok(true);
    }

    /** Issuer revocation is refused in this version of the contract: it never succeeds. */
    method RevokeCredential(caller: Principal, id: nat) returns (r: Result<bool>)
      ensures id !in credentials ==> r == Err(ERR_CREDENTIAL_NOT_FOUND)
      ensures id in credentials && caller != credentials[id].issuer ==> r == Err(ERR_NOT_AUTHORIZED)
      ensures id in credentials && caller == credentials[id].issuer ==> r == Err(ERR_INVALID_PARAMETER)
    {
      if id !in credentials {
        return Err(ERR_CREDENTIAL_NOT_FOUND);
      }
      if caller != credentials[id].issuer {
        return Err(ERR_NOT_AUTHORIZED);
      }
      r := Err(ERR_INVALID_PARAMETER);
    }

    /** The issuer extends a live or expired credential to `now + newDuration`. */
    method RenewCredential(caller: Principal, now: nat, id: nat, newDuration: nat) returns (r: Result<bool>)
      requires Valid()
      modifies this
      ensures Valid() && Evolves(old(State()), State())
      ensures old(paused) ==> r == Err(ERR_INVALID_PARAMETER)
      ensures !old(paused) && id !in old(credentials) ==> r == Err(ERR_CREDENTIAL_NOT_FOUND)
      ensures !old(paused) && id in old(credentials) && caller != old(credentials)[id].issuer
              ==> r == Err(ERR_NOT_AUTHORIZED)
      ensures !old(paused) && id in old(credentials) && caller == old(credentials)[id].issuer
              && (old(credentials)[id].revoked || newDuration == 0)
              ==> r == Err(ERR_INVALID_PARAMETER)
      ensures r.Ok? <==> && !old(paused) && id in old(credentials) && caller == old(credentials)[id].issuer
                         && !old(credentials)[id].revoked && newDuration > 0
      ensures r.Err? ==> unchanged(this)
      ensures r.Ok? ==> (r.value
        && State() == old(State()).(credentials := old(credentials)[id :=
             old(credentials)[id].(issueDate := now, expiryDate := now + newDuration)]))
    {
      if paused {
        return Err(ERR_INVALID_PARAMETER);
      }
      if id !in credentials {
        return Err(ERR_CREDENTIAL_NOT_FOUND);
      }
      var c := credentials[id];
      if caller != c.issuer {
        return Err(ERR_NOT_AUTHORIZED);
      }
      if c.revoked || newDuration == 0 {
        return Err(ERR_INVALID_PARAMETER);
      }
      var renewed := c.(issueDate := now, expiryDate := now + newDuration);
      RecordRewrittenConsistent(State(), id, renewed);
      RecordRewrittenEvolves(State(), id, renewed);
      credentials := credentials[id := renewed];
      r := Ok(true);
    }

    /**
     * The current holder hands a live credential to `newHolder`; the
     * credential's contribution moves from the old holder's profile to the new one's.
     */
    method TransferCredential(caller: Principal, now: nat, id: nat, newHolder: Principal) returns (r: Result<bool>)
      requires Valid()
      modifies this
      ensures Valid() && Evolves(old(State()), State())
      ensures id !in old(credentials) ==> r == Err(ERR_CREDENTIAL_NOT_FOUND)
      ensures id in old(credentials) && caller != old(credentials)[id].holder ==> r == Err(ERR_NOT_AUTHORIZED)
      ensures id in old(credentials) && caller == old(credentials)[id].holder && old(credentials)[id].revoked
              ==> r == Err(ERR_INVALID_PARAMETER)
      ensures id in old(credentials) && caller == old(credentials)[id].holder && !old(credentials)[id].revoked
              && now >= old(credentials)[id].expiryDate
              ==> r == Err(ERR_EXPIRED_CREDENTIAL)
      ensures r.Ok? <==> id in old(credentials) && caller == old(credentials)[id].holder
                         && IsLive(old(credentials)[id], now)
      ensures r.Err? ==> unchanged(this)
      ensures r.Ok? ==> r.value && Debitable(old(State()), id) && State() == Transferred(old(State()), id, newHolder)
    {
      if id !in credentials {
        return Err(ERR_CREDENTIAL_NOT_FOUND);
      }
      var c := credentials[id];
      if caller != c.holder {
        return Err(ERR_NOT_AUTHORIZED);
      }
      if c.revoked {
        return Err(ERR_INVALID_PARAMETER);
      }
      if now >= c.expiryDate {
        return Err(ERR_EXPIRED_CREDENTIAL);
      }
      ghost var s0 := State();
      HolderCanBeDebited(s0, id);
      TransferredConsistent(s0, id, newHolder);
      TransferredEvolves(s0, id, newHolder);
      var points := LevelPoints(c.level);
      credentials := credentials[id := c.(holder := newHolder)];
      profiles := profiles[c.holder := Debited(profiles[c.holder], points)];
      profiles := profiles[newHolder := Credited(ProfileOf(profiles, newHolder), points)];
      assert State() == Transferred(s0, id, newHolder);
      r := Ok(true);
    }

    /** The administrator revokes any credential, expired or not; only `revoked` changes. */
    method EmergencyRevokeCredential(caller: Principal, id: nat) returns (r: Result<bool>)
      requires Valid()
      modifies this
      ensures Valid() && Evolves(old(State()), State())
      ensures !IsAdmin(caller) ==> r == Err(ERR_OWNER_ONLY)
      ensures IsAdmin(caller) && id !in old(credentials) ==> r == Err(ERR_CREDENTIAL_NOT_FOUND)
      ensures r.Ok? <==> IsAdmin(caller) && id in old(credentials)
      ensures r.Err? ==> unchanged(this)
      ensures r.Ok? ==> (r.value
        && State() == old(State()).(credentials := old(credentials)[id := old(credentials)[id].(revoked := true)]))
    {
      if !IsAdmin(caller) {
        return Err(ERR_OWNER_ONLY);
      }
      if id !in credentials {
        return Err(ERR_CREDENTIAL_NOT_FOUND);
      }
      var revoked := credentials[id].(revoked := true);
      RecordRewrittenConsistent(State(), id, revoked);
      RecordRewrittenEvolves(State(), id, revoked);
      credentials := credentials[id := revoked];
      r := Ok(true);
    }
  }
}
