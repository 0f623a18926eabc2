/**
 * The registry's state as a value, the invariant that ties its aggregates to
 * the credentials store, and the cascades that mint and transfer apply to it.
 *
 * The invariant says that the holder profiles, issuer statistics and category
 * statistics are never recomputed but always EQUAL what a recount over the
 * credentials store would give: a holder's counts are the credentials it holds
 * now (revoked or expired ones included), an issuer's counts the credentials it
 * minted, a category's count the credentials minted under it.
 */
module Bookkeeping {
  import opened CertTypes
  import opened Aggregates

  /** The contract's four keyed stores and global variables. */
  datatype RegistryState = RegistryState(
    issuers: map<Principal, Issuer>,
    categories: map<string, Category>,
    credentials: map<nat, Credential>,
    profiles: map<Principal, Profile>,
    total: nat,
    paused: bool,
    fee: nat)

  /** Credential ids are exactly 1..total. */
  ghost predicate IdsDense(s: RegistryState) {
    forall id :: id in s.credentials <==> 1 <= id <= s.total
  }

  /**
   * What a stored credential refers to: a verified issuer, an existing category
   * and an existing holder profile; its level is in range and it was minted verified.
   */
  ghost predicate Recorded(s: RegistryState, c: Credential) {
    && c.issuer in s.issuers && s.issuers[c.issuer].verified
    && c.skillCategory in s.categories
    && ValidLevel(c.level) && c.verified
    && c.holder in s.profiles
  }

  ghost predicate RecordsSound(s: RegistryState) {
    forall id {:trigger Recorded(s, s.credentials[id])} :: id in s.credentials ==> Recorded(s, s.credentials[id])
  }

  ghost predicate ProfileMatches(s: RegistryState, h: Principal)
    requires h in s.profiles
  {
    var held := Tally(s.credentials, s.total, HeldBy(h));
    s.profiles[h] == Profile(held, held, Tally(s.credentials, s.total, PointsOf(h)), true)
  }

  ghost predicate ProfilesTally(s: RegistryState) {
    forall h {:trigger ProfileMatches(s, h)} :: h in s.profiles ==> ProfileMatches(s, h)
  }

  ghost predicate IssuerMatches(s: RegistryState, i: Principal)
    requires i in s.issuers
  {
    var issued := Tally(s.credentials, s.total, IssuedBy(i));
    s.issuers[i].credentialsIssued == issued && s.issuers[i].reputationScore == issued
  }

  ghost predicate IssuersTally(s: RegistryState) {
    forall i {:trigger IssuerMatches(s, i)} :: i in s.issuers ==> IssuerMatches(s, i)
  }

  ghost predicate CategoryMatches(s: RegistryState, name: string)
    requires name in s.categories
  {
    s.categories[name].totalCredentials == Tally(s.credentials, s.total, InCategory(name))
  }

  ghost predicate CategoriesTally(s: RegistryState) {
    forall name {:trigger CategoryMatches(s, name)} :: name in s.categories ==> CategoryMatches(s, name)
  }

  /** The invariant of the registry between calls; the fee stays within its bound. */
  ghost predicate Consistent(s: RegistryState) {
    && IdsDense(s) && RecordsSound(s) && ProfilesTally(s) && IssuersTally(s) && CategoriesTally(s)
    && s.fee <= MAX_PLATFORM_FEE
  }

  /** The freshly deployed registry. */
  function Deployed(fee: nat): RegistryState {
    RegistryState(map[], map[], map[], map[], 0, false, fee)
  }

  lemma DeployedConsistent(fee: nat)
    requires fee <= MAX_PLATFORM_FEE
    ensures Consistent(Deployed(fee))
  {
  }

  /**
   * A holder with no profile holds nothing: its aggregates count zero.
   * This is what lets mint and transfer-in start from a fresh profile.
   */
  lemma AbsentHolderTallies(s: RegistryState, h: Principal)
    requires RecordsSound(s) && h !in s.profiles
    ensures Tally(s.credentials, s.total, HeldBy(h)) == 0
    ensures Tally(s.credentials, s.total, PointsOf(h)) == 0
  {
    forall k | 1 <= k <= s.total && k in s.credentials
      ensures Weight(HeldBy(h), s.credentials[k]) == 0 && Weight(PointsOf(h), s.credentials[k]) == 0
    {
      assert Recorded(s, s.credentials[k]);
    }
    TallyZero(s.credentials, s.total, HeldBy(h));
    TallyZero(s.credentials, s.total, PointsOf(h));
  }

  /**
   * Credential `id` is stored and its holder's profile covers the credential's
   * contribution, so moving it out of that profile cannot underflow.
   */
  predicate Debitable(s: RegistryState, id: nat) {
    && id in s.credentials
    && ValidLevel(s.credentials[id].level)
    && s.credentials[id].holder in s.profiles
    && var p := s.profiles[s.credentials[id].holder];
       p.totalCredentials >= 1 && p.verifiedCredentials >= 1
       && p.skillPoints >= LevelPoints(s.credentials[id].level)
  }

  /** A holder of a credential has a profile that can give that credential up. */
  lemma HolderCanBeDebited(s: RegistryState, id: nat)
    requires Consistent(s) && id in s.credentials
    ensures Debitable(s, id)
  {
    var c := s.credentials[id];
    assert Recorded(s, c);
    assert ProfileMatches(s, c.holder);
    TallyAtLeast(s.credentials, s.total, HeldBy(c.holder), id);
    TallyAtLeast(s.credentials, s.total, PointsOf(c.holder), id);
  }

  /** The state after a mint of credential `c` under the next id. */
  function Minted(s: RegistryState, c: Credential): RegistryState
    requires c.issuer in s.issuers && c.skillCategory in s.categories && ValidLevel(c.level)
  {
    s.(issuers := s.issuers[c.issuer := IssuerCredited(s.issuers[c.issuer])],
       categories := s.categories[c.skillCategory := CategoryCounted(s.categories[c.skillCategory])],
       credentials := s.credentials[s.total + 1 := c],
       profiles := s.profiles[c.holder := Credited(ProfileOf(s.profiles, c.holder), LevelPoints(c.level))],
       total := s.total + 1)
  }

  /** A mint by a verified issuer under an existing category keeps the invariant. */
  lemma MintedConsistent(s: RegistryState, c: Credential)
    requires Consistent(s)
    requires c.issuer in s.issuers && s.issuers[c.issuer].verified
    requires c.skillCategory in s.categories && ValidLevel(c.level) && c.verified
    ensures Consistent(Minted(s, c))
  {
    var t := Minted(s, c);
    forall id ensures id in t.credentials <==> 1 <= id <= t.total {
      assert id in s.credentials <==> 1 <= id <= s.total;
    }
    forall id | id in t.credentials ensures Recorded(t, t.credentials[id]) {
      if id != s.total + 1 {
        assert Recorded(s, s.credentials[id]);
      }
    }
    MintedProfiles(s, c);
    MintedIssuers(s, c);
    MintedCategories(s, c);
  }

  lemma MintedProfiles(s: RegistryState, c: Credential)
    requires Consistent(s)
    requires c.issuer in s.issuers && c.skillCategory in s.categories && ValidLevel(c.level)
    ensures ProfilesTally(Minted(s, c))
  {
    var t := Minted(s, c);
    forall h | h in t.profiles ensures ProfileMatches(t, h) {
      TallyAppend(s.credentials, s.total, HeldBy(h), c);
      TallyAppend(s.credentials, s.total, PointsOf(h), c);
      if h in s.profiles {
        assert ProfileMatches(s, h);
      } else {
        AbsentHolderTallies(s, h);
      }
    }
  }

  lemma MintedIssuers(s: RegistryState, c: Credential)
    requires Consistent(s)
    requires c.issuer in s.issuers && c.skillCategory in s.categories && ValidLevel(c.level)
    ensures IssuersTally(Minted(s, c))
  {
    var t := Minted(s, c);
    forall i | i in t.issuers ensures IssuerMatches(t, i) {
      TallyAppend(s.credentials, s.total, IssuedBy(i), c);
      assert IssuerMatches(s, i);
    }
  }

  lemma MintedCategories(s: RegistryState, c: Credential)
    requires Consistent(s)
    requires c.issuer in s.issuers && c.skillCategory in s.categories && ValidLevel(c.level)
    ensures CategoriesTally(Minted(s, c))
  {
    var t := Minted(s, c);
    forall name | name in t.categories ensures CategoryMatches(t, name) {
      TallyAppend(s.credentials, s.total, InCategory(name), c);
      assert CategoryMatches(s, name);
    }
  }

  /**
   * The state after credential `id` moves to `newHolder`: only the holder field
   * of the record changes; the old holder's profile gives up the credential's
   * contribution and then the new holder's profile (fresh if absent) takes it.
   */
  function Transferred(s: RegistryState, id: nat, newHolder: Principal): RegistryState
    requires Debitable(s, id)
  {
    var c := s.credentials[id];
    var w := LevelPoints(c.level);
    var debited := s.profiles[c.holder := Debited(s.profiles[c.holder], w)];
    s.(credentials := s.credentials[id := c.(holder := newHolder)],
       profiles := debited[newHolder := Credited(ProfileOf(debited, newHolder), w)])
  }

  /**
   * A transfer moves the record to the new holder and its whole contribution
   * (one credential, one verified credential, its level's points) from the old
   * holder's profile to the new holder's, creating that profile if needed;
   * every other profile, the issuers, the categories and the counter stay put.
   */
  lemma TransferredEffect(s: RegistryState, id: nat, newHolder: Principal)
    requires Debitable(s, id)
    ensures var c := s.credentials[id];
            var t := Transferred(s, id, newHolder);
            var w := LevelPoints(c.level);
            && t.credentials == s.credentials[id := c.(holder := newHolder)]
            && t.profiles.Keys == s.profiles.Keys + {newHolder}
            && c.holder in s.profiles
            && (c.holder != newHolder ==>
                  var before := s.profiles[c.holder];
                  var after := t.profiles[c.holder];
                  && after.totalCredentials == before.totalCredentials - 1
                  && after.verifiedCredentials == before.verifiedCredentials - 1
                  && after.skillPoints == before.skillPoints - w
                  && after.profileActive == before.profileActive
                  && t.profiles[newHolder] == Credited(ProfileOf(s.profiles, newHolder), w))
            && (c.holder == newHolder ==> t.profiles == s.profiles)
            && (forall h :: h in s.profiles && h != c.holder && h != newHolder ==>
                  h in t.profiles && t.profiles[h] == s.profiles[h])
            && t.issuers == s.issuers && t.categories == s.categories && t.total == s.total
  {
  }

  /** A transfer keeps the invariant. */
  lemma TransferredConsistent(s: RegistryState, id: nat, newHolder: Principal)
    requires Consistent(s) && Debitable(s, id)
    ensures Consistent(Transferred(s, id, newHolder))
  {
    var t := Transferred(s, id, newHolder);
    forall k | k in t.credentials ensures Recorded(t, t.credentials[k]) {
      assert Recorded(s, s.credentials[k]);
    }
    TransferredProfiles(s, id, newHolder);
    TransferredOthers(s, id, newHolder);
  }

  lemma TransferredProfiles(s: RegistryState, id: nat, newHolder: Principal)
    requires Consistent(s) && Debitable(s, id)
    ensures ProfilesTally(Transferred(s, id, newHolder))
  {
    var t := Transferred(s, id, newHolder);
    var c' := s.credentials[id].(holder := newHolder);
    assert 1 <= id <= s.total;
    forall h | h in t.profiles ensures ProfileMatches(t, h) {
      TallyReplace(s.credentials, s.total, HeldBy(h), id, c');
      TallyReplace(s.credentials, s.total, PointsOf(h), id, c');
      if h in s.profiles {
        assert ProfileMatches(s, h);
      } else {
        AbsentHolderTallies(s, h);
      }
    }
  }

  lemma TransferredOthers(s: RegistryState, id: nat, newHolder: Principal)
    requires Consistent(s) && Debitable(s, id)
    ensures IssuersTally(Transferred(s, id, newHolder))
    ensures CategoriesTally(Transferred(s, id, newHolder))
  {
    var t := Transferred(s, id, newHolder);
    var c' := s.credentials[id].(holder := newHolder);
    assert 1 <= id <= s.total;
    forall i | i in t.issuers ensures IssuerMatches(t, i) {
      TallyReplace(s.credentials, s.total, IssuedBy(i), id, c');
      assert IssuerMatches(s, i);
    }
    forall name | name in t.categories ensures CategoryMatches(t, name) {
      TallyReplace(s.credentials, s.total, InCategory(name), id, c');
      assert CategoryMatches(s, name);
    }
  }

  /**
   * Rewriting a stored credential without touching its holder, issuer, category,
   * level or verified flag (revocation, renewal) keeps the invariant.
   */
  lemma RecordRewrittenConsistent(s: RegistryState, id: nat, c': Credential)
    requires Consistent(s) && id in s.credentials
    requires var c := s.credentials[id];
             c'.holder == c.holder && c'.issuer == c.issuer && c'.skillCategory == c.skillCategory
             && c'.level == c.level && c'.verified == c.verified
    ensures Consistent(s.(credentials := s.credentials[id := c']))
  {
    var t := s.(credentials := s.credentials[id := c']);
    var c := s.credentials[id];
    assert 1 <= id <= s.total;
    forall m: Measure ensures Tally(t.credentials, t.total, m) == Tally(s.credentials, s.total, m) {
      TallyReplace(s.credentials, s.total, m, id, c');
      assert Weight(m, c) == Weight(m, c');
    }
    forall k | k in t.credentials ensures Recorded(t, t.credentials[k]) {
      assert Recorded(s, s.credentials[k]);
    }
    forall h | h in t.profiles ensures ProfileMatches(t, h) {
      assert ProfileMatches(s, h);
    }
    forall i | i in t.issuers ensures IssuerMatches(t, i) {
      assert IssuerMatches(s, i);
    }
    forall name | name in t.categories ensures CategoryMatches(t, name) {
      assert CategoryMatches(s, name);
    }
  }

  /** Changing the pause flag, or setting a fee within its bound, keeps the invariant. */
  lemma SettingsChangedConsistent(s: RegistryState, paused: bool, fee: nat)
    requires Consistent(s) && fee <= MAX_PLATFORM_FEE
    ensures Consistent(s.(paused := paused, fee := fee))
  {
    var t := s.(paused := paused, fee := fee);
    forall k | k in t.credentials ensures Recorded(t, t.credentials[k]) {
      assert Recorded(s, s.credentials[k]);
    }
    forall h | h in t.profiles ensures ProfileMatches(t, h) {
      assert ProfileMatches(s, h);
    }
    forall i | i in t.issuers ensures IssuerMatches(t, i) {
      assert IssuerMatches(s, i);
    }
    forall name | name in t.categories ensures CategoryMatches(t, name) {
      assert CategoryMatches(s, name);
    }
  }

  /** Registering a new issuer with zero counters keeps the invariant. */
  lemma IssuerAddedConsistent(s: RegistryState, i: Principal, rec: Issuer)
    requires Consistent(s) && i !in s.issuers
    requires rec.credentialsIssued == 0 && rec.reputationScore == 0
    ensures Consistent(s.(issuers := s.issuers[i := rec]))
  {
    var t := s.(issuers := s.issuers[i := rec]);
    forall k | k in t.credentials ensures Recorded(t, t.credentials[k]) {
      assert Recorded(s, s.credentials[k]);
    }
    forall j | j in t.issuers ensures IssuerMatches(t, j) {
      if j == i {
        forall k | 1 <= k <= s.total && k in s.credentials
          ensures Weight(IssuedBy(i), s.credentials[k]) == 0
        {
          assert Recorded(s, s.credentials[k]);
        }
        TallyZero(s.credentials, s.total, IssuedBy(i));
      } else {
        assert IssuerMatches(s, j);
      }
    }
    forall h | h in t.profiles ensures ProfileMatches(t, h) {
      assert ProfileMatches(s, h);
    }
    forall name | name in t.categories ensures CategoryMatches(t, name) {
      assert CategoryMatches(s, name);
    }
  }

  /** Marking a registered issuer verified keeps the invariant. */
  lemma IssuerVerifiedConsistent(s: RegistryState, i: Principal)
    requires Consistent(s) && i in s.issuers
    ensures Consistent(s.(issuers := s.issuers[i := s.issuers[i].(verified := true)]))
  {
    var t := s.(issuers := s.issuers[i := s.issuers[i].(verified := true)]);
    forall k | k in t.credentials ensures Recorded(t, t.credentials[k]) {
      assert Recorded(s, s.credentials[k]);
    }
    forall j | j in t.issuers ensures IssuerMatches(t, j) {
      assert IssuerMatches(s, j);
    }
    forall h | h in t.profiles ensures ProfileMatches(t, h) {
      assert ProfileMatches(s, h);
    }
    forall name | name in t.categories ensures CategoryMatches(t, name) {
      assert CategoryMatches(s, name);
    }
  }

  /** Adding a new category with a zero count keeps the invariant. */
  lemma CategoryAddedConsistent(s: RegistryState, name: string, rec: Category)
    requires Consistent(s) && name !in s.categories && rec.totalCredentials == 0
    ensures Consistent(s.(categories := s.categories[name := rec]))
  {
    var t := s.(categories := s.categories[name := rec]);
    forall k | k in t.credentials ensures Recorded(t, t.credentials[k]) {
      assert Recorded(s, s.credentials[k]);
    }
    forall other | other in t.categories ensures CategoryMatches(t, other) {
      if other == name {
        forall k | 1 <= k <= s.total && k in s.credentials
          ensures Weight(InCategory(name), s.credentials[k]) == 0
        {
          assert Recorded(s, s.credentials[k]);
        }
        TallyZero(s.credentials, s.total, InCategory(name));
      } else {
        assert CategoryMatches(s, other);
      }
    }
    forall h | h in t.profiles ensures ProfileMatches(t, h) {
      assert ProfileMatches(s, h);
    }
    forall i | i in t.issuers ensures IssuerMatches(t, i) {
      assert IssuerMatches(s, i);
    }
  }

  /** Deactivating an existing category keeps the invariant. */
  lemma CategoryDeactivatedConsistent(s: RegistryState, name: string)
    requires Consistent(s) && name in s.categories
    ensures Consistent(s.(categories := s.categories[name := s.categories[name].(active := false)]))
  {
    var t := s.(categories := s.categories[name := s.categories[name].(active := false)]);
    forall k | k in t.credentials ensures Recorded(t, t.credentials[k]) {
      assert Recorded(s, s.credentials[k]);
    }
    forall other | other in t.categories ensures CategoryMatches(t, other) {
      assert CategoryMatches(s, other);
    }
    forall h | h in t.profiles ensures ProfileMatches(t, h) {
      assert ProfileMatches(s, h);
    }
    forall i | i in t.issuers ensures IssuerMatches(t, i) {
      assert IssuerMatches(s, i);
    }
  }

  /**
   * How any single call may change the state: the id counter never goes
   * down, nothing is ever deleted, a revoked credential is frozen (so it is
   * never un-revoked), a credential's issuer, skill, category, level, metadata
   * and verified flag never change, a verified issuer stays verified, a
   * deactivated category stays deactivated, and no issuer's or category's
   * counters go down.
   */
  ghost predicate Evolves(s: RegistryState, t: RegistryState) {
    && s.total <= t.total
    && (forall id :: id in s.credentials ==>
          && id in t.credentials
          && (s.credentials[id].revoked ==> t.credentials[id] == s.credentials[id])
          && SameIdentity(s.credentials[id], t.credentials[id]))
    && (forall i :: i in s.issuers ==>
          && i in t.issuers
          && (s.issuers[i].verified ==> t.issuers[i].verified)
          && s.issuers[i].credentialsIssued <= t.issuers[i].credentialsIssued
          && s.issuers[i].reputationScore <= t.issuers[i].reputationScore)
    && (forall name :: name in s.categories ==>
          && name in t.categories
          && (!s.categories[name].active ==> !t.categories[name].active)
          && s.categories[name].totalCredentials <= t.categories[name].totalCredentials)
    && s.profiles.Keys <= t.profiles.Keys
  }

  /** The fields of a credential fixed at mint. */
  ghost predicate SameIdentity(c: Credential, d: Credential) {
    && c.issuer == d.issuer && c.skillName == d.skillName && c.skillCategory == d.skillCategory
    && c.level == d.level && c.verified == d.verified && c.metadataUri == d.metadataUri
  }

  lemma MintedEvolves(s: RegistryState, c: Credential)
    requires IdsDense(s)
    requires c.issuer in s.issuers && c.skillCategory in s.categories && ValidLevel(c.level)
    ensures s.total + 1 !in s.credentials
    ensures Minted(s, c).credentials.Keys == s.credentials.Keys + {s.total + 1}
    ensures Minted(s, c).credentials[s.total + 1] == c
    ensures forall id :: id in s.credentials ==> Minted(s, c).credentials[id] == s.credentials[id]
    ensures Evolves(s, Minted(s, c))
  {
    assert s.total + 1 !in s.credentials;
  }

  lemma TransferredEvolves(s: RegistryState, id: nat, newHolder: Principal)
    requires IdsDense(s) && Debitable(s, id) && !s.credentials[id].revoked
    ensures Evolves(s, Transferred(s, id, newHolder))
  {
  }

  /** Rewriting an unrevoked record, or rewriting a revoked one to itself, is an allowed change. */
  lemma RecordRewrittenEvolves(s: RegistryState, id: nat, c': Credential)
    requires id in s.credentials && SameIdentity(s.credentials[id], c')
    requires s.credentials[id].revoked ==> c' == s.credentials[id]
    ensures Evolves(s, s.(credentials := s.credentials[id := c']))
  {
  }

  /** The guarantees of Evolves carry over any sequence of calls. */
  lemma EvolvesTransitive(s: RegistryState, t: RegistryState, u: RegistryState)
    requires Evolves(s, t) && Evolves(t, u)
    ensures Evolves(s, u)
  {
  }

  /** Once revoked, a credential stays stored, revoked and unchanged, and never reads as live again. */
  lemma RevokedStaysInvalid(s: RegistryState, t: RegistryState, id: nat, now: nat)
    requires Evolves(s, t) && id in s.credentials && s.credentials[id].revoked
    ensures id in t.credentials && t.credentials[id] == s.credentials[id]
    ensures !IsLive(t.credentials[id], now)
  {
  }

  /** The number of stored credentials is the id counter. */
  lemma {:induction false} DenseCount(ids: set<nat>, n: nat)
    requires forall id :: id in ids <==> 1 <= id <= n
    ensures |ids| == n
  {
    if n > 0 {
      DenseCount(ids - {n}, n - 1);
    } else {
      assert ids == {};
    }
  }
}
