# SkillCert credential registry in Dafny

SkillCert is a Clarity smart contract (`skill-cert`) that keeps a registry of skill
credentials. Four keyed stores make up its state: issuers, skill categories,
credentials and holder profiles. It also has an id counter, a pause flag and a
platform fee. The administrator (the deployer) verifies issuers, manages the
categories, sets the fee and pauses the contract. A verified issuer mints a
credential to a holder, and a mint cascades into the holder's profile, the
issuer's statistics and the category's count. The issuer renews its credentials,
the holder transfers them, and the administrator can revoke any of them in an
emergency. The contract's behaviour is pinned down call by call in
`skill_cert/tests/skill_cert.test.ts`, and that file is what this model follows.

The model has five modules:

- `CertTypes` (`CertTypes.dfy`): the records, `Result`/`Option`, the error codes
  0 and 100–106, the issuer-type and level constants, the table from level to
  points, and the profile updates for a credential coming in or going out.
- `Aggregates` (`Aggregates.dfy`): `Tally`, which re-counts the credentials
  store by a `Measure`. A measure is one of: the credentials a holder holds,
  their points, the credentials an issuer issued, or those minted under a category.
- `Bookkeeping` (`Bookkeeping.dfy`): the state as a value (`RegistryState`). It
  holds the invariant `Consistent`: ids are exactly 1..total, every record refers
  to a verified issuer, an existing category and an existing profile, every
  stored aggregate equals its recount, and the fee is at most 5,000,000. It also holds the mint and transfer
  cascades as functions (`Minted`, `Transferred`) with the lemmas that they keep
  the invariant. Finally it holds `Evolves`, how one call may change the state:
  nothing is deleted, revoked means frozen, verified stays verified, issuer and
  category counters never decrease, and so on.
- `Registry` (`Registry.dfy`): class `SkillCertRegistry`, with the contract's
  stores as map fields.
  - Every public function is a method that changes the fields in place.
  - Every method takes the caller and, where time matters, the block height
    `now` as parameters.
  - Every state-changing method keeps `Valid()` and `Evolves`.
  - Each method states every error code by case.
  - A failing call leaves every field as it was.
  - A successful call states its exact new state.
- `Scenarios` (`Scenarios.dfy`): the test suite's call sequences replayed
  against the class, each promising the responses and read-back tuples that
  the suite asserts. Some depart from the suite, and their rows say so:
  `SecondMint` reads back the second id, which the suite never reads;
  `RefusedRevocationKeepsCredential` shows what the refused issuer revocation
  leaves behind; `RevokedIsFrozen` and the validity read-back of
  `EmergencyRevocation` revoke with the administrator's emergency revocation
  where the suite calls the issuer's (see "## Left out").

## Model

| member | source | states |
|---|---|---|
| CertTypes.LevelPoints | skill_cert/tests/skill_cert.test.ts:519-549 | levels 1, 2, 3 and 4 earn exactly 10, 25, 50 and 100 points (the suite's table), at least ten per level |
| CertTypes.LevelPointsIncreasing | skill_cert/tests/skill_cert.test.ts:519-549 | a higher certification level earns strictly more points |
| CertTypes.DebitedUndoesCredited | skill_cert/tests/skill_cert.test.ts:783-815 | giving a credential up exactly undoes receiving it (count, verified count, points) |
| CertTypes.CreditedUndoesDebited | skill_cert/tests/skill_cert.test.ts:783-815 | receiving a credential back exactly undoes giving it up |
| Aggregates.TallyAppend | skill_cert/tests/skill_cert.test.ts:353-414 | storing a credential under the next id raises every recount by exactly that credential's weight |
| Aggregates.TallyReplace | skill_cert/tests/skill_cert.test.ts:760-815 | rewriting one stored record changes each recount by the new weight minus the old |
| Aggregates.TallyAtLeast | skill_cert/tests/skill_cert.test.ts:783-798 | a recount is at least the weight of any one record it covers |
| Aggregates.TallyZero | skill_cert/tests/skill_cert.test.ts:353-372 | a recount over records that all weigh nothing is zero |
| Bookkeeping.DeployedConsistent | skill_cert/tests/skill_cert.test.ts:31-54 | the freshly deployed registry (empty stores, counter 0, a fee within the bound) satisfies the invariant |
| Bookkeeping.AbsentHolderTallies | skill_cert/tests/skill_cert.test.ts:353-372 | a holder without a profile holds nothing, so a profile created at first credential starts from zero |
| Bookkeeping.HolderCanBeDebited | skill_cert/tests/skill_cert.test.ts:783-798 | under the invariant the holder of a stored credential has a profile with at least that credential's count and points, so a transfer-out never underflows |
| Bookkeeping.MintedConsistent | skill_cert/tests/skill_cert.test.ts:353-414 | a mint by a verified issuer under an existing category keeps every aggregate equal to its recount |
| Bookkeeping.MintedProfiles | skill_cert/tests/skill_cert.test.ts:353-372 | after a mint every profile, the holder's new or raised one included, equals its recount |
| Bookkeeping.MintedIssuers | skill_cert/tests/skill_cert.test.ts:374-394 | after a mint every issuer's credentials-issued and reputation score equal its recount |
| Bookkeeping.MintedCategories | skill_cert/tests/skill_cert.test.ts:396-414 | after a mint every category's total equals its recount |
| Bookkeeping.TransferredEffect | skill_cert/tests/skill_cert.test.ts:760-815 | a transfer changes only the record's holder. It moves one credential, one verified credential and the level's points from the old holder's profile to the new holder's, creating that profile if needed; the old profile stays active. Every other profile, the issuers, the categories and the counter are untouched |
| Bookkeeping.TransferredConsistent | skill_cert/tests/skill_cert.test.ts:760-815 | a transfer keeps the invariant |
| Bookkeeping.TransferredProfiles | skill_cert/tests/skill_cert.test.ts:783-815 | after a transfer every profile equals its recount |
| Bookkeeping.TransferredOthers | skill_cert/tests/skill_cert.test.ts:760-781 | a transfer leaves every issuer's and category's recount as it was |
| Bookkeeping.RecordRewrittenConsistent | skill_cert/tests/skill_cert.test.ts:655-677 | rewriting a record without touching holder, issuer, category, level or verified flag (renewal, revocation) keeps the invariant |
| Bookkeeping.SettingsChangedConsistent | skill_cert/tests/skill_cert.test.ts:239-285 | changing the pause flag, or setting a fee within the 5,000,000 bound, keeps the invariant |
| Bookkeeping.IssuerAddedConsistent | skill_cert/tests/skill_cert.test.ts:63-88 | registering a new issuer with zero counters keeps the invariant |
| Bookkeeping.IssuerVerifiedConsistent | skill_cert/tests/skill_cert.test.ts:138-159 | setting an issuer's verified flag keeps the invariant |
| Bookkeeping.CategoryAddedConsistent | skill_cert/tests/skill_cert.test.ts:189-212 | adding a new category with a zero count keeps the invariant |
| Bookkeeping.CategoryDeactivatedConsistent | skill_cert/tests/skill_cert.test.ts:976-997 | deactivating a category keeps the invariant |
| Bookkeeping.MintedEvolves | skill_cert/tests/skill_cert.test.ts:313-351 | a mint adds a record under a fresh id and changes no existing record |
| Bookkeeping.TransferredEvolves | skill_cert/tests/skill_cert.test.ts:760-781 | a transfer of an unrevoked credential changes none of the fields fixed at mint |
| Bookkeeping.RecordRewrittenEvolves | skill_cert/tests/skill_cert.test.ts:931-949 | rewriting an unrevoked record while keeping its identity, or a revoked one to itself, is an allowed change |
| Bookkeeping.EvolvesTransitive | skill_cert/tests/skill_cert.test.ts:697-706 | the guarantees of a single call (no deletion, revoked means frozen, verified stays verified, deactivated stays deactivated, issuer and category counters never decrease) hold over any sequence of calls |
| Bookkeeping.RevokedStaysInvalid | skill_cert/tests/skill_cert.test.ts:893-898 | after any allowed change, a revoked credential is still stored, unchanged and not live |
| Bookkeeping.DenseCount | skill_cert/tests/skill_cert.test.ts:416-428 | ids 1..n form a set of exactly n elements |
| Registry.SkillCertRegistry.constructor | skill_cert/tests/skill_cert.test.ts:31-54 | deployment with a fee within the 5,000,000 bound gives empty stores, counter 0, not paused, the deployer as administrator, and the invariant |
| Registry.SkillCertRegistry.GetCredentialDetails | skill_cert/tests/skill_cert.test.ts:31-34 | `none` exactly for an unknown id, otherwise the stored record |
| Registry.SkillCertRegistry.GetIssuerInfo | skill_cert/tests/skill_cert.test.ts:36-39 | `none` exactly for an unregistered issuer, otherwise its record |
| Registry.SkillCertRegistry.GetHolderProfile | skill_cert/tests/skill_cert.test.ts:41-44 | `none` exactly for a principal with no profile, otherwise its profile |
| Registry.SkillCertRegistry.GetSkillCategory | skill_cert/tests/skill_cert.test.ts:46-49 | `none` exactly for an unknown category, otherwise its record |
| Registry.SkillCertRegistry.GetTotalCredentials | skill_cert/tests/skill_cert.test.ts:51-54 | the counter equals the number of credentials stored |
| Registry.SkillCertRegistry.IsCredentialValid | skill_cert/tests/skill_cert.test.ts:56-59 | `err u0` exactly for an unknown id; `ok true` exactly when the credential is not revoked and `now` is before its expiry |
| Registry.SkillCertRegistry.RegisterIssuer | skill_cert/tests/skill_cert.test.ts:63-127 | it succeeds exactly when the contract is not paused, the type is 1–3 and the caller is new. Success stores `{name, type, unverified, 0, 0}` for the caller and nothing else; any failure is `err 103` with no change |
| Registry.SkillCertRegistry.VerifyIssuer | skill_cert/tests/skill_cert.test.ts:138-185 | a non-administrator gets 100, an unknown issuer 101 and an already verified one 104. Otherwise only that issuer's verified flag is set |
| Registry.SkillCertRegistry.AddSkillCategory | skill_cert/tests/skill_cert.test.ts:189-236 | a non-administrator gets 100 and a duplicate name 103. Otherwise the category `{active, 0, description}` is added and nothing else changes |
| Registry.SkillCertRegistry.DeactivateSkillCategory | skill_cert/tests/skill_cert.test.ts:976-1013 | a non-administrator gets 100 and an unknown name 103. Otherwise only that category's `active` flag is cleared |
| Registry.SkillCertRegistry.SetPlatformFee | skill_cert/tests/skill_cert.test.ts:239-262 | a non-administrator gets 100 and a fee above 5,000,000 gets 103. Otherwise only the fee changes |
| Registry.SkillCertRegistry.ToggleContractPause | skill_cert/tests/skill_cert.test.ts:265-285 | a non-administrator gets 100. Otherwise only the pause flag flips |
| Registry.SkillCertRegistry.WithdrawPlatformFees | skill_cert/tests/skill_cert.test.ts:288-296 | `ok true` exactly for the administrator, otherwise 100 |
| Registry.SkillCertRegistry.MintCredential | skill_cert/tests/skill_cert.test.ts:313-517 | errors: paused 103, caller not a verified issuer 105, level outside 1–4, zero duration or inactive category 103. Success returns the next id (counter + 1, fresh), stores `{holder, caller, skill, category, level, now, now + duration, verified, uri, unrevoked}`, and raises the holder profile, the issuer's two counters and the category count by the credential |
| Registry.SkillCertRegistry.VerifyCredentialAuthenticity | skill_cert/tests/skill_cert.test.ts:576-590 | a non-administrator gets 100 and an unknown id 102; otherwise `ok true`. It changes nothing |
| Registry.SkillCertRegistry.RevokeCredential | skill_cert/tests/skill_cert.test.ts:615-621 | an unknown id gets 102, a caller other than the issuer 101, and the issuer 103. It never succeeds and changes nothing |
| Registry.SkillCertRegistry.RenewCredential | skill_cert/tests/skill_cert.test.ts:646-726 | errors: paused 103, unknown 102, not the issuer 101, revoked or zero duration 103. Success sets only that record's issue date to `now` and its expiry to `now + newDuration` |
| Registry.SkillCertRegistry.TransferCredential | skill_cert/tests/skill_cert.test.ts:751-856 | errors: unknown 102, not the holder 101, revoked 103, expired 106. Success by the holder of a live credential yields exactly the `Transferred` state |
| Registry.SkillCertRegistry.EmergencyRevokeCredential | skill_cert/tests/skill_cert.test.ts:923-965 | a non-administrator gets 100 and an unknown id 102. Otherwise only that record's `revoked` flag is set |
| Scenarios.FreshReaders | skill_cert/tests/skill_cert.test.ts:31-59 | on a fresh deployment every reader finds nothing, the total is 0 and validity is `err u0` |
| Scenarios.IssuerRegistration | skill_cert/tests/skill_cert.test.ts:63-116 | types 0 and 4 are refused, registration returns `ok true` and reads back unverified with zeros, and a second registration is refused |
| Scenarios.PausedRegistration | skill_cert/tests/skill_cert.test.ts:118-127 | once paused, registration is refused and stores nothing |
| Scenarios.IssuerVerificationGates | skill_cert/tests/skill_cert.test.ts:161-175 | verification by a non-administrator gets 100, and of an unregistered issuer 101 |
| Scenarios.IssuerVerification | skill_cert/tests/skill_cert.test.ts:138-159 | verification returns `ok true`, reads back verified, and a second verification gets 104 (lines 177-185) |
| Scenarios.CategoryAddition | skill_cert/tests/skill_cert.test.ts:189-236 | a category added by a non-administrator is refused; the administrator's reads back active with count 0; a duplicate name is refused |
| Scenarios.CategoryDeactivation | skill_cert/tests/skill_cert.test.ts:976-1013 | deactivation by a non-administrator and of an unknown name is refused; the administrator's reads back inactive with everything else kept |
| Scenarios.FeeAndPause | skill_cert/tests/skill_cert.test.ts:239-296 | fee 1,000,000 is accepted, 6,000,000 refused, and fee, pause and withdrawal by a non-administrator get 100 |
| Scenarios.MintFixture | skill_cert/tests/skill_cert.test.ts:300-311 | the mint setup (issuer registered and verified, category added) yields exactly the expected state |
| Scenarios.FirstMint | skill_cert/tests/skill_cert.test.ts:313-372 | the first mint returns id 1 and reads back the suite's record and the profile `{1, 1, 10, active}` |
| Scenarios.FirstMintCounters | skill_cert/tests/skill_cert.test.ts:374-428 | after the first mint the issuer reads `{1, 1}`, the category count 1 and the total 1 |
| Scenarios.SecondMint | skill_cert/tests/skill_cert.test.ts:313-324 | beyond the suite, which reads back only id 1: a second mint gets id 2 and the total becomes 2, as the next-id counter promises |
| Scenarios.RejectedMintParameters | skill_cert/tests/skill_cert.test.ts:448-481 | levels 0 and 5 and a zero duration get 103, and the total stays 0 |
| Scenarios.UnverifiedIssuerMint | skill_cert/tests/skill_cert.test.ts:430-446 | a registered but unverified issuer gets 105 |
| Scenarios.InactiveCategoryMint | skill_cert/tests/skill_cert.test.ts:483-502 | a mint under a deactivated category gets 103 |
| Scenarios.PausedMint | skill_cert/tests/skill_cert.test.ts:504-517 | a mint on a paused contract gets 103 |
| Scenarios.FirstTwoLevels | skill_cert/tests/skill_cert.test.ts:519-549 | the suite's first two mints on one registry (level 1 to wallet_2, level 2 to wallet_3) read back `{1, 1, 10, active}` and `{1, 1, 25, active}`, leaving the issuer at `{2, 2}` and the category at 2 |
| Scenarios.FirstThreeLevels | skill_cert/tests/skill_cert.test.ts:519-549 | the third mint on the same registry (level 3 to the deployer) reads back `{1, 1, 50, active}`, the earlier profiles unchanged |
| Scenarios.PointsPerLevel | skill_cert/tests/skill_cert.test.ts:519-549 | the suite's four mints on one registry, to wallet_2, wallet_3, the deployer and finally the issuer wallet_1, read back `{1, 1, 10}`, `{1, 1, 25}`, `{1, 1, 50}` and `{1, 1, 100}`, all active |
| Scenarios.CredentialFixture | skill_cert/tests/skill_cert.test.ts:729-750 | the setup with one minted credential yields exactly the expected state |
| Scenarios.TransferGates | skill_cert/tests/skill_cert.test.ts:817-833 | a transfer by the issuer gets 101, and of an unknown id 102 |
| Scenarios.Transfer | skill_cert/tests/skill_cert.test.ts:751-815 | the holder's transfer returns `ok true`; the record reads back with the new holder; the old profile reads `{0, 0, 0}` and the new `{1, 1, 10}` |
| Scenarios.Expiry | skill_cert/tests/skill_cert.test.ts:881-891 | a 100-block credential reads `ok true` at its mint and `ok false` 150 blocks later |
| Scenarios.ExpiredTransfer | skill_cert/tests/skill_cert.test.ts:846-856 | 9000 blocks after its mint, an 8640-block credential's transfer gets 106 |
| Scenarios.RenewalGates | skill_cert/tests/skill_cert.test.ts:679-715 | a renewal by the holder gets 101, of an unknown id 102, and with a zero duration 103 |
| Scenarios.Renewal | skill_cert/tests/skill_cert.test.ts:646-677 | renewal returns `ok true`, and the record reads back with expiry at the renewal block plus the new duration |
| Scenarios.PausedRenewal | skill_cert/tests/skill_cert.test.ts:717-726 | a renewal on a paused contract gets 103 |
| Scenarios.RevocationGates | skill_cert/tests/skill_cert.test.ts:615-621 | issuer revocation gets 103; emergency revocation by a non-administrator gets 100, and of an unknown id 102 (lines 951-965) |
| Scenarios.EmergencyRevocation | skill_cert/tests/skill_cert.test.ts:923-949 | emergency revocation returns `ok true`, the record reads back revoked with everything else kept, and validity becomes `ok false` |
| Scenarios.RefusedRevocationKeepsCredential | skill_cert/tests/skill_cert.test.ts:615-621 | after the refused issuer revocation the credential is still valid and still renewable |
| Scenarios.RevokedIsFrozen | skill_cert/tests/skill_cert.test.ts:697-706 | a credential revoked by the administrator (where the suite calls the issuer's refused revocation) gets 103 on renewal and on transfer (lines 835-844) |
| Scenarios.Authenticity | skill_cert/tests/skill_cert.test.ts:576-590 | authenticity verification by a non-administrator gets 100, and of an unknown id 102 |

## Left out

- The Clarity contract's own source is not part of this model. Its behaviour is
  taken from the assertions of `skill_cert/tests/skill_cert.test.ts`. Where the
  tests leave a choice open, the model picks one:
  - When several preconditions fail at once, the model checks them in this
    order. Only register, mint and renew check the pause flag, and they check
    it first.
    - The administrator-only calls (verify-issuer, add- and
      deactivate-skill-category, set-platform-fee, verify-credential-authenticity,
      emergency-revoke-credential) check the caller first, then existence or
      duplicates, then the remaining parameters.
    - Renew, transfer and revoke look the record up first, then check the caller
      (issuer or holder), then the record's state and the parameters.
    - Mint checks that the caller is a verified issuer, then level, duration and
      category together.
    - Register checks pause, type and duplicate together under one code.
  - A mint by a caller that never registered gets 105, the same as an
    unverified issuer.
  - A credential is expired once `now >= expiry-date`. The tests only use
    expiries that are clearly past.
  - A renewal also sets the issue date to `now`. The tests accept any issue date.
  - `toggle-contract-pause` returns `ok true` both ways.
  - A transfer to oneself debits and then credits the same profile, which
    leaves it unchanged.
- The revoke-based tests contradict each other. `revoke-credential` by the
  issuer expects `err 103` (source lines 615-621), and an `err` rolls the call
  back. Yet the tests at lines 697-706, 835-844 and 893-898 call it and then
  expect the credential to be revoked. The model follows the asserted refusal:
  `RevokeCredential` never succeeds (`Scenarios.RefusedRevocationKeepsCredential`).
  The revoked-state properties are proved on credentials revoked by
  `EmergencyRevokeCredential` instead (`Scenarios.EmergencyRevocation`,
  `Scenarios.RevokedIsFrozen`).
- `WithdrawPlatformFees`: it models only the administrator check. The STX
  transfer and the contract's balance are ledger operations outside the registry.
- `VerifyCredentialAuthenticity`: it models only its error paths. Its success
  has no observable effect in the tests; the model returns `ok true` and changes
  nothing.
- The fee is stored but never charged. No test shows a mint or any other call
  paying it. The initial fee is a constructor parameter, because its deployed
  value is not visible; like every fee `SetPlatformFee` accepts, it must be at
  most 5,000,000, and the invariant keeps that bound.
- Block heights are the explicit `now` parameter. The test harness (simnet,
  `mineEmptyBlocks`, `Cl.*` value encoding, accounts) and the exact offset
  between `simnet.blockHeight` and the in-call height are not modelled.
- Principals are strings that are only compared for equality. String contents
  are opaque, and Clarity's string-length bounds are not modelled.
- Integers are unbounded `nat`s. Clarity's `uint` is 128 bits wide, and no
  counter or date in these tests comes near that bound. Subtraction on a
  profile cannot underflow: `Bookkeeping.HolderCanBeDebited` proves this, so
  the abort that Clarity would raise cannot occur.
