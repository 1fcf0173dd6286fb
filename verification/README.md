# Verified model of the openvox operator

The operator keeps a Puppet PKI running on Kubernetes: controllers watch custom
resources, derive Secrets, Jobs and routes from them, and a small binary decides which
certificate requests a CA signs on its own. This project models the decisions and the
protocols those parts rest on, and proves what they are for. `dafny verify dfyconfig.toml`
checks all of it.

The controllers are modelled as step machines over an atomic object store. Users, the CA,
the garbage collector and the delivery of watch events are steps that may happen at any
time and in any order. A class beside each machine holds the controller in the form the
source has, and its contracts say that each call is a step of the machine or, where a pass
is modelled as a whole, that it continues the run so far by steps of the machine; what
holds in every run of the machine is then proved as lemmas.

| file | what it is about |
|---|---|
| `Text.dfy` | Go's string order, sorting, splitting, joining and decimal integers |
| `Wildcard.dfy` | the greedy `*` matcher and what a pattern means |
| `PuppetOids.dfy` | the table of Puppet extension names |
| `Autosign.dfy` | the autosign decision |
| `CsrExtensions.dfy` | extensions written into a request and read back by the autosign binary |
| `Duration.dfy` | duration texts in int64 seconds |
| `RenderedSource.dfy` | the rendered-from annotation, printed and parsed |
| `SigningPolicies.dfy` | policies, the Secret rendered from them, and their status |
| `NodeClassifiers.dfy` | the status of a NodeClassifier over many Configs |
| `Pools.dfy` | Pools competing for route hostnames through a work queue |
| `SigningHash.dfy` | the drift hash and its preimage |
| `AltNames.dfy` | alt names derived from Servers and Pools, kept current by watches |
| `Certnames.dfy` | Certificates claiming one certname |
| `Signing.dfy` | pending key, CA answer, TLS Secret and renewal |
| `Renewal.dfy` | renewal window, halving timer and cooldown |
| `Teardown.dfy` | the two finalizers, cleanup attempts and the garbage collector |
| `SetupJob.dfy` | the CA setup Job and its failure budget |

## Where the code does not do what one might expect

Each of these is proved, with the condition under which the expectation does hold.

- A hostname is held by one Pool alone exactly when no terminating Pool that still claims
  it is older than the oldest live claimant: `hostnameOwner` starts its search at the
  asking Pool even when that Pool is terminating (`Pools.HostnameHasOneRoute`). A run that
  comes to rest with two holders exists; without a live claimant both of them may be
  terminating (`Pools.TerminatingPoolShares`).
- Two Configs that are both to render for one CA never come to rest: one of them is
  refused the Secret again and again (`SigningPolicies.OneRendererAtRest`).
- A Certificate is marked Signed after every zero Result of `signCertificate`, also after
  the polling timeout and after a certificate for another key came back. A Secret was
  stored exactly when the answer was for the pending key (`Signing.SignedMeansStored`,
  `Signing.TimeoutIsMarkedSigned`).
- So drift can be recorded as settled while the Secret keeps a certificate for the old
  names, without a dishonest CA or further changes of the names:
  - a certificate for another key comes back (`Signing.MismatchHidesDrift`);
  - polling times out (`Signing.TimeoutHidesDrift`);
  - a re-signing pass that only waits has left the phase Signed, and the next pass adopts
    the old Secret (`Signing.AdoptionHidesDrift`);
  - the CA still holds the request for the old names and the next pass takes it for its
    own (`Signing.StaleRequestHidesDrift`);
  - the pending key was not deleted after the first signing and still matches the old
    certificate, which is stored once more (`Signing.LeftoverKeyHidesDrift`).
- When the mark is right, exactly: with no Secret stored in between, when the certificate
  that is there carries the names derived at the mark (`Signing.UnstoredMarkIsTruthfulIff`,
  `Signing.MarkHidesDrift`). After a stored Secret, when those are the names of the entry
  the CA had for its key before, or the names derived at the step at which the CA accepted
  the request (`Signing.StoredMarkIsTruthfulIff`, `Signing.NewKeyMarkIsTruthfulIff`). So
  with steady names it is right if all the CA held for the key was for them
  (`Signing.SteadyMarkIsTruthful`).
- `hashStringMap` writes keys and values without separators. A change of environment and
  role is seen exactly when `environment + "ppRole" + role` changes
  (`SigningHash.EnvironmentAndRoleSeenIff`), so text can move across the key unseen
  (`SigningHash.ExtensionChangeMissed`). In general a change within a stretch of keys is
  seen exactly when it changes the text of the stretch (`SigningHash.StretchShows`). A
  custom extension that goes while the one before it changes is missed exactly when that
  one takes up its text (`SigningHash.SwallowedExtensionShowsIff`), as with two extensions
  the operator knows (`SigningHash.SwallowedExtensionMissed`). A change of one field
  alone, the extensions as a whole, and custom extensions that come or go beside unchanged
  ones are always seen (`SigningHash.OneDedicatedChangeShows`,
  `SigningHash.OneCustomChangeShows`, `SigningHash.ExtensionsComeAndGo`,
  `SigningHash.CustomExtensionsComeAndGo`). For a fixed certname and fixed extensions the
  hash tells the names apart (`SigningHash.HashTracksNames`).
- A Certificate whose pass finds no CertificateAuthority is dropped without a retry, and
  no watch sees the CA object appear. The watch on Secrets labelled with the CA brings
  the Certificate back, at the first such Secret the setup Job or a CRL refresh writes
  (`AltNames.AuthoritySecretBringsBack`); until then it may stay Signed with other names
  recorded than are derived (`AltNames.MissingAuthorityStrands`).
- A Certificate refused for its certname is dropped in the same way. The rival's leaving
  is not noticed by itself (`AltNames.RivalLeavesUnnoticed`); what brings the refused one
  back is a change of its own or a labelled Secret of the CA, such as the CRL once the
  rival's certificate is revoked. Whoever stays dropped has met a missing CA or a live
  rival, with no such Secret written since (`AltNames.DroppedSince`). For all others that
  are neither paused nor on their way out, the recorded hash, not the issued certificate,
  is kept current (`AltNames.RunsAreCoherent`).
- Two live Certificates on one pair of CA and certname block each other, not only the
  later one (`Certnames.TwoClaimantsBlockAll`). Mutual exclusion between check and
  submission holds in a run exactly when no `authorityRef` edit gives a Certificate back
  the claim its running pass is about to submit while another one is in flight for it
  (`Certnames.RunsAreExclusiveIff`, `Certnames.ExclusionIsLostIff`); such a run exists
  if passes of two Certificates overlap (`Certnames.MovedAndBackBreaksExclusion`).
- The CA finalizer is released although a live Certificate refers to the CA exactly when
  that Certificate was created, repointed or disowned between listing and patch
  (`Teardown.ReleaseIsSafe`, `Teardown.LateCertificateIsMissed`).
- The renewal timer asks for no wake at one nanosecond before the window, which is where
  exact wakes always end (`Renewal.PunctualWakesStop`).
- `renewBefore` above 9223372036 seconds wraps modulo 2^64 nanoseconds: what is left of
  the product puts the renewal past the expiry, onto it, or before it but not where it
  was asked for (`Renewal.RenewBeforeExactIff`, `Renewal.RenewalTimeWraps`); just past the
  limit it lies after the expiry (`Renewal.LongWindowOpensAfterExpiry`).
- A rewrite of an ENC Secret that the watch does not report never changes the phase of a
  NodeClassifier (`NodeClassifiers.UnreachedRewriteKeepsPhase`). An unreported removal
  changes it exactly when that Secret alone stood between Error and Active, an unreported
  arrival exactly when the classifier was Active and a consulting Config uses the Secret
  (`NodeClassifiers.UnreachedRemovalChangesPhaseIff`,
  `NodeClassifiers.UnreachedArrivalChangesPhaseIff`); such Secrets exist
  (`NodeClassifiers.UnreachedMayChangeVerdict`).

## Assumptions

- The Gateway API is installed.
- The store is atomic per object, a controller handles one pass per object at a time, and
  no watch event is lost; events may be late and reordered.
- No controller sets a concurrency limit above one, so passes of different Certificates
  overlap only when several operator processes run; `Certnames.dfy` allows for that.
- Admission has run: an enabled route has a hostname, certnames are immutable, resource
  names are not empty and hold neither `,` nor `=`.
- A name that was used for a SigningPolicy is not used for another one; the annotation
  holds name and generation, not the UID.
- The renewal endpoint certifies the key of the request it is sent, and whoever else
  writes a TLS Secret writes a matching pair.
- The clock does not run backwards, and nobody edits the operator's annotations by hand.

## Model

| member | source | states |
|---|---|---|
| Wildcard.WildcardMatch | cmd/autosign/policy.go:281-298 | the greedy matcher answers true exactly when some choice of substrings for the stars turns the pattern into the name |
| Wildcard.LeftmostSuffices | cmd/autosign/policy.go:286-297 | placing a segment at its leftmost occurrence loses no match |
| Wildcard.PartsMeanThePattern | cmd/autosign/policy.go:281-298 | matching segment by segment is the same as substituting for the stars |
| PuppetOids.TableInjective | internal/puppet/oids.go:47-60 | no two names share an identifier |
| PuppetOids.NameByOid | internal/puppet/oids.go:53-60 | whatever order the table is ranged over, the answer is the one name of the identifier, or none |
| PuppetOids.PrivilegedNames | internal/puppet/oids.go:20-60 | the authorization extensions of the table are exactly three |
| PuppetOids.ArcIff | internal/puppet/oids.go:68-81 | an identifier grants elevated trust exactly when its first nine numbers are those of the arc, known to the table or not |
| Autosign.EvaluatePolicies | cmd/autosign/policy.go:107-149 | signs exactly when the name is not reserved, the subject is the certname, and some policy approves |
| Autosign.EvaluatePolicy | cmd/autosign/policy.go:151-184 | approves exactly when both guards pass and the policy is `any` or has conditions that all hold |
| Autosign.GuardExtensions | cmd/autosign/policy.go:190-208 | every authorization extension is allow-listed under its own name |
| Autosign.GuardSans | cmd/autosign/policy.go:212-234 | every alternative name of every kind is covered by the list of its kind |
| Autosign.AllIpInCidrs | cmd/autosign/policy.go:238-258 | each address lies in some parseable range |
| Autosign.AllWildcardMatch | cmd/autosign/policy.go:262-276 | each name matches some pattern |
| Autosign.MatchDnsAltNames | cmd/autosign/policy.go:334-348 | each DNS name matches some glob |
| Autosign.ExtractCsrExtensionByOid | cmd/autosign/policy.go:87-104 | the decoded value of the first extension with the identifier, or none when there is none |
| Autosign.PoliciesCombineAsUnion | cmd/autosign/policy.go:107-122 | order and multiplicity of policies do not matter, adding policies takes no approval away |
| Autosign.WiderGuardsKeepApproval | cmd/autosign/policy.go:151-234 | longer allow-lists keep every approval |
| CsrExtensions.BuildCsrExtensions | internal/controller/certificate_signing.go:141-191 | succeeds exactly when every value encodes and every custom key is known; the list is fixed by the spec, not by map order; a failure names the first setting that is refused |
| CsrExtensions.ExtensionsRoundTrip | cmd/autosign/policy.go:78-104 | reading any name from the built list gives exactly the value that was set, or nothing, also with the alternative names in front |
| Duration.DurationRoundTrip | api/v1alpha1/duration.go:12-49 | a printed number with a unit, blanks around it, parses to the product in int64 arithmetic |
| Duration.DurationExactIff | api/v1alpha1/duration.go:12-49 | the product is exact exactly when it fits int64 |
| Duration.PlainNumber | api/v1alpha1/duration.go:12-25 | a plain number counts seconds, one beyond int64 is refused |
| Duration.UnknownUnitIsNamed | api/v1alpha1/duration.go:12-49 | any other unit is refused by name, a unit without a number as invalid, and an empty text counts zero |
| Duration.BlankIff | api/v1alpha1/duration.go:12-15 | what counts as a blank around a duration |
| Text.ParseInt64Accepts | api/v1alpha1/duration.go:19-34 | digits after at most one sign, `+` included |
| RenderedSource.RenderedFromAnnotation | internal/controller/rendered_source.go:41-50 | the one key with the joined sorted pairs, also for no sources |
| Text.SignIff | internal/controller/rendered_source.go:41-50 | a printed generation carries a sign exactly when it is negative |
| RenderedSource.GenerationReadsBack | internal/controller/rendered_source.go:64-81 | the generation read for a name is exactly the recorded one |
| RenderedSource.RequestsReadBack | internal/controller/rendered_source.go:92-109 | exactly the recorded names are requested, once each |
| RenderedSource.RenderedSourceRequests | internal/controller/rendered_source.go:92-109 | the loop returns every non-empty name in front of a `=` |
| RenderedSource.ValueIsCanonical | internal/controller/rendered_source.go:41-50 | two values are equal exactly when the sets of sources are |
| RenderedSource.RecordedIsRequested | internal/controller/rendered_source.go:64-109 | for any text, a name with a recorded generation is among the requested |
| RenderedSource.AllOverride | internal/controller/rendered_source.go:115-122 | true exactly when there are Configs and each replaces the binary |
| SigningPolicies.RunsAreTruthful | internal/controller/config_autosign.go:56-84 | in every run a Secret that records its sources was made, block by block, from the recorded generations |
| SigningPolicies.ActiveMeansInEffect | internal/controller/signingpolicy_controller.go:38-90 | an observation that says Active is about the generation it read, whose block is in the Secret then |
| SigningPolicies.ActiveWasInEffect | internal/controller/signingpolicy_controller.go:58-88 | every Active status goes back to a moment when that generation was in effect |
| SigningPolicies.OperatorNameIsNeverSigned | internal/controller/config_autosign.go:87-98 | no rendered configuration, whatever its policies, signs the operator's own certname |
| SigningPolicies.RunsAreCoherent | internal/controller/signingpolicy_controller.go:202-260 | in every run each policy is queued, being looked at, paused, or has the status the store calls for |
| SigningPolicies.ActiveAtRest | internal/controller/signingpolicy_controller.go:94-166 | at rest, Active exactly when the CA, a Config that does not override, and a Secret of the current generation are there; then the block is that of the current spec |
| SigningPolicies.RunsRenderAll | internal/controller/config_controller.go:127-149 | in every run each Config is queued or reachable by its watches, being rendered from current data, with nothing to render, or owner of a Secret that records the current generations |
| SigningPolicies.SecretIsCurrentAtRest | internal/controller/config_autosign.go:56-84 | with the Config controller at rest the Secret of a Config that is to render records exactly the policies of its CA at their generations |
| SigningPolicies.PoliciesTakeEffect | internal/controller/config_autosign.go:155-172 | both controllers at rest: every policy whose CA has a Config that is to render is Active, with the block of its present spec in the Secret |
| SigningPolicies.OneRendererAtRest | internal/controller/config_controller.go:220-245 | two Configs that are to render for one CA do not come to rest |
| SigningPolicies.PolicyComesIntoEffect | internal/controller/config_autosign.go:30-84 | a run from a first policy to rest with the policy Active |
| SigningPolicies.PolicyControllers.Observe | internal/controller/signingpolicy_controller.go:94-166 | the verdict is the phase derived from the store |
| SigningPolicies.PolicyControllers.EndReconcile | internal/controller/signingpolicy_controller.go:62-89 | the verdict goes under the generation that was read; a failed lookup leaves the status |
| SigningPolicies.PolicyControllers.SigningPoliciesForAuthority | internal/controller/signingpolicy_controller.go:187-200 | the policies bound to the CA, sorted, whatever the listing order |
| SigningPolicies.PolicyControllers.RenderAutosignPolicyConfig | internal/controller/config_autosign.go:87-153 | succeeds exactly when every attribute of every bound policy resolves; block by block name, guards and conditions of the spec, and each attribute demands its inline text or the value read from its Secret |
| SigningPolicies.PolicyControllers.BeginReconcileConfig | internal/controller/config_controller.go:54-72 | a render starts exactly for a Config that is there and not paused, on the Config as it was read |
| SigningPolicies.PolicyControllers.DeliverTrigger | internal/controller/config_controller.go:127-149 | delivery enqueues exactly the Configs the watches map the change to |
| SigningPolicies.PolicyControllers.ReconcileAutosignSecrets | internal/controller/config_autosign.go:30-75 | lists exactly when the Config is to render and every Secret asked for has its key, with the values read in the blocks; else is retried or ends with nothing to render |
| SigningPolicies.PolicyControllers.ConfigsForAuthority | internal/controller/config_autosign.go:155-172 | the Configs that name the CA, none for a policy without one |
| SigningPolicies.PolicyControllers.ReconcileSecret | internal/controller/config_controller.go:220-245 | data and annotation are written in one update that is an event only if it changes something; nothing when another Config owns the Secret |
| NodeClassifiers.Observe | internal/controller/nodeclassifier_controller.go:58-185 | no verdict exactly when a needed lookup fails; else phase, reason and listed Secrets are a function of the set of Configs, not of their order |
| NodeClassifiers.ActiveIff | internal/controller/nodeclassifier_controller.go:114-185 | Active exactly when some consulting Config has a current Secret and every consulting Config with a Secret has a current one |
| NodeClassifiers.ReasonIff | internal/controller/nodeclassifier_controller.go:114-185 | which reason outranks which: a stale Secret before a foreign one, that before an unrecorded one, and that before a current one |
| NodeClassifiers.ReasonWithoutSecrets | internal/controller/nodeclassifier_controller.go:58-113 | no Config and overridden Configs are told apart before any Secret is read |
| NodeClassifiers.UnreachedKeepsOwnRenders | internal/controller/nodeclassifier_controller.go:210-217 | a Secret change the watch does not bring leaves what is current and what is stale |
| NodeClassifiers.UnreachedRewriteKeepsPhase | internal/controller/nodeclassifier_controller.go:210-217 | a rewrite the watch does not bring keeps the phase |
| NodeClassifiers.UnreachedRemovalChangesPhaseIff | internal/controller/nodeclassifier_controller.go:210-217 | an unreported removal changes the phase exactly when some consulting Config has a current Secret, a consulting Config uses the removed one, and all others are current or have none |
| NodeClassifiers.UnreachedArrivalChangesPhaseIff | internal/controller/nodeclassifier_controller.go:210-217 | an unreported arrival changes the phase exactly when it was Active and a consulting Config uses the Secret |
| NodeClassifiers.UnreachedMayChangeVerdict | internal/controller/nodeclassifier_controller.go:210-217 | both happen: removing a foreign Secret can make the classifier Active unnoticed |
| Pools.RunsAreCoherent | internal/controller/pool_controller.go:263-334 | in every run, with listing, route write and status write as steps of their own, each Pool is queued or reachable by a change under way, being looked at on current data, paused, or has the right route and report |
| Pools.WriteReachesAffected | internal/controller/pool_controller.go:306-334 | the map function on old and new object misses no Pool a write affects |
| Pools.HostnameHasOneRoute | internal/controller/pool_controller.go:203-237 | at rest the oldest live claimant holds the hostname, alone exactly when no older terminating claimant is left |
| Pools.OldestExists | internal/controller/pool_controller.go:232-237 | a hostname with a live claimant has exactly one oldest |
| Pools.EarliestHolds | internal/controller/pool_controller.go:232-237 | at rest the live claimant created first, the least name among those of one second, holds the hostname with a route to its own backend and port, and no other live one does |
| Pools.TerminatingPoolShares | internal/controller/pool_controller.go:203-229 | a run at rest in which an older terminating Pool holds the hostname beside the oldest live claimant, or beside another terminating one |
| Pools.EntitledIff | internal/controller/pool_controller.go:203-229 | who may hold the hostname beside the oldest live claimant |
| Pools.LosersNameTheHolder | internal/controller/pool_controller.go:98-109 | at rest every claimant without the hostname reports the conflict with the oldest live one |
| Pools.QuietRunsAreShort | internal/controller/pool_controller.go:88-122 | once nobody edits, the number of steps left is bounded, whatever their order and with the events of the controller's own writes |
| Pools.QuietGoesOn | internal/controller/pool_controller.go:56-122 | and there is a next step until all is delivered and only foreign routes block |
| Pools.RestIsReached | internal/controller/pool_controller.go:56-122 | where no foreign routes are in the way, every run can come to rest with the Pools as they are |
| Pools.PoolController.HostnameOwner | internal/controller/pool_controller.go:203-237 | the asking Pool exactly when no rival precedes it, else the rival no other precedes; on the fields: every other live claimant was created later than the owner, or in the same second with a greater name |
| Pools.PoolController.ChooseRoute | internal/controller/pool_controller.go:88-110 | the decision is the one the Pools call for at the listing |
| Pools.PoolController.SettleRoute | internal/controller/pool_controller.go:88-122 | writes, replaces or removes the own route only, by the decision made before; fails exactly on a foreign route |
| Pools.PoolController.BeginReconcile | internal/controller/pool_controller.go:56-76 | a pass starts exactly for a Pool that is there and not paused |
| Pools.PoolController.ReportStatus | internal/controller/pool_controller.go:124-180 | the one status write reports the conflict decided on, or fails for a Pool that is gone |
| Pools.PoolController.PoolsSharingHostname | internal/controller/pool_controller.go:306-334 | exactly the other Pools that name the hostname |
| Pools.PoolController.DeleteOwnedTlsRoute | internal/controller/pool_controller.go:241-261 | removes a route only when the Pool controls it |
| Pools.PoolController.ReconcileTlsRoute | internal/controller/pool_controller.go:429-483 | creates or updates the route, refusing one the Pool does not control |
| SigningHash.DedupeSorted | internal/controller/certificate_derived.go:65-68 | the one strictly sorted list of the set of names |
| SigningHash.SigningSpecHash | internal/controller/certificate_controller.go:586-603 | the text that is hashed depends on the fields only, not on map order |
| SigningHash.HashStringMap | internal/controller/helpers.go:78-91 | keys in order, each with its value, whatever order the map is ranged over |
| SigningHash.HashTracksNames | internal/controller/certificate_controller.go:586-603 | for one certname and extensions, equal texts exactly for equal sets of names |
| SigningHash.CertnameShows | internal/controller/certificate_controller.go:586-603 | a change of the certname alone always shows, one of the renewal window never |
| SigningHash.EnvironmentAndRoleSeenIff | internal/controller/helpers.go:78-91 | a change of environment and role is seen exactly when the two with the key between them make another text |
| SigningHash.NeighbouringFieldsShow | internal/controller/helpers.go:78-91 | the same for the values of any two neighbouring keys |
| SigningHash.ExtensionChangeMissed | internal/controller/helpers.go:86-89 | text moved from the role to the environment across the key is not seen |
| SigningHash.OneDedicatedChangeShows | internal/controller/certificate_controller.go:595-598 | role, environment or CLI flag alone: the text is the same exactly when the value is |
| SigningHash.OneCustomChangeShows | internal/controller/certificate_controller.go:599-601 | one custom value alone: the text is the same exactly when the value is |
| SigningHash.StretchShows | internal/controller/helpers.go:78-91 | whatever is changed, added and removed within one stretch of keys shows exactly when it changes the text of the stretch |
| SigningHash.SwallowedExtensionShowsIff | internal/controller/helpers.go:86-89 | a custom extension that goes while the one before it changes is missed exactly when that one takes up its key and value |
| SigningHash.SwallowedExtensionMissed | internal/controller/helpers.go:86-89 | such a pair of extensions the operator knows |
| SigningHash.ExtensionsComeAndGo | internal/controller/certificate_controller.go:595-602 | extensions as a whole that are added or dropped always change the text |
| SigningHash.CustomExtensionsComeAndGo | internal/controller/certificate_controller.go:599-601 | custom extensions added or dropped beside unchanged ones always change the text |
| AltNames.RunsAreCoherent | internal/controller/certificate_controller.go:263-276 | in every run, with each read and write of a pass as a step of its own, each Certificate is queued or reachable, being looked at on current data, excused, or signed with the hash of what the store derives now |
| AltNames.DroppedSince | internal/controller/certificate_controller.go:281-293 | the excuse: the last pass met a missing CA or a live rival, and no labelled Secret of the CA was written since |
| AltNames.AuthoritySecretBringsBack | internal/controller/certificate_watchers.go:17-57 | a write of a Secret labelled with a CA reaches every Certificate that names it |
| AltNames.MissingAuthorityStrands | internal/controller/certificate_controller.go:158-166 | a run in which the CA appears and the Certificate stays signed, recorded with other names than are derived and in nobody's queue, until the first such write |
| AltNames.RivalLeavesUnnoticed | internal/controller/certificate_controller.go:671-707 | a run in which the rival is gone and the refused Certificate in nobody's queue |
| AltNames.ServerWriteKeeps | internal/controller/certificate_derived.go:103-112 | the map on old and new Server misses no Certificate |
| AltNames.PoolWriteKeeps | internal/controller/certificate_derived.go:73-99 | the map on a Pool misses no Certificate whose names changed |
| AltNames.RunsRecordBaselines | internal/controller/certificate_controller.go:336-346 | what is recorded is always hash and names of one derivation for one spec |
| AltNames.RecordedNamesAreCurrent | internal/controller/certificate_controller.go:183-206 | at rest every Certificate that is not excused is signed, and its recorded names are the derived ones if certname and extensions are those it was signed for |
| AltNames.RestIsReached | internal/controller/certificate_controller.go:140-261 | every run can come to rest by deliveries and passes alone, if what the CAs are asked for is signed |
| AltNames.ResignedExactlyOnDrift | internal/controller/certificate_controller.go:183-218 | a pass over a signed Certificate with a baseline finds either drift or none: without drift it asks the CA for nothing and ends unchanged when no renewal is due; with drift it ends in the mark or the refusal, unless the CA has not answered or the Certificate is gone |
| AltNames.FindingsAreReal | internal/controller/certificate_controller.go:183-206 | drift is found exactly when the recorded hash is not the derived one, at the step of the run where it is compared |
| AltNames.ConflictsAreReal | internal/controller/certificate_controller.go:638-669 | in every run a pass is refused beside a live Certificate that goes by the same certname for the same CA, and goes on to the request when there is none |
| AltNames.CertificateController.WantedPools | internal/controller/certificate_derived.go:27-38 | the Pools joined by the Servers of the Certificate, whatever the listing order |
| AltNames.CertificateController.EffectiveDnsAltNames | internal/controller/certificate_derived.go:23-61 | spec names and the hostnames of contributing Pools, sorted and deduplicated, whatever the listing order |
| AltNames.CertificateController.CertificatesForPool | internal/controller/certificate_derived.go:73-99 | exactly the Certificates of the Servers that join the Pool, once each |
| AltNames.CertificateController.CertificatesForAuthority | internal/controller/certificate_watchers.go:32-56 | exactly the Certificates that name the CA, once each |
| AltNames.CertificateController.DeliverChange | internal/controller/certificate_controller.go:263-276 | delivery enqueues exactly what the watches map the change to |
| AltNames.CertificateController.ReconcileCertSigning | internal/controller/certificate_controller.go:281-368 | continues the run so far; refused beside a rival, else requested; retried without an answer, derived once more and marked after a zero Result, retried as well if the Certificate is gone |
| AltNames.CertificateController.Reconcile | internal/controller/certificate_controller.go:80-261 | a pass continues the run so far by steps of the machine, from its begin or skip to its last step, with others between any two; its own steps form a row that the Certificate as read, the CA and the expiry fix: skipped exactly for one that is gone, leaving or paused, asked for only without a Secret or after drift, marked only in the ways to Signed |
| Certnames.OtherCertificateUsingCertname | internal/controller/certificate_controller.go:638-669 | the least live rival on the pair, or none exactly for the sole claimant, whatever the listing order |
| Certnames.DefaultCertnameCollides | internal/controller/certificate_controller.go:638-669 | an empty certname stands for `puppet` and collides with it |
| Certnames.LaterNeverSubmits | internal/controller/certificate_controller.go:281-293 | a Certificate created beside a live one on the same pair never submits while the first stays |
| Certnames.TwoClaimantsBlockAll | internal/controller/certificate_controller.go:281-293 | while two stay live on a pair nobody new submits for it |
| Certnames.ExclusionIsLostIff | internal/controller/certificate_controller.go:284-293 | from an exclusive state a step loses exclusion exactly when it edits an authorityRef back onto a running pass's claim beside another one in flight for it |
| Certnames.RunsAreExclusiveIff | internal/controller/certificate_controller.go:284-293 | at most one live claimant is between check and submission throughout a run exactly when no edit of the run does that |
| Certnames.MovedAndBackBreaksExclusion | internal/controller/certificate_controller.go:284-293 | a run with such an edit, where the passes of two Certificates overlap |
| Certnames.CertificateController.BeginSigning | internal/controller/certificate_controller.go:281-293 | goes on only as the sole claimant, else reports a rival |
| Signing.RunsArePaired | internal/controller/certificate_signing.go:460-500 | at every moment of every run the TLS Secret holds a certificate for the key beside it, lost create races and foreign answers included |
| Signing.DecisionOf | internal/controller/certificate_signing.go:388-509 | every decided pass goes back to the moment its branch was taken, with the guard that held then |
| Signing.SignedMeansStored | internal/controller/certificate_controller.go:331-357 | a pass that marks Signed stored a Secret exactly when the answer was for the pending key, and none exactly when polling had timed out or the answer was for another key |
| Signing.SubmissionLeavesRequest | internal/controller/certificate_signing.go:232-264 | in every run the step to Submitted leaves a request at the CA: the one it held or one for the key and the present names |
| Signing.MarkHidesDrift | internal/controller/certificate_controller.go:221-247 | from a drifted Certificate every later mark or adoption hides the drift, until a Secret is stored or somebody changes Secret or names |
| Signing.UnstoredMarkIsTruthfulIff | internal/controller/certificate_controller.go:336-346 | with no Secret stored in between, a mark or adoption is right exactly when the certificate that was there carries the names derived at the mark |
| Signing.StoredMarkIsTruthfulIff | internal/controller/certificate_signing.go:232-264 | the mark after a stored Secret goes back to an entry the CA had for its key or to the step at which it accepted the request, and is right exactly when the names then are those at the mark; names may change at any time |
| Signing.NewKeyMarkIsTruthfulIff | internal/controller/certificate_signing.go:232-264 | for a key new to the CA, exactly when the names at the step that accepted its request are those at the mark |
| Signing.StepKeepsCurrent | internal/controller/certificate_signing.go:352-509 | while the names stay, every step keeps that all the CA and the pass hold for the key is for them |
| Signing.SteadyMarkIsTruthful | internal/controller/certificate_signing.go:352-509 | with steady names the mark after a stored Secret is right if all the CA held for its key at the start was for them, whatever it held for other keys |
| Signing.TimeoutIsMarkedSigned | internal/controller/certificate_signing.go:396-417 | a run that ends Signed without any Secret |
| Signing.MismatchHidesDrift | internal/controller/certificate_signing.go:473-495 | a run that records new names over the old certificate after an answer for another key |
| Signing.TimeoutHidesDrift | internal/controller/certificate_signing.go:396-417 | one that does so after the polling timeout |
| Signing.AdoptionHidesDrift | internal/controller/certificate_controller.go:221-247 | one that does so by adopting the old Secret after a pass that only waited |
| Signing.StaleRequestHidesDrift | internal/controller/certificate_signing.go:254-258 | one that does so by taking a request for the old names for its own |
| Signing.LeftoverKeyHidesDrift | internal/controller/certificate_signing.go:498-505 | one that does so by storing the old certificate once more under a key that was not deleted |
| Signing.CertificateSigner.EnsurePendingKey | internal/controller/certificate_signing.go:727-763 | the stored key, left as it is, or a generated one, stored unless the create lost; none exactly when there was none and the create failed |
| Signing.CertificateSigner.SubmitCsr | internal/controller/certificate_signing.go:196-264 | succeeds exactly with a usable key that the CA does not reject; the CA then holds a request, for this key and the present names if it held none before, and one it held before is left |
| Signing.CertificateSigner.Poll | internal/controller/certificate_signing.go:388-458 | times out exactly after 24 hours, else counts an attempt and waits for a human from the tenth on |
| Signing.CertificateSigner.CheckKey | internal/controller/certificate_signing.go:460-495 | adopts exactly a certificate for the pending key |
| Signing.CertificateSigner.SignCertificate | internal/controller/certificate_signing.go:352-509 | a pass continues the run so far by steps of the machine; which answer it gets and how it ends is fixed by what fails on the way, the key that is pending and the certificate that comes; a Secret is stored exactly when it ends Stored |
| Signing.CertificateSigner.ReconcileCertSigning | internal/controller/certificate_controller.go:295-368 | Signed exactly after a zero Result, with the names derived then, a Secret in one of its three cases; Error after a failure |
| Signing.CertificateSigner.RenewCertificate | internal/controller/certificate_signing.go:593-723 | succeeds exactly with a usable key beside its certificate, a reply and a write that does not fail; then the old key with the certificate the endpoint gave for it |
| Signing.CertificateSigner.ReconcileCertRenewal | internal/controller/certificate_signing.go:512-546 | a renewal that fails is in phase Renewing and has stored nothing |
| Signing.CertificateSigner.AdoptTlsSecret | internal/controller/certificate_controller.go:221-257 | a Secret that is there is recorded with the names derived now |
| Renewal.RenewBeforeExactIff | internal/controller/certificate_controller.go:414-423 | the window has the length asked for exactly up to 9223372036 seconds |
| Renewal.RenewalTimeWraps | internal/controller/certificate_controller.go:414-423 | for every number of seconds, the product modulo 2^64 decides whether the renewal lies past, on or before the expiry |
| Renewal.DueIff | internal/controller/certificate_controller.go:607-619 | renewal is due exactly when the window is open and no renewal was recorded less than an hour ago |
| Renewal.OpenWindowIsDue | internal/controller/certificate_controller.go:607-619 | in every run a check in the open window goes on to the renewal once the cooldown is over |
| Renewal.DefaultWindow | internal/controller/certificate_controller.go:414-423 | without a readable positive duration the window is 60 days |
| Renewal.RenewalsKeepApart | internal/controller/certificate_controller.go:473-486 | any two renewals recorded in a row are more than an hour less a second apart, for every window |
| Renewal.SlackIsReal | internal/controller/certificate_signing.go:679-687 | the second is lost to the whole-second annotation |
| Renewal.WakesBeforeTheWindow | internal/controller/certificate_controller.go:433-467 | a wake is asked for except one nanosecond before the window, and comes before it opens: after half the time left, at most twelve hours; in the open window after the hour of the cooldown, else after five seconds |
| Renewal.WakesAreFew | internal/controller/certificate_controller.go:464-467 | at most t/12h + 47 wakes before the window opens |
| Renewal.PunctualWakesStop | internal/controller/certificate_controller.go:464-467 | exact wakes end one nanosecond before the window, where no wake is asked for |
| Teardown.EverythingGoes | internal/controller/certificateauthority_controller.go:235-296 | every fair schedule empties a CA and Certificates that are all marked or owned |
| Teardown.RoundLightens | internal/controller/certificate_controller.go:94-129 | there is no deadlock: each fair round lowers the measure |
| Teardown.ChangeLightens | internal/controller/certificate_controller.go:94-129 | any step leaves the objects as they are or lowers the measure |
| Teardown.LeavesWithinFive | internal/controller/certificate_controller.go:94-129 | a marked Certificate is gone after five reconciles of its own, whatever the CA answers |
| Teardown.StaysUntilFifth | internal/controller/certificate_controller.go:94-129 | while every cleanup fails it keeps its finalizer through four reconciles of its own, each counted |
| Teardown.FifthReleases | internal/controller/certificate_controller.go:94-129 | the fifth releases it, cleaned or not |
| Teardown.ReleaseIsSafe | internal/controller/certificateauthority_controller.go:242-295 | the finalizer goes while a live foreign Certificate refers to the CA exactly when that one was created, repointed or disowned after the listing |
| Teardown.ReleaseWasAsked | internal/controller/certificateauthority_controller.go:235-296 | in every run only a CA that is marked for deletion and still has its finalizer is checked and released |
| Teardown.HeldUntilReleased | internal/controller/certificateauthority_controller.go:235-296 | a CA with its finalizer is there until the release, whatever happens in between, and stays marked once it is |
| Teardown.HeldUntilActed | internal/controller/certificate_controller.go:94-139 | a Certificate with its finalizer is there until its own deletion branch has run |
| Teardown.LateCertificateIsMissed | internal/controller/certificateauthority_controller.go:242-295 | a run in which one does |
| Teardown.TeardownControllers.HandleCertificateCleanup | internal/controller/certificate_controller.go:538-577 | skipped for a missing, leaving, external or keyless CA |
| Teardown.TeardownControllers.ReconcileDeletion | internal/controller/certificate_controller.go:94-129 | counts an attempt, or releases at the fifth or on success |
| Teardown.TeardownControllers.HandleDeletion | internal/controller/certificateauthority_controller.go:235-286 | reports exactly the blocking names, sorted, and goes on exactly when there are none |
| Teardown.TeardownControllers.ReleaseFinalizer | internal/controller/certificateauthority_controller.go:286-296 | the CA goes when the patch succeeds, else it is checked again |
| SetupJob.JobsAreBounded | internal/controller/certificateauthority_job.go:605-622 | between two resets at most four retries delete and at most five Jobs are created, stops included |
| SetupJob.FinalIsFixed | internal/controller/certificateauthority_job.go:605-611 | once given up, nothing changes while the Job, the image and the Secret stay |
| SetupJob.RecordedReadsBack | internal/controller/certificateauthority_job.go:466-497 | the recorded counter reads back |
| SetupJob.UnreadableStartsFresh | internal/controller/certificateauthority_job.go:466-497 | a missing, unreadable or negative counter counts as none |
| SetupJob.SetupJobController.RetrySetupJob | internal/controller/certificateauthority_job.go:605-622 | an attempt is recorded before the delete; below the limit the failed Job is deleted and the pass comes back, or the delete failed and nothing but the counter changed; at the limit the Job stays and the message is reported, for good |
| SetupJob.SetupJobController.ReconcileJob | internal/controller/certificateauthority_job.go:547-601 | create, reset, retry or give up, with the Job, the counter, the condition and the Result of each; a fixpoint once given up |

## Left out

- HTTP, TLS, PEM, ASN.1 and X.509: keys and certificates are opaque but for the public
  half and the names; encoding and decoding of extension values is an inverse pair given
  as a parameter. That x509 refuses a request with a repeated extension is not modelled.
- `strings.EqualFold`, `filepath.Match`, `net.ParseCIDR` and `IPNet.Contains` are
  parameters; the results hold for any choice of them.
- YAML text and quoting of the rendered policy file: its structure only.
- The name of the setup Job in its failure message; there is one Job.
- Leader election, caches and API server defaulting: each call sees the store.
- Phase texts and condition messages, except where a property names them, and the poll
  backoff, events, metrics and logs.
- `emitExpiryWarnings`, the expiry warning events.
- Loading the files and parsing the request in the autosign binary.
- The setup script, Deployments, Services, budgets and the rendering of configuration files.
- The report, ENC and mock binaries, generated code and the webhooks beyond the
  preconditions they enforce.
- `strings.TrimSpace` is modelled for ASCII blanks only.
- The deletion branch of a Certificate is in `Teardown.dfy`, the signing protocol in
  `Signing.dfy`; in `AltNames.dfy` the one is a skipped pass and of the other only the
  certname check, the status writes, the derivations and the submission are steps.
- What the Secrets behind policy attributes hold is read at each render. No watch reports
  their changes, and a block is said to be made from what they held at some moment.
- The Certificate controller's other Secret watch, the Certificate's own Secrets, counts as a resync.
- Certnames.LaterNeverSubmits: renewal is not behind the certname check and not part of it.
