# ecr-secret-operator credential lifecycle, in Dafny

This project models the core of the `ecr-secret-operator` Kubernetes operator. For each
`ECRSecret` custom resource, the operator keeps a `kubernetes.io/dockerconfigjson` secret holding
an AWS ECR authorization token. The model covers these parts:

- **Content identity and oracles** (`ksecret.dfy`, module `KSecret`).
  - `GetSecretUuid` is an MD5-derived UUID of the payload, the `expires` annotation and the `validity` annotation.
  - `IsChanged` detects drift: the recorded uid is compared with the recomputed one.
  - `IsExpired` is the renewal rule `now > expires + (maxAge - lifetime)`, with its fail-safe parse paths.
  - `GetSecretData` builds the annotations and payload.
  - `UpdateSecret` regenerates a secret in place. The secret is a `Kube.SecretObject`.
- **The owned secret** (`kube_secret.dfy`, module `EcrSecretKubeSecret`).
  - `GetKubeSecretName` picks the secret's name.
  - `ConstructSecret` builds the secret, including a controller reference step that can fail.
- **The reconciler** (`controller.dfy`, module `EcrSecretController`).
  - the closure that splits the registry host;
  - the `Reconcile` decision tree. Its environment is a datatype of replies (cluster client, configuration file, AWS session, token). The result is the outcome plus the ordered list of client calls.
- **Credential selection** (`config.dfy`, module `Config`): `LoadCredentials` after TOML decoding, with its exact error strings.
- **The renewal sweep and its scheduler** (`renewal.dfy`, module `RenewalEvent`).
  - `PollSecrets`'s nested loops are proved against a reference scan. Channel sends are collected into a sequence, and a read of `OwnerReferences[0]` on an empty or nil list is an explicit `Panicked` outcome.
  - `Run`'s `nextRun` schedule.

Support modules:

- `GoStrings`: `strings.TrimSpace`, `unicode.IsSpace`, `strings.Split`, `strings.Join`, decimal formatting, and UTF-8 encoding of `[]byte(string)`.
- `GoTime`: `Duration.Round(time.Minute)` and `Duration.String()` on whole seconds.
- `Uuids`: the 8-4-4-4-12 hexadecimal text of a UUID.
- `GoLib`: the library calls that are not written out.

Time is an integer number of seconds.

The `GoLib.Lib` record holds the library calls as uninterpreted functions:

- MD5 followed by `uuid.FromBytes`;
- `uuid.Parse`;
- RFC 3339 formatting and parsing;
- `time.ParseDuration`.

Three predicates state the round-trip laws these calls obey, and each proof requires only the ones it uses. MD5 is *not* assumed injective.

- `GoLib.UuidLaw`: `uuid.Parse` reads back every `uuid.String` text.
- `GoLib.TimeLaw`: RFC 3339 parsing reads back the formatted instant, for years 0000 to 9999. Outside that range `Format` writes a five-digit or signed year, which `Parse` rejects.
- `GoLib.DurationLaw`: `time.ParseDuration` reads back `Duration.String`, for durations an int64 count of nanoseconds holds.

Behaviour of the code a reader might not expect:

- **Owner test.** `IsExpired` tests only that `OwnerReferences` is non-nil (internal/ksecret/ksecret.go:105). An empty, non-nil slice therefore counts as owned (`KSecret.EmptyOwnerSliceCounts`). The test suite relies on this when it sets `[]metav1.OwnerReference{}` "to be treated as valid".
- **Fail-safe paths skip the owner test.** An unreadable expiry or lifetime makes an ownerless secret due (`KSecret.OwnerlessMalformedExpires`).
- **Test name versus expectation.** The test titled "Does not need renewal if lifetime annotation is missing" asserts `true`. The code also returns `true` (`KSecret.MalformedAlwaysExpires`).
- **Panic in the sweep.** The sweep reads `OwnerReferences[0]` of every due secret (controllers/renewal_event.go:133). A listed secret reaches it with a nil list through the fail-safe paths (`RenewalEvent.OwnerlessMalformedCrashes`). An empty, non-nil list also panics past the horizon (`RenewalEvent.EmptyOwnersCrashPastHorizon`). The API server never sends an empty `ownerReferences`, though: a listed secret without owners decodes as nil, so that case arises only for a secret built in memory.
- **The sweep's `maxAge` is always zero.** `CreateRenewalEvent` never sets it, so its horizon is `expires - lifetime`, which is within 30 seconds of the fetch (`RenewalEvent.DefaultSweepHorizon`). A freshly regenerated secret is due for the sweep within 30 seconds (`KSecret.RegeneratedHorizon` with `maxAge = 0`). From then on, every poll raises an event for it. `Reconcile`, however, judges expiry with the reconciler's own `MaxAge`.
- **A namespace-list failure ends the poll.** It is returned with no events, unless it is the cache-not-started error, which returns nil. Only a secret-list failure is skipped namespace by namespace.
- **No concurrency in the sweep.** No code path skips a sweep on lock contention or cancels the loop. `Run` is the only caller of `pollSecrets`, and its context is `context.Background()`.

## Model

| member | source | states |
|---|---|---|
| KSecret.AnnotationKeysDistinct | internal/ksecret/ksecret.go:31-35 | the uid, expires and validity annotation keys are three distinct strings |
| KSecret.GetSecretUuid | internal/ksecret/ksecret.go:39-67 | the identity is uuid.Nil when the payload, expiry or lifetime is missing; otherwise it is the digest of payload bytes, then expiry bytes, then lifetime bytes |
| KSecret.HashInput | internal/ksecret/ksecret.go:59 | the digested bytes are the payload followed by the UTF-8 encoding of the expiry text joined with the lifetime text (by Utf8Append) |
| KSecret.SecretUuidDependsOnContentOnly | internal/ksecret/ksecret.go:39-67 | two secrets that agree on payload, expiry and lifetime have the same identity, whatever their uid annotation, name, type or owners |
| KSecret.IsChanged | internal/ksecret/ksecret.go:110-134 | a secret has not drifted exactly when its identity is not Nil, it carries a uid annotation, and that annotation parses to the identity |
| KSecret.IncompleteIsChanged | internal/ksecret/ksecret.go:112-117 | a secret missing payload, expiry or lifetime has always drifted |
| KSecret.Stamp | internal/ksecret/ksecret.go:174-178 | writes the uid annotation from the recomputed identity; its contract is carried by StampKeepsUuid and StampIsUnchanged below |
| KSecret.StampKeepsUuid | internal/ksecret/ksecret.go:174-178 | writing the uid annotation does not change the identity it was computed from |
| KSecret.StampIsUnchanged | internal/ksecret/ksecret.go:170-178 | under the UUID round-trip law alone, a stamped secret has not drifted exactly when its identity is not Nil |
| KSecret.IsExpired | internal/ksecret/ksecret.go:72-106 | modelled as a function; its contract is carried by UnmanagedNeverExpires, MalformedAlwaysExpires, ExpiredPastHorizon, RenewalBoundary and ExpiryIsMonotone below |
| KSecret.UnmanagedNeverExpires | internal/ksecret/ksecret.go:74-79 | a secret without the expires annotation is never due |
| KSecret.MalformedAlwaysExpires | internal/ksecret/ksecret.go:82-99 | an unparsable expiry, a missing lifetime or an unparsable lifetime makes the secret due at every instant and for any owners; it has no horizon |
| KSecret.ExpiredPastHorizon | internal/ksecret/ksecret.go:101-105 | a well-formed secret is due exactly when it has a non-nil owner slice and now is strictly past expires + (maxAge - lifetime) |
| KSecret.RenewalBoundary | internal/ksecret/ksecret.go:102-105 | not due at the horizon itself, due one second later |
| KSecret.ExpiryIsMonotone | internal/ksecret/ksecret.go:72-106 | once due, a secret stays due as the clock advances |
| KSecret.OwnerlessWellFormedNeverExpires | internal/ksecret/ksecret.go:105 | a well-formed secret with a nil owner slice is never due |
| KSecret.EmptyOwnerSliceCounts | internal/ksecret/ksecret.go:105 | an empty but non-nil owner slice passes the owner test |
| KSecret.OwnerlessMalformedExpires | internal/ksecret/ksecret.go:82-86 | an ownerless secret with an unreadable expiry is due: the fail-safe path skips the owner test |
| KSecret.DockerConfigJson | internal/ksecret/ksecret.go:155 | the `.dockerconfigjson` document of the Sprintf, endpoint and token inserted verbatim |
| KSecret.LifetimeText | internal/ksecret/ksecret.go:145-150 | the validity annotation: the time from now to the expiry, rounded to the minute, printed by Duration.String; its contract is carried by TwelveHourTokenLifetime and MaterializedReadsBack |
| KSecret.MaterializedAnnotations | internal/ksecret/ksecret.go:147-151 | the annotation map has exactly the expires, uid and validity keys, holding the given expiry text, the Nil UUID text and the given lifetime text |
| KSecret.GetSecretData | internal/ksecret/ksecret.go:138-159 | modelled as a function; its contract is carried by GetSecretDataFailure, GetSecretDataShape, TwelveHourTokenLifetime and MaterializedReadsBack below |
| KSecret.GetSecretDataFailure | internal/ksecret/ksecret.go:140-143 | a failed token fetch yields exactly that error |
| KSecret.GetSecretDataShape | internal/ksecret/ksecret.go:145-158 | on success, the annotation keys are exactly expires, uid and validity. The values are: - expires: the formatted expiry; - uid: the Nil UUID text; - validity: the Duration text of the time left, rounded to the minute. The data holds exactly the .dockerconfigjson key with the registry-auth document's bytes |
| KSecret.TwelveHourTokenLifetime | internal/ksecret/suite_test.go:133-141 | a token fetched twelve hours before its expiry, as in the test, gets the lifetime text "12h0m0s" |
| KSecret.MaterializedReadsBack | internal/ksecret/ksecret.go:145-151 | under the time and duration laws, for an expiry in years 0000 to 9999 and a time left that fits an int64 Duration: the written expiry parses back to the token's expiry; the written lifetime parses to a whole number of minutes within 30 s of the time left |
| KSecret.Regenerate | internal/ksecret/ksecret.go:170-178 | annotations and data replaced, then stamped, as UpdateSecret and the create branch at controllers/ecrsecret_controller.go:150-152 do; its contract is carried by RegeneratedHorizon and RegenerateIsFresh below |
| KSecret.RegeneratedHorizon | internal/ksecret/ksecret.go:145-151 | for a token whose annotations read back (expiry in years 0000 to 9999, time left within int64 Duration range), a regenerated secret has a horizon within 30 s of now + maxAge |
| KSecret.RegenerateIsFresh | internal/ksecret/ksecret.go:162-181 | regeneration keeps name, namespace, type and owners, and keeps no old annotation or data key. The uid annotation is the text of the new identity. Under the UUID law alone, the result has not drifted unless that identity is Nil |
| KSecret.UpdateSecret | internal/ksecret/ksecret.go:162-181 | on a token error, returns it and leaves the secret unchanged. Otherwise the new state is the regenerated secret: annotations and data replaced first, then the uid computed from them and stamped |
| GoTime.RoundToMinute | internal/ksecret/ksecret.go:145 | Duration.Round(time.Minute) on whole seconds; its contract is carried by RoundToMinuteBounds and RoundToMinuteNearest below |
| GoTime.RoundToMinuteBounds | internal/ksecret/ksecret.go:145 | the rounded validity is a multiple of a minute within 30 s of the exact one; ties go away from zero |
| GoTime.RoundToMinuteNearest | internal/ksecret/ksecret.go:145 | any minute multiple strictly within 30 s of the duration is the rounding result |
| GoTime.FormatDuration | internal/ksecret/ksecret.go:150 | Duration.String() on whole seconds; its contract is carried by FormatTwelveHours and FormatShape below |
| GoTime.FormatTwelveHours | internal/ksecret/ksecret.go:150 | twelve hours prints as "12h0m0s" |
| GoTime.FormatShape | internal/ksecret/ksecret.go:150 | under a minute, only the seconds are printed; a whole number of minutes prints ending in "0s" |
| Uuids.Format | internal/ksecret/ksecret.go:177 | uuid.String(): always 36 characters; FormatNil and FormatInjective below carry the rest |
| Uuids.FormatNil | internal/ksecret/ksecret.go:149 | the placeholder uid text is the text of uuid.Nil |
| Uuids.FormatInjective | internal/ksecret/ksecret.go:177 | distinct UUIDs have distinct texts, so the stamped text determines the identity |
| GoStrings.IsSpace | controllers/ecrsecret_kube_secret.go:37 | unicode.IsSpace, the white-space test behind strings.TrimSpace: the Latin-1 spaces and the other White_Space code points |
| GoStrings.TrimSpace | controllers/ecrsecret_kube_secret.go:37 | strings.TrimSpace under unicode.IsSpace; its contract is carried by TrimSpaceEmptyIff below |
| GoStrings.TrimSpaceEmptyIff | controllers/ecrsecret_kube_secret.go:37 | TrimSpace yields the empty string exactly when every character is white space |
| GoStrings.Split | controllers/ecrsecret_controller.go:98 | strings.Split on a one-character separator: at least one field; SplitNoSep, SplitAtFirstSep and SplitJoin below carry the rest |
| GoStrings.SplitNoSep | controllers/ecrsecret_controller.go:98 | a string without a dot splits into one field |
| GoStrings.SplitAtFirstSep | controllers/ecrsecret_controller.go:98 | the text before the first dot is the first field, and the rest is split on |
| GoStrings.Join | internal/config/config.go:75 | strings.Join; its contract is carried by SplitJoin below |
| GoStrings.SplitJoin | internal/config/config.go:75 | joining fields free of the separator and splitting on it gives the fields back (Join is the inverse of Split) |
| GoStrings.Utf8 | internal/ksecret/ksecret.go:59 | the `[]byte(...)` conversion of the digested annotation texts and of the payload at line 155: UTF-8, one to four bytes per character |
| GoStrings.Utf8Append | internal/ksecret/ksecret.go:59 | encoding a concatenation is concatenating the encodings; HashInput uses it to read the digest input as the payload plus the encoding of one text |
| GoStrings.DecimalString | internal/ksecret/ksecret.go:150 | the digit printing inside Duration.String: at least one character, all decimal digits |
| GoStrings.DecimalRoundTrip | internal/ksecret/ksecret.go:150 | the printed digits spell the number back |
| EcrSecretKubeSecret.GetKubeSecretName | controllers/ecrsecret_kube_secret.go:35-43 | spec.secretName verbatim when it is not all white space; the resource name plus "-secret" otherwise |
| EcrSecretKubeSecret.KubeSecretNameExamples | controllers/suite_test.go:247-269 | empty or blank names fall back to "<name>-secret"; "my=secret" and " my-secret " are kept verbatim |
| EcrSecretKubeSecret.NewSecret | controllers/ecrsecret_kube_secret.go:54-66 | the secret constructSecret returns: the corev1.Secret literal (chosen name, owner's namespace, dockerconfigjson type, given annotations and data) plus the one controller reference SetControllerReference appends; ConstructSecret's ensures ties its result to it |
| EcrSecretKubeSecret.SetControllerReference | controllers/ecrsecret_kube_secret.go:64-66 | the failure is returned and the object left alone, or the owner is appended as controller with blockOwnerDeletion |
| EcrSecretKubeSecret.ConstructSecret | controllers/ecrsecret_kube_secret.go:46-69 | a token error or an owner-reference error yields no secret and that error. Otherwise the result is a new secret with: the chosen name; the owner's namespace; the dockerconfigjson type; the built annotations and data; a single controller reference |
| EcrSecretKubeSecret.CreatedSecretIsFresh | controllers/ecrsecret_controller.go:144-154 | the created secret is named and owned as required and carries exactly the three annotations and the payload. It has not drifted unless its identity is Nil. For a token whose annotations read back, its horizon is within 30 s of now + maxAge |
| Config.CredentialsFor | internal/config/config.go:51-75 | exactly one of credentials and error |
| Config.CredentialsForReadsOnlyOwnKeys | internal/config/config.go:52-59 | editing another account, or a key other than access_key and secret_key, does not change the outcome |
| Config.TwoAccountsScenario | internal/config/suite_test.go:78-106 | each account id of a two-account file selects its own keys; an unknown id gets the missing-account message |
| Config.LoadCredentials | internal/config/config.go:41-76 | a decode error is returned unchanged. Otherwise the outcome is one of: - the account's two keys; - "FATAL: Credentials for account '<id>' not present in configuration"; - "FATAL: " followed by the missing-key messages joined with ", ", access_key first |
| EcrSecretController.SplitRegistry | controllers/ecrsecret_controller.go:96-100 | fields 0 and 3 of the dot-split, None where the closure would index past the end; its contract is carried by RegistryFields, DotlessRegistryPanics and DockerHubRegistryPanics below |
| EcrSecretController.RegistryFields | controllers/ecrsecret_controller.go:96-100 | `<account>.dkr.ecr.<region>.amazonaws.com` with dot-free account and region yields exactly that account and region |
| EcrSecretController.DotlessRegistryPanics | controllers/ecrsecret_controller.go:96-100 | a registry without a dot (the empty one included) makes the closure index out of range |
| EcrSecretController.DockerHubRegistryPanics | controllers/ecrsecret_controller.go:96-100 | "docker.io" has two fields, so the closure panics |
| EcrSecretController.TestRegistryFields | internal/aws/aws.go:47 | the test registry yields account 123456789012 and region eu-west-1 |
| EcrSecretController.CreateOwnedSecret | controllers/ecrsecret_controller.go:139-159 | a token or owner-reference error is returned with no write. Otherwise a single Create is issued, of the new secret stamped with its uid, and its error is returned |
| EcrSecretController.RefreshOwnedSecret | controllers/ecrsecret_controller.go:161-173 | no write unless the found secret has drifted or is expired under the reconciler's maxAge. Then a token error is returned with no write, or a single Update is issued, of the regenerated secret, and its error is returned |
| EcrSecretController.SyncOwnedSecret | controllers/ecrsecret_controller.go:134-176 | a lookup error other than NotFound is returned with no write; otherwise the secret is created or refreshed as above |
| EcrSecretController.Reconcile | controllers/ecrsecret_controller.go:69-177 | the result never asks for a requeue. The process exits exactly on an unreadable config file (message "FATAL: Cannot load '<file>'.") or unusable credentials (LoadCredentials' message). A registry with fewer than four fields panics. A deleted resource ends quietly, and a fetch or session error is returned, before any secret lookup. Otherwise the owned secret is looked up under `<namespace>/<chosen name>` and synced |
| RenewalEvent.CreateRenewalEvent | controllers/renewal_event.go:48-60 | the poller's maxAge is zero |
| RenewalEvent.DefaultSweepHorizon | controllers/renewal_event.go:131 | with the default poller, a well-formed owned secret is due for the sweep exactly when now is past expires - lifetime; an event also needs a non-empty owner list and a found owner (EmitIff) |
| RenewalEvent.PollSecrets | controllers/renewal_event.go:90-154 | cache-not-started returns nil and any other namespace-list error is returned, both with no events. Otherwise the events sent are the reference scan's, in order, and the poll panics exactly when the scan does |
| RenewalEvent.SweepSecrets | controllers/renewal_event.go:122-148 | the inner loop's events and panic are the reference scan of the secret list |
| RenewalEvent.PanicStopsScan | controllers/renewal_event.go:133 | after a panic, the rest of the secret list adds nothing |
| RenewalEvent.NamespacePanicStops | controllers/renewal_event.go:111-133 | after a panic, the remaining namespaces add nothing |
| RenewalEvent.ScanSecretsAppend | controllers/renewal_event.go:122-148 | scanning a secret list equals scanning its two halves in turn |
| RenewalEvent.ScanNamespacesAppend | controllers/renewal_event.go:111-149 | scanning a namespace list equals scanning its two halves in turn |
| RenewalEvent.EventsInNamespaceOrder | controllers/renewal_event.go:111-149 | events of earlier namespaces come before those of later ones |
| RenewalEvent.FailedNamespaceIsSkipped | controllers/renewal_event.go:117-120 | a namespace whose secrets cannot be listed contributes nothing, and the sweep goes on |
| RenewalEvent.SkippedSecretIsInvisible | controllers/renewal_event.go:126-140 | a secret that is skipped (wrong type, not due, owner not found) leaves the sweep as if it were absent |
| RenewalEvent.OtherTypesAreSkipped | controllers/renewal_event.go:126-129 | only the dockerconfigjson type is considered |
| RenewalEvent.Visit | controllers/renewal_event.go:126-146 | the inner loop body's verdict for one secret; its contract is carried by EmitIff, PanicIff, OtherTypesAreSkipped and SkippedSecretIsInvisible |
| RenewalEvent.EmitIff | controllers/renewal_event.go:126-146 | a secret yields an event for e exactly when all of these hold: it is of the docker type; it is due; it has a first owner; the ECRSecret of that name in the secret's namespace is e |
| RenewalEvent.PanicIff | controllers/renewal_event.go:131-133 | a list's scan panics exactly when one of its secrets is a due docker secret without owners |
| RenewalEvent.EventsIff | controllers/renewal_event.go:122-147 | in a scan that does not panic, e is sent exactly when some secret's verdict is an event for e |
| RenewalEvent.CrashKeepsEarlierEvents | controllers/renewal_event.go:133-146 | a crash ends the scan with the events already sent, whatever follows |
| RenewalEvent.OwnerlessMalformedCrashes | controllers/renewal_event.go:131-133 | a docker secret with nil owners and an unreadable expiry crashes the sweep |
| RenewalEvent.EmptyOwnersCrashPastHorizon | controllers/renewal_event.go:131-133 | a docker secret with an empty owner slice crashes the sweep past its horizon |
| RenewalEvent.Run | controllers/renewal_event.go:62-88 | a pass polls exactly when its clock is strictly after nextRun. nextRun starts at the start time and becomes a minute after each poll returns |
| RenewalEvent.NextRunNondecreasing | controllers/renewal_event.go:75-83 | with a clock that does not run backwards within a pass, nextRun never decreases |
| RenewalEvent.PollsSpacedByMinute | controllers/renewal_event.go:64-83 | two polls start more than a minute apart |
| RenewalEvent.FirstPassPolls | controllers/renewal_event.go:64-75 | the first pass polls exactly when the clock has moved past the start |

## Left out

- Logging, `SetupWithManager`, the manager and watches, and the CRD schema's validation of the registry pattern are not modelled.
- TOML decoding is not modelled: `LoadCredentials` takes the decoder's result.
- `os.Open` is a reply in the environment. `os.Exit` is an `Exit` outcome.
- The token service is a single result per reconciliation. The nil-pointer fields of the AWS reply are not modelled.
- Go `time.Time` and `time.Duration` are whole seconds, with no monotonic clock.
  - Sub-second durations are not modelled.
  - Neither is int64 overflow or the saturation of `Time.Sub`.
  - `Duration.String()` is written out only for whole seconds.
- One clock reading `now` is used per `Reconcile` and per `PollSecrets`. The source reads the clock again inside each `IsExpired` and `GetSecretData` call.
- The `sync.RWMutex` in `RenewalEvent` is left out, because its only caller is sequential. So are the goroutine, the channel's capacity and blocking, and the 500 ms sleep.
- `ctx.Done()` in `Run` is left out: its context is never cancelled.
- `Run` loops forever. It is modelled over a finite sequence of passes: each pass is a clock reading before the poll and one after it.
- `Run` records only which passes poll. What each poll sends is `PollSecrets`'s business.
- A panic is not propagated to the process.
- MD5, `uuid.Parse`, RFC 3339 formatting and parsing, and `time.ParseDuration` are uninterpreted functions.
  - Only their round-trip laws are assumed.
  - MD5 is not assumed injective, so tampering that leaves the digest unchanged is not excluded.
- Go strings are sequences of Unicode scalar values. Strings that are not valid UTF-8 are not modelled.
- An owner reference's `apiVersion` is not modelled.
- SetControllerReference: only the append of a new controller reference is modelled. It is always applied to a freshly built secret. That leaves out two controller-runtime behaviours inside it: the replacement of an existing reference to the same owner, and the error when another controller already owns the object.
- ConstructSecret: the failure of the scheme lookup is an input (`setRefFailure`), not derived from a scheme.
