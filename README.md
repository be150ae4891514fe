# cert-manager core: renewal scheduling, key generation, expiry metrics and Venafi issuance

This project models four pieces of cert-manager in Dafny and proves properties of them.

- **Renewal scheduling** (`pkg/controller/helper.go`). The issuer option helpers pick an issuer's resource namespace and decide whether it may use ambient credentials. `CalculateDurationUntilRenew` takes the renew-before window: the Certificate's own, or the controller default. If the window is longer than the certificate's lifetime, it is clamped to a third of the lifetime. The function then returns the time until NotAfter minus that window. `CertificateNeedsRenew` tests that result for `<= 0`. Go's `time.Duration` is an int64 count of nanoseconds:
  - `Time.Sub` saturates at the ends of that range;
  - the final subtraction wraps around;
  - `/ 3` truncates toward zero.

  The model writes each of these out (module `GoTime`). `time.Now` becomes a parameter.
- **Private keys** (`pkg/util/pki/generate.go`). The model covers:
  - defaulting of key algorithm and size;
  - the RSA size bounds 2048..8192 and the ECDSA sizes 256/384/521 with their curves;
  - the encoding × key-type table that picks the PEM block type;
  - extraction of the public key;
  - the public-key match decision against a certificate or a CSR.

  Keys are abstract values: an RSA key is its size and modulus, an ECDSA key its curve and point. A PEM block is its type plus the key it encodes.
- **Expiry metrics** (`pkg/metrics/metrics.go`). The registry is a class. It holds the set of registered `namespace/name` keys, the expiry gauge map labelled by (name, namespace), the sync-call counter map, and both certificate listers: the package-level one and the struct field. `cleanUpCertificates` keeps its three loops; each carries invariants tying it to a specification function on a `Registry` value. Lemmas on that value prove idempotence, which keys and gauges survive, and preservation of a consistency invariant.
- **Venafi issuance** (`pkg/issuer/venafi/issue.go`). `Issue` is nine fallible steps run in order:
  1. key generation;
  2. public-key extraction;
  3. template generation;
  4. zone read;
  5. zone validation;
  6. CSR generation;
  7. certificate request;
  8. certificate retrieval;
  9. key encoding.

  The first failure decides the outcome. A key-generation failure means "do not retry". Every later failure is a retried error, with pending and timed-out retrievals kept apart. The vcert client, the zone and `pki.GenerateTemplate` are one `Environment` value whose fields are the answers those calls give. Each call that reads the request receives a snapshot of it. `Issue` also returns a trace of the steps it ran, each with its verdict and the request that step saw.

  The imperative code is `Issue`, `PrepareRequest`, `SubmitAndPickUp` and `PickUp`. It mutates a `Template` object and a `VRequest` object field by field, as the source does. It is proved equal to the pure specification `IssueRunOf`, which is written one function per step. The source's single `Issue` function is split at the request hand-over so each part can be proved on its own.

The modules are `Outcomes` (Option/Result), `GoTime`, `Api` (the v1alpha1 shapes the core reads), `Strings` (`strings.Join` with "\n", which the source calls, and the character search that client-go's `SplitMetaNamespaceKey` splits on "/" with), `Pki`, `Controller`, `Metrics` and `Venafi`.

Two consequences of the code's arithmetic:

- The time until renewal is negative whenever renewal is overdue (`Controller.OverdueRenewalIsNegative`).
- The clamped window stays within the lifetime only when NotBefore ≤ NotAfter. For a negative lifetime, the clamped window lies between the lifetime and zero (`Controller.ClampRenewBefore`).

The doc comments of `PublicKeyMatchesCertificate` and `PublicKeyMatchesCSR` (pkg/util/pki/generate.go:178-179, 210-211) promise an error when either key has an unrecognised type. The code returns false with no error for a check key of an unrecognised type; the model follows the code (`Pki.UnrecognisedCheckKeyIsAMismatch`).

## Model

| member | source | states |
|---|---|---|
| GoTime.Sub | pkg/controller/helper.go:60 | `Time.Sub` gives the exact difference when it fits in int64, and otherwise the nearest end of the range. Its sign always matches the order of the two instants. |
| GoTime.WrapInt64 | pkg/controller/helper.go:86 | int64 subtraction: in range the value is unchanged; otherwise it is congruent to the exact result modulo 2^64. |
| GoTime.QuoThree | pkg/controller/helper.go:80 | Go's `certDuration / 3` truncates toward zero. For a non-negative dividend, 0 ≤ 3q ≤ a < 3q + 3. For a negative one, 3q − 3 < a ≤ 3q ≤ 0. |
| GoTime.UnixSeconds | pkg/metrics/metrics.go:223 | `Time.Unix` gives the whole seconds at or before the instant: s·10^9 ≤ t < (s+1)·10^9. |
| Controller.ResourceNamespace | pkg/controller/helper.go:28-34 | The issuer's own namespace if non-empty, else the cluster resource namespace. The result is empty iff both are empty. |
| Controller.CanUseAmbientCredentials | pkg/controller/helper.go:36-44 | True iff (ClusterIssuer and the cluster flag) or (Issuer and the issuer flag). Always false for any other issuer kind. |
| Controller.ConfiguredRenewBefore | pkg/controller/helper.go:68-71 | The Certificate's RenewBefore when set, otherwise `RenewBeforeExpiryDuration`. |
| Controller.ClampRenewBefore | pkg/controller/helper.go:76-81 | Unchanged when renewBefore ≤ certDuration, otherwise certDuration/3 truncated. Never exceeds a non-negative lifetime. When clamped, it lies within a third of the lifetime (remainder < 3 ns), or between a negative lifetime and zero. |
| Controller.EffectiveRenewBefore | pkg/controller/helper.go:60-81 | For a certificate with NotBefore ≤ NotAfter, NotAfter minus the window is never before NotBefore. This holds even when the lifetime saturates in `Time.Sub`. |
| Controller.CalculateDurationUntilRenew | pkg/controller/helper.go:55-89 | When NotAfter − now fits in int64, the result is congruent modulo 2^64 to (NotAfter − now) − window, and exactly that when the final subtraction also fits. When NotAfter − now does not fit, `Time.Sub` saturates first, and the contract does not describe the result. |
| Controller.CertificateNeedsRenew | pkg/controller/helper.go:46-48 | Without overflow, true iff now ≥ NotAfter − window. |
| Controller.RenewalIgnoresRequestedDuration | pkg/controller/helper.go:60-64 | Setting, changing or clearing Spec.Duration leaves the result unchanged. |
| Controller.NinetyDayCertificateRenewsAfterSixtyDays | pkg/controller/helper.go:84-88 | A 90-day certificate with a 30-day window, evaluated at NotBefore, renews in 60 days. |
| Controller.OverlongWindowIsClampedToAThird | pkg/controller/helper.go:76-88 | A 30-day window on a 10-day certificate becomes 288000 s. The result is 10 days minus that. |
| Controller.OverdueRenewalIsNegative | pkg/controller/helper.go:84-88 | At NotAfter of a 90-day certificate with a 30-day window, the result is −30 days and renewal is needed. |
| Pki.GenerateRSAPrivateKey | pkg/util/pki/generate.go:78-89 | A weak-size error iff size < 2048. A too-big error iff size > 8192. Within the bounds, the random source's error iff reading it fails. Success iff 2048 ≤ size ≤ 8192 and the random source works, with an RSA key of exactly that size. |
| Pki.GenerateECPrivateKey | pkg/util/pki/generate.go:93-108 | Success iff size ∈ {256, 384, 521} and the random source works, on the curve of that size. An unsupported-size error for any other size. The random source's error when reading it fails. |
| Pki.SizeOrDefault | pkg/util/pki/generate.go:56-68 | The spec's KeySize when positive, else the algorithm default. |
| Pki.GeneratePrivateKeyForCertificate | pkg/util/pki/generate.go:53-74 | Empty or "rsa": RSA generation with KeySize or 2048. "ecdsa": ECDSA generation with KeySize or 256. Any other algorithm: an unsupported-algorithm error. |
| Pki.GeneratedKeysAreWithinPolicy | pkg/util/pki/generate.go:52-74 | Every generated key is RSA within [2048, 8192] or ECDSA on a 256/384/521 curve, never another type. |
| Pki.EncodePKCS8PrivateKey | pkg/util/pki/generate.go:139-147 | Encodes exactly the RSA and ECDSA keys, as a "PRIVATE KEY" block carrying the key. |
| Pki.EncodePrivateKey | pkg/util/pki/generate.go:113-129 | Success iff the encoding is "", "pkcs1" or "pkcs8" and the key is RSA or ECDSA; the block carries the key. An unknown encoding gives an unknown-encoding error. PKCS#1 of another key type gives an unknown-key-type error. |
| Pki.EncodedBlockTypes | pkg/util/pki/generate.go:113-158 | The block type is "PRIVATE KEY" for PKCS#8, "RSA PRIVATE KEY" for RSA and "EC PRIVATE KEY" for ECDSA under empty/PKCS#1. |
| Pki.PublicKeyForPrivateKey | pkg/util/pki/generate.go:162-171 | Success iff the key is RSA or ECDSA. The result is the public half with the same modulus, or the same curve and point. Otherwise an unknown-private-key-type error. |
| Pki.PublicKeysMatch | pkg/util/pki/generate.go:180-203 | An error iff the embedded key is neither RSA nor ECDSA. Otherwise true iff the check key is the same type with equal modulus, or equal X and Y (the curve is not compared). A check key of the wrong type is false with no error. |
| Pki.PublicKeyMatchesCertificate | pkg/util/pki/generate.go:180-203 | The same decision against the certificate's public key. |
| Pki.PublicKeyMatchesCSR | pkg/util/pki/generate.go:212-235 | The same decision against the CSR's public key. |
| Pki.UnrecognisedCheckKeyIsAMismatch | pkg/util/pki/generate.go:178-203 | For an embedded RSA or ECDSA key, a check key of an unrecognised type gives (false, no error) from both functions, not the error their doc comments promise. |
| Pki.MatchesCSRAgreesWithCertificate | pkg/util/pki/generate.go:212-235 | A CSR and a certificate carrying the same public key give the same verdict for every check key. |
| Pki.PublicKeyMatchesItself | pkg/util/pki/generate.go:162-203 | The public half of a key matches a certificate and a CSR made for it: (true, no error). |
| Pki.GeneratedKeyIsUsable | pkg/util/pki/generate.go:52-171 | A generated key always has a public half, which matches a certificate made for it, and it encodes under every known encoding. |
| Strings.IndexOf | pkg/metrics/metrics.go:270 | The first position of the character, if any, and none exactly when the character does not occur. |
| Strings.JoinLinesConcat | pkg/issuer/venafi/issue.go:200-201 | Joining two non-empty runs of lines equals joining each and putting one "\n" between them. |
| Strings.JoinLinesLosesLineBoundaries | pkg/issuer/venafi/issue.go:200-201 | On parts that contain newlines the join cannot be undone: ["A\nB", "C"] and ["A", "B\nC"] join to the same text. |
| Metrics.MetaNamespaceKey | pkg/metrics/metrics.go:213 | The cache key: the namespace, "/", then the name; only the name when the namespace is empty. Its inverse is `SplitMetaNamespaceKey` (`SplitMetaNamespaceKeyInvertsKey`). |
| Metrics.CertificateKey | pkg/metrics/metrics.go:211-258 | The key of a Certificate, registered at :213 and compared at :252. `MetaNamespaceKey` of its namespace and name. `CertificateKeyIsCanonical` shows that with slash-free names it splits back into them. |
| Metrics.SplitMetaNamespaceKey | pkg/metrics/metrics.go:270-273 | An error iff the key has two or more slashes. Otherwise both parts are slash-free: ("", key) without a slash, and key = namespace + "/" + name with one. |
| Metrics.SplitMetaNamespaceKeyInvertsKey | pkg/metrics/metrics.go:211-273 | Splitting the key built from slash-free names gives those names back. |
| Metrics.CertificateKeyIsCanonical | pkg/metrics/metrics.go:213-224 | A Certificate with slash-free names has a canonical key, whose labels are (name, namespace). |
| Metrics.CleanUpIsIdempotent | pkg/metrics/metrics.go:249-281 | Cleaning up twice against the same active keys equals cleaning up once. |
| Metrics.CleanUpKeepsExactlyActiveKeys | pkg/metrics/metrics.go:249-281 | When every registered key splits, the registered set after cleanup is old ∩ active. |
| Metrics.CleanUpKeepsGaugesOfActiveKeys | pkg/metrics/metrics.go:263-279 | In a consistent registry, an active key's gauge survives cleanup with its value. |
| Metrics.CleanUpDeletesGaugesOfRemovedKeys | pkg/metrics/metrics.go:262-280 | Every registered, inactive key that splits is removed together with its gauge. Every deleted gauge belongs to a key that was removed. |
| Metrics.CleanUpPreservesConsistency | pkg/metrics/metrics.go:249-281 | Cleanup keeps every registered key canonical and keeps the gauge of each. |
| Metrics.ExpiryUpdatePreservesConsistency | pkg/metrics/metrics.go:211-225 | Recording a certificate with slash-free names keeps the registry consistent. |
| Metrics.RemovedOneMore | pkg/metrics/metrics.go:269-280 | One iteration of the last loop forgets a key that splits, together with its gauge, and skips any other key. |
| Metrics.SplittableKeysAreStale | pkg/metrics/metrics.go:262-273 | The keys the last loop removes are exactly the registered, inactive keys that split. |
| Metrics.CollectActiveKeys | pkg/metrics/metrics.go:250-258 | The first loop's `activeMap` is exactly the set of keys of the active certificates. |
| Metrics.CollectKeysToCleanUp | pkg/metrics/metrics.go:262-267 | `toCleanUp` holds exactly the registered keys not in `activeMap`, each once. |
| Metrics.Metrics.constructor | pkg/metrics/metrics.go:103-110 | The initial state: nothing registered, no gauges or counters, and both listers nil. |
| Metrics.Metrics.UpdateX509Expiry | pkg/metrics/metrics.go:211-225 | The key is registered and the (name, namespace) gauge holds NotAfter in Unix seconds. Nothing else changes. |
| Metrics.Metrics.SetActiveCertificates | pkg/metrics/metrics.go:227-229 | The struct field becomes the given lister, which may be nil (`None`). Only that field changes. The package-level lister that cleanUp reads stays as it was. |
| Metrics.Metrics.CleanUpCertificates | pkg/metrics/metrics.go:249-281 | The new registry and gauges are the old ones with every stale key and its gauge removed. Counters and listers are unchanged. |
| Metrics.Metrics.CleanUp | pkg/metrics/metrics.go:231-247 | As written: with no package-level lister, or a failing List, nothing changes. Otherwise it cleans up against that lister's certificates. |
| Metrics.Metrics.CleanUpActiveCertificates | pkg/metrics/metrics.go:231-247 | The same, against the lister that SetActiveCertificates installed. |
| Metrics.Metrics.IncrementSyncCallCount | pkg/metrics/metrics.go:283-287 | The named controller's counter rises by exactly one. Every other counter and the registry are unchanged. |
| Metrics.CleanUpKeepsDeletedCertificate | pkg/metrics/metrics.go:110-240 | The sequence "record a certificate, install a lister that lists nothing, run cleanUp" leaves the key registered and its gauge exported. |
| Metrics.CorrectedCleanUpForgetsDeletedCertificate | pkg/metrics/metrics.go:227-247 | The same sequence with the intended lister removes the key and the gauge. |
| Venafi.Template.constructor | pkg/issuer/venafi/issue.go:88-103 | The template `pki.GenerateTemplate` returns, with its subject and no public key yet. `PrepareRequest` then fixes Organization and sets the public key. |
| Venafi.VRequest.constructor | pkg/issuer/venafi/issue.go:211 | A new vcert request has every modelled field at its zero value. |
| Venafi.NewVRequest | pkg/issuer/venafi/issue.go:210-215 | newVRequest: a fresh request whose whole Subject is the template's; the other fields are zero. |
| Venafi.FixedTemplateSubject | pkg/issuer/venafi/issue.go:97-99 | Organization becomes empty when the Certificate asks for none. Otherwise the generated subject is kept. |
| Venafi.BuildChain | pkg/issuer/venafi/issue.go:200-201 | The loop builds exactly `JoinLines([certificate] + chain)`. |
| Venafi.ThenIsWellFormed | pkg/issuer/venafi/issue.go:52-208 | A successful step followed by a well-formed run of the later steps is a well-formed run. |
| Venafi.WellFormedRunShape | pkg/issuer/venafi/issue.go:52-208 | In a well-formed run the steps come in pipeline order and all but the last succeeded. The outcome is a success iff the last step succeeded, which needs every step. A retried error names the last step. |
| Venafi.EncodeStep | pkg/issuer/venafi/issue.go:190-207 | Success iff EncodePrivateKey succeeds. The response is then the encoded key, the joined chain and an empty CA. |
| Venafi.RetrieveStep | pkg/issuer/venafi/issue.go:169-188 | Retrieval gets the request with its pickup ID. A pending result is retried as pending and a timeout as a timeout; any other error is retried as a retrieval failure. Success continues with encoding. |
| Venafi.RequestStep | pkg/issuer/venafi/issue.go:151-162 | Submission gets the request. An error is retried. On success, the returned ID becomes the pickup ID for retrieval. |
| Venafi.SubmittedRequest | pkg/issuer/venafi/issue.go:144-149 | The submitted request carries the CSR, CsrOrigin UserProvidedCSR and a 5-minute timeout. Subject, key and pickup ID are kept. |
| Venafi.CsrStep | pkg/issuer/venafi/issue.go:136-142 | CSR generation gets the validated request. An error is retried. On success, the request is submitted with that CSR. |
| Venafi.ValidationStep | pkg/issuer/venafi/issue.go:125-134 | The zone validates the filled-in request. A rejection is retried. On acceptance, CSR generation follows. |
| Venafi.ValidatedRequest | pkg/issuer/venafi/issue.go:117-123 | The validated request has the zone's defaults applied to the fixed template subject, and carries the generated key. All other modelled fields are zero. |
| Venafi.ZoneStep | pkg/issuer/venafi/issue.go:105-113 | A zone-read error is retried. Otherwise validation follows, on the request built from it. |
| Venafi.TemplateStep | pkg/issuer/venafi/issue.go:85-103 | A template error is retried. Otherwise the zone read follows. |
| Venafi.IssueRunOf | pkg/issuer/venafi/issue.go:61-83 | A well-formed run from the first step. "Do not retry" iff key generation failed (bad key parameters or a failed random source), and then it is the only step. Otherwise the public key is taken and the template step follows. |
| Venafi.IssuedOnlyWhenEveryStepSucceeded | pkg/issuer/venafi/issue.go:64-207 | A certificate is issued only if key generation, template, zone read, validation, CSR and request all succeeded. The response key is `EncodePrivateKey(key, KeyEncoding)` for the generated key, and the CA is empty. |
| Venafi.PickUp | pkg/issuer/venafi/issue.go:169-207 | The retrieval and encoding code returns exactly the run `RetrieveStep` specifies. |
| Venafi.SubmitAndPickUp | pkg/issuer/venafi/issue.go:125-169 | Validation, CSR generation and submission, mutating the request in place, return exactly the run `ValidationStep` specifies. The request is untouched after a rejection or a CSR error. Otherwise it holds the CSR, UserProvidedCSR and the 5-minute timeout, plus the pickup ID once submission succeeded. |
| Venafi.PrepareRequest | pkg/issuer/venafi/issue.go:85-123 | Template fix-up, zone read and request construction return exactly the run `TemplateStep` specifies. |
| Venafi.Issue | pkg/issuer/venafi/issue.go:52-208 | Issue returns exactly the outcome and trace of `IssueRunOf`. |

## Left out

- Logging, the event recorder and the requested-duration log line (pkg/controller/helper.go:60-64) have no effect on results, so they are not modelled.
- `time.Now` is the parameter `now`. Instants are unbounded integers of nanoseconds, standing in for Go's wider `time.Time`.
- `UpdateCertificateExpiry` (pkg/metrics/metrics.go:193-209) reads the TLS secret through a lister, which is I/O. Only `updateX509Expiry` is modelled.
- The key function `DeletionHandlingMetaNamespaceKeyFunc` cannot fail for a Certificate, so its error branches (pkg/metrics/metrics.go:213-216, 252-255) cannot be reached and are not modelled.
- The gauge value is whole Unix seconds, not a float64.
- The HTTP metrics server, Prometheus registration, `New`'s router, `Start`, `waitShutdown`, the one-minute `wait.Until` goroutine and the mutex are I/O and concurrency. The registry is single-threaded.
- The registry, the gauge and counter vectors and the package-level lister are package variables in Go, shared by every `Metrics` that `New` returns. The `Metrics.Metrics` class holds them per object, and its constructor starts them empty. The model therefore describes the single default instance; what one instance's calls do to another's view is not captured.
- The ACME client metrics are declared but not updated in this file, so they are not modelled.
- The real cryptography: `rsa.GenerateKey`, `ecdsa.GenerateKey`, x509 marshalling and PEM byte encoding. In their place:
  - key material is a `KeyMaterial` parameter, including whether reading `rand.Reader` fails;
  - a PEM block is its type plus the key it encodes;
  - `x509.MarshalPKCS8PrivateKey` is modelled as failing exactly for key types other than RSA and ECDSA. This is the model's choice: newer Go versions also marshal Ed25519 and ECDH keys. `Issue` cannot observe the difference, since its keys are always RSA or ECDSA.
- The marshalling error of `EncodeECPrivateKey` (pkg/util/pki/generate.go:151-154) occurs only for curves outside P-256/P-384/P-521, which the model cannot represent.
- The error branch after `PublicKeyForPrivateKey` in `Issue` (pkg/issuer/venafi/issue.go:79-83) is unreachable: a generated key is always RSA or ECDSA (`Pki.GeneratedKeysAreWithinPolicy`).
- The vcert client and zone calls are the fields of `Environment`, each a function of the request snapshot it receives:
  - `ReadZoneConfiguration`;
  - `UpdateCertificateRequest`;
  - `ValidateCertificateRequest`;
  - `GenerateCSR`;
  - `RequestCertificate`;
  - `RetrieveCertificate`.

  `pki.GenerateTemplate` is also a field of `Environment`, given as its subject or an error.
- `UpdateCertificateRequest` is modelled as changing only the request's subject. Zone defaults that touch other request fields are not modelled.
- `certificate.NewRequest` copies further template fields (names, addresses, signature algorithm) that `Issue` never reads, and the template's public key is written but only vcert reads it. None of these is modelled.
- Error messages are modelled as error kinds, not strings.
- `Venafi.IssueResponse.privateKey` is the PEM block, not its bytes.

## Findings

| source | as written | input that shows it | evidently intended | confidence | as-written member | corrected member |
|---|---|---|---|---|---|---|
| pkg/metrics/metrics.go:235-240 | `cleanUp` reads the package-level `activeCertificates` (declared at :110, never assigned). `SetActiveCertificates` (:227-229) writes only the struct field `m.activeCertificates`. So cleanup never runs, and the gauges of deleted certificates are exported forever. | `updateX509Expiry(crt, cert)`, then `SetActiveCertificates` with a lister that lists no certificates, then `cleanUp()`: the key is still registered and its gauge still exported. | `cleanUp` lists `m.activeCertificates`, so the deleted certificate's key and gauge are removed. | not executed | Metrics.CleanUpKeepsDeletedCertificate | Metrics.CorrectedCleanUpForgetsDeletedCertificate |
