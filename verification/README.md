# C2Pay core in Dafny

C2Pay is a React Native shop whose checkout authorises a payment adaptively. While the user
browses, three profilers run:

- a keystroke tracker records dwell times (how long a key is held), flight times (the gap
  between key-downs) and corrections;
- a session tracker counts page views, searches and cart changes;
- a passive-biometric analyzer keeps the last 50 device-motion readings and the touch events.

At checkout the risk engine computes two scores:

- a behavioural score, from fixed penalties capped at 100;
- a passive-biometric score, from how far the current summary is from a saved one.

It fuses them as `round(0.6·b + 0.4·p)`. At or above the threshold (60 by default) it demands
Face ID or Touch ID. The selfie fallback never succeeds. Every authorised payment is recorded
in a provenance ("C2PA") manifest:

- the manifest's claim holds the payment, the behavioural evidence, the passive summary and
  the active biometric;
- the claim is signed, together with a device attestation, by an ed25519 key kept in
  SecureStore;
- a manifest verifies when its signature, its attestation and the freshness of its timestamp
  (under five minutes old) all check out.

The shop services are also modelled: the constant product catalogue, the cart and the order
history (the newest 50 orders), each kept in AsyncStorage.

The model has one module per source file:

| module | source file |
|---|---|
| `Keystroke` | `src/analytics/keystroke-tracker.ts` |
| `Session` | `src/analytics/session-tracker.ts` |
| `Passive` | `src/biometrics/passive-biometrics.ts` |
| `Active` | `src/biometrics/active-biometrics.ts` |
| `Risk` | `src/core/risk-engine.ts` |
| `C2pa` | `src/services/c2pa.ts` |
| `Keystore` | `src/services/keystore.ts` |
| `Cart` | `src/services/cart-service.ts` |
| `Orders` | `src/services/order-service.ts` |
| `Products` | `src/services/product-service.ts` |

Shared modules:

- `Types`: the records of `src/types/index.ts`.
- `Common`: option and result types, `Math.round`, clamps, means, and `Array.prototype`
  `find` and `filter`.
- `Storage`: AsyncStorage. Each key is a `StoredValue` object whose content is nothing,
  text that does not parse, or a saved value.
- `JsonModel`: the JSON tree `JSON.stringify` is applied to, with proofs that it
  determines the record.
- `Platform`: the primitives the app takes from libraries. This covers ed25519, SHA-256,
  UTF-8, base64, `JSON.stringify`, ISO dates, `Math.sqrt` and `Math.atan2`. Each is a
  function-valued field of a `Primitives` value. Their laws are predicates that the
  cryptographic lemmas assume:
  - `Sound`: signing then verifying succeeds, base64 round-trips, and public keys and
    SHA-256 digests are 32 bytes;
  - `Unforgeable`: a signature verifies only for the data it was made over;
  - `InjectiveEncodings`: UTF-8 and `JSON.stringify` are one-to-one.

Wherever the source reads the clock (`Date.now()`), draws random bytes or calls the
platform's biometric prompt, the model takes a parameter instead.

Classes follow the source:

- `KeystrokeTracker`, `SessionTracker`, `PassiveBiometricAnalyzer` and `RiskEngine` update
  their fields in place.
- `KeystoreService` holds the SecureStore contents as a `map` that its methods update.
- `CartService` and `OrderService` rewrite their AsyncStorage entry.

Loops in the source remain loops:

| model | source |
|---|---|
| `CompareTiltPatterns` | `compareTiltPatterns` |
| `Base64ToArray` | `base64ToArray` |
| `OnTouchStart` | the touch-start listener |
| `Find` | `Array.prototype.find` |

Step-by-step accumulations are methods with the function that specifies them:

- `AnalyzeBehavioralRisk` with `BehavioralRisk`;
- `StepUpAuthentication` with `StepUp`;
- `CheckManifest` with `VerifyManifest`;
- `Capabilities` with `GetTEECapabilities`.

Some observations the proofs make explicit:

- A claim stamped in the future always passes the age check, because only an upper bound on
  the age is enforced (`C2pa.FutureClaimIsFresh`).
- An Android device without StrongBox reports the 'hardware' storage level without claiming
  hardware backing (`Keystore.HardwareBackingAgreesWithLevel`).
- Passive biometrics alone cannot trigger the step up at the default threshold
  (`Risk.PassiveAloneNeverStepsUp`).
- The selfie fallback never approves a payment (`Risk.SelfieNeverApproves`).

## Model

| member | source | states |
|---|---|---|
| Keystroke.KeystrokeTracker.constructor | src/analytics/keystroke-tracker.ts:4-8 | a new tracker has no pending keys, no dwell or flight times, no last key time and no corrections |
| Keystroke.KeystrokeTracker.OnKeyDown | src/analytics/keystroke-tracker.ts:13-24 | the key's down time is recorded or overwritten; a flight time `now - lastKeyTime` is appended only when `lastKeyTime > 0`; `lastKeyTime` becomes `now`; corrections rise by exactly 1 for Backspace or Delete and are otherwise unchanged; dwell times are untouched |
| Keystroke.KeystrokeTracker.OnKeyUp | src/analytics/keystroke-tracker.ts:26-32 | with a truthy recorded down time, one dwell time `now - down` is appended and the key is removed from the map; any other key-up changes nothing; flight times, last key time and corrections never change |
| Keystroke.Average | src/analytics/keystroke-tracker.ts:52-54 | 0 for an empty list, otherwise the value that times the length gives the sum; non-negative for non-negative inputs |
| Keystroke.ProfileOf | src/analytics/keystroke-tracker.ts:35-42 | no dwell times give average dwell 0; no flight times give average flight 0, empty rhythm and error rate 0 (the corrected rate of the finding below); the rhythm is the last `min(n, 10)` flight times in order; the error rate is non-negative |
| Keystroke.KeystrokeTracker.Profile | src/analytics/keystroke-tracker.ts:35-42 | the tracker's profile: zero averages for empty lists, a rhythm equal to the last 10 flight times, and the corrected error rate of the finding below |
| Keystroke.ErrorRate | src/analytics/keystroke-tracker.ts:40 | corrections per hundred flights: the rate times the flight count is 100 times the corrections; 0 when there are no flights or no corrections; never negative |
| Keystroke.ErrorRateAsWritten | src/analytics/keystroke-tracker.ts:40 | the JavaScript value of the expression as written: never NaN, because `\|\| 0` catches it |
| Keystroke.ErrorRateAgreesWhereFinite | src/analytics/keystroke-tracker.ts:40 | the expression as written is infinite exactly when there are corrections but no flight times, and otherwise equals the corrected rate |
| Keystroke.LoneCorrectionRate | src/analytics/keystroke-tracker.ts:13-24 | a session whose first key is Backspace gives positive infinity as written and 0 as corrected |
| Keystroke.Similarity | src/analytics/keystroke-tracker.ts:44-50 | the score lies in [0, 100]; it is 100 exactly when both average dwell and average flight times agree; with D the summed absolute differences of the two averages, it is `100 - D/2` when D is at most 200 and 0 beyond |
| Keystroke.SimilaritySymmetric | src/analytics/keystroke-tracker.ts:44-50 | comparing a with b gives the same score as comparing b with a |
| Keystroke.KeystrokeTracker.CompareToProfile | src/analytics/keystroke-tracker.ts:44-50 | the similarity of the tracker's current profile to the saved one: `100 - D/2` for summed differences D up to 200 and 0 beyond; in [0, 100]; comparing with the tracker's own current profile gives 100 |
| Session.SessionTracker.constructor | src/analytics/session-tracker.ts:5-8 | the session starts at the creation time with all counters at zero |
| Session.SessionTracker.RecordPageView | src/analytics/session-tracker.ts:10-12 | page views rise by one; the other counters are unchanged |
| Session.SessionTracker.RecordSearch | src/analytics/session-tracker.ts:14-16 | searches rise by one; the other counters are unchanged |
| Session.SessionTracker.RecordCartModification | src/analytics/session-tracker.ts:18-20 | cart changes rise by one; the other counters are unchanged |
| Session.SessionTracker.Pattern | src/analytics/session-tracker.ts:22-29 | the time on site is non-negative from the start on, and under 30 s exactly when `now` is less than 30 s after the start |
| Session.PatternGrowsWithTime | src/analytics/session-tracker.ts:22-29 | a later pattern differs only in the time on site, which grows by exactly the elapsed time |
| Session.SessionTracker.LoadSavedPattern | src/analytics/session-tracker.ts:36-39 | throws exactly when the stored text does not parse |
| Session.SessionTracker.SavePattern | src/analytics/session-tracker.ts:31-34 | the current pattern is stored, and loading then returns it |
| Storage.ParseOrThrow | src/analytics/session-tracker.ts:36-39 | `saved ? JSON.parse(saved) : null`: null for nothing stored, an error for unparseable text, otherwise the saved value |
| Storage.ParseOrNull | src/services/cart-service.ts:11-18 | the same inside a try/catch: nothing exactly when no value is saved or it does not parse |
| Passive.PassiveBiometricAnalyzer.constructor | src/biometrics/passive-biometrics.ts:4-7 | the analyzer starts with no motion readings and no touches, and its invariant holds |
| Passive.PassiveBiometricAnalyzer.OnMotion | src/biometrics/passive-biometrics.ts:20-30 | the buffer keeps its invariant: it is the last 50 of all readings received, in arrival order, so it never exceeds 50; touches are unchanged |
| Passive.PassiveBiometricAnalyzer.OnTouchStart | src/biometrics/passive-biometrics.ts:49-59 | one event per touch point is appended in order, with absent force and radii read as 0 and no duration; the motion buffer is unchanged, so the last-50 invariant is kept |
| Passive.StartEvents | src/biometrics/passive-biometrics.ts:50-58 | one event per touch, each from its touch, none with a duration |
| Passive.PassiveBiometricAnalyzer.OnTouchEnd | src/biometrics/passive-biometrics.ts:61-68 | only the last event gets a duration (`now` minus its start) and all others are unchanged; with no events nothing changes; the motion buffer and its last-50 invariant are kept |
| Passive.TiltPattern | src/biometrics/passive-biometrics.ts:141-147 | one angle for each of the last `min(n, 10)` readings, in order |
| Passive.ShakeFrequency | src/biometrics/passive-biometrics.ts:149-159 | the number of shakes (readings whose magnitude exceeds 0.5) divided by the number of readings, 0 for an empty buffer; it lies in [0, 1], is 0 with no shakes and 1 when every reading is one |
| Passive.Shakes | src/biometrics/passive-biometrics.ts:150-157 | only readings whose magnitude exceeds the threshold are kept; none when no reading is a shake, all when every reading is one |
| Passive.AverageTouchPressure | src/biometrics/passive-biometrics.ts:161-166 | the sum of the forces divided by the number of touches; 0 for no touches; non-negative for non-negative forces |
| Passive.AverageTapDuration | src/biometrics/passive-biometrics.ts:168-175 | the sum of the truthy durations divided by the number of touches that have one, so touches without a truthy duration are ignored; 0 when none has one |
| Passive.AverageFingerSize | src/biometrics/passive-biometrics.ts:177-184 | the sum of `sqrt(radiusX * radiusY)` over the touches divided by their number; 0 for no touches |
| Passive.Analyze | src/biometrics/passive-biometrics.ts:72-84 | the tilt pattern has `min(n, 10)` entries and the shake frequency lies in [0, 1]; no readings or no touches give the zero motion or touch summary |
| Passive.TiltDiffs | src/biometrics/passive-biometrics.ts:190-194 | the absolute differences over the common length, each non-negative |
| Passive.TiltDistance | src/biometrics/passive-biometrics.ts:186-197 | the tilt distance is non-negative and 0 for equal patterns |
| Passive.CompareTiltPatterns | src/biometrics/passive-biometrics.ts:186-197 | the loop's result is the tilt distance: 0 if either pattern is empty, otherwise the mean absolute difference over the common length |
| Passive.MatchPenalty | src/biometrics/passive-biometrics.ts:96-114 | the weighted differences (30 for tilt, 20 for shake, 100·25 for pressure, 25 for finger size) are non-negative |
| Passive.MatchScore | src/biometrics/passive-biometrics.ts:87-117 | the score lies in [0, 100]; it is 100 exactly when the tilt distance is 0 and shake, pressure and finger size agree; a summary matches itself fully |
| Passive.PassiveBiometricAnalyzer.MatchesProfile | src/biometrics/passive-biometrics.ts:87-117 | the step-by-step deduction gives the match score of the saved summary against the current analysis, in [0, 100] |
| Passive.PassiveBiometricAnalyzer.LoadSavedProfile | src/biometrics/passive-biometrics.ts:130-138 | a profile is returned exactly when one is saved and readable |
| Passive.PassiveBiometricAnalyzer.SaveProfile | src/biometrics/passive-biometrics.ts:120-127 | the summary is stored and loads back unchanged |
| Active.DetectedMethod | src/biometrics/active-biometrics.ts:27-32 | faceId exactly when facial recognition is supported; touchId exactly when fingerprint is supported but facial recognition is not; otherwise none |
| Active.GetBiometricType | src/biometrics/active-biometrics.ts:115-127 | none without hardware; with hardware, faceId exactly when facial recognition is supported, touchId exactly when fingerprint is supported without facial recognition, otherwise none |
| Active.VerifyBiometric | src/biometrics/active-biometrics.ts:8-71 | verified exactly when there is hardware, the prompt succeeded and no error is reported; a verified result has the detected method and confidence 100; any other result is none with confidence 0 (so no hardware and every listed error code give none, false, 0) |
| Active.FailureCodesFallThrough | src/biometrics/active-biometrics.ts:47-64 | the early return for a listed error code gives the same result as a failed prompt |
| Active.VerifySelfie | src/biometrics/active-biometrics.ts:74-105 | whatever the camera permission, the selfie is never verified or live and has confidence 0 |
| Active.IsBiometricAvailable | src/biometrics/active-biometrics.ts:108-112 | available only with hardware, and never without an enrolled biometric |
| Risk.BehavioralFlags | src/core/risk-engine.ts:114-155 | at most five flags; no flag exactly when no penalty applies |
| Risk.BehavioralFlagsRaised | src/core/risk-engine.ts:121-155 | each flag is raised exactly when its check fails: typing below 50 with a saved profile, session under 30 s, no search, fewer than 2 pages, amount over 300 with a saved session pattern; no passive flag is raised |
| Risk.RaiseFlag | src/core/risk-engine.ts:123-154 | one check: the flag is pushed and the points are added exactly when the check fails |
| Risk.BehavioralRisk | src/core/risk-engine.ts:110-158 | the score is the sum of the penalties (30, 40, 20, 25, 30) capped at 100: in [0, 100], and 0 exactly when no flag is raised |
| Risk.BehavioralRiskMonotone | src/core/risk-engine.ts:114-157 | a longer session, more searches, more pages or a smaller amount never raise the behavioural score |
| Risk.BehavioralRiskExtremes | src/core/risk-engine.ts:114-157 | a session passing every check scores 0 with no flags; one failing the session checks and typing or amount scores the full 100 |
| Risk.PassiveRisk | src/core/risk-engine.ts:161-180 | a flag exactly when a saved profile matches below 50; then the single flag carries the rounded match and the score lies in (50, 100] and is `100 - match` for a non-negative match; otherwise the score is 0 |
| Risk.CalculateTotalRisk | src/core/risk-engine.ts:183-209 | the total is `0.6·b + 0.4·p` rounded, in [0, 100] when both inputs are; the breakdown repeats the behavioural score as the session score; the flags are behavioural then passive; the methods start with behavioral_analysis and include passive_biometrics exactly when the passive score is positive |
| Risk.TotalRiskMonotone | src/core/risk-engine.ts:189-192 | higher partial scores never lower the total |
| Risk.PassiveAloneNeverStepsUp | src/core/risk-engine.ts:189-192 | a total of at least 60 needs a behavioural score above 32 |
| Risk.FullBehavioralRiskStepsUp | src/core/risk-engine.ts:189-192 | a behavioural score of 100 reaches 60 whatever the passive score |
| Risk.Threshold | src/core/risk-engine.ts:45 | a given non-zero threshold is used; an absent or zero one becomes 60 |
| Risk.StepUp | src/core/risk-engine.ts:57-87 | no biometric exactly below the threshold; at or above it, unavailable biometrics are the 'not available' error, an available biometric that fails is the 'verification failed' error, and the step up succeeds exactly when the biometric is available and verifies, returning that verified result |
| Risk.StepUpAuthentication | src/core/risk-engine.ts:57-87 | the branch-by-branch step up gives the result `StepUp` specifies |
| Risk.SelfieNeverApproves | src/core/risk-engine.ts:71-83 | at or above the threshold, a failed biometric always ends in an error; the selfie never rescues it |
| Risk.RiskEngine.constructor | src/core/risk-engine.ts:14-18 | three new trackers: no pending keys, dwell or flight times, last key time 0 and no corrections; all session counters 0 with the session starting now; no motion readings, history or touches |
| Risk.RiskEngine.LoadSavedKeystrokeProfile | src/core/risk-engine.ts:212-220 | a profile exactly when one is saved and readable |
| Risk.RiskEngine.KeystrokeSimilarity | src/core/risk-engine.ts:119-122 | a similarity exactly when a keystroke profile is saved, and it lies in [0, 100] |
| Risk.RiskEngine.PassiveMatch | src/core/risk-engine.ts:168-171 | a match score exactly when a passive profile is saved, and it lies in [0, 100] |
| Risk.RiskEngine.AnalyzeBehavioralRisk | src/core/risk-engine.ts:110-158 | throws exactly when the saved session pattern does not parse; otherwise the accumulated score and flags are the behavioural risk of the current similarity, pattern, saved pattern and amount |
| Risk.RiskEngine.AnalyzePassiveBiometricRisk | src/core/risk-engine.ts:161-180 | the passive risk of the current match score |
| Risk.RiskEngine.RiskAt | src/core/risk-engine.ts:47-54 | the total of steps 1 to 3 lies in [0, 100] |
| Risk.RiskEngine.AuthorizePayment | src/core/risk-engine.ts:33-107 | an unreadable pattern or a failed step up is an error and leaves the keystore untouched; a result is always approved, carries the engine's risk analysis, triggers the step up exactly at or above the threshold, and its manifest records the payment, the risk, the current profiles and the step-up result; once the manifest is attempted the SecureStore is `KeyedStore` of the old one; with a consistent keystore and sound primitives, the result exists and its manifest verifies |
| Risk.RiskEngine.Approve | src/core/risk-engine.ts:89-106 | only a key error can make it fail; a result is approved, carries the given risk analysis and active biometric, triggers the step up exactly at or above the threshold, and its manifest records the payment, the risk score and the current profiles; the SecureStore becomes `KeyedStore` of the old one; with a consistent keystore and sound primitives the result exists and its manifest verifies |
| Risk.RiskEngine.Assess | src/core/risk-engine.ts:47-87 | an unreadable pattern throws; otherwise the result fails exactly when the step up fails, with its error, which is never a key error; a success carries the risk analysis of steps 1 to 3 and the step-up result |
| Risk.RiskEngine.SaveProfiles | src/core/risk-engine.ts:223-236 | the keystroke profile, passive summary and session pattern are stored, and each loads back as what was saved |
| C2pa.ByteHex | src/services/c2pa.ts:21 | two lower-case hex digits whose value is the byte |
| C2pa.ArrayToHex | src/services/c2pa.ts:19-23 | two hex digits per byte |
| C2pa.HexRoundTrip | src/services/c2pa.ts:19-23 | decoding the hex text gives back the bytes |
| C2pa.HashData | src/services/c2pa.ts:26-30 | hex text, 64 characters for a 32-byte digest |
| C2pa.HashDataInjective | src/services/c2pa.ts:26-30 | equal hex digests come from equal SHA-256 outputs |
| C2pa.DeviceFingerprint | src/services/c2pa.ts:140-143 | the text starts with device_fingerprint_ |
| C2pa.VerifyManifest | src/services/c2pa.ts:79-138 | the checks record the three predicates; valid exactly when there are no errors, exactly when all three checks hold; each error is present exactly when its check fails, the number of errors is the number of failed checks, and they appear in the fixed order signature, attestation, timestamp |
| C2pa.CheckManifest | src/services/c2pa.ts:84-137 | filling the checks and pushing the errors in turn gives the verification `VerifyManifest` specifies |
| C2pa.TamperedClaimFails | src/services/c2pa.ts:67-73 | changing the claim of a signed manifest breaks its signature check |
| C2pa.TamperedAttestationFails | src/services/c2pa.ts:67-73 | changing the attestation of a signed manifest breaks its signature check |
| C2pa.FutureClaimIsFresh | src/services/c2pa.ts:125-127 | a claim stamped at or after `now` passes the age check |
| C2pa.CreateManifest | src/services/c2pa.ts:33-76 | version 1.0, USD, the given payment, evidence and biometrics, the attestation's device with the fingerprint, an attestation whose model, OS version, secure-hardware flag, biometric type and time are the device's, the current time, the stored key's signature over claim and attestation, and the stored public key; the SecureStore afterwards is `KeyedStore` of the old one; with a consistent keystore the signature and attestation verify and the timestamp reads back as `now` |
| JsonModel.ManifestBodyJsonInjective | src/services/c2pa.ts:92-95 | the signed body determines the claim and the attestation |
| JsonModel.AttestationBodyJsonInjective | src/services/keystore.ts:92-96 | the attestation body determines the device id, public key and timestamp |
| Keystore.BinaryString | src/services/keystore.ts:15-17 | one character per byte, with the byte's code |
| Keystore.BytesOf | src/services/keystore.ts:21-26 | one byte per character, its code modulo 256 |
| Keystore.DecodeBytes | src/services/keystore.ts:20-27 | bytes exactly when the base64 text decodes |
| Keystore.Base64RoundTrip | src/services/keystore.ts:15-27 | decoding the encoding of bytes gives the bytes back; only no bytes encode to the empty text |
| Keystore.Base64ToArray | src/services/keystore.ts:20-27 | the byte-filling loop gives the decoded bytes |
| Keystore.SignWith | src/services/keystore.ts:130-134 | fails exactly for a private key that is not 32 bytes |
| Keystore.StoredSignature | src/services/keystore.ts:124-135 | 'No device key found' exactly when no private key, or an empty one, is stored; a signature is made with the decoded stored key |
| Keystore.SignThenVerify | src/services/keystore.ts:124-148 | a signature made with a key verifies against that key's public-key text |
| Keystore.SignatureBindsData | src/services/keystore.ts:124-148 | a signature verifies for no text other than the signed one |
| Keystore.StoredSignatureVerifies | src/services/keystore.ts:124-148 | with a matching stored pair, signing succeeds and verifies against the stored public key |
| Keystore.FreshPairMatches | src/services/keystore.ts:72-79 | storing a freshly encoded pair makes the stored keys match |
| Keystore.StorageKeysDistinct | src/services/keystore.ts:8-10 | the three SecureStore keys are distinct |
| Keystore.DeviceIdFor | src/services/keystore.ts:30-37 | the id returned is always truthy |
| Keystore.KeystoreService.GetDeviceId | src/services/keystore.ts:30-37 | the stored truthy id is returned unchanged; otherwise a new one is generated and stored; afterwards the returned id is the stored one; the keys are untouched |
| Keystore.CheckSecureHardware | src/services/keystore.ts:55-62 | true only on iOS or Android; on iOS exactly when the model id contains 'iPhone'; on Android it is SecureStore availability |
| Keystore.ModelName | src/services/keystore.ts:83 | never empty: a non-empty model name is returned as it is, and otherwise 'unknown' |
| Keystore.GetTEECapabilities | src/services/keystore.ts:209-239 | the enclave only on iOS and StrongBox only on Android, never both; no enclave on iOS without an 'iPhone' model id; the level is strongbox exactly with StrongBox, hardware exactly with the enclave or on Android without StrongBox, software otherwise; the biometric hardware is reported as given |
| Keystore.KeystoreService.Capabilities | src/services/keystore.ts:215-238 | updating the record step by step gives what `GetTEECapabilities` specifies |
| Keystore.StrongBoxFromMajorVersion | src/services/keystore.ts:230-231 | on Android with version text `n.rest`, StrongBox is reported exactly when n is at least 9 |
| Keystore.EnclaveFromModelDigits | src/services/keystore.ts:222-227 | on iOS with an 'iPhone' model id whose digits read as n, the Secure Enclave and the hardware level are reported exactly when n is at least 6, the software level otherwise |
| Keystore.StrongBoxFromWholeVersion | src/services/keystore.ts:228-232 | on Android with version text `n` (no minor part), StrongBox and the strongbox level are reported exactly when n is at least 9, the hardware level otherwise |
| Keystore.HardwareBackingAgreesWithLevel | src/services/keystore.ts:227-232 | a secure element implies a non-software level; the level is hardware without a secure element exactly on Android without StrongBox |
| Keystore.HardwareKeyChain | src/services/keystore.ts:283-288 | four chain entries |
| Keystore.KeystoreService.SignData | src/services/keystore.ts:124-135 | the signature `StoredSignature` specifies for the current store |
| Keystore.KeystoreService.StoreKeyPair | src/services/keystore.ts:72-79 | both keys are stored as base64 and then match |
| Keystore.KeystoreService.Attest | src/services/keystore.ts:184-203 | fails exactly when signing fails; the attestation carries the device facts, the current time and the signature over its device id, public key and timestamp; with matching keys it verifies |
| Keystore.KeystoreService.GenerateDeviceKeyWithAttestation | src/services/keystore.ts:65-101 | the new pair and a device id are stored; the attestation names the new public key, the stored id, the current time and the device's fields, carries the stored key's signature over its body, and verifies |
| Keystore.KeystoreService.GetOrCreateDeviceKey | src/services/keystore.ts:104-121 | a stored public key is returned as 'existing' and only the device id may be stored; otherwise a pair is created and returned with its creation time; the SecureStore afterwards is `KeyedStore` of the old one; afterwards the stored public key is the returned one, so a second call returns the same key |
| Keystore.KeystoreService.KeyedStore | src/services/keystore.ts:104-121 | the SecureStore after a device key is obtained: the device id `getDeviceId` gives is stored; without a truthy public key the new pair's base64 texts are stored too; with one, nothing else changes |
| Keystore.KeystoreService.KeyedStoreIdempotent | src/services/keystore.ts:104-121 | obtaining a device key again from the resulting store changes nothing, as `createManifest` does after `getAttestation` |
| Keystore.KeystoreService.GetAttestation | src/services/keystore.ts:176-204 | without a stored public key a pair is generated; with one, only the device id may be stored and a missing private key fails; either way the SecureStore afterwards is `KeyedStore` of the old one; with a stored key the result fails exactly when signing its body fails; a result names the stored id, the current time and the device's model, OS version, secure-hardware flag and biometric type, its signature is the stored key's over the id, public key and time, and it verifies with matching keys |
| Keystore.KeystoreService.CreateHardwareBackedKey | src/services/keystore.ts:242-292 | a new pair and the device id are stored; the proof has the capability level, is not extractable, is hardware-backed exactly on a secure element, and has the four-entry chain |
| Keystore.KeystoreService.VerifyKeyIntegrity | src/services/keystore.ts:295-325 | the result is `IntegrityAt(now)`: valid exactly when a public key is stored, the stored private key signs `integrity_check_<now>` and that signature verifies against the stored public key; without a public key or when signing fails the result is {false, false, true}; once signing succeeds, still-in-TEE is the secure-element flag; tampering is reported exactly when not valid; a matching pair passes |
| Keystore.KeystoreService.IntegrityAt | src/services/keystore.ts:295-325 | valid exactly when a public key is stored and the stored private key's signature of `integrity_check_<now>` verifies against it; without either key or when signing fails, {false, false, true}; otherwise still-in-TEE is the secure-element flag and tampering is the negation of validity |
| Keystore.KeystoreService.GetEnhancedAttestation | src/services/keystore.ts:328-358 | the SecureStore afterwards is `KeyedStore` of the old one; with a stored key it fails exactly when signing the attestation body fails; the attestation names the stored id and the device's fields and carries the stored key's signature over its body; the integrity check is `IntegrityAt(now)` on the new store; the capabilities, the level, not extractable, biometric required exactly with a biometric type, and the five-entry chain |
| Keystore.KeystoreService.SignWithBiometric | src/services/keystore.ts:151-173 | a failed prompt is an error; otherwise it fails exactly when signing fails, and the result is verified with the stored signature, passcode exactly without a biometric type, faceId exactly with face recognition |
| Cart.ItemCountUpdate | src/services/cart-service.ts:65-68 | changing one item changes the item count by the difference in its quantity |
| Cart.ItemCountAppend | src/services/cart-service.ts:65-68 | appending an item adds its quantity |
| Cart.TotalUpdate | src/services/cart-service.ts:60-63 | changing one item changes the total by the difference in its price times quantity |
| Cart.TotalAppend | src/services/cart-service.ts:60-63 | appending an item adds its price times quantity |
| Cart.FilterKeepsDistinct | src/services/cart-service.ts:34-39 | removing one product's items keeps the other ids distinct |
| Cart.CartService.constructor | src/services/cart-service.ts:9 | the service reads and writes the given entry |
| Cart.CartService.GetCart | src/services/cart-service.ts:11-18 | the saved cart, or the empty cart when nothing is stored or it does not parse |
| Cart.CartService.CartTotal | src/services/cart-service.ts:60-63 | 0 for an empty cart |
| Cart.CartService.CartItemCount | src/services/cart-service.ts:65-68 | 0 for an empty cart |
| Cart.CartService.AddToCart | src/services/cart-service.ts:20-32 | an existing product's first item gets one more unit; otherwise the product is appended with quantity 1; nothing else changes; the count rises by exactly one and the total by the unit price; distinct ids and positive quantities are kept |
| Cart.CartService.RemoveFromCart | src/services/cart-service.ts:34-39 | every item with the id goes, all others stay in order; distinct ids and positive quantities are kept |
| Cart.CartService.UpdateQuantity | src/services/cart-service.ts:41-54 | an unknown id leaves the cart and the store unchanged; a quantity of 0 or less removes the product; a positive one sets the quantity of its first item and adjusts the count; distinct ids and positive quantities are kept |
| Cart.CartService.ClearCart | src/services/cart-service.ts:56-58 | the cart is empty, so its total and its item count are 0 |
| Orders.OrderService.constructor | src/services/order-service.ts:17 | the service reads and writes the given entry |
| Orders.OrderService.GetOrders | src/services/order-service.ts:19-26 | the saved orders, or none when nothing is stored or it does not parse |
| Orders.OrderService.AddOrder | src/services/order-service.ts:28-34 | the new order comes first and the previous ones follow in order; the length is the old length plus one, capped at 50, so the oldest are dropped; the order is then found by its id |
| Orders.OrderService.GetOrderById | src/services/order-service.ts:36-39 | the first, most recent, order with the id, or nothing exactly when no order has it |
| Products.GetAllProducts | src/services/product-service.ts:11-107 | ten products with distinct ids, positive prices and ratings in [0, 5] |
| Products.GetProductById | src/services/product-service.ts:109-111 | a catalogue product with that id, or nothing exactly when none has it |
| Products.GetProductByIdFindsEach | src/services/product-service.ts:11-111 | every catalogue product is found by its own id |
| Products.SearchProducts | src/services/product-service.ts:113-119 | exactly the catalogue products whose lower-cased name or category contains the lower-cased query, in catalogue order |
| Products.SearchEmptyQuery | src/services/product-service.ts:113-119 | the empty query returns the whole catalogue |
| Products.GetProductsByCategory | src/services/product-service.ts:121-123 | exactly the catalogue products whose category equals the argument, in catalogue order |
| Products.CategoryProductsAreSearchResults | src/services/product-service.ts:113-123 | every product listed under a category is found by searching for that category |
| Common.Round | src/core/risk-engine.ts:189-192 | `Math.round`: within half of the argument, halves rounded up |
| Common.LastN | src/analytics/keystroke-tracker.ts:39 | `slice(-n)`: the last `min(\|s\|, n)` elements in order |
| Common.LastNAppend | src/biometrics/passive-biometrics.ts:21-29 | keeping the last n after each arrival equals keeping the last n of all arrivals |
| Common.FirstMatch | src/services/order-service.ts:38 | `find`: the first index satisfying the condition, or nothing exactly when no element does |
| Common.Find | src/services/cart-service.ts:22 | the loop stops at the first index `FirstMatch` specifies |
| Common.Filter | src/services/cart-service.ts:36 | `filter`: a subsequence of the kept elements, every one satisfying the condition, none that does missing |
| Common.ParseIntOfNatToString | src/services/keystore.ts:230 | `parseInt` reads back a printed natural number |

## Left out

- Listener registration and teardown are not modelled: `startTracking`, `stopTracking`, `trackTouchEvents`, `initialize` and `cleanup`. Each handler is a method of its class, called with the event's data and the clock reading.
- The prompt, fallback and cancel labels are not modelled, and neither are the debug and error logs. They do not affect any result.
- The SecureStore options on key storage are not modelled (`requireAuthentication`, `keychainAccessible`, `keychainService`). The key is stored the same way in every case.
- Failing AsyncStorage and SecureStore writes are not modelled; every write succeeds. The try/catch in `saveProfiles` therefore never fires.
- The source reads `Date.now()` and `new Date().toISOString()` several times during one operation. The model uses a single clock reading `now` for the whole operation.
- Floating point is not modelled; numbers are exact reals. `Math.sqrt`, `Math.atan2`, ed25519, SHA-256, base64, UTF-8 and `JSON.stringify` are primitives with stated laws, not implementations.
- A threshold of NaN is not modelled, and neither are negative or non-finite amounts and scores.
- JSON storage round-trips exactly. A saved value reads back as itself, and `Storage` does not model text that parses to a differently shaped record.
- `C2PAService.base64ToArray` is the same code as the keystore's and is not modelled twice. `teeDetails` is never filled by `createManifest`. `verifyManifestWithTEE` exists only as a call from a screen.
- Keystore.BytesOf and Keystore.Base64ToArray: a string is a sequence of Unicode scalar values, not of UTF-16 code units. `charCodeAt` on decoded text with a character above U+FFFF yields its two surrogate halves, each modulo 256, where the model yields one byte for the code point. Texts the app writes itself only hold characters below 256, where the two readings agree.
- Common.ToLower: lower-cases ASCII letters only; `toLowerCase` on other scripts is not modelled.
- Risk.RedFlag: the red flags are a datatype, one constructor per message. The message text is not modelled, including the number formatting of the amount and of the rounded match.
- Keystroke.ProfileOf: the error rate is the corrected one, 0 with corrections and no flight times, where the source gives Infinity (see Findings).
- Keystroke.KeystrokeTracker.Profile: inherits the corrected error rate of `Keystroke.ProfileOf` (see Findings).
- Passive.PassiveBiometricAnalyzer.OnTouchEnd: the source checks that the last touch has type 'start'. Only the touch-start listener records touches, so every recorded touch has that type and the check always holds.
- Active.IsBiometricAvailable: the contract gives the two directions that matter for the step up (availability needs hardware; no enrolment means unavailable) rather than restating the conjunction.
- Cart.CartService.CartTotal and Cart.CartService.CartItemCount: their own contracts only give the empty case. How each operation changes them is stated on `AddToCart` and `UpdateQuantity` and in the `Total`/`ItemCount` lemmas.
- The stripe service, the screens, the dashboard statistics and `App.tsx` are not part of this model.

## Findings

| source | as written | input that shows it | evidently intended | confidence | as-written member | corrected member |
|---|---|---|---|---|---|---|
| src/analytics/keystroke-tracker.ts:40 | `(corrections / flightTimes.length) * 100 \|\| 0` only replaces NaN, so a correction with no flight time divides by zero and yields Infinity | a session whose first key is Backspace: one correction, no flight times | an error rate of 0 when there are no flight times | not executed | Keystroke.ErrorRateAsWritten (counterexample Keystroke.LoneCorrectionRate) | Keystroke.ErrorRate (related by Keystroke.ErrorRateAgreesWhereFinite), used by Keystroke.ProfileOf and Keystroke.KeystrokeTracker.Profile |
