/** The provenance manifest service (src/services/c2pa.ts): a payment claim together with the
    device attestation is signed with the device key, and a manifest is checked for a valid
    signature, a valid attestation and a fresh timestamp. */
module C2pa {
  import opened Common
  import opened Platform
  import opened Types
  import opened JsonModel
  import opened Keystore

  const ManifestVersion := "1.0"
  const Currency := "USD"
  /** A claim older than five minutes is rejected. */
  const MaxClaimAge: int := 300000

  const InvalidSignature := "Invalid C2PA signature"
  const InvalidAttestation := "Invalid TEE attestation"
  const TimestampTooOld := "Timestamp too old"

  // ---------------------------------------------------------------------------------------
  // Hex digests

  predicate IsHexDigit(c: char)
  {
    '0' <= c <= '9' || 'a' <= c <= 'f'
  }

  function HexDigit(d: nat): (c: char)
    requires d < 16
    ensures IsHexDigit(c)
  {
    if d < 10 then ('0' as int + d) as char else ('a' as int + d - 10) as char
  }

  function HexValue(c: char): nat
  {
    if '0' <= c <= '9' then c as int - '0' as int
    else if 'a' <= c <= 'f' then c as int - 'a' as int + 10
    else 0
  }

  /** `b.toString(16).padStart(2, '0')`: two lower-case hex digits. */
  function ByteHex(b: byte): (r: string)
    ensures |r| == 2 && IsHexDigit(r[0]) && IsHexDigit(r[1])
    ensures HexValue(r[0]) * 16 + HexValue(r[1]) == b as int
  {
    [HexDigit(b as int / 16), HexDigit(b as int % 16)]
  }

  /** `arrayToHex`. */
  function ArrayToHex(bytes: Bytes): (r: string)
    ensures |r| == 2 * |bytes|
    ensures forall i :: 0 <= i < |r| ==> IsHexDigit(r[i])
  {
    if bytes == [] then "" else ByteHex(bytes[0]) + ArrayToHex(bytes[1..])
  }

  /** The inverse of `ArrayToHex`: two hex digits per byte. */
  function HexToArray(hex: string): (r: Bytes)
    requires |hex| % 2 == 0
    requires forall i :: 0 <= i < |hex| ==> IsHexDigit(hex[i])
    ensures |r| == |hex| / 2
  {
    if hex == [] then []
    else
      var v := HexValue(hex[0]) * 16 + HexValue(hex[1]);
      [if v < 256 then v as byte else 0] + HexToArray(hex[2..])
  }

  /** Reading the hex text back gives the bytes: the text loses nothing. */
  lemma {:induction false} HexRoundTrip(bytes: Bytes)
    ensures HexToArray(ArrayToHex(bytes)) == bytes
  {
    if bytes != [] {
      var hex := ArrayToHex(bytes);
      assert hex == ByteHex(bytes[0]) + ArrayToHex(bytes[1..]);
      assert hex[2..] == ArrayToHex(bytes[1..]);
      assert hex[..2] == ByteHex(bytes[0]);
      HexRoundTrip(bytes[1..]);
    }
  }

  /** `hashData`: the SHA-256 digest of the UTF-8 text as hex, 64 characters. */
  function HashData(p: Primitives, data: string): (r: string)
    ensures forall i :: 0 <= i < |r| ==> IsHexDigit(r[i])
    ensures Sound(p) ==> |r| == 64
  {
    ArrayToHex(p.sha256(p.utf8(data)))
  }

  /** Equal digests mean equal SHA-256 outputs. */
  lemma HashDataInjective(p: Primitives, a: string, b: string)
    requires HashData(p, a) == HashData(p, b)
    ensures p.sha256(p.utf8(a)) == p.sha256(p.utf8(b))
  {
    HexRoundTrip(p.sha256(p.utf8(a)));
    HexRoundTrip(p.sha256(p.utf8(b)));
  }

  /** `getDeviceFingerprint` at `now`. */
  function DeviceFingerprint(now: int): (r: string)
    ensures |r| > 19 && r[..19] == "device_fingerprint_"
  {
    "device_fingerprint_" + IntToString(now)
  }

  // ---------------------------------------------------------------------------------------
  // Checks

  /** The text a manifest signature covers: `JSON.stringify({claim, teeAttestation})`. */
  function ManifestBody(p: Primitives, claim: Claim, attestation: TeeAttestation): string
  {
    p.stringify(ManifestBodyJson(claim, attestation))
  }

  predicate SignatureValid(p: Primitives, m: Manifest)
  {
    VerifySignature(p, ManifestBody(p, m.claim, m.teeAttestation), m.signature, m.publicKey)
  }

  predicate AttestationValid(p: Primitives, m: Manifest)
  {
    AttestationVerifies(p, m.teeAttestation)
  }

  /** `Date.now() - new Date(claim.timestamp).getTime() < 300000`; an unparseable timestamp
      gives NaN, which fails. */
  predicate TimestampValid(p: Primitives, m: Manifest, now: int)
  {
    match p.parseDate(m.claim.timestamp)
    case None => false
    case Some(t) => now - t < MaxClaimAge
  }

  /** The position of each check's error in the fixed order signature, attestation, timestamp. */
  function ErrorRank(error: string): nat
  {
    if error == InvalidSignature then 0
    else if error == InvalidAttestation then 1
    else 2
  }

  datatype Checks = Checks(signatureValid: bool, teeAttestationValid: bool, timestampValid: bool)

  datatype Verification = Verification(valid: bool, checks: Checks, errors: seq<string>)

  /** `verifyManifest` at `now`: the three checks, one error per failed check in the order
      signature, attestation, timestamp, and valid exactly when there is no error. */
  function VerifyManifest(p: Primitives, m: Manifest, now: int): (r: Verification)
    ensures r.checks == Checks(SignatureValid(p, m), AttestationValid(p, m), TimestampValid(p, m, now))
    ensures r.valid <==> r.errors == []
    ensures r.valid <==> SignatureValid(p, m) && AttestationValid(p, m) && TimestampValid(p, m, now)
    ensures InvalidSignature in r.errors <==> !SignatureValid(p, m)
    ensures InvalidAttestation in r.errors <==> !AttestationValid(p, m)
    ensures TimestampTooOld in r.errors <==> !TimestampValid(p, m, now)
    ensures |r.errors| <= 3
    ensures r.errors != [] && !SignatureValid(p, m) ==> r.errors[0] == InvalidSignature
    ensures |r.errors| ==
      (if SignatureValid(p, m) then 0 else 1) + (if AttestationValid(p, m) then 0 else 1)
      + (if TimestampValid(p, m, now) then 0 else 1)
    ensures forall i, j :: 0 <= i < j < |r.errors| ==> ErrorRank(r.errors[i]) < ErrorRank(r.errors[j])
    ensures TimestampTooOld in r.errors ==> r.errors[|r.errors| - 1] == TimestampTooOld
  {
    var checks := Checks(SignatureValid(p, m), AttestationValid(p, m), TimestampValid(p, m, now));
    var errors :=
      (if checks.signatureValid then [] else [InvalidSignature])
      + (if checks.teeAttestationValid then [] else [InvalidAttestation])
      + (if checks.timestampValid then [] else [TimestampTooOld]);
    Verification(|errors| == 0, checks, errors)
  }

  /** `verifyManifest` as the source performs it: each check is recorded and its error pushed
      in turn. */
  method CheckManifest(p: Primitives, m: Manifest, now: int) returns (r: Verification)
    ensures r == VerifyManifest(p, m, now)
  {
    var errors: seq<string> := [];
    var checks := Checks(false, false, false);
    checks := checks.(signatureValid := SignatureValid(p, m));
    if !checks.signatureValid {
      errors := errors + [InvalidSignature];
    }
    checks := checks.(teeAttestationValid := AttestationValid(p, m));
    if !checks.teeAttestationValid {
      errors := errors + [InvalidAttestation];
    }
    checks := checks.(timestampValid := TimestampValid(p, m, now));
    if !checks.timestampValid {
      errors := errors + [TimestampTooOld];
    }
    r := Verification(|errors| == 0, checks, errors);
  }

  /** Changing the claim of a signed manifest breaks its signature: under the symbolic reading
      of signatures and injective encodings, the signature covers every field of the claim. */
  lemma TamperedClaimFails(p: Primitives, m: Manifest, privateKey: Bytes, claim: Claim)
    requires Sound(p) && Unforgeable(p) && InjectiveEncodings(p) && |privateKey| == 32
    requires m.signature == SignWith(p, privateKey, ManifestBody(p, m.claim, m.teeAttestation)).value
    requires m.publicKey == PublicKeyText(p, privateKey)
    requires claim != m.claim
    ensures !SignatureValid(p, m.(claim := claim))
  {
    var body := ManifestBody(p, m.claim, m.teeAttestation);
    if SignatureValid(p, m.(claim := claim)) {
      SignatureBindsData(p, privateKey, body, ManifestBody(p, claim, m.teeAttestation));
      ManifestBodyJsonInjective(claim, m.teeAttestation, m.claim, m.teeAttestation);
    }
  }

  /** The same for the attestation a manifest carries. */
  lemma TamperedAttestationFails(p: Primitives, m: Manifest, privateKey: Bytes, attestation: TeeAttestation)
    requires Sound(p) && Unforgeable(p) && InjectiveEncodings(p) && |privateKey| == 32
    requires m.signature == SignWith(p, privateKey, ManifestBody(p, m.claim, m.teeAttestation)).value
    requires m.publicKey == PublicKeyText(p, privateKey)
    requires attestation != m.teeAttestation
    ensures !SignatureValid(p, m.(teeAttestation := attestation))
  {
    var body := ManifestBody(p, m.claim, m.teeAttestation);
    if SignatureValid(p, m.(teeAttestation := attestation)) {
      SignatureBindsData(p, privateKey, body, ManifestBody(p, m.claim, attestation));
      ManifestBodyJsonInjective(m.claim, attestation, m.claim, m.teeAttestation);
    }
  }

  /** A claim stamped in the future passes the age check: only an upper bound on age is set. */
  lemma FutureClaimIsFresh(p: Primitives, m: Manifest, now: int, t: int)
    requires p.parseDate(m.claim.timestamp) == Some(t) && t >= now
    ensures TimestampValid(p, m, now)
  {
  }

  // ---------------------------------------------------------------------------------------
  // Creation

  /** `createManifest` at `now`, with `privateKey` the key a missing pair would be generated
      from and `suffix` the random part of a new device id. The manifest is version 1.0, in
      USD, carries the device's attestation and its public key, and is signed over the claim
      and the attestation. When the keystore holds a matching pair (or none, so one is made),
      the signature and the attestation verify and the claim's timestamp reads back as `now`. */
  method CreateManifest(
    ks: KeystoreService, amount: real, merchant: string, orderId: string,
    behavioral: BehavioralEvidence, passive: PassiveBiometrics, active: Option<ActiveBiometric>,
    privateKey: Bytes, now: int, suffix: string)
    returns (r: Result<Manifest, KeystoreError>)
    requires |privateKey| == 32
    modifies ks
    ensures r.Ok? ==>
      && r.value.version == ManifestVersion
      && r.value.claim.payment == Payment(amount, Currency, merchant, orderId)
      && r.value.claim.behavioral == behavioral
      && r.value.claim.passiveBiometrics == passive
      && r.value.claim.activeBiometric == active
      && r.value.claim.device == DeviceDescriptor(
           r.value.teeAttestation.deviceModel, r.value.teeAttestation.osVersion, DeviceFingerprint(now))
      && r.value.claim.timestamp == ks.p.isoString(now)
      && StoredSignature(ks.p, ks.secure, ManifestBody(ks.p, r.value.claim, r.value.teeAttestation)) == Ok(r.value.signature)
    ensures ks.secure == ks.KeyedStore(old(ks.secure), privateKey, now, suffix)
    ensures r.Ok? ==> r.value.publicKey == ks.secure[PublicKeyStorage]
    ensures r.Ok? ==>
      r.value.teeAttestation == ks.AttestationFields(
        r.value.teeAttestation.deviceId, r.value.teeAttestation.publicKey, now).(attestationSignature := r.value.teeAttestation.attestationSignature)
    ensures old(ks.PublicKey().None? || KeysMatch(ks.p, ks.secure)) && Sound(ks.p) ==>
      && r.Ok?
      && KeysMatch(ks.p, ks.secure)
      && r.value.publicKey == ks.secure[PublicKeyStorage]
      && SignatureValid(ks.p, r.value)
      && AttestationValid(ks.p, r.value)
      && ks.p.parseDate(r.value.claim.timestamp) == Some(now)
  {
    ghost var ready := old(ks.PublicKey().None? || KeysMatch(ks.p, ks.secure)) && Sound(ks.p);
    var attestation := ks.GetAttestation(privateKey, now, suffix);
    if attestation.Err? {
      return Err(attestation.error);
    }
    assert ready ==> KeysMatch(ks.p, ks.secure) && AttestationVerifies(ks.p, attestation.value);
    ks.KeyedStoreIdempotent(old(ks.secure), privateKey, now, suffix);
    var deviceKey := ks.GetOrCreateDeviceKey(privateKey, now, suffix);
    if deviceKey.Err? {
      return Err(deviceKey.error);
    }
    assert ready ==> KeysMatch(ks.p, ks.secure) && ks.PublicKey() == Some(deviceKey.value.publicKey);
    var claim := Claim(
      Payment(amount, Currency, merchant, orderId),
      behavioral,
      passive,
      active,
      DeviceDescriptor(attestation.value.deviceModel, attestation.value.osVersion, DeviceFingerprint(now)),
      ks.p.isoString(now));
    var body := ManifestBody(ks.p, claim, attestation.value);
    if ready {
      StoredSignatureVerifies(ks.p, ks.secure, body);
    }
    var signature := ks.SignData(body);
    if signature.Err? {
      return Err(signature.error);
    }
    r := Ok(Manifest(ManifestVersion, claim, attestation.value, signature.value, deviceKey.value.publicKey));
  }
}
