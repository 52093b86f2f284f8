/** The device keystore (src/services/keystore.ts): an ed25519 key pair and a device id kept in
    SecureStore as base64 text, signing with the stored private key, and attestations that a
    key is held on this device. SecureStore is the `secure` map of a `Keystore` object; the
    device description, the local-authentication answers and the platform primitives are fixed
    when it is created; fresh private keys, clock readings and random id suffixes are
    parameters. */
module Keystore {
  import opened Common
  import opened Platform
  import opened Types
  import opened JsonModel
  import opened Active

  const PrivateKeyStorage := "device_private_key"
  const PublicKeyStorage := "device_public_key"
  const DeviceIdStorage := "unique_device_id"

  /** What expo-device reports; absent values are `null`. */
  datatype DeviceInfo = DeviceInfo(
    osName: Option<string>,
    osVersion: Option<string>,
    modelId: Option<string>,
    modelName: Option<string>,
    /** `SecureStore.isAvailableAsync()` */
    secureStoreAvailable: bool)

  /** Why an operation throws. */
  datatype KeystoreError =
    | NoDeviceKey                    // 'No device key found'
    | MalformedKey                   // the stored key does not decode or has the wrong length
    | BiometricAuthenticationFailed  // 'Biometric authentication failed'

  datatype TeeCapabilities = TeeCapabilities(
    hasSecureEnclave: bool,
    hasStrongBox: bool,
    biometricHardware: bool,
    keyStorageLevel: StorageLevel)

  datatype TeeProof = TeeProof(
    storageLevel: StorageLevel,
    extractable: bool,
    hardwareBacked: bool,
    attestationChain: seq<string>)

  datatype IntegrityCheck = IntegrityCheck(valid: bool, stillInTEE: bool, tamperDetected: bool)

  datatype EnhancedProof = EnhancedProof(
    capabilities: TeeCapabilities,
    integrity: IntegrityCheck,
    location: StorageLevel,
    extractable: bool,
    requiresBiometric: bool,
    attestationChain: seq<string>)

  datatype EnhancedAttestation = EnhancedAttestation(
    attestation: TeeAttestation,
    teeProof: EnhancedProof,
    integrityCheck: IntegrityCheck)

  /** The `method` of a biometric signature: the hardware method, or the passcode fallback. */
  datatype SigningMethod = FaceIdSigning | TouchIdSigning | Passcode

  datatype BiometricSignature = BiometricSignature(
    signature: string,
    biometricVerified: bool,
    signingMethod: SigningMethod)

  // ---------------------------------------------------------------------------------------
  // Bytes and base64

  /** `String.fromCharCode(...bytes)`: one character per byte. */
  function BinaryString(bytes: Bytes): (s: string)
    ensures |s| == |bytes|
    ensures forall i :: 0 <= i < |s| ==> s[i] as int == bytes[i] as int
  {
    seq(|bytes|, i requires 0 <= i < |bytes| => bytes[i] as int as char)
  }

  /** Each character's code stored into a `Uint8Array`, which keeps it modulo 256 (a character
      is a Unicode scalar value here, not a UTF-16 code unit). */
  function BytesOf(binary: string): (b: Bytes)
    ensures |b| == |binary|
    ensures forall i :: 0 <= i < |b| ==> b[i] as int == binary[i] as int % 256
  {
    seq(|binary|, i requires 0 <= i < |binary| => (binary[i] as int % 256) as byte)
  }

  lemma BytesOfBinaryString(bytes: Bytes)
    ensures BytesOf(BinaryString(bytes)) == bytes
  {
    var b := BytesOf(BinaryString(bytes));
    assert forall i :: 0 <= i < |b| ==> b[i] == bytes[i];
  }

  /** `arrayToBase64`. */
  function ArrayToBase64(p: Primitives, bytes: Bytes): string
  {
    p.base64Encode(BinaryString(bytes))
  }

  /** `base64ToArray` as a value: None where base64 decoding throws. */
  function DecodeBytes(p: Primitives, text: string): (r: Option<Bytes>)
    ensures r.Some? <==> p.base64Decode(text).Some?
  {
    match p.base64Decode(text)
    case None => None
    case Some(binary) => Some(BytesOf(binary))
  }

  /** Decoding gives back the bytes that were encoded, and the encoding of bytes is empty only
      for no bytes. */
  lemma Base64RoundTrip(p: Primitives, bytes: Bytes)
    requires Sound(p)
    ensures DecodeBytes(p, ArrayToBase64(p, bytes)) == Some(bytes)
    ensures ArrayToBase64(p, bytes) == "" <==> bytes == []
  {
    BytesOfBinaryString(bytes);
    assert BinaryString(bytes) == [] <==> bytes == [];
  }

  /** `base64ToArray`: the loop filling a fresh byte array. */
  method Base64ToArray(p: Primitives, text: string) returns (r: Option<Bytes>)
    ensures r == DecodeBytes(p, text)
  {
    var decoded := p.base64Decode(text);
    if decoded.None? {
      return None;
    }
    var binary := decoded.value;
    var bytes := new byte[|binary|];
    for i := 0 to |binary|
      invariant forall j :: 0 <= j < i ==> bytes[j] as int == binary[j] as int % 256
    {
      bytes[i] := (binary[i] as int % 256) as byte;
    }
    r := Some(bytes[..]);
    assert bytes[..] == BytesOf(binary);
  }

  // ---------------------------------------------------------------------------------------
  // Signing

  function PublicKeyText(p: Primitives, privateKey: Bytes): string
  {
    ArrayToBase64(p, p.publicKeyOf(privateKey))
  }

  /** ed25519-signing the UTF-8 bytes of `data`, base64-encoded; a private key of the wrong
      length throws. */
  function SignWith(p: Primitives, privateKey: Bytes, data: string): (r: Result<string, KeystoreError>)
    ensures r.Err? <==> |privateKey| != 32
  {
    if |privateKey| != 32 then Err(MalformedKey)
    else Ok(ArrayToBase64(p, p.sign(p.utf8(data), privateKey)))
  }

  /** `signData` against the SecureStore contents: no (or an empty) private key throws
      'No device key found', one that does not decode to 32 bytes throws too. */
  function StoredSignature(p: Primitives, secure: map<string, string>, data: string): (r: Result<string, KeystoreError>)
    ensures r == Err(NoDeviceKey) <==> PrivateKeyStorage !in secure || secure[PrivateKeyStorage] == ""
    ensures r.Ok? ==> exists k :: DecodeBytes(p, secure[PrivateKeyStorage]) == Some(k) && r == SignWith(p, k, data)
  {
    if PrivateKeyStorage !in secure || secure[PrivateKeyStorage] == "" then Err(NoDeviceKey)
    else match DecodeBytes(p, secure[PrivateKeyStorage])
      case None => Err(MalformedKey)
      case Some(k) => SignWith(p, k, data)
  }

  /** `verifySignature`: false where either text does not decode. */
  function VerifySignature(p: Primitives, data: string, signature: string, publicKey: string): bool
  {
    match (DecodeBytes(p, publicKey), DecodeBytes(p, signature))
    case (Some(pk), Some(sig)) => p.verify(sig, p.utf8(data), pk)
    case _ => false
  }

  /** A signature made with a private key verifies against that key's public-key text. */
  lemma SignThenVerify(p: Primitives, privateKey: Bytes, data: string)
    requires Sound(p) && |privateKey| == 32
    ensures SignWith(p, privateKey, data).Ok?
    ensures VerifySignature(p, data, SignWith(p, privateKey, data).value, PublicKeyText(p, privateKey))
  {
    Base64RoundTrip(p, p.publicKeyOf(privateKey));
    Base64RoundTrip(p, p.sign(p.utf8(data), privateKey));
  }

  /** Under the symbolic reading of signatures, a signature verifies for no other text. */
  lemma SignatureBindsData(p: Primitives, privateKey: Bytes, data: string, other: string)
    requires Sound(p) && Unforgeable(p) && InjectiveEncodings(p) && |privateKey| == 32
    requires VerifySignature(p, other, SignWith(p, privateKey, data).value, PublicKeyText(p, privateKey))
    ensures other == data
  {
    Base64RoundTrip(p, p.publicKeyOf(privateKey));
    Base64RoundTrip(p, p.sign(p.utf8(data), privateKey));
    assert p.verify(p.sign(p.utf8(data), privateKey), p.utf8(other), p.publicKeyOf(privateKey));
    assert p.utf8(other) == p.utf8(data);
  }

  lemma StorageKeysDistinct()
    ensures PrivateKeyStorage != PublicKeyStorage
    ensures PrivateKeyStorage != DeviceIdStorage && PublicKeyStorage != DeviceIdStorage
  {
    assert |PrivateKeyStorage| == 18 && |PublicKeyStorage| == 17 && |DeviceIdStorage| == 16;
  }

  /** The stored keys form a pair: the private key decodes to 32 bytes and the public-key entry
      is the encoding of its public key. */
  predicate KeysMatch(p: Primitives, secure: map<string, string>)
  {
    && PrivateKeyStorage in secure
    && PublicKeyStorage in secure
    && match DecodeBytes(p, secure[PrivateKeyStorage])
       case None => false
       case Some(k) => |k| == 32 && secure[PublicKeyStorage] == PublicKeyText(p, k)
  }

  /** With a matching pair stored, signing succeeds and the signature verifies against the
      stored public key, and both entries are non-empty (truthy). */
  lemma StoredSignatureVerifies(p: Primitives, secure: map<string, string>, data: string)
    requires Sound(p) && KeysMatch(p, secure)
    ensures StoredSignature(p, secure, data).Ok?
    ensures VerifySignature(p, data, StoredSignature(p, secure, data).value, secure[PublicKeyStorage])
    ensures secure[PrivateKeyStorage] != "" && secure[PublicKeyStorage] != ""
  {
    var k := DecodeBytes(p, secure[PrivateKeyStorage]).value;
    Base64RoundTrip(p, []);
    assert secure[PrivateKeyStorage] != "";
    Base64RoundTrip(p, p.publicKeyOf(k));
    SignThenVerify(p, k, data);
  }

  /** Storing a freshly encoded pair makes the stored keys match. */
  lemma FreshPairMatches(p: Primitives, secure: map<string, string>, privateKey: Bytes)
    requires Sound(p) && |privateKey| == 32
    ensures KeysMatch(p, secure[PrivateKeyStorage := ArrayToBase64(p, privateKey)]
                                [PublicKeyStorage := PublicKeyText(p, privateKey)])
  {
    Base64RoundTrip(p, privateKey);
  }

  // ---------------------------------------------------------------------------------------
  // Device facts

  /** `${modelId}-${now}-${suffix}` for a new device id. */
  function NewDeviceId(device: DeviceInfo, now: int, suffix: string): string
  {
    Show(device.modelId) + "-" + IntToString(now) + "-" + suffix
  }

  /** The device id `getDeviceId` returns: the stored one when truthy, otherwise a new one. */
  function DeviceIdFor(secure: map<string, string>, device: DeviceInfo, now: int, suffix: string): (r: string)
    ensures Truthy(r)
  {
    if DeviceIdStorage in secure && Truthy(secure[DeviceIdStorage]) then secure[DeviceIdStorage]
    else NewDeviceId(device, now, suffix)
  }

  function IsIOS(device: DeviceInfo): bool
  {
    device.osName == Some("iOS")
  }

  function IsAndroid(device: DeviceInfo): bool
  {
    device.osName == Some("Android")
  }

  /** `checkSecureHardware`: an iPhone model id on iOS, SecureStore availability on Android,
      false elsewhere. */
  function CheckSecureHardware(device: DeviceInfo): (r: bool)
    ensures r ==> IsIOS(device) || IsAndroid(device)
    ensures IsAndroid(device) ==> r == device.secureStoreAvailable
    ensures IsIOS(device) ==> (r <==> device.modelId.Some? && Contains(device.modelId.value, "iPhone"))
  {
    if IsIOS(device) then device.modelId.Some? && Contains(device.modelId.value, "iPhone")
    else if IsAndroid(device) then device.secureStoreAvailable
    else false
  }

  /** `Device.modelName || 'unknown'`. */
  function ModelName(device: DeviceInfo): (r: string)
    ensures r != ""
    ensures r == "unknown" || device.modelName == Some(r)
    ensures device.modelName.Some? && device.modelName.value != "" ==> r == device.modelName.value
  {
    if device.modelName.Some? && device.modelName.value != "" then device.modelName.value else "unknown"
  }

  /** `${Device.osName} ${Device.osVersion}`. */
  function OsVersionText(device: DeviceInfo): string
  {
    Show(device.osName) + " " + Show(device.osVersion)
  }

  /** iOS: the model id names an iPhone and its digits read as a number of at least 6. */
  function HasSecureEnclave(device: DeviceInfo): bool
  {
    && IsIOS(device)
    && device.modelId.Some?
    && Contains(device.modelId.value, "iPhone")
    && var n := ParseInt(DigitsOnly(device.modelId.value)); n.Some? && n.value >= 6
  }

  /** Android: the major version, `parseInt(osVersion?.split('.')[0] || '0')`. */
  function AndroidMajorVersion(device: DeviceInfo): Option<int>
  {
    var major := if device.osVersion.Some? then BeforeFirst(device.osVersion.value, '.') else "";
    ParseInt(if major == "" then "0" else major)
  }

  function HasStrongBox(device: DeviceInfo): bool
  {
    && IsAndroid(device)
    && var v := AndroidMajorVersion(device); v.Some? && v.value >= 9
  }

  /** `getTEECapabilities`. The storage level is 'hardware' on iOS with a Secure Enclave and on
      Android without StrongBox, 'strongbox' on Android with StrongBox, 'software' otherwise;
      at most one of the two secure elements is reported. */
  function GetTEECapabilities(device: DeviceInfo, hw: BiometricHardware): (r: TeeCapabilities)
    ensures r.hasSecureEnclave ==> IsIOS(device)
    ensures r.hasStrongBox ==> IsAndroid(device)
    ensures !(r.hasSecureEnclave && r.hasStrongBox)
    ensures r.keyStorageLevel == StrongBox <==> r.hasStrongBox
    ensures r.keyStorageLevel == Hardware <==> r.hasSecureEnclave || (IsAndroid(device) && !r.hasStrongBox)
    ensures r.keyStorageLevel == Software <==> !IsAndroid(device) && !r.hasSecureEnclave
    ensures r.biometricHardware == hw.hasHardware
    ensures IsIOS(device) && !(device.modelId.Some? && Contains(device.modelId.value, "iPhone")) ==> !r.hasSecureEnclave
  {
    if IsIOS(device) then
      var enclave := HasSecureEnclave(device);
      TeeCapabilities(enclave, false, hw.hasHardware, if enclave then Hardware else Software)
    else if IsAndroid(device) then
      var strongBox := HasStrongBox(device);
      TeeCapabilities(false, strongBox, hw.hasHardware, if strongBox then StrongBox else Hardware)
    else
      TeeCapabilities(false, false, hw.hasHardware, Software)
  }

  /** On iOS, an iPhone model id whose digits read as the number n reports a Secure Enclave,
      and with it the 'hardware' level, exactly when n is at least 6. */
  lemma EnclaveFromModelDigits(device: DeviceInfo, hw: BiometricHardware, n: nat)
    requires IsIOS(device) && device.modelId.Some? && Contains(device.modelId.value, "iPhone")
    requires DigitsOnly(device.modelId.value) == NatToString(n)
    ensures GetTEECapabilities(device, hw).hasSecureEnclave <==> n >= 6
    ensures GetTEECapabilities(device, hw).keyStorageLevel == (if n >= 6 then Hardware else Software)
  {
    ParseIntOfNatToString(n);
  }

  /** On Android, a version text that is just the number n (no minor part) reports StrongBox
      exactly when n is at least 9. */
  lemma StrongBoxFromWholeVersion(device: DeviceInfo, hw: BiometricHardware, n: nat)
    requires IsAndroid(device) && device.osVersion == Some(NatToString(n))
    ensures GetTEECapabilities(device, hw).hasStrongBox <==> n >= 9
    ensures GetTEECapabilities(device, hw).keyStorageLevel == (if n >= 9 then StrongBox else Hardware)
  {
    var text := NatToString(n);
    assert '.' !in text;
    assert BeforeFirst(text, '.') == text;
    ParseIntOfNatToString(n);
  }

  /** On Android, a version text whose major part is the number n reports StrongBox exactly
      when n is at least 9. */
  lemma StrongBoxFromMajorVersion(device: DeviceInfo, n: nat, rest: string)
    requires IsAndroid(device) && device.osVersion == Some(NatToString(n) + "." + rest)
    ensures GetTEECapabilities(device, BiometricHardware(false, [], false)).hasStrongBox <==> n >= 9
  {
    var text := NatToString(n) + "." + rest;
    var major := BeforeFirst(text, '.');
    assert '.' !in NatToString(n);
    assert text[|NatToString(n)|] == '.';
    assert major == NatToString(n);
    ParseIntOfNatToString(n);
  }

  /** A proof claims hardware backing only on a secure element; an Android device without
      StrongBox reports the 'hardware' level without claiming it. */
  lemma HardwareBackingAgreesWithLevel(device: DeviceInfo, hw: BiometricHardware)
    ensures var c := GetTEECapabilities(device, hw);
      (c.hasSecureEnclave || c.hasStrongBox) ==> c.keyStorageLevel != Software
    ensures var c := GetTEECapabilities(device, hw);
      c.keyStorageLevel == Hardware && !(c.hasSecureEnclave || c.hasStrongBox) <==> IsAndroid(device) && !c.hasStrongBox
  {
  }

  /** The chain of a hardware-backed key's proof: device, storage level, biometric type, time. */
  function HardwareKeyChain(deviceId: string, level: StorageLevel, biometric: BiometricType, timestamp: string): (r: seq<string>)
    ensures |r| == 4
  {
    [ "device:" + deviceId,
      "storage:" + StorageLevelText(level),
      "biometric:" + BioMethodText(biometric),
      "timestamp:" + timestamp]
  }

  function AttestationBody(p: Primitives, deviceId: string, publicKey: string, timestamp: string): string
  {
    p.stringify(AttestationBodyJson(deviceId, publicKey, timestamp))
  }

  /** The attestation's signature verifies, under its own public key, over its device id,
      public key and timestamp. */
  predicate AttestationVerifies(p: Primitives, a: TeeAttestation)
  {
    VerifySignature(p, AttestationBody(p, a.deviceId, a.publicKey, a.timestamp), a.attestationSignature, a.publicKey)
  }

  class KeystoreService {
    const p: Primitives
    const device: DeviceInfo
    const hardware: BiometricHardware
    /** The SecureStore contents. */
    var secure: map<string, string>

    constructor (p: Primitives, device: DeviceInfo, hardware: BiometricHardware, secure: map<string, string>)
      ensures this.p == p && this.device == device && this.hardware == hardware && this.secure == secure
    {
      this.p := p;
      this.device := device;
      this.hardware := hardware;
      this.secure := secure;
    }

    function PublicKey(): Option<string>
      reads this
    {
      if PublicKeyStorage in secure && Truthy(secure[PublicKeyStorage]) then Some(secure[PublicKeyStorage]) else None
    }

    /** `getTEECapabilities` as the source performs it: a record starting at 'software' with
        nothing present, updated for the platform, then given the biometric hardware. */
    method Capabilities() returns (r: TeeCapabilities)
      ensures r == GetTEECapabilities(device, hardware)
    {
      r := TeeCapabilities(false, false, false, Software);
      if IsIOS(device) {
        var enclave := HasSecureEnclave(device);
        r := r.(hasSecureEnclave := enclave);
        r := r.(keyStorageLevel := if enclave then Hardware else Software);
      } else if IsAndroid(device) {
        r := r.(hasStrongBox := HasStrongBox(device));
        r := r.(keyStorageLevel := if r.hasStrongBox then StrongBox else Hardware);
      }
      r := r.(biometricHardware := hardware.hasHardware);
    }

    /** `getDeviceId`: the stored id, or a new one that is stored. Either way the returned id is
        the stored one afterwards, so later calls return it too. */
    method GetDeviceId(now: int, suffix: string) returns (id: string)
      modifies this
      ensures id == DeviceIdFor(old(secure), device, now, suffix)
      ensures secure == old(secure)[DeviceIdStorage := id]
      ensures DeviceIdStorage in secure && secure[DeviceIdStorage] == id
      ensures PublicKey() == old(PublicKey())
      ensures KeysMatch(p, secure) <==> old(KeysMatch(p, secure))
      ensures PrivateKeyStorage in secure <==> PrivateKeyStorage in old(secure)
      ensures PrivateKeyStorage in secure ==> secure[PrivateKeyStorage] == old(secure)[PrivateKeyStorage]
    {
      StorageKeysDistinct();
      if DeviceIdStorage in secure && Truthy(secure[DeviceIdStorage]) {
        id := secure[DeviceIdStorage];
      } else {
        id := NewDeviceId(device, now, suffix);
        secure := secure[DeviceIdStorage := id];
      }
    }

    /** `signData`. */
    method SignData(data: string) returns (r: Result<string, KeystoreError>)
      ensures r == StoredSignature(p, secure, data)
    {
      if PrivateKeyStorage !in secure || secure[PrivateKeyStorage] == "" {
        return Err(NoDeviceKey);
      }
      var privateKey := Base64ToArray(p, secure[PrivateKeyStorage]);
      if privateKey.None? {
        return Err(MalformedKey);
      }
      r := SignWith(p, privateKey.value, data);
    }

    /** Both `setItemAsync` calls for a new pair: the base64 private and public keys. */
    method StoreKeyPair(privateKey: Bytes) returns (publicKey: string)
      requires |privateKey| == 32
      modifies this
      ensures publicKey == PublicKeyText(p, privateKey)
      ensures secure == old(secure)[PrivateKeyStorage := ArrayToBase64(p, privateKey)][PublicKeyStorage := publicKey]
      ensures Sound(p) ==> KeysMatch(p, secure)
    {
      publicKey := PublicKeyText(p, privateKey);
      secure := secure[PrivateKeyStorage := ArrayToBase64(p, privateKey)];
      secure := secure[PublicKeyStorage := publicKey];
      if Sound(p) {
        FreshPairMatches(p, old(secure), privateKey);
      }
    }

    /** The attestation fields other than the signature and the public key, built at `now`. */
    function AttestationFields(deviceId: string, publicKey: string, now: int): TeeAttestation
    {
      TeeAttestation(
        deviceId, ModelName(device), OsVersionText(device), CheckSecureHardware(device),
        GetBiometricType(hardware), "", p.isoString(now), publicKey)
    }

    /** An attestation of `publicKey` built at `now` and signed with the stored private key. */
    method Attest(deviceId: string, publicKey: string, now: int) returns (r: Result<TeeAttestation, KeystoreError>)
      ensures r.Err? <==> StoredSignature(p, secure, AttestationBody(p, deviceId, publicKey, p.isoString(now))).Err?
      ensures r.Err? ==> r == Err(StoredSignature(p, secure, AttestationBody(p, deviceId, publicKey, p.isoString(now))).error)
      ensures r.Ok? ==> r.value == AttestationFields(deviceId, publicKey, now).(attestationSignature :=
        StoredSignature(p, secure, AttestationBody(p, deviceId, publicKey, p.isoString(now))).value)
      ensures r.Ok? && Sound(p) && KeysMatch(p, secure) && publicKey == secure[PublicKeyStorage] ==>
        AttestationVerifies(p, r.value)
    {
      var attestation := AttestationFields(deviceId, publicKey, now);
      var body := AttestationBody(p, deviceId, publicKey, attestation.timestamp);
      var signature := SignData(body);
      if signature.Err? {
        return Err(signature.error);
      }
      r := Ok(attestation.(attestationSignature := signature.value));
      if Sound(p) && KeysMatch(p, secure) && publicKey == secure[PublicKeyStorage] {
        StoredSignatureVerifies(p, secure, body);
      }
    }

    /** `generateDeviceKeyWithAttestation` with `privateKey` the fresh random key: the pair is
        stored, and the attestation of the new public key verifies. */
    method GenerateDeviceKeyWithAttestation(privateKey: Bytes, now: int, suffix: string)
      returns (r: Result<(string, TeeAttestation), KeystoreError>)
      requires |privateKey| == 32
      modifies this
      ensures var id := DeviceIdFor(old(secure), device, now, suffix);
        secure == old(secure)[PrivateKeyStorage := ArrayToBase64(p, privateKey)]
                             [PublicKeyStorage := PublicKeyText(p, privateKey)]
                             [DeviceIdStorage := id]
      ensures Sound(p) ==> KeysMatch(p, secure) && r.Ok?
      ensures r.Ok? ==> r.value.0 == PublicKeyText(p, privateKey) && r.value.1.publicKey == r.value.0
      ensures r.Ok? ==> r.value.1.deviceId == secure[DeviceIdStorage]
      ensures r.Ok? ==> r.value.1.timestamp == p.isoString(now)
      ensures r.Ok? && Sound(p) ==> AttestationVerifies(p, r.value.1)
      ensures r.Ok? ==>
        && r.value.1 == AttestationFields(secure[DeviceIdStorage], r.value.0, now).(attestationSignature := r.value.1.attestationSignature)
        && StoredSignature(p, secure, AttestationBody(p, secure[DeviceIdStorage], r.value.0, p.isoString(now))) == Ok(r.value.1.attestationSignature)
    {
      var publicKey := StoreKeyPair(privateKey);
      var deviceId := GetDeviceId(now, suffix);
      var attestation := Attest(deviceId, publicKey, now);
      if attestation.Err? {
        return Err(attestation.error);
      }
      r := Ok((publicKey, attestation.value));
    }

    /** The SecureStore once a device key has been obtained from `before`: with no truthy
        public key, the new pair made from `privateKey` and a device id are stored; otherwise
        only the device id is. */
    function KeyedStore(before: map<string, string>, privateKey: Bytes, now: int, suffix: string): (r: map<string, string>)
      ensures DeviceIdStorage in r && r[DeviceIdStorage] == DeviceIdFor(before, device, now, suffix)
      ensures PublicKeyStorage in before && Truthy(before[PublicKeyStorage]) ==>
        r == before[DeviceIdStorage := DeviceIdFor(before, device, now, suffix)]
      ensures !(PublicKeyStorage in before && Truthy(before[PublicKeyStorage])) ==>
        && PrivateKeyStorage in r && r[PrivateKeyStorage] == ArrayToBase64(p, privateKey)
        && PublicKeyStorage in r && r[PublicKeyStorage] == PublicKeyText(p, privateKey)
      ensures forall k :: k in before && k != PrivateKeyStorage && k != PublicKeyStorage && k != DeviceIdStorage ==>
        k in r && r[k] == before[k]
    {
      StorageKeysDistinct();
      var id := DeviceIdFor(before, device, now, suffix);
      if PublicKeyStorage in before && Truthy(before[PublicKeyStorage]) then before[DeviceIdStorage := id]
      else before[PrivateKeyStorage := ArrayToBase64(p, privateKey)][PublicKeyStorage := PublicKeyText(p, privateKey)][DeviceIdStorage := id]
    }

    /** Obtaining a device key a second time changes nothing more: the stored id is reused and
        either the stored public key is kept or the same pair is written again. */
    lemma KeyedStoreIdempotent(before: map<string, string>, privateKey: Bytes, now: int, suffix: string)
      ensures var once := KeyedStore(before, privateKey, now, suffix);
        KeyedStore(once, privateKey, now, suffix) == once
    {
      StorageKeysDistinct();
      var once := KeyedStore(before, privateKey, now, suffix);
      assert DeviceIdFor(once, device, now, suffix) == once[DeviceIdStorage];
      if PublicKeyStorage in once && Truthy(once[PublicKeyStorage]) {
        assert once[DeviceIdStorage := once[DeviceIdStorage]] == once;
      } else {
        assert PublicKeyStorage in once && once[PublicKeyStorage] == PublicKeyText(p, privateKey);
        assert PrivateKeyStorage in once && once[PrivateKeyStorage] == ArrayToBase64(p, privateKey);
        assert once[PrivateKeyStorage := ArrayToBase64(p, privateKey)][PublicKeyStorage := PublicKeyText(p, privateKey)]
                   [DeviceIdStorage := once[DeviceIdStorage]] == once;
      }
    }

    /** `getOrCreateDeviceKey`: a truthy stored public key is reported as 'existing' and kept;
        otherwise a pair is generated and reported with its creation time. */
    method GetOrCreateDeviceKey(privateKey: Bytes, now: int, suffix: string) returns (r: Result<DeviceKey, KeystoreError>)
      requires |privateKey| == 32
      modifies this
      ensures DeviceIdStorage in secure
      ensures old(PublicKey()).Some? ==>
        secure == old(secure)[DeviceIdStorage := DeviceIdFor(old(secure), device, now, suffix)] &&
        r == Ok(DeviceKey(old(PublicKey()).value, "existing", secure[DeviceIdStorage]))
      ensures old(PublicKey()).None? && r.Ok? ==>
        r.value == DeviceKey(PublicKeyText(p, privateKey), p.isoString(now), secure[DeviceIdStorage])
      ensures Sound(p) ==> r.Ok?
      ensures r.Ok? && (old(PublicKey()).Some? || Sound(p)) ==> PublicKey() == Some(r.value.publicKey)
      ensures old(Sound(p) && KeysMatch(p, secure)) ==> KeysMatch(p, secure)
      ensures old(PublicKey()).None? && Sound(p) ==> KeysMatch(p, secure)
      ensures secure == KeyedStore(old(secure), privateKey, now, suffix)
    {
      var existing := PublicKey();
      if existing.Some? {
        var deviceId := GetDeviceId(now, suffix);
        return Ok(DeviceKey(existing.value, "existing", deviceId));
      }
      var generated := GenerateDeviceKeyWithAttestation(privateKey, now, suffix);
      if generated.Err? {
        return Err(generated.error);
      }
      r := Ok(DeviceKey(generated.value.0, p.isoString(now), generated.value.1.deviceId));
      StorageKeysDistinct();
      if Sound(p) {
        Base64RoundTrip(p, p.publicKeyOf(privateKey));
      }
    }

    /** `getAttestation`: with no truthy stored public key a pair is generated; otherwise the
        stored key is attested and signed with the stored private key. */
    method GetAttestation(privateKey: Bytes, now: int, suffix: string) returns (r: Result<TeeAttestation, KeystoreError>)
      requires |privateKey| == 32
      modifies this
      ensures DeviceIdStorage in secure
      ensures old(PublicKey()).Some? ==>
        secure == old(secure)[DeviceIdStorage := DeviceIdFor(old(secure), device, now, suffix)]
      ensures old(PublicKey()).Some? && (PrivateKeyStorage !in secure || secure[PrivateKeyStorage] == "") ==>
        r == Err(NoDeviceKey)
      ensures r.Ok? ==> r.value.deviceId == secure[DeviceIdStorage] && r.value.timestamp == p.isoString(now)
      ensures r.Ok? && (old(PublicKey()).Some? || Sound(p)) ==> PublicKey() == Some(r.value.publicKey)
      ensures old(PublicKey()).None? && Sound(p) ==> r.Ok? && KeysMatch(p, secure)
      ensures old(Sound(p) && KeysMatch(p, secure)) ==> KeysMatch(p, secure) && r.Ok?
      ensures r.Ok? && Sound(p) && KeysMatch(p, secure) ==> AttestationVerifies(p, r.value)
      ensures old(PublicKey()).Some? ==>
        (r.Err? <==> StoredSignature(p, secure, AttestationBody(p, secure[DeviceIdStorage], old(PublicKey()).value, p.isoString(now))).Err?)
      ensures r.Ok? ==>
        && r.value == AttestationFields(r.value.deviceId, r.value.publicKey, now).(attestationSignature := r.value.attestationSignature)
        && StoredSignature(p, secure, AttestationBody(p, r.value.deviceId, r.value.publicKey, r.value.timestamp)) == Ok(r.value.attestationSignature)
      ensures secure == KeyedStore(old(secure), privateKey, now, suffix)
    {
      var publicKey := PublicKey();
      if publicKey.None? {
        var generated := GenerateDeviceKeyWithAttestation(privateKey, now, suffix);
        if generated.Err? {
          return Err(generated.error);
        }
        r := Ok(generated.value.1);
        StorageKeysDistinct();
        if Sound(p) {
          Base64RoundTrip(p, p.publicKeyOf(privateKey));
        }
        return;
      }
      if old(Sound(p) && KeysMatch(p, secure)) {
        StoredSignatureVerifies(p, secure, "");
      }
      var deviceId := GetDeviceId(now, suffix);
      r := Attest(deviceId, publicKey.value, now);
      if r.Ok? && Sound(p) && KeysMatch(p, secure) {
        StoredSignatureVerifies(p, secure, AttestationBody(p, deviceId, publicKey.value, p.isoString(now)));
      }
    }

    /** `createHardwareBackedKey`: a new pair is stored and described by a proof whose chain
        names the device, the storage level, the biometric type and the time. */
    method CreateHardwareBackedKey(privateKey: Bytes, now: int, suffix: string) returns (publicKey: string, proof: TeeProof)
      requires |privateKey| == 32
      modifies this
      ensures secure == old(secure)[PrivateKeyStorage := ArrayToBase64(p, privateKey)]
                                   [PublicKeyStorage := publicKey]
                                   [DeviceIdStorage := DeviceIdFor(old(secure), device, now, suffix)]
      ensures var caps := GetTEECapabilities(device, hardware);
        && publicKey == PublicKeyText(p, privateKey)
        && proof.storageLevel == caps.keyStorageLevel
        && !proof.extractable
        && proof.hardwareBacked == (caps.hasSecureEnclave || caps.hasStrongBox)
        && proof.attestationChain ==
             HardwareKeyChain(DeviceIdFor(old(secure), device, now, suffix), caps.keyStorageLevel, GetBiometricType(hardware), p.isoString(now))
      ensures Sound(p) ==> KeysMatch(p, secure)
    {
      StorageKeysDistinct();
      var caps := Capabilities();
      publicKey := StoreKeyPair(privateKey);
      var deviceId := GetDeviceId(now, suffix);
      var chain := HardwareKeyChain(deviceId, caps.keyStorageLevel, GetBiometricType(hardware), p.isoString(now));
      proof := TeeProof(caps.keyStorageLevel, false, caps.hasSecureEnclave || caps.hasStrongBox, chain);
    }

    /** The integrity check of the current store at `now`: valid exactly when a public key is
        stored and the stored private key's signature of the test message verifies against it;
        without either key, or when signing fails, tampering with nothing still in the TEE;
        otherwise still in the TEE exactly on a secure element. */
    function IntegrityAt(now: int): (r: IntegrityCheck)
      reads this
      ensures r.tamperDetected == !r.valid
      ensures var message := "integrity_check_" + IntToString(now);
        var signature := StoredSignature(p, secure, message);
        r.valid <==> PublicKey().Some? && signature.Ok? && VerifySignature(p, message, signature.value, PublicKey().value)
      ensures PublicKey().None? || StoredSignature(p, secure, "integrity_check_" + IntToString(now)).Err? ==>
        r == IntegrityCheck(false, false, true)
      ensures PublicKey().Some? && StoredSignature(p, secure, "integrity_check_" + IntToString(now)).Ok? ==>
        var caps := GetTEECapabilities(device, hardware); r.stillInTEE == (caps.hasSecureEnclave || caps.hasStrongBox)
    {
      var message := "integrity_check_" + IntToString(now);
      var signature := StoredSignature(p, secure, message);
      if PublicKey().None? || signature.Err? then IntegrityCheck(false, false, true)
      else
        var valid := VerifySignature(p, message, signature.value, PublicKey().value);
        var caps := GetTEECapabilities(device, hardware);
        IntegrityCheck(valid, caps.hasSecureEnclave || caps.hasStrongBox, !valid)
    }

    /** `verifyKeyIntegrity` at `now`: sign a test message and verify it with the stored public
        key. Tampering is reported exactly when the check fails; a matching stored pair passes
        it. */
    method VerifyKeyIntegrity(now: int) returns (r: IntegrityCheck)
      ensures r == IntegrityAt(now)
      ensures r.tamperDetected == !r.valid
      ensures r.valid ==> PublicKey().Some? && PrivateKeyStorage in secure && secure[PrivateKeyStorage] != ""
      ensures r.stillInTEE ==> r.valid || StoredSignature(p, secure, "integrity_check_" + IntToString(now)).Ok?
      ensures r.stillInTEE ==>
        var caps := GetTEECapabilities(device, hardware); caps.hasSecureEnclave || caps.hasStrongBox
      ensures Sound(p) && KeysMatch(p, secure) ==> r.valid
      ensures var message := "integrity_check_" + IntToString(now);
        var signature := StoredSignature(p, secure, message);
        r.valid <==> PublicKey().Some? && signature.Ok? && VerifySignature(p, message, signature.value, PublicKey().value)
      ensures PublicKey().None? || StoredSignature(p, secure, "integrity_check_" + IntToString(now)).Err? ==>
        r == IntegrityCheck(false, false, true)
      ensures PublicKey().Some? && StoredSignature(p, secure, "integrity_check_" + IntToString(now)).Ok? ==>
        var caps := GetTEECapabilities(device, hardware); r.stillInTEE == (caps.hasSecureEnclave || caps.hasStrongBox)
    {
      var publicKey := PublicKey();
      if publicKey.None? || PrivateKeyStorage !in secure || secure[PrivateKeyStorage] == "" {
        if Sound(p) && KeysMatch(p, secure) {
          StoredSignatureVerifies(p, secure, "");
          assert false;
        }
        return IntegrityCheck(false, false, true);
      }
      var testMessage := "integrity_check_" + IntToString(now);
      var signature := SignData(testMessage);
      if signature.Err? {
        if Sound(p) && KeysMatch(p, secure) {
          StoredSignatureVerifies(p, secure, testMessage);
          assert false;
        }
        return IntegrityCheck(false, false, true);
      }
      var isValid := VerifySignature(p, testMessage, signature.value, publicKey.value);
      if Sound(p) && KeysMatch(p, secure) {
        StoredSignatureVerifies(p, secure, testMessage);
      }
      var caps := Capabilities();
      var stillInTEE := caps.hasSecureEnclave || caps.hasStrongBox;
      r := IntegrityCheck(isValid, stillInTEE, !isValid);
    }

    /** `getEnhancedAttestation`: the basic attestation, the capabilities, an integrity check
        and a five-entry chain summarising them. */
    method GetEnhancedAttestation(privateKey: Bytes, now: int, suffix: string) returns (r: Result<EnhancedAttestation, KeystoreError>)
      requires |privateKey| == 32
      modifies this
      ensures r.Ok? ==>
        var caps := GetTEECapabilities(device, hardware);
        var e := r.value;
        && e.teeProof.capabilities == caps
        && e.integrityCheck == e.teeProof.integrity
        && e.teeProof.location == caps.keyStorageLevel
        && !e.teeProof.extractable
        && e.teeProof.requiresBiometric == (e.attestation.biometricType != NoMethod)
        && e.teeProof.attestationChain == [
             "device:" + e.attestation.deviceId,
             "storage:" + StorageLevelText(caps.keyStorageLevel),
             "secure_hardware:" + BoolText(caps.hasSecureEnclave || caps.hasStrongBox),
             "biometric_hw:" + BoolText(caps.biometricHardware),
             "key_integrity:" + BoolText(e.integrityCheck.valid)]
      ensures old(PublicKey()).None? && Sound(p) ==> r.Ok? && r.value.integrityCheck.valid
      ensures old(Sound(p) && KeysMatch(p, secure)) ==> r.Ok? && r.value.integrityCheck.valid
      ensures r.Ok? && Sound(p) && KeysMatch(p, secure) ==> AttestationVerifies(p, r.value.attestation)
      ensures secure == KeyedStore(old(secure), privateKey, now, suffix)
      ensures old(PublicKey()).Some? ==>
        (r.Err? <==> StoredSignature(p, secure, AttestationBody(p, secure[DeviceIdStorage], old(PublicKey()).value, p.isoString(now))).Err?)
      ensures r.Ok? ==>
        var a := r.value.attestation;
        && a == AttestationFields(a.deviceId, a.publicKey, now).(attestationSignature := a.attestationSignature)
        && a.deviceId == secure[DeviceIdStorage]
        && StoredSignature(p, secure, AttestationBody(p, a.deviceId, a.publicKey, a.timestamp)) == Ok(a.attestationSignature)
      ensures r.Ok? && (old(PublicKey()).Some? || Sound(p)) ==> PublicKey() == Some(r.value.attestation.publicKey)
      ensures r.Ok? ==> r.value.integrityCheck == IntegrityAt(now)
    {
      var basic := GetAttestation(privateKey, now, suffix);
      if basic.Err? {
        return Err(basic.error);
      }
      var caps := Capabilities();
      var integrity := VerifyKeyIntegrity(now);
      var proof := EnhancedProof(
        caps,
        integrity,
        caps.keyStorageLevel,
        false,
        basic.value.biometricType != NoMethod,
        [ "device:" + basic.value.deviceId,
          "storage:" + StorageLevelText(caps.keyStorageLevel),
          "secure_hardware:" + BoolText(caps.hasSecureEnclave || caps.hasStrongBox),
          "biometric_hw:" + BoolText(caps.biometricHardware),
          "key_integrity:" + BoolText(integrity.valid)]);
      r := Ok(EnhancedAttestation(basic.value, proof, integrity));
    }

    /** `signWithBiometric`, with `auth` the outcome of the prompt: a failed prompt throws;
        otherwise the stored key signs and the method is the hardware one, or the passcode when
        the device has none. */
    method SignWithBiometric(data: string, auth: AuthResult) returns (r: Result<BiometricSignature, KeystoreError>)
      ensures !auth.success ==> r == Err(BiometricAuthenticationFailed)
      ensures auth.success ==> (r.Err? <==> StoredSignature(p, secure, data).Err?)
      ensures r.Ok? ==> r.value.biometricVerified && r.value.signature == StoredSignature(p, secure, data).value
      ensures r.Ok? ==> (r.value.signingMethod == Passcode <==> GetBiometricType(hardware) == NoMethod)
      ensures r.Ok? ==> (r.value.signingMethod == FaceIdSigning <==> GetBiometricType(hardware) == FaceId)
    {
      if !auth.success {
        return Err(BiometricAuthenticationFailed);
      }
      var signature := SignData(data);
      if signature.Err? {
        return Err(signature.error);
      }
      var kind := GetBiometricType(hardware);
      var signingMethod := match kind
        case FaceId => FaceIdSigning
        case TouchId => TouchIdSigning
        case _ => Passcode;
      r := Ok(BiometricSignature(signature.value, true, signingMethod));
    }
  }
}
