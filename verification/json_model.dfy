/** The JSON trees that JSON.stringify prints for the signed parts of a manifest, member by
    member in the order the object literals of src/services/c2pa.ts, src/services/keystore.ts
    and the trackers build them, and the proof that each tree determines its record: with an
    injective `stringify`, the signed text of a manifest changes whenever any field of its claim
    or attestation does. */
module JsonModel {
  import opened Common
  import opened Platform
  import opened Types

  function IntJson(i: int): Json
  {
    JNum(i as real)
  }

  function IntsJson(xs: seq<int>): Json
  {
    JArr(seq(|xs|, i requires 0 <= i < |xs| => IntJson(xs[i])))
  }

  function RealsJson(xs: seq<real>): Json
  {
    JArr(seq(|xs|, i requires 0 <= i < |xs| => JNum(xs[i])))
  }

  function KeystrokeJson(k: KeystrokeProfile): Json
  {
    JObj([
      ("avgDwellTime", JNum(k.avgDwellTime)),
      ("avgFlightTime", JNum(k.avgFlightTime)),
      ("rhythm", IntsJson(k.rhythm)),
      ("errorRate", JNum(k.errorRate))])
  }

  function SessionJson(s: SessionPattern): Json
  {
    JObj([
      ("timeOnSite", IntJson(s.timeOnSite)),
      ("pagesViewed", IntJson(s.pagesViewed)),
      ("searchCount", IntJson(s.searchCount)),
      ("cartModifications", IntJson(s.cartModifications))])
  }

  function PassiveJson(b: PassiveBiometrics): Json
  {
    JObj([
      ("deviceMotion", JObj([
        ("tiltPattern", RealsJson(b.deviceMotion.tiltPattern)),
        ("shakeFrequency", JNum(b.deviceMotion.shakeFrequency))])),
      ("touchDynamics", JObj([
        ("pressureAverage", JNum(b.touchDynamics.pressureAverage)),
        ("tapDuration", JNum(b.touchDynamics.tapDuration)),
        ("fingerSize", JNum(b.touchDynamics.fingerSize))]))])
  }

  /** An absent active-biometric result is the `null` the risk engine passes. */
  function ActiveJson(a: Option<ActiveBiometric>): Json
  {
    match a
    case None => JNull
    case Some(r) => JObj([
      ("method", JStr(BioMethodText(r.kind))),
      ("verified", JBool(r.verified)),
      ("confidence", IntJson(r.confidence))])
  }

  function ClaimJson(c: Claim): Json
  {
    JObj([
      ("payment", JObj([
        ("amount", JNum(c.payment.amount)),
        ("currency", JStr(c.payment.currency)),
        ("merchant", JStr(c.payment.merchant)),
        ("orderId", JStr(c.payment.orderId))])),
      ("behavioral", JObj([
        ("riskScore", IntJson(c.behavioral.riskScore)),
        ("keystroke", KeystrokeJson(c.behavioral.keystroke)),
        ("session", SessionJson(c.behavioral.session))])),
      ("passiveBiometrics", PassiveJson(c.passiveBiometrics)),
      ("activeBiometric", ActiveJson(c.activeBiometric)),
      ("device", JObj([
        ("model", JStr(c.device.model)),
        ("os", JStr(c.device.os)),
        ("fingerprint", JStr(c.device.fingerprint))])),
      ("timestamp", JStr(c.timestamp))])
  }

  function AttestationJson(a: TeeAttestation): Json
  {
    JObj([
      ("deviceId", JStr(a.deviceId)),
      ("deviceModel", JStr(a.deviceModel)),
      ("osVersion", JStr(a.osVersion)),
      ("secureHardware", JBool(a.secureHardware)),
      ("biometricType", JStr(BioMethodText(a.biometricType))),
      ("attestationSignature", JStr(a.attestationSignature)),
      ("timestamp", JStr(a.timestamp)),
      ("publicKey", JStr(a.publicKey))])
  }

  /** `{claim, teeAttestation}`: what a manifest signature covers. */
  function ManifestBodyJson(c: Claim, a: TeeAttestation): Json
  {
    JObj([("claim", ClaimJson(c)), ("teeAttestation", AttestationJson(a))])
  }

  /** `{deviceId, publicKey, timestamp}`: what an attestation signature covers. */
  function AttestationBodyJson(deviceId: string, publicKey: string, timestamp: string): Json
  {
    JObj([("deviceId", JStr(deviceId)), ("publicKey", JStr(publicKey)), ("timestamp", JStr(timestamp))])
  }

  // ---------------------------------------------------------------------------------------
  // Each tree determines its record.

  lemma IntsJsonInjective(a: seq<int>, b: seq<int>)
    requires IntsJson(a) == IntsJson(b)
    ensures a == b
  {
    assert |a| == |IntsJson(a).items| == |IntsJson(b).items| == |b|;
    forall i | 0 <= i < |a|
      ensures a[i] == b[i]
    {
      assert IntsJson(a).items[i] == IntsJson(b).items[i];
    }
  }

  lemma RealsJsonInjective(a: seq<real>, b: seq<real>)
    requires RealsJson(a) == RealsJson(b)
    ensures a == b
  {
    assert |a| == |RealsJson(a).items| == |RealsJson(b).items| == |b|;
    forall i | 0 <= i < |a|
      ensures a[i] == b[i]
    {
      assert RealsJson(a).items[i] == RealsJson(b).items[i];
    }
  }

  lemma BioMethodTextInjective(m: BioMethod, n: BioMethod)
    requires BioMethodText(m) == BioMethodText(n)
    ensures m == n
  {
  }

  lemma KeystrokeJsonInjective(a: KeystrokeProfile, b: KeystrokeProfile)
    requires KeystrokeJson(a) == KeystrokeJson(b)
    ensures a == b
  {
    var ma, mb := KeystrokeJson(a).members, KeystrokeJson(b).members;
    assert ma[2] == mb[2];
    IntsJsonInjective(a.rhythm, b.rhythm);
    assert ma[0] == mb[0] && ma[1] == mb[1] && ma[3] == mb[3];
  }

  lemma SessionJsonInjective(a: SessionPattern, b: SessionPattern)
    requires SessionJson(a) == SessionJson(b)
    ensures a == b
  {
    var ma, mb := SessionJson(a).members, SessionJson(b).members;
    assert ma[0] == mb[0] && ma[1] == mb[1] && ma[2] == mb[2] && ma[3] == mb[3];
  }

  lemma PassiveJsonInjective(a: PassiveBiometrics, b: PassiveBiometrics)
    requires PassiveJson(a) == PassiveJson(b)
    ensures a == b
  {
    var ma, mb := PassiveJson(a).members, PassiveJson(b).members;
    assert ma[0] == mb[0] && ma[1] == mb[1];
    var motionA, motionB := ma[0].1.members, mb[0].1.members;
    assert motionA[0] == motionB[0] && motionA[1] == motionB[1];
    RealsJsonInjective(a.deviceMotion.tiltPattern, b.deviceMotion.tiltPattern);
    var touchA, touchB := ma[1].1.members, mb[1].1.members;
    assert touchA[0] == touchB[0] && touchA[1] == touchB[1] && touchA[2] == touchB[2];
  }

  lemma ActiveJsonInjective(a: Option<ActiveBiometric>, b: Option<ActiveBiometric>)
    requires ActiveJson(a) == ActiveJson(b)
    ensures a == b
  {
    if a.Some? && b.Some? {
      var ma, mb := ActiveJson(a).members, ActiveJson(b).members;
      assert ma[0] == mb[0] && ma[1] == mb[1] && ma[2] == mb[2];
      BioMethodTextInjective(a.value.kind, b.value.kind);
    }
  }

  lemma ClaimJsonInjective(a: Claim, b: Claim)
    requires ClaimJson(a) == ClaimJson(b)
    ensures a == b
  {
    var ma, mb := ClaimJson(a).members, ClaimJson(b).members;
    assert ma[0] == mb[0] && ma[1] == mb[1] && ma[2] == mb[2];
    assert ma[3] == mb[3] && ma[4] == mb[4] && ma[5] == mb[5];
    var payA, payB := ma[0].1.members, mb[0].1.members;
    assert payA[0] == payB[0] && payA[1] == payB[1] && payA[2] == payB[2] && payA[3] == payB[3];
    var behA, behB := ma[1].1.members, mb[1].1.members;
    assert behA[0] == behB[0] && behA[1] == behB[1] && behA[2] == behB[2];
    KeystrokeJsonInjective(a.behavioral.keystroke, b.behavioral.keystroke);
    SessionJsonInjective(a.behavioral.session, b.behavioral.session);
    PassiveJsonInjective(a.passiveBiometrics, b.passiveBiometrics);
    ActiveJsonInjective(a.activeBiometric, b.activeBiometric);
    var devA, devB := ma[4].1.members, mb[4].1.members;
    assert devA[0] == devB[0] && devA[1] == devB[1] && devA[2] == devB[2];
  }

  lemma AttestationJsonInjective(a: TeeAttestation, b: TeeAttestation)
    requires AttestationJson(a) == AttestationJson(b)
    ensures a == b
  {
    var ma, mb := AttestationJson(a).members, AttestationJson(b).members;
    assert ma[0] == mb[0] && ma[1] == mb[1] && ma[2] == mb[2] && ma[3] == mb[3];
    assert ma[4] == mb[4] && ma[5] == mb[5] && ma[6] == mb[6] && ma[7] == mb[7];
    BioMethodTextInjective(a.biometricType, b.biometricType);
  }

  /** The signed body of a manifest determines both its claim and its attestation. */
  lemma ManifestBodyJsonInjective(c: Claim, a: TeeAttestation, c': Claim, a': TeeAttestation)
    requires ManifestBodyJson(c, a) == ManifestBodyJson(c', a')
    ensures c == c' && a == a'
  {
    var m, m' := ManifestBodyJson(c, a).members, ManifestBodyJson(c', a').members;
    assert m[0] == m'[0] && m[1] == m'[1];
    ClaimJsonInjective(c, c');
    AttestationJsonInjective(a, a');
  }

  /** The signed body of an attestation determines the three fields it covers. */
  lemma AttestationBodyJsonInjective(d: string, k: string, t: string, d': string, k': string, t': string)
    requires AttestationBodyJson(d, k, t) == AttestationBodyJson(d', k', t')
    ensures d == d' && k == k' && t == t'
  {
    var m, m' := AttestationBodyJson(d, k, t).members, AttestationBodyJson(d', k', t').members;
    assert m[0] == m'[0] && m[1] == m'[1] && m[2] == m'[2];
  }
}
