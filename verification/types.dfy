/** The records the authorization pipeline passes around (src/types/index.ts). */
module Types {
  import opened Common

  /** `ActiveBiometric.method`: 'faceId' | 'touchId' | 'selfie' | 'none'. */
  datatype BioMethod = FaceId | TouchId | Selfie | NoMethod

  /** `TEEAttestation.biometricType`: the hardware kinds only, never 'selfie'. */
  type BiometricType = m: BioMethod | !m.Selfie? witness NoMethod

  function BioMethodText(m: BioMethod): string
  {
    match m
    case FaceId => "faceId"
    case TouchId => "touchId"
    case Selfie => "selfie"
    case NoMethod => "none"
  }

  /** `keyStorageLevel`: 'software' | 'hardware' | 'strongbox'. */
  datatype StorageLevel = Software | Hardware | StrongBox

  function StorageLevelText(l: StorageLevel): string
  {
    match l
    case Software => "software"
    case Hardware => "hardware"
    case StrongBox => "strongbox"
  }

  datatype DeviceKey = DeviceKey(publicKey: string, createdAt: string, deviceId: string)

  datatype TeeAttestation = TeeAttestation(
    deviceId: string,
    deviceModel: string,
    osVersion: string,
    secureHardware: bool,
    biometricType: BiometricType,
    attestationSignature: string,
    timestamp: string,
    publicKey: string)

  datatype KeystrokeProfile = KeystrokeProfile(
    avgDwellTime: real,
    avgFlightTime: real,
    rhythm: seq<int>,
    errorRate: real)

  datatype SessionPattern = SessionPattern(
    timeOnSite: int,
    pagesViewed: nat,
    searchCount: nat,
    cartModifications: nat)

  datatype DeviceMotion = DeviceMotion(tiltPattern: seq<real>, shakeFrequency: real)

  datatype TouchDynamics = TouchDynamics(pressureAverage: real, tapDuration: real, fingerSize: real)

  datatype PassiveBiometrics = PassiveBiometrics(deviceMotion: DeviceMotion, touchDynamics: TouchDynamics)

  datatype ActiveBiometric = ActiveBiometric(kind: BioMethod, verified: bool, confidence: int)

  datatype Payment = Payment(amount: real, currency: string, merchant: string, orderId: string)

  /** The `behavioral` part of a claim as the risk engine fills it. */
  datatype BehavioralEvidence = BehavioralEvidence(
    riskScore: int,
    keystroke: KeystrokeProfile,
    session: SessionPattern)

  datatype DeviceDescriptor = DeviceDescriptor(model: string, os: string, fingerprint: string)

  datatype Claim = Claim(
    payment: Payment,
    behavioral: BehavioralEvidence,
    passiveBiometrics: PassiveBiometrics,
    activeBiometric: Option<ActiveBiometric>,
    device: DeviceDescriptor,
    timestamp: string)

  /** `BehavioralC2PAManifest`. */
  datatype Manifest = Manifest(
    version: string,
    claim: Claim,
    teeAttestation: TeeAttestation,
    signature: string,
    publicKey: string)
}
