/** The active-biometric service (src/biometrics/active-biometrics.ts): Face ID / Touch ID
    through the platform's local authentication, and a selfie fallback that never succeeds.
    What the platform reports (hardware, enrolment, the outcome of the prompt, the camera
    permission) is passed in as values. */
module Active {
  import opened Common
  import opened Types

  /** `LocalAuthentication.AuthenticationType`. */
  datatype AuthenticationType = Fingerprint | FacialRecognition | Iris

  /** What local authentication reports about the device. */
  datatype BiometricHardware = BiometricHardware(
    hasHardware: bool,
    supportedTypes: seq<AuthenticationType>,
    isEnrolled: bool)

  /** The outcome of `authenticateAsync`: `error` is absent or an error code. */
  datatype AuthResult = AuthResult(success: bool, error: Option<string>)

  /** The answer to the camera-permission request; `Failed` is a request that throws. */
  datatype CameraPermission = Granted | Denied | Failed

  datatype SelfieResult = SelfieResult(verified: bool, isLive: bool, confidence: int)

  /** The error codes that are reported as a failed or cancelled verification. */
  const FailureCodes: seq<string> := [
    "user_cancel", "app_cancel", "authentication_failed", "system_cancel",
    "passcode_not_set", "biometry_not_available", "biometry_not_enrolled", "biometry_lockout"]

  /** `!result.error`: the error is absent or the empty text. */
  predicate NoError(e: Option<string>)
  {
    e.None? || e.value == ""
  }

  /** The method the supported types call for: face recognition wins over fingerprint. */
  function DetectedMethod(types: seq<AuthenticationType>): (r: BiometricType)
    ensures r == FaceId <==> FacialRecognition in types
    ensures r == TouchId <==> FacialRecognition !in types && Fingerprint in types
    ensures r == NoMethod <==> FacialRecognition !in types && Fingerprint !in types
  {
    if FacialRecognition in types then FaceId
    else if Fingerprint in types then TouchId
    else NoMethod
  }

  /** `getBiometricType`: 'none' without hardware, otherwise the detected method. */
  function GetBiometricType(hw: BiometricHardware): (r: BiometricType)
    ensures !hw.hasHardware ==> r == NoMethod
    ensures r != NoMethod ==> hw.hasHardware && (r == FaceId || r == TouchId)
    ensures hw.hasHardware ==> (r == FaceId <==> FacialRecognition in hw.supportedTypes)
    ensures hw.hasHardware ==>
      (r == TouchId <==> FacialRecognition !in hw.supportedTypes && Fingerprint in hw.supportedTypes)
  {
    if !hw.hasHardware then NoMethod else DetectedMethod(hw.supportedTypes)
  }

  /** `verifyBiometric`, with `result` the outcome of the prompt (not shown without hardware).
      The result is verified exactly when there is hardware, the prompt succeeded and reported
      no error; a verified result names the detected method with confidence 100, any other is
      'none' with confidence 0. */
  function VerifyBiometric(hw: BiometricHardware, result: AuthResult): (r: ActiveBiometric)
    ensures r.verified <==> hw.hasHardware && result.success && NoError(result.error)
    ensures r.verified ==> r.kind == GetBiometricType(hw) && r.confidence == 100
    ensures !r.verified ==> r.kind == NoMethod && r.confidence == 0
  {
    if !hw.hasHardware then ActiveBiometric(NoMethod, false, 0)
    else
      var kind := DetectedMethod(hw.supportedTypes);
      var isVerified := result.success && NoError(result.error);
      if result.error.Some? && result.error.value in FailureCodes then ActiveBiometric(NoMethod, false, 0)
      else ActiveBiometric(if isVerified then kind else NoMethod, isVerified, if isVerified then 100 else 0)
  }

  /** The early return for a listed failure code gives what the final return would give: a
      listed code is a non-empty error, so the prompt does not count as verified. */
  lemma FailureCodesFallThrough(hw: BiometricHardware, result: AuthResult)
    requires result.error.Some? && result.error.value in FailureCodes
    ensures VerifyBiometric(hw, result) == VerifyBiometric(hw, result.(success := false))
  {
    assert !NoError(result.error) by {
      assert forall i :: 0 <= i < |FailureCodes| ==> FailureCodes[i] != "";
    }
  }

  /** `verifySelfie`: whatever the permission, the selfie check never verifies. */
  function VerifySelfie(permission: CameraPermission): (r: SelfieResult)
    ensures !r.verified && !r.isLive && r.confidence == 0
  {
    match permission
    case Denied => SelfieResult(false, false, 0)
    case Failed => SelfieResult(false, false, 0)
    case Granted => SelfieResult(false, false, 0)
  }

  /** `isBiometricAvailable`: hardware present and a biometric enrolled. */
  function IsBiometricAvailable(hw: BiometricHardware): (r: bool)
    ensures r ==> hw.hasHardware
    ensures !hw.isEnrolled ==> !r
  {
    hw.hasHardware && hw.isEnrolled
  }
}
