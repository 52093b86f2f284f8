/** The risk engine (src/core/risk-engine.ts): behavioural and passive-biometric risk are
    weighed into one score; at or above the threshold an active biometric is demanded, and
    every authorised payment is recorded in a signed provenance manifest. The platform's
    answers (biometric hardware, the outcome of the prompt, the camera permission), the clock
    and the key material are parameters. */
module Risk {
  import opened Common
  import opened Platform
  import opened Types
  import opened Storage
  import opened Keystroke
  import opened Session
  import opened Passive
  import opened Active
  import opened Keystore
  import opened C2pa

  const KeystrokeProfileKey := "keystroke_profile"
  /** The threshold used when none (or zero) is given. */
  const DefaultThreshold: real := 60.0
  /** The typical amount the anomaly check compares against; three times it is unusual. */
  const TypicalAmount: real := 100.0
  /** A session shorter than 30 seconds is suspicious. */
  const ShortSession: int := 30000
  const BehavioralAnalysis := "behavioral_analysis"
  const PassiveBiometricsMethod := "passive_biometrics"

  /** The red flags the engine raises; each stands for the message text of the source. */
  datatype RedFlag =
    | TypingMismatch(matchPercent: int)
    | VeryShortSession
    | NoSearchBeforePurchase
    | MinimalBrowsing
    | UnusualAmount(amount: real)
    | PassiveMismatch(matchPercent: int)

  /** A partial risk: a score and the flags behind it. */
  datatype RiskScore = RiskScore(score: real, flags: seq<RedFlag>)

  datatype Breakdown = Breakdown(behavioral: real, passiveBio: real, session: real)

  datatype RiskAnalysis = RiskAnalysis(
    totalRisk: int,
    breakdown: Breakdown,
    redFlags: seq<RedFlag>,
    authMethodsUsed: seq<string>)

  /** Why `authorizePayment` throws. */
  datatype AuthorizationError =
    | BiometricVerificationFailed
    | BiometricUnavailable
    | SessionPatternUnreadable
    | KeyError(error: KeystoreError)

  datatype Authorization = Authorization(
    approved: bool,
    manifest: Manifest,
    riskAnalysis: RiskAnalysis,
    mfaTriggered: bool)

  // ---------------------------------------------------------------------------------------
  // Behavioural risk

  predicate TypingMismatched(similarity: Option<real>)
  {
    similarity.Some? && similarity.value < 50.0
  }

  predicate UnusualAmountFor(hasSavedPattern: bool, amount: real)
  {
    hasSavedPattern && amount > TypicalAmount * 3.0
  }

  /** One check of `analyzeBehavioralRisk` on the flags: pushed when the check fails. */
  function Raise(flags: seq<RedFlag>, fails: bool, f: RedFlag): seq<RedFlag>
  {
    if fails then flags + [f] else flags
  }

  /** `if (fails) { score += points; flags.push(flag) }`. */
  method RaiseFlag(flags: seq<RedFlag>, score: nat, fails: bool, points: nat, f: RedFlag)
    returns (flags': seq<RedFlag>, score': nat)
    ensures flags' == Raise(flags, fails, f)
    ensures score' == score + if fails then points else 0
  {
    flags', score' := flags, score;
    if fails {
      score' := score + points;
      flags' := flags + [f];
    }
  }

  /** The points of `analyzeBehavioralRisk` before the cap: 30 for a typing mismatch, 40 for a
      session under 30 seconds, 20 for no search, 25 for fewer than two pages and 30 for an
      amount over three times the typical one when a session pattern is saved. */
  function BehavioralPoints(similarity: Option<real>, s: SessionPattern, hasSavedPattern: bool, amount: real): nat
  {
    (if TypingMismatched(similarity) then 30 else 0)
    + (if s.timeOnSite < ShortSession then 40 else 0)
    + (if s.searchCount == 0 then 20 else 0)
    + (if s.pagesViewed < 2 then 25 else 0)
    + (if UnusualAmountFor(hasSavedPattern, amount) then 30 else 0)
  }

  /** The flags of `analyzeBehavioralRisk`, in the order they are raised: typing, session
      length, searches, browsing, amount. `similarity` is the keystroke similarity to the saved
      profile, absent when none is saved. */
  function BehavioralFlags(similarity: Option<real>, s: SessionPattern, hasSavedPattern: bool, amount: real): (r: seq<RedFlag>)
    ensures |r| <= 5
    ensures r == [] <==> BehavioralPoints(similarity, s, hasSavedPattern, amount) == 0
  {
    var typing := Raise([], TypingMismatched(similarity), TypingMismatch(if similarity.Some? then Round(similarity.value) else 0));
    var short := Raise(typing, s.timeOnSite < ShortSession, VeryShortSession);
    var search := Raise(short, s.searchCount == 0, NoSearchBeforePurchase);
    var browsing := Raise(search, s.pagesViewed < 2, MinimalBrowsing);
    Raise(browsing, UnusualAmountFor(hasSavedPattern, amount), UnusualAmount(amount))
  }

  /** Each behavioural flag is raised exactly when its check fails, and no other flag is. */
  lemma BehavioralFlagsRaised(similarity: Option<real>, s: SessionPattern, hasSavedPattern: bool, amount: real)
    ensures var flags := BehavioralFlags(similarity, s, hasSavedPattern, amount);
      && (similarity.Some? ==> (TypingMismatch(Round(similarity.value)) in flags <==> similarity.value < 50.0))
      && (VeryShortSession in flags <==> s.timeOnSite < ShortSession)
      && (NoSearchBeforePurchase in flags <==> s.searchCount == 0)
      && (MinimalBrowsing in flags <==> s.pagesViewed < 2)
      && (UnusualAmount(amount) in flags <==> hasSavedPattern && amount > 300.0)
      && (forall f :: f in flags ==> !f.PassiveMismatch? && (f.TypingMismatch? ==> similarity.Some?))
  {
  }

  /** The result of `analyzeBehavioralRisk`: the points of the failed checks capped at 100,
      zero exactly when no flag is raised. */
  function BehavioralRisk(similarity: Option<real>, s: SessionPattern, hasSavedPattern: bool, amount: real): (r: RiskScore)
    ensures 0.0 <= r.score <= 100.0
    ensures r.score == 0.0 <==> r.flags == []
    ensures r.flags == BehavioralFlags(similarity, s, hasSavedPattern, amount)
  {
    RiskScore(Min(100, BehavioralPoints(similarity, s, hasSavedPattern, amount)) as real,
              BehavioralFlags(similarity, s, hasSavedPattern, amount))
  }

  /** More browsing, more searching, a longer session or a smaller amount never raise the
      behavioural score. */
  lemma BehavioralRiskMonotone(similarity: Option<real>, s: SessionPattern, s': SessionPattern, hasSavedPattern: bool, amount: real, amount': real)
    requires s'.timeOnSite >= s.timeOnSite && s'.searchCount >= s.searchCount && s'.pagesViewed >= s.pagesViewed
    requires amount' <= amount
    ensures BehavioralRisk(similarity, s', hasSavedPattern, amount').score <= BehavioralRisk(similarity, s, hasSavedPattern, amount).score
  {
  }

  /** A session of at least 30 seconds with a search and two pages, typing like the saved
      profile (or none saved) and no unusual amount carries no behavioural risk; a session
      failing every check scores the full 100. */
  lemma BehavioralRiskExtremes(similarity: Option<real>, s: SessionPattern, hasSavedPattern: bool, amount: real)
    ensures !TypingMismatched(similarity) && !UnusualAmountFor(hasSavedPattern, amount)
      && s.timeOnSite >= ShortSession && s.searchCount > 0 && s.pagesViewed >= 2
      ==> BehavioralRisk(similarity, s, hasSavedPattern, amount) == RiskScore(0.0, [])
    ensures s.timeOnSite < ShortSession && s.searchCount == 0 && s.pagesViewed < 2
      && (TypingMismatched(similarity) || UnusualAmountFor(hasSavedPattern, amount))
      ==> BehavioralRisk(similarity, s, hasSavedPattern, amount).score == 100.0
  {
  }

  // ---------------------------------------------------------------------------------------
  // Passive risk and the total

  /** The result of `analyzePassiveBiometricRisk`, given the match score against the saved
      profile (absent when none is saved): a match below 50 is flagged and scores its shortfall
      from 100, capped at 100; anything else is no risk. */
  function PassiveRisk(matchScore: Option<real>): (r: RiskScore)
    ensures r.flags != [] <==> matchScore.Some? && matchScore.value < 50.0
    ensures r.flags != [] ==> r.flags == [PassiveMismatch(Round(matchScore.value))] && 50.0 < r.score <= 100.0
    ensures r.flags != [] && matchScore.value >= 0.0 ==> r.score == 100.0 - matchScore.value
    ensures r.flags == [] ==> r.score == 0.0
  {
    if matchScore.Some? && matchScore.value < 50.0 then
      var score := 100.0 - matchScore.value;
      RiskScore(if score > 100.0 then 100.0 else score, [PassiveMismatch(Round(matchScore.value))])
    else RiskScore(0.0, [])
  }

  /** `calculateTotalRisk`: 60% behavioural and 40% passive, rounded; the flags of both in
      order; passive biometrics are listed as used only when they scored. With both scores
      between 0 and 100 the total is too. */
  function CalculateTotalRisk(behavioral: RiskScore, passive: RiskScore): (r: RiskAnalysis)
    ensures behavioral.score * 0.6 + passive.score * 0.4 - 0.5 < r.totalRisk as real <= behavioral.score * 0.6 + passive.score * 0.4 + 0.5
    ensures 0.0 <= behavioral.score <= 100.0 && 0.0 <= passive.score <= 100.0 ==> 0 <= r.totalRisk <= 100
    ensures r.breakdown == Breakdown(behavioral.score, passive.score, behavioral.score)
    ensures r.redFlags == behavioral.flags + passive.flags
    ensures |r.authMethodsUsed| >= 1 && r.authMethodsUsed[0] == BehavioralAnalysis
    ensures PassiveBiometricsMethod in r.authMethodsUsed <==> passive.score > 0.0
  {
    RiskAnalysis(
      Round(behavioral.score * 0.6 + passive.score * 0.4),
      Breakdown(behavioral.score, passive.score, behavioral.score),
      behavioral.flags + passive.flags,
      [BehavioralAnalysis] + if passive.score > 0.0 then [PassiveBiometricsMethod] else [])
  }

  /** A higher behavioural or passive score never lowers the total. */
  lemma TotalRiskMonotone(b: RiskScore, p: RiskScore, b': RiskScore, p': RiskScore)
    requires b.score <= b'.score && p.score <= p'.score
    ensures CalculateTotalRisk(b, p).totalRisk <= CalculateTotalRisk(b', p').totalRisk
  {
    var x := b.score * 0.6 + p.score * 0.4;
    var y := b'.score * 0.6 + p'.score * 0.4;
    assert x <= y;
  }

  /** Passive biometrics alone cannot reach the default threshold: a total of 60 or more needs
      a behavioural score above 32. */
  lemma PassiveAloneNeverStepsUp(b: RiskScore, p: RiskScore)
    requires 0.0 <= p.score <= 100.0
    requires CalculateTotalRisk(b, p).totalRisk as real >= DefaultThreshold
    ensures b.score > 32.0
  {
  }

  /** A behavioural score of 100 reaches the default threshold whatever the passive score. */
  lemma FullBehavioralRiskStepsUp(b: RiskScore, p: RiskScore)
    requires b.score == 100.0 && p.score >= 0.0
    ensures CalculateTotalRisk(b, p).totalRisk as real >= DefaultThreshold
  {
  }

  // ---------------------------------------------------------------------------------------
  // Step-up authentication

  /** `params.riskThreshold || 60`: a missing or zero threshold means 60. */
  function Threshold(riskThreshold: Option<real>): (r: real)
    ensures riskThreshold.Some? && riskThreshold.value != 0.0 ==> r == riskThreshold.value
    ensures riskThreshold.None? || riskThreshold.value == 0.0 ==> r == DefaultThreshold
  {
    if riskThreshold.Some? && riskThreshold.value != 0.0 then riskThreshold.value else DefaultThreshold
  }

  /** Step 4 of `authorizePayment`: below the threshold no active biometric is asked for; at
      or above it the biometric must be available and verify, or the selfie fallback must
      verify, or the authorisation throws. */
  function StepUp(totalRisk: int, threshold: real, hw: BiometricHardware, auth: AuthResult, camera: CameraPermission)
    : (r: Result<Option<ActiveBiometric>, AuthorizationError>)
    ensures r == Ok(None) <==> (totalRisk as real) < threshold
    ensures (totalRisk as real) >= threshold && !IsBiometricAvailable(hw) ==> r == Err(BiometricUnavailable)
    ensures (totalRisk as real) >= threshold && IsBiometricAvailable(hw) && r.Err? ==> r == Err(BiometricVerificationFailed)
    ensures (totalRisk as real) >= threshold ==> (r.Ok? <==> IsBiometricAvailable(hw) && auth.success && NoError(auth.error))
    ensures r.Ok? && r.value.Some? ==> r.value.value == VerifyBiometric(hw, auth) && r.value.value.verified
  {
    if (totalRisk as real) < threshold then Ok(None)
    else if !IsBiometricAvailable(hw) then Err(BiometricUnavailable)
    else
      var biometric := VerifyBiometric(hw, auth);
      if biometric.verified then Ok(Some(biometric))
      else
        var selfie := VerifySelfie(camera);
        if selfie.verified then Ok(Some(ActiveBiometric(Selfie, true, selfie.confidence)))
        else Err(BiometricVerificationFailed)
  }

  /** The selfie fallback never rescues a failed biometric: at or above the threshold only a
      verified Face ID or Touch ID lets the payment through. */
  lemma SelfieNeverApproves(totalRisk: int, threshold: real, hw: BiometricHardware, auth: AuthResult, camera: CameraPermission)
    requires (totalRisk as real) >= threshold
    requires !VerifyBiometric(hw, auth).verified
    ensures StepUp(totalRisk, threshold, hw, auth, camera).Err?
  {
  }

  /** Step 4 of `authorizePayment` as the source performs it. */
  method StepUpAuthentication(totalRisk: int, threshold: real, hw: BiometricHardware, auth: AuthResult, camera: CameraPermission)
    returns (r: Result<Option<ActiveBiometric>, AuthorizationError>)
    ensures r == StepUp(totalRisk, threshold, hw, auth, camera)
  {
    var activeBiometric: Option<ActiveBiometric> := None;
    if totalRisk as real >= threshold {
      if IsBiometricAvailable(hw) {
        var biometric := VerifyBiometric(hw, auth);
        activeBiometric := Some(biometric);
        if !biometric.verified {
          var selfie := VerifySelfie(camera);
          if selfie.verified {
            activeBiometric := Some(ActiveBiometric(Selfie, true, selfie.confidence));
          } else {
            return Err(BiometricVerificationFailed);
          }
        }
      } else {
        return Err(BiometricUnavailable);
      }
    }
    r := Ok(activeBiometric);
  }

  // ---------------------------------------------------------------------------------------
  // The engine

  class RiskEngine {
    const keystroke: KeystrokeTracker
    const session: SessionTracker
    const passive: PassiveBiometricAnalyzer
    /** The 'keystroke_profile' entry of AsyncStorage. */
    const keystrokeStore: StoredValue<KeystrokeProfile>

    /** An engine with three new trackers, the session starting at `now`. */
    constructor (p: Primitives, now: int, keystrokeStore: StoredValue<KeystrokeProfile>,
                 sessionStore: StoredValue<SessionPattern>, passiveStore: StoredValue<PassiveBiometrics>)
      ensures fresh(keystroke) && fresh(session) && fresh(passive)
      ensures this.keystrokeStore == keystrokeStore
      ensures session.store == sessionStore && session.sessionStart == now
      ensures passive.store == passiveStore && passive.p == p && passive.Valid()
      ensures keystroke.keyDownTimes == map[] && keystroke.dwellTimes == [] && keystroke.flightTimes == []
      ensures keystroke.lastKeyTime == 0 && keystroke.corrections == 0
      ensures session.pagesViewed == 0 && session.searchCount == 0 && session.cartMods == 0
      ensures passive.motionData == [] && passive.touchEvents == [] && passive.motionHistory == []
    {
      keystroke := new KeystrokeTracker();
      session := new SessionTracker(now, sessionStore);
      passive := new PassiveBiometricAnalyzer(p, passiveStore);
      this.keystrokeStore := keystrokeStore;
    }

    /** `loadSavedKeystrokeProfile`: the stored profile; unreadable text reads as none. */
    function LoadSavedKeystrokeProfile(): (r: Option<KeystrokeProfile>)
      reads this, keystrokeStore
      ensures r.Some? <==> keystrokeStore.content.Saved?
    {
      ParseOrNull(keystrokeStore.content)
    }

    /** The typing similarity to the saved profile, absent when none is saved. */
    function KeystrokeSimilarity(): (r: Option<real>)
      reads this, keystroke, keystrokeStore
      ensures r.Some? <==> keystrokeStore.content.Saved?
      ensures r.Some? ==> 0.0 <= r.value <= 100.0
    {
      match LoadSavedKeystrokeProfile()
      case None => None
      case Some(saved) => Some(keystroke.CompareToProfile(saved))
    }

    /** The passive match score against the saved profile, absent when none is saved. */
    function PassiveMatch(): (r: Option<real>)
      reads this, passive, passive.store
      ensures r.Some? <==> passive.store.content.Saved?
      ensures r.Some? ==> 0.0 <= r.value <= 100.0
    {
      match passive.LoadSavedProfile()
      case None => None
      case Some(saved) => Some(MatchScore(saved, passive.Analysis()))
    }

    /** `analyzeBehavioralRisk` for a payment of `amount` at `now`; an unreadable saved
        session pattern makes it throw. */
    method AnalyzeBehavioralRisk(amount: real, now: int) returns (r: Result<RiskScore, AuthorizationError>)
      ensures r.Err? <==> session.store.content.Unreadable?
      ensures r.Err? ==> r.error == SessionPatternUnreadable
      ensures r.Ok? ==> r.value == BehavioralRisk(KeystrokeSimilarity(), session.Pattern(now), session.store.content.Saved?, amount)
    {
      var similarity: Option<real> := None;
      var savedKeystroke := LoadSavedKeystrokeProfile();
      if savedKeystroke.Some? {
        var s := keystroke.CompareToProfile(savedKeystroke.value);
        similarity := Some(s);
      }
      var flags, score := RaiseFlag([], 0, TypingMismatched(similarity), 30,
                                    TypingMismatch(if similarity.Some? then Round(similarity.value) else 0));
      var pattern := session.Pattern(now);
      flags, score := RaiseFlag(flags, score, pattern.timeOnSite < ShortSession, 40, VeryShortSession);
      flags, score := RaiseFlag(flags, score, pattern.searchCount == 0, 20, NoSearchBeforePurchase);
      flags, score := RaiseFlag(flags, score, pattern.pagesViewed < 2, 25, MinimalBrowsing);
      var savedPattern := session.LoadSavedPattern();
      if savedPattern.Err? {
        return Err(SessionPatternUnreadable);
      }
      flags, score := RaiseFlag(flags, score, UnusualAmountFor(savedPattern.value.Some?, amount), 30, UnusualAmount(amount));
      assert similarity == KeystrokeSimilarity();
      assert flags == BehavioralFlags(similarity, pattern, savedPattern.value.Some?, amount);
      assert RiskScore(Min(100, score) as real, flags) == BehavioralRisk(similarity, pattern, savedPattern.value.Some?, amount);
      r := Ok(RiskScore(Min(100, score) as real, flags));
    }

    /** `analyzePassiveBiometricRisk`. */
    method AnalyzePassiveBiometricRisk() returns (r: RiskScore)
      ensures r == PassiveRisk(PassiveMatch())
    {
      var flags: seq<RedFlag> := [];
      var score := 0.0;
      var savedProfile := passive.LoadSavedProfile();
      if savedProfile.Some? {
        var matchScore := passive.MatchesProfile(savedProfile.value);
        if matchScore < 50.0 {
          score := 100.0 - matchScore;
          flags := flags + [PassiveMismatch(Round(matchScore))];
        }
      }
      r := RiskScore(if score > 100.0 then 100.0 else score, flags);
    }

    /** The risk analysis of steps 1 to 3 for a payment of `amount` at `now`. */
    function RiskAt(amount: real, now: int): (r: RiskAnalysis)
      reads this, keystroke, keystrokeStore, session, session.store, passive, passive.store
      ensures 0 <= r.totalRisk <= 100
    {
      CalculateTotalRisk(
        BehavioralRisk(KeystrokeSimilarity(), session.Pattern(now), session.store.content.Saved?, amount),
        PassiveRisk(PassiveMatch()))
    }

    /** `authorizePayment` at `now`: `auth` is the outcome of the biometric prompt, `camera`
        the answer to the selfie's permission request, and `privateKey` and `suffix` the random
        inputs of a key pair or device id the keystore may have to create. An unreadable saved
        session pattern or a failed step up throws. An authorisation is always approved; its
        risk analysis is that of the trackers and saved profiles; the step up is triggered
        exactly at or above the threshold; the manifest records the payment, the risk, the
        current profiles and the active biometric. With a consistent keystore the manifest
        verifies at `now`. */
    method AuthorizePayment(
      amount: real, merchant: string, orderId: string, riskThreshold: Option<real>,
      ks: KeystoreService, auth: AuthResult, camera: CameraPermission,
      privateKey: Bytes, now: int, suffix: string)
      returns (r: Result<Authorization, AuthorizationError>)
      requires |privateKey| == 32
      modifies ks
      ensures session.store.content.Unreadable? ==> r == Err(SessionPatternUnreadable)
      ensures (!session.store.content.Unreadable? &&
               StepUp(RiskAt(amount, now).totalRisk, Threshold(riskThreshold), ks.hardware, auth, camera).Err?) ==>
        r == Err(StepUp(RiskAt(amount, now).totalRisk, Threshold(riskThreshold), ks.hardware, auth, camera).error)
      ensures r.Ok? ==>
        && r.value.approved
        && r.value.riskAnalysis == RiskAt(amount, now)
        && (r.value.mfaTriggered <==> r.value.riskAnalysis.totalRisk as real >= Threshold(riskThreshold))
        && Ok(r.value.manifest.claim.activeBiometric)
           == StepUp(r.value.riskAnalysis.totalRisk, Threshold(riskThreshold), ks.hardware, auth, camera)
        && r.value.manifest.claim.payment == Payment(amount, Currency, merchant, orderId)
        && r.value.manifest.claim.behavioral
           == BehavioralEvidence(r.value.riskAnalysis.totalRisk, keystroke.Profile(), session.Pattern(now))
        && r.value.manifest.claim.passiveBiometrics == passive.Analysis()
      ensures (&& !session.store.content.Unreadable?
               && StepUp(RiskAt(amount, now).totalRisk, Threshold(riskThreshold), ks.hardware, auth, camera).Ok?
               && old(ks.PublicKey().None? || KeysMatch(ks.p, ks.secure))
               && Sound(ks.p)) ==>
        r.Ok? && VerifyManifest(ks.p, r.value.manifest, now).valid
      ensures r.Err? && !r.error.KeyError? ==> unchanged(ks)
      ensures r.Ok? || r.error.KeyError? ==> ks.secure == ks.KeyedStore(old(ks.secure), privateKey, now, suffix)
    {
      var threshold := Threshold(riskThreshold);
      ghost var risk := RiskAt(amount, now);
      ghost var step := StepUp(risk.totalRisk, threshold, ks.hardware, auth, camera);
      var assessed := Assess(amount, now, threshold, ks.hardware, auth, camera);
      if assessed.Err? {
        return Err(assessed.error);
      }
      assert assessed.value.0 == risk && Ok(assessed.value.1) == step;
      r := Approve(amount, merchant, orderId, threshold, assessed.value.0, assessed.value.1, ks, privateKey, now, suffix);
    }

    /** Steps 5 and 6 of `authorizePayment`: the manifest of an assessed payment, signed with
        the device key, and the approved authorisation that carries it. Only the keystore can
        make it fail. */
    method Approve(
      amount: real, merchant: string, orderId: string, threshold: real,
      risk: RiskAnalysis, activeBiometric: Option<ActiveBiometric>,
      ks: KeystoreService, privateKey: Bytes, now: int, suffix: string)
      returns (r: Result<Authorization, AuthorizationError>)
      requires |privateKey| == 32
      modifies ks
      ensures r.Err? ==> r.error.KeyError?
      ensures r.Ok? ==>
        && r.value.approved
        && r.value.riskAnalysis == risk
        && (r.value.mfaTriggered <==> risk.totalRisk as real >= threshold)
        && r.value.manifest.claim.activeBiometric == activeBiometric
        && r.value.manifest.claim.payment == Payment(amount, Currency, merchant, orderId)
        && r.value.manifest.claim.behavioral == BehavioralEvidence(risk.totalRisk, keystroke.Profile(), session.Pattern(now))
        && r.value.manifest.claim.passiveBiometrics == passive.Analysis()
      ensures old(ks.PublicKey().None? || KeysMatch(ks.p, ks.secure)) && Sound(ks.p) ==>
        r.Ok? && VerifyManifest(ks.p, r.value.manifest, now).valid
      ensures ks.secure == ks.KeyedStore(old(ks.secure), privateKey, now, suffix)
    {
      var mfaTriggered := risk.totalRisk as real >= threshold;
      var evidence := BehavioralEvidence(risk.totalRisk, keystroke.Profile(), session.Pattern(now));
      var manifest := CreateManifest(ks, amount, merchant, orderId, evidence, passive.Analysis(),
                                     activeBiometric, privateKey, now, suffix);
      if manifest.Err? {
        return Err(KeyError(manifest.error));
      }
      r := Ok(Authorization(true, manifest.value, risk, mfaTriggered));
    }

    /** Steps 1 to 4 of `authorizePayment`: the risk analysis, then the step up it calls for.
        An unreadable saved session pattern or a failed step up throws; otherwise the result is
        the risk analysis and the active biometric the step up produced. */
    method Assess(amount: real, now: int, threshold: real, hw: BiometricHardware, auth: AuthResult, camera: CameraPermission)
      returns (r: Result<(RiskAnalysis, Option<ActiveBiometric>), AuthorizationError>)
      ensures session.store.content.Unreadable? ==> r == Err(SessionPatternUnreadable)
      ensures !session.store.content.Unreadable? ==>
        (r.Err? <==> StepUp(RiskAt(amount, now).totalRisk, threshold, hw, auth, camera).Err?)
      ensures !session.store.content.Unreadable? && r.Err? ==>
        r == Err(StepUp(RiskAt(amount, now).totalRisk, threshold, hw, auth, camera).error)
      ensures r.Ok? ==>
        r.value.0 == RiskAt(amount, now) && Ok(r.value.1) == StepUp(r.value.0.totalRisk, threshold, hw, auth, camera)
      ensures r.Err? ==> !r.error.KeyError?
    {
      var behavioral := AnalyzeBehavioralRisk(amount, now);
      if behavioral.Err? {
        return Err(behavioral.error);
      }
      var passiveRisk := AnalyzePassiveBiometricRisk();
      var totalRisk := CalculateTotalRisk(behavioral.value, passiveRisk);
      assert totalRisk == RiskAt(amount, now);
      var activeBiometric := StepUpAuthentication(totalRisk.totalRisk, threshold, hw, auth, camera);
      if activeBiometric.Err? {
        return Err(activeBiometric.error);
      }
      r := Ok((totalRisk, activeBiometric.value));
    }

    /** `saveProfiles` at `now`: the current keystroke profile, passive summary and session
        pattern are stored, and each reads back as what was saved. */
    method SaveProfiles(now: int)
      modifies keystrokeStore, passive.store, session.store
      ensures keystrokeStore.content == Saved(keystroke.Profile())
      ensures LoadSavedKeystrokeProfile() == Some(keystroke.Profile())
      ensures passive.LoadSavedProfile() == Some(passive.Analysis())
      ensures session.LoadSavedPattern() == Ok(Some(session.Pattern(now)))
    {
      var keystrokeProfile := keystroke.Profile();
      var passiveProfile := passive.Analysis();
      keystrokeStore.SetItem(keystrokeProfile);
      passive.SaveProfile(passiveProfile);
      session.SavePattern(now);
    }
  }
}
