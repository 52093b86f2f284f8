/** The passive-biometric analyzer (src/biometrics/passive-biometrics.ts): device-motion
    readings (the last 50 kept) and touch events are summarised as tilt angles, a shake
    frequency and average touch pressure, tap duration and finger size, and a summary is scored
    against a saved one. The floating-point `Math.sqrt` and `Math.atan2` come from `Primitives`;
    the clock reading is a parameter. */
module Passive {
  import opened Common
  import opened Platform
  import opened Types
  import opened Storage

  const PassiveProfileKey := "passive_bio_profile"
  /** The analyzer keeps the most recent 50 motion readings. */
  const MotionWindow: nat := 50
  /** The tilt pattern is taken over the most recent 10 readings. */
  const TiltWindow: nat := 10
  /** A reading counts as a shake when its acceleration magnitude exceeds this. */
  const ShakeThreshold: real := 0.5

  datatype Acceleration = Acceleration(x: real, y: real, z: real)

  /** A device-motion reading; `acceleration` may be absent (`acceleration?.x`). */
  datatype MotionSample = MotionSample(acceleration: Option<Acceleration>, timestamp: int)

  /** One entry of a touch event's `touches`; an absent reading is `undefined`. */
  datatype Touch = Touch(force: Option<real>, radiusX: Option<real>, radiusY: Option<real>)

  /** A recorded touch. The listener records only touches of type 'start', so the type is
      implicit; `duration` is set by a later touch end. */
  datatype TouchEvent = TouchEvent(force: real, radiusX: real, radiusY: real, timestamp: int, duration: Option<int>)

  /** `value || 0` for a number that may be undefined. */
  function OrZero(x: Option<real>): real
  {
    if x.Some? then x.value else 0.0
  }

  function StartEvent(t: Touch, now: int): TouchEvent
  {
    TouchEvent(OrZero(t.force), OrZero(t.radiusX), OrZero(t.radiusY), now, None)
  }

  /** The events one touch start records, one per touch point, in order. */
  function StartEvents(touches: seq<Touch>, now: int): (r: seq<TouchEvent>)
    ensures |r| == |touches|
    ensures forall i :: 0 <= i < |touches| ==> r[i] == StartEvent(touches[i], now) && r[i].duration.None?
  {
    seq(|touches|, i requires 0 <= i < |touches| => StartEvent(touches[i], now))
  }

  /** The acceleration components, each 0 when the reading has none. */
  function Components(m: MotionSample): (real, real, real)
  {
    if m.acceleration.Some? then (m.acceleration.value.x, m.acceleration.value.y, m.acceleration.value.z)
    else (0.0, 0.0, 0.0)
  }

  function TiltAngle(p: Primitives, m: MotionSample): real
  {
    var (x, y, _) := Components(m);
    p.atan2(y, x)
  }

  /** `calculateTiltPattern`: the tilt angle of each of the last ten readings, oldest first. */
  function TiltPattern(p: Primitives, motion: seq<MotionSample>): (r: seq<real>)
    ensures |r| == Min(|motion|, TiltWindow)
    ensures forall i :: 0 <= i < |r| ==> r[i] == TiltAngle(p, motion[|motion| - |r| + i])
  {
    var recent := LastN(motion, TiltWindow);
    seq(|recent|, i requires 0 <= i < |recent| => TiltAngle(p, recent[i]))
  }

  predicate IsShake(p: Primitives, m: MotionSample)
  {
    var (x, y, z) := Components(m);
    p.sqrt(x * x + y * y + z * z) > ShakeThreshold
  }

  /** The readings whose acceleration magnitude exceeds the shake threshold, in order. */
  function Shakes(p: Primitives, motion: seq<MotionSample>): (r: seq<MotionSample>)
    ensures |r| <= |motion|
    ensures forall i :: 0 <= i < |r| ==> IsShake(p, r[i])
    ensures (forall i :: 0 <= i < |motion| ==> !IsShake(p, motion[i])) ==> r == []
    ensures (forall i :: 0 <= i < |motion| ==> IsShake(p, motion[i])) ==> r == motion
  {
    var isShake := m => IsShake(p, m);
    FilterExtremes(motion, isShake);
    Filter(motion, isShake)
  }

  /** `calculateShakeFrequency`: the fraction of the kept readings that are shakes. */
  function ShakeFrequency(p: Primitives, motion: seq<MotionSample>): (r: real)
    ensures 0.0 <= r <= 1.0
    ensures motion == [] ==> r == 0.0
    ensures motion != [] ==> r == |Shakes(p, motion)| as real / |motion| as real
    ensures (forall i :: 0 <= i < |motion| ==> !IsShake(p, motion[i])) ==> r == 0.0
    ensures motion != [] && (forall i :: 0 <= i < |motion| ==> IsShake(p, motion[i])) ==> r == 1.0
  {
    var shakes := Shakes(p, motion);
    if |motion| > 0 then
      Fraction(|shakes|, |motion|);
      |shakes| as real / |motion| as real
    else 0.0
  }

  function Forces(events: seq<TouchEvent>): (r: seq<real>)
    ensures |r| == |events|
  {
    seq(|events|, i requires 0 <= i < |events| => events[i].force)
  }

  /** `averageTouchPressure`. */
  function AverageTouchPressure(events: seq<TouchEvent>): (r: real)
    ensures events == [] ==> r == 0.0
    ensures (forall i :: 0 <= i < |events| ==> events[i].force >= 0.0) ==> r >= 0.0
    ensures events != [] ==> r == Sum(Forces(events)) / |events| as real
  {
    Mean(Forces(events))
  }

  /** A recorded duration that is truthy: present and non-zero. */
  predicate HasDuration(t: TouchEvent)
  {
    t.duration.Some? && t.duration.value != 0
  }

  function Durations(events: seq<TouchEvent>): (r: seq<int>)
    requires forall i :: 0 <= i < |events| ==> events[i].duration.Some?
    ensures |r| == |events|
  {
    seq(|events|, i requires 0 <= i < |events| => events[i].duration.value)
  }

  /** The durations of the touches whose duration is truthy, in order. */
  function TapDurations(events: seq<TouchEvent>): (r: seq<real>)
    ensures |r| == |Filter(events, HasDuration)|
  {
    var tapped := Filter(events, HasDuration);
    Reals(Durations(tapped))
  }

  /** `averageTapDuration`: the mean over the touches whose duration is truthy. */
  function AverageTapDuration(events: seq<TouchEvent>): (r: real)
    ensures (forall i :: 0 <= i < |events| ==> !HasDuration(events[i])) ==> r == 0.0
    ensures Filter(events, HasDuration) == [] ==> r == 0.0
    ensures Filter(events, HasDuration) != [] ==>
      r == Sum(TapDurations(events)) / |Filter(events, HasDuration)| as real
  {
    FilterExtremes(events, HasDuration);
    Mean(TapDurations(events))
  }

  function FingerSizes(p: Primitives, events: seq<TouchEvent>): (r: seq<real>)
    ensures |r| == |events|
  {
    seq(|events|, i requires 0 <= i < |events| => p.sqrt(events[i].radiusX * events[i].radiusY))
  }

  /** `averageFingerSize`: the mean of sqrt(radiusX * radiusY). */
  function AverageFingerSize(p: Primitives, events: seq<TouchEvent>): (r: real)
    ensures events == [] ==> r == 0.0
    ensures events != [] ==> r == Sum(FingerSizes(p, events)) / |events| as real
  {
    Mean(FingerSizes(p, events))
  }

  /** `analyzePassiveBiometrics` over the kept readings and the recorded touches. */
  function Analyze(p: Primitives, motion: seq<MotionSample>, touches: seq<TouchEvent>): (r: PassiveBiometrics)
    ensures |r.deviceMotion.tiltPattern| == Min(|motion|, TiltWindow)
    ensures 0.0 <= r.deviceMotion.shakeFrequency <= 1.0
    ensures motion == [] ==> r.deviceMotion == DeviceMotion([], 0.0)
    ensures touches == [] ==> r.touchDynamics == TouchDynamics(0.0, 0.0, 0.0)
  {
    PassiveBiometrics(
      DeviceMotion(TiltPattern(p, motion), ShakeFrequency(p, motion)),
      TouchDynamics(AverageTouchPressure(touches), AverageTapDuration(touches), AverageFingerSize(p, touches)))
  }

  /** The absolute differences of two tilt patterns over their common length. */
  function TiltDiffs(saved: seq<real>, current: seq<real>): (r: seq<real>)
    ensures |r| == Min(|saved|, |current|)
    ensures forall i :: 0 <= i < |r| ==> r[i] == Abs(saved[i] - current[i]) && r[i] >= 0.0
  {
    var len := Min(|saved|, |current|);
    seq(len, i requires 0 <= i < len => Abs(saved[i] - current[i]))
  }

  /** The mean absolute difference over the common length, 0 when either pattern is empty. */
  function TiltDistance(saved: seq<real>, current: seq<real>): (r: real)
    ensures r >= 0.0
    ensures saved == current ==> r == 0.0
  {
    var diffs := TiltDiffs(saved, current);
    SumNonNegative(diffs);
    TiltDiffsOfSame(saved, current);
    if |saved| == 0 || |current| == 0 then 0.0 else Sum(diffs) / |diffs| as real
  }

  lemma TiltDiffsOfSame(saved: seq<real>, current: seq<real>)
    ensures saved == current ==> Sum(TiltDiffs(saved, current)) == 0.0
  {
    if saved == current {
      SumZero(TiltDiffs(saved, current));
    }
  }

  /** `compareTiltPatterns`: the loop summing the differences. */
  method CompareTiltPatterns(saved: seq<real>, current: seq<real>) returns (r: real)
    ensures r == TiltDistance(saved, current)
  {
    if |saved| == 0 || |current| == 0 {
      return 0.0;
    }
    var totalDiff := 0.0;
    var len := Min(|saved|, |current|);
    ghost var diffs := TiltDiffs(saved, current);
    for i := 0 to len
      invariant totalDiff == Sum(diffs[..i])
    {
      SumAppend(diffs[..i], diffs[i]);
      assert diffs[..i + 1] == diffs[..i] + [diffs[i]];
      totalDiff := totalDiff + Abs(saved[i] - current[i]);
    }
    assert diffs[..len] == diffs;
    r := totalDiff / len as real;
  }

  /** What the score loses: 30 per unit of tilt distance, 20 per unit of shake-frequency
      difference, 2500 per unit of pressure difference and 25 per unit of finger-size
      difference. The tap duration is not compared. */
  function MatchPenalty(saved: PassiveBiometrics, current: PassiveBiometrics): (r: real)
    ensures r >= 0.0
  {
    TiltDistance(saved.deviceMotion.tiltPattern, current.deviceMotion.tiltPattern) * 30.0
    + Abs(saved.deviceMotion.shakeFrequency - current.deviceMotion.shakeFrequency) * 20.0
    + Abs(saved.touchDynamics.pressureAverage - current.touchDynamics.pressureAverage) * 100.0 * 25.0
    + Abs(saved.touchDynamics.fingerSize - current.touchDynamics.fingerSize) * 25.0
  }

  /** `matchesProfile`: 100 less the penalty, clamped to [0, 100]. It is 100 exactly when the
      tilt patterns agree over their common length and shake frequency, pressure and finger
      size are equal; in particular a summary matches itself fully. */
  function MatchScore(saved: PassiveBiometrics, current: PassiveBiometrics): (r: real)
    ensures 0.0 <= r <= 100.0
    ensures r == 100.0 <==>
      && TiltDistance(saved.deviceMotion.tiltPattern, current.deviceMotion.tiltPattern) == 0.0
      && saved.deviceMotion.shakeFrequency == current.deviceMotion.shakeFrequency
      && saved.touchDynamics.pressureAverage == current.touchDynamics.pressureAverage
      && saved.touchDynamics.fingerSize == current.touchDynamics.fingerSize
    ensures saved == current ==> r == 100.0
  {
    Clamp(100.0 - MatchPenalty(saved, current), 0.0, 100.0)
  }

  class PassiveBiometricAnalyzer {
    const p: Primitives
    /** The 'passive_bio_profile' entry of AsyncStorage. */
    const store: StoredValue<PassiveBiometrics>
    var motionData: seq<MotionSample>
    var touchEvents: seq<TouchEvent>
    /** Every motion reading received, oldest first. */
    ghost var motionHistory: seq<MotionSample>

    /** The kept readings are the last 50 received. */
    ghost predicate Valid()
      reads this
    {
      motionData == LastN(motionHistory, MotionWindow)
    }

    constructor (p: Primitives, store: StoredValue<PassiveBiometrics>)
      ensures Valid()
      ensures this.p == p && this.store == store
      ensures motionData == [] && touchEvents == [] && motionHistory == []
    {
      this.p := p;
      this.store := store;
      motionData := [];
      touchEvents := [];
      motionHistory := [];
    }

    /** The device-motion listener: append the reading, then drop the oldest beyond 50. */
    method OnMotion(acceleration: Option<Acceleration>, now: int)
      requires Valid()
      modifies this
      ensures Valid()
      ensures motionHistory == old(motionHistory) + [MotionSample(acceleration, now)]
      ensures motionData == LastN(old(motionData) + [MotionSample(acceleration, now)], MotionWindow)
      ensures |motionData| <= MotionWindow
      ensures touchEvents == old(touchEvents)
    {
      var sample := MotionSample(acceleration, now);
      motionData := motionData + [sample];
      if |motionData| > MotionWindow {
        motionData := motionData[1..];
      }
      LastNAppend(motionHistory, sample, MotionWindow);
      motionHistory := motionHistory + [sample];
    }

    /** The touch-start listener: one 'start' event per touch point. */
    method OnTouchStart(touches: seq<Touch>, now: int)
      modifies this
      ensures touchEvents == old(touchEvents) + StartEvents(touches, now)
      ensures motionData == old(motionData) && motionHistory == old(motionHistory)
      ensures old(Valid()) ==> Valid()
    {
      for i := 0 to |touches|
        invariant touchEvents == old(touchEvents) + StartEvents(touches[..i], now)
        invariant motionData == old(motionData) && motionHistory == old(motionHistory)
      {
        assert StartEvents(touches[..i + 1], now) == StartEvents(touches[..i], now) + [StartEvent(touches[i], now)];
        touchEvents := touchEvents + [StartEvent(touches[i], now)];
      }
      assert touches[..|touches|] == touches;
    }

    /** The touch-end listener: the last recorded touch gets its duration. */
    method OnTouchEnd(now: int)
      modifies this
      ensures old(touchEvents) == [] ==> touchEvents == []
      ensures old(touchEvents) != [] ==>
        var last := old(touchEvents)[|old(touchEvents)| - 1];
        touchEvents == old(touchEvents)[..|old(touchEvents)| - 1] + [last.(duration := Some(now - last.timestamp))]
      ensures motionData == old(motionData) && motionHistory == old(motionHistory)
      ensures old(Valid()) ==> Valid()
    {
      if |touchEvents| > 0 {
        var last := touchEvents[|touchEvents| - 1];
        touchEvents := touchEvents[..|touchEvents| - 1] + [last.(duration := Some(now - last.timestamp))];
      }
    }

    /** `analyzePassiveBiometrics`. */
    function Analysis(): PassiveBiometrics
      reads this
    {
      Analyze(p, motionData, touchEvents)
    }

    /** `matchesProfile` against a saved summary. */
    method MatchesProfile(saved: PassiveBiometrics) returns (score: real)
      ensures score == MatchScore(saved, Analysis())
      ensures 0.0 <= score <= 100.0
    {
      var current := Analysis();
      var tiltDiff := CompareTiltPatterns(saved.deviceMotion.tiltPattern, current.deviceMotion.tiltPattern);
      score := 100.0;
      score := score - tiltDiff * 30.0;
      score := score - Abs(saved.deviceMotion.shakeFrequency - current.deviceMotion.shakeFrequency) * 20.0;
      score := score - Abs(saved.touchDynamics.pressureAverage - current.touchDynamics.pressureAverage) * 100.0 * 25.0;
      score := score - Abs(saved.touchDynamics.fingerSize - current.touchDynamics.fingerSize) * 25.0;
      score := Clamp(score, 0.0, 100.0);
    }

    /** `loadSavedProfile`: the stored summary; unreadable text reads as none. */
    function LoadSavedProfile(): (r: Option<PassiveBiometrics>)
      reads this, store
      ensures r.Some? <==> store.content.Saved?
    {
      ParseOrNull(store.content)
    }

    /** `saveProfile`: the summary is stored and reads back unchanged. */
    method SaveProfile(profile: PassiveBiometrics)
      modifies store
      ensures store.content == Saved(profile)
      ensures LoadSavedProfile() == Some(profile)
    {
      store.SetItem(profile);
    }
  }
}
