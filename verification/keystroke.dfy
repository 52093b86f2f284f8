/** The typing-rhythm profiler (src/analytics/keystroke-tracker.ts): key-down and key-up
    events, with the clock reading passed in for `Date.now()`, feed dwell times (how long a
    key is held) and flight times (the gap between consecutive key-downs); a profile
    summarises them and is compared with a saved one. */
module Keystroke {
  import opened Common
  import opened Types

  /** How many of the most recent flight times a profile keeps as its rhythm. */
  const RhythmLength: nat := 10

  predicate IsCorrectionKey(key: string)
  {
    key == "Backspace" || key == "Delete"
  }

  /** `average`: the arithmetic mean of the list, 0 for an empty list. */
  function Average(xs: seq<int>): (r: real)
    ensures xs == [] ==> r == 0.0
    ensures xs != [] ==> r * |xs| as real == Sum(Reals(xs))
    ensures (forall i :: 0 <= i < |xs| ==> xs[i] >= 0) ==> r >= 0.0
  {
    Mean(Reals(xs))
  }

  /** A JavaScript number, where the reals are not enough: a quotient by zero. */
  datatype JsNumber = Finite(value: real) | PositiveInfinity | NaN

  /** `(corrections / flightCount) * 100 || 0` evaluated as JavaScript does: with no flight
      times the quotient is NaN when there are no corrections (and `|| 0` turns it into 0) but
      positive infinity when there are some (which is truthy, so it stays). */
  function ErrorRateAsWritten(corrections: nat, flightCount: nat): (r: JsNumber)
    ensures r != NaN
  {
    var quotient :=
      if flightCount > 0 then Finite(corrections as real / flightCount as real * 100.0)
      else if corrections > 0 then PositiveInfinity
      else NaN;
    if quotient == NaN || quotient == Finite(0.0) then Finite(0.0) else quotient
  }

  /** The correction rate the profile reports: corrections per hundred flights, and 0 when
      there are no flight times at all. */
  function ErrorRate(corrections: nat, flightCount: nat): (r: real)
    ensures r >= 0.0
    ensures flightCount == 0 || corrections == 0 ==> r == 0.0
    ensures flightCount > 0 ==> r * flightCount as real == corrections as real * 100.0
  {
    if flightCount > 0 then corrections as real / flightCount as real * 100.0 else 0.0
  }

  /** Wherever the source's expression yields a finite number, it is the corrected rate. */
  lemma ErrorRateAgreesWhereFinite(corrections: nat, flightCount: nat)
    ensures ErrorRateAsWritten(corrections, flightCount) != PositiveInfinity ==>
      ErrorRateAsWritten(corrections, flightCount) == Finite(ErrorRate(corrections, flightCount))
    ensures ErrorRateAsWritten(corrections, flightCount) == PositiveInfinity <==>
      flightCount == 0 && corrections > 0
  {
  }

  /** `getProfile` over the tracker's lists and correction counter. */
  function ProfileOf(dwellTimes: seq<int>, flightTimes: seq<int>, corrections: nat): (r: KeystrokeProfile)
    ensures dwellTimes == [] ==> r.avgDwellTime == 0.0
    ensures flightTimes == [] ==> r.avgFlightTime == 0.0 && r.rhythm == [] && r.errorRate == 0.0
    ensures |r.rhythm| == Min(|flightTimes|, RhythmLength)
    ensures r.rhythm == flightTimes[|flightTimes| - |r.rhythm|..]
    ensures r.errorRate >= 0.0
  {
    KeystrokeProfile(
      Average(dwellTimes),
      Average(flightTimes),
      LastN(flightTimes, RhythmLength),
      ErrorRate(corrections, |flightTimes|))
  }

  /** `compareToProfile`: 100 minus half the summed differences of the average dwell and
      flight times, clamped to [0, 100]. */
  function Similarity(current: KeystrokeProfile, saved: KeystrokeProfile): (r: real)
    ensures 0.0 <= r <= 100.0
    ensures r == 100.0 <==>
      current.avgDwellTime == saved.avgDwellTime && current.avgFlightTime == saved.avgFlightTime
    ensures var d := Abs(current.avgDwellTime - saved.avgDwellTime) + Abs(current.avgFlightTime - saved.avgFlightTime);
      d <= 200.0 ==> r == 100.0 - d / 2.0
    ensures var d := Abs(current.avgDwellTime - saved.avgDwellTime) + Abs(current.avgFlightTime - saved.avgFlightTime);
      d >= 200.0 ==> r == 0.0
  {
    var dwellDiff := Abs(current.avgDwellTime - saved.avgDwellTime);
    var flightDiff := Abs(current.avgFlightTime - saved.avgFlightTime);
    Clamp(100.0 - (dwellDiff + flightDiff) / 2.0, 0.0, 100.0)
  }

  lemma SimilaritySymmetric(a: KeystrokeProfile, b: KeystrokeProfile)
    ensures Similarity(a, b) == Similarity(b, a)
  {
  }

  class KeystrokeTracker {
    var keyDownTimes: map<string, int>
    var dwellTimes: seq<int>
    var flightTimes: seq<int>
    var lastKeyTime: int
    var corrections: nat

    constructor ()
      ensures keyDownTimes == map[] && dwellTimes == [] && flightTimes == []
      ensures lastKeyTime == 0 && corrections == 0
    {
      keyDownTimes := map[];
      dwellTimes := [];
      flightTimes := [];
      lastKeyTime := 0;
      corrections := 0;
    }

    /** The `keydown` listener. */
    method OnKeyDown(key: string, now: int)
      modifies this
      ensures keyDownTimes == old(keyDownTimes)[key := now]
      ensures flightTimes ==
        if old(lastKeyTime) > 0 then old(flightTimes) + [now - old(lastKeyTime)] else old(flightTimes)
      ensures lastKeyTime == now
      ensures corrections == old(corrections) + if IsCorrectionKey(key) then 1 else 0
      ensures dwellTimes == old(dwellTimes)
    {
      keyDownTimes := keyDownTimes[key := now];
      if lastKeyTime > 0 {
        flightTimes := flightTimes + [now - lastKeyTime];
      }
      lastKeyTime := now;
      if key == "Backspace" || key == "Delete" {
        corrections := corrections + 1;
      }
    }

    /** The `keyup` listener: only a key with a recorded, non-zero (truthy) down time yields
        a dwell time; any other key-up changes nothing. */
    method OnKeyUp(key: string, now: int)
      modifies this
      ensures old(key in keyDownTimes && keyDownTimes[key] != 0) ==>
        dwellTimes == old(dwellTimes) + [now - old(keyDownTimes[key])] &&
        keyDownTimes == old(keyDownTimes) - {key}
      ensures old(key !in keyDownTimes || keyDownTimes[key] == 0) ==>
        dwellTimes == old(dwellTimes) && keyDownTimes == old(keyDownTimes)
      ensures flightTimes == old(flightTimes) && lastKeyTime == old(lastKeyTime)
      ensures corrections == old(corrections)
    {
      if key in keyDownTimes && keyDownTimes[key] != 0 {
        var downTime := keyDownTimes[key];
        dwellTimes := dwellTimes + [now - downTime];
        keyDownTimes := keyDownTimes - {key};
      }
    }

    /** `getProfile`. */
    function Profile(): (r: KeystrokeProfile)
      reads this
      ensures dwellTimes == [] ==> r.avgDwellTime == 0.0
      ensures flightTimes == [] ==> r.avgFlightTime == 0.0 && r.rhythm == [] && r.errorRate == 0.0
      ensures r.rhythm == LastN(flightTimes, RhythmLength)
    {
      ProfileOf(dwellTimes, flightTimes, corrections)
    }

    /** `compareToProfile`: the similarity of the current profile to a saved one. */
    function CompareToProfile(saved: KeystrokeProfile): (r: real)
      reads this
      ensures 0.0 <= r <= 100.0
      ensures saved == Profile() ==> r == 100.0
      ensures r == Similarity(Profile(), saved)
      ensures var d := Abs(Profile().avgDwellTime - saved.avgDwellTime) + Abs(Profile().avgFlightTime - saved.avgFlightTime);
        r == if d >= 200.0 then 0.0 else 100.0 - d / 2.0
    {
      Similarity(Profile(), saved)
    }
  }

  /** A session whose very first key is Backspace: the source's rate expression divides one
      correction by zero flight times and yields positive infinity, which `|| 0` keeps. */
  method LoneCorrectionRate(now: int) returns (asWritten: JsNumber, corrected: real)
    ensures asWritten == PositiveInfinity
    ensures corrected == 0.0
  {
    var tracker := new KeystrokeTracker();
    tracker.OnKeyDown("Backspace", now);
    asWritten := ErrorRateAsWritten(tracker.corrections, |tracker.flightTimes|);
    corrected := tracker.Profile().errorRate;
  }
}
