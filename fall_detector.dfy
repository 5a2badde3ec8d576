/**
 * `FullBodyFallDetector`: the detector object whose fields are updated in
 * place on every call of `analyze`. Each method is proved to leave the
 * fields exactly as the matching function of `FallEngine` says.
 */
module FallDetector {
  import opened Wrappers
  import opened Posture
  import opened FallEngine

  class FullBodyFallDetector {
    const fallenTimeout: real
    const historySize: nat

    // rolling histories (deques of capacity historySize)
    var poseHistory: seq<Landmarks>
    var postureHistory: seq<BodyPosture>
    var timestamps: seq<real>

    // fall tracking
    var fallDetectedTime: Option<real>
    var personIsDown: bool
    var downSince: Option<real>
    var lastStandingTime: Option<real>
    var cooldownUntil: real

    // latest outputs
    var lastResult: DetectionResult
    var lastPosture: BodyPosture

    function Cfg(): Config {
      Config(fallenTimeout, historySize)
    }

    /** The fields as one state value. */
    function State(): EngineState
      reads this
    {
      EngineState(poseHistory, postureHistory, timestamps, personIsDown, downSince,
                  fallDetectedTime, lastStandingTime, cooldownUntil, lastResult, lastPosture)
    }

    ghost predicate Valid()
      reads this
    {
      FallEngine.Valid(Cfg(), State())
    }

    constructor (fallenTimeout: real, historySize: nat)
      ensures this.fallenTimeout == fallenTimeout && this.historySize == historySize
      ensures Valid() && State() == Initial
    {
      this.fallenTimeout := fallenTimeout;
      this.historySize := historySize;
      poseHistory, postureHistory, timestamps := [], [], [];
      fallDetectedTime, personIsDown, downSince := None, false, None;
      lastStandingTime, cooldownUntil := None, 0.0;
      lastResult, lastPosture := Normal, Unknown;
    }

    /** `analyze(landmarks)` at time `now`. */
    method Analyze(landmarks: Option<Landmarks>, now: real) returns (result: DetectionResult, report: Report)
      requires Valid()
      modifies this
      ensures Valid()
      ensures Tick(result, report, State()) == AnalyzeStep(Cfg(), old(State()), landmarks, now)
      ensures old(now < cooldownUntil) ==> result == old(lastResult) && unchanged(this)
    {
      if now < cooldownUntil {
        return lastResult, CooldownReport;
      }
      if landmarks.None? {
        if personIsDown {
          ResetFallState();
        }
        return NoPerson, NoPersonReport;
      }
      ghost var s0 := State();
      var lm := landmarks.value;
      var reading := AnalyzePosture(lm, postureHistory);

      poseHistory := PushBounded(poseHistory, lm, historySize);
      postureHistory := PushBounded(postureHistory, reading.posture, historySize);
      timestamps := PushBounded(timestamps, now, historySize);
      lastPosture := reading.posture;
      if reading.posture == Standing {
        lastStandingTime := Some(now);
      }

      ghost var s1 := State();
      assert s1 == Record(Cfg(), s0, lm, reading.posture, now);

      var metrics := CalculateBodyMetrics(lm);
      var timeDown, reason;
      result, timeDown, reason := DetectFallState(reading.posture, metrics, now);
      ghost var o := FallEngine.DetectFallState(Cfg(), s1, reading.posture, metrics, now);
      assert o == FallOutcome(result, State(), timeDown, reason);
      lastResult := result;
      report := Analysis(reading.posture, reading.confidence, metrics, timeDown, reason);
      assert State() == o.state.(lastResult := o.result);
    }

    /** `_detect_fall_state`, written with the source's early returns. */
    method DetectFallState(posture: BodyPosture, m: BodyMetrics, now: real)
      returns (result: DetectionResult, timeDown: real, reason: Option<Reason>)
      modifies this
      ensures FallOutcome(result, State(), timeDown, reason)
              == FallEngine.DetectFallState(Cfg(), old(State()), posture, m, now)
    {
      var isDown := posture == LyingDown || (m.bodyHorizontal && m.headAtHipLevel);

      if posture == Falling || (isDown && !personIsDown) {
        if Truthy(lastStandingTime) {
          var timeSinceStanding := now - lastStandingTime.value;
          if timeSinceStanding < 2.0 {
            fallDetectedTime := Some(now);
            personIsDown := true;
            downSince := Some(now);
            return FallDetected, 0.0, Some(SuddenFallFromStanding);
          }
        }
      }

      timeDown, reason := 0.0, None;
      if isDown {
        if !personIsDown {
          personIsDown := true;
          downSince := Some(now);
        }
        timeDown := if Truthy(downSince) then now - downSince.value else 0.0;
        if timeDown > fallenTimeout {
          if fallDetectedTime.None? {
            fallDetectedTime := Some(now);
            cooldownUntil := now + 30.0;
            return PersonDown, timeDown, Some(PersonStayedDown);
          }
        }
      }

      if posture == Standing && personIsDown {
        ResetFallState();
        reason := Some(PersonRecovered);
      }

      if posture == Bending {
        return BendingOver, timeDown, reason;
      }
      return Normal, timeDown, reason;
    }

    /** `_reset_fall_state` */
    method ResetFallState()
      modifies this
      ensures State() == ClearFall(old(State()))
    {
      personIsDown := false;
      downSince := None;
      fallDetectedTime := None;
    }

    /** `reset()`: a full reset that keeps the configuration and the cooldown deadline. */
    method Reset()
      modifies this
      ensures Valid()
      ensures State() == ResetState(old(State()))
    {
      poseHistory, postureHistory, timestamps := [], [], [];
      ResetFallState();
      lastStandingTime := None;
      lastResult := Normal;
      lastPosture := Unknown;
    }
  }
}
