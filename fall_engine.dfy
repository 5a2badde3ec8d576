/**
 * The fall detector's state machine, as functions on an explicit state
 * value. `FallDetector.FullBodyFallDetector` (the class that updates its
 * fields in place) is proved to follow these functions tick by tick; the
 * properties of the machine are proved here, about the functions.
 *
 * The wall clock is not read: the time of a tick is a parameter.
 */
module FallEngine {
  import opened Wrappers
  import opened Posture

  datatype DetectionResult = Normal | BendingOver | FallDetected | PersonDown | NoPerson

  /** The 'reason' entry of an alerting or recovering tick. */
  datatype Reason = SuddenFallFromStanding | PersonStayedDown | PersonRecovered

  /** The analysis dictionary returned beside the result. */
  datatype Report =
    | CooldownReport                      // {'status': 'cooldown'}
    | NoPersonReport                      // {'status': 'no_person'}
    | Analysis(posture: BodyPosture, postureConfidence: real, metrics: BodyMetrics,
               timeDown: real, reason: Option<Reason>)

  /** Construction parameters: `fallen_timeout` and `int(history_seconds * fps)`. */
  datatype Config = Config(fallenTimeout: real, historySize: nat)

  /** Every instance field the detector updates. */
  datatype EngineState = EngineState(
    poseHistory: seq<Landmarks>,
    postureHistory: seq<BodyPosture>,
    timestamps: seq<real>,
    personIsDown: bool,
    downSince: Option<real>,
    fallDetectedTime: Option<real>,
    lastStandingTime: Option<real>,
    cooldownUntil: real,
    lastResult: DetectionResult,
    lastPosture: BodyPosture)

  /** The constructor's defaults: a 5 s timeout and `int(3.0 * 30)` history entries. */
  const DefaultConfig: Config := Config(5.0, 90)

  /** The state `__init__` builds: empty histories, nothing down, no cooldown. */
  const Initial: EngineState :=
    EngineState([], [], [], false, None, None, None, 0.0, Normal, Unknown)

  /** The three histories stay within capacity and in step with each other. */
  ghost predicate Valid(cfg: Config, s: EngineState) {
    |s.poseHistory| == |s.postureHistory| == |s.timestamps| <= cfg.historySize
  }

  /** Python's truth test on an optional timestamp: `None` and `0.0` are both false. */
  predicate Truthy(t: Option<real>) {
    t.Some? && t.value != 0.0
  }

  /**
   * `deque(maxlen=cap).append(x)`: append at the right end, dropping entries
   * from the left until at most `cap` remain (a zero-capacity deque stays empty).
   */
  function PushBounded<T>(s: seq<T>, x: T, cap: nat): (r: seq<T>)
    requires |s| <= cap
    ensures |r| == if |s| < cap then |s| + 1 else cap
    ensures cap > 0 ==> r[|r| - 1] == x
    ensures |s| < cap ==> r == s + [x]
    ensures 0 < |s| == cap ==> r == s[1..] + [x]
  {
    if |s| < cap then s + [x]
    else if cap == 0 then []
    else s[1..] + [x]
  }

  /** `_reset_fall_state`: the three fall-tracking fields back to "not down". */
  function ClearFall(s: EngineState): (r: EngineState)
    ensures !r.personIsDown && r.downSince.None? && r.fallDetectedTime.None?
    ensures r == s.(personIsDown := false, downSince := None, fallDetectedTime := None)
  {
    s.(personIsDown := false, downSince := None, fallDetectedTime := None)
  }

  /** The tick's "down" test: lying down, or a horizontal torso with the head near hip level. */
  predicate IsDown(posture: BodyPosture, m: BodyMetrics) {
    posture == LyingDown || (m.bodyHorizontal && m.headAtHipLevel)
  }

  /** The sudden-fall test: falling, or newly down, within two seconds of standing. */
  predicate SuddenFall(s: EngineState, posture: BodyPosture, m: BodyMetrics, now: real) {
    (posture == Falling || (IsDown(posture, m) && !s.personIsDown))
    && Truthy(s.lastStandingTime) && now - s.lastStandingTime.value < 2.0
  }

  /** What `_detect_fall_state` returns and leaves behind. */
  datatype FallOutcome = FallOutcome(result: DetectionResult, state: EngineState, timeDown: real, reason: Option<Reason>)

  /**
   * `_detect_fall_state`: the sudden-fall branch first, then down tracking
   * with the stay-down alert, then recovery, then bending.
   */
  function DetectFallState(cfg: Config, s: EngineState, posture: BodyPosture, m: BodyMetrics, now: real): (o: FallOutcome)
    // only the fall fields and the cooldown can change
    ensures o.state.(personIsDown := s.personIsDown, downSince := s.downSince,
                     fallDetectedTime := s.fallDetectedTime, cooldownUntil := s.cooldownUntil) == s
    // FALL_DETECTED exactly when the sudden-fall test holds, and it marks the person down now
    ensures o.result == FallDetected <==> SuddenFall(s, posture, m, now)
    ensures o.result == FallDetected ==>
      o.state == s.(personIsDown := true, downSince := Some(now), fallDetectedTime := Some(now))
      && o.reason == Some(SuddenFallFromStanding)
    // PERSON_DOWN exactly when down, strictly past the timeout, and not yet alerted in this episode
    ensures o.result == PersonDown <==>
      !SuddenFall(s, posture, m, now) && IsDown(posture, m) && s.fallDetectedTime.None?
      && o.timeDown > cfg.fallenTimeout
    ensures o.result == PersonDown ==>
      o.state.personIsDown && o.state.fallDetectedTime == Some(now)
      && o.state.cooldownUntil == now + 30.0 && o.reason == Some(PersonStayedDown)
      && o.state.downSince == (if s.personIsDown then s.downSince else Some(now))
    ensures o.result != PersonDown ==> o.state.cooldownUntil == s.cooldownUntil
    // time down is measured from the start of the episode (this tick if it starts now)
    ensures o.result != FallDetected && IsDown(posture, m) ==>
      var since := if s.personIsDown then s.downSince else Some(now);
      o.timeDown == if Truthy(since) then now - since.value else 0.0
    // a sudden fall, or a tick that is not down, reports no time down
    ensures o.result == FallDetected || !IsDown(posture, m) ==> o.timeDown == 0.0
    // recovery: standing while marked down clears the episode
    ensures o.result != FallDetected && o.result != PersonDown && posture == Standing
            && (s.personIsDown || IsDown(posture, m)) ==>
      o.state == ClearFall(s) && o.reason == Some(PersonRecovered)
    // otherwise a tick without an alert only starts tracking a newly-down person
    ensures o.result != FallDetected && o.result != PersonDown
            && !(posture == Standing && (s.personIsDown || IsDown(posture, m))) ==>
      o.reason.None?
      && o.state == if IsDown(posture, m) && !s.personIsDown then s.(personIsDown := true, downSince := Some(now)) else s
    // bending is reported only when no alert fired first
    ensures o.result == BendingOver <==>
      posture == Bending && o.result != FallDetected && o.result != PersonDown
    ensures o.result in {Normal, BendingOver, FallDetected, PersonDown}
    // a state that stays down keeps its alert mark
    ensures o.state.personIsDown && s.fallDetectedTime.Some? ==> o.state.fallDetectedTime.Some?
  {
    var isDown := IsDown(posture, m);
    if SuddenFall(s, posture, m, now) then
      FallOutcome(FallDetected,
                  s.(fallDetectedTime := Some(now), personIsDown := true, downSince := Some(now)),
                  0.0, Some(SuddenFallFromStanding))
    else
      var s1 := if isDown && !s.personIsDown then s.(personIsDown := true, downSince := Some(now)) else s;
      var timeDown := if isDown && Truthy(s1.downSince) then now - s1.downSince.value else 0.0;
      if isDown && timeDown > cfg.fallenTimeout && s1.fallDetectedTime.None? then
        FallOutcome(PersonDown, s1.(fallDetectedTime := Some(now), cooldownUntil := now + 30.0),
                    timeDown, Some(PersonStayedDown))
      else
        var recovered := posture == Standing && s1.personIsDown;
        FallOutcome(if posture == Bending then BendingOver else Normal,
                    if recovered then ClearFall(s1) else s1,
                    timeDown,
                    if recovered then Some(PersonRecovered) else None)
  }

  /** One call of `analyze`: its result, its report and the detector's new state. */
  datatype Tick = Tick(result: DetectionResult, report: Report, state: EngineState)

  /** The history fields after a processed tick, before the fall rules run. */
  function Record(cfg: Config, s: EngineState, lm: Landmarks, posture: BodyPosture, now: real): EngineState
    requires Valid(cfg, s)
  {
    s.(poseHistory := PushBounded(s.poseHistory, lm, cfg.historySize),
       postureHistory := PushBounded(s.postureHistory, posture, cfg.historySize),
       timestamps := PushBounded(s.timestamps, now, cfg.historySize),
       lastPosture := posture,
       lastStandingTime := if posture == Standing then Some(now) else s.lastStandingTime)
  }

  /**
   * `analyze`: the cooldown gate, then the no-person branch, then classify
   * (against the history before this tick), record, and run the fall rules.
   */
  function AnalyzeStep(cfg: Config, s: EngineState, landmarks: Option<Landmarks>, now: real): (t: Tick)
    requires Valid(cfg, s)
    ensures Valid(cfg, t.state)
    // inside the cooldown window nothing is processed and the previous result is repeated
    ensures now < s.cooldownUntil ==> t == Tick(s.lastResult, CooldownReport, s)
    // no landmarks: NO_PERSON; the fall fields are cleared only if the person was down
    ensures now >= s.cooldownUntil && landmarks.None? ==>
      t.result == NoPerson && t.report == NoPersonReport
      && t.state == if s.personIsDown then ClearFall(s) else s
    // a processed tick classifies against the earlier history and appends exactly one entry to each history
    ensures now >= s.cooldownUntil && landmarks.Some? ==>
      && t.report.Analysis?
      && Reading(t.report.posture, t.report.postureConfidence) == AnalyzePosture(landmarks.value, s.postureHistory)
      && t.state.poseHistory == PushBounded(s.poseHistory, landmarks.value, cfg.historySize)
      && t.state.postureHistory == PushBounded(s.postureHistory, t.report.posture, cfg.historySize)
      && t.state.timestamps == PushBounded(s.timestamps, now, cfg.historySize)
      && t.state.lastPosture == t.report.posture
      && t.state.lastResult == t.result
      && t.state.lastStandingTime == (if t.report.posture == Standing then Some(now) else s.lastStandingTime)
    // only a stay-down alert arms the cooldown, for thirty seconds
    ensures t.state.cooldownUntil != s.cooldownUntil ==>
      t.result == PersonDown && t.state.cooldownUntil == now + 30.0
    // a fresh FALL_DETECTED needs a sudden fall within two seconds of the last standing tick
    ensures t.result == FallDetected && t.report != CooldownReport ==>
      && t.report.Analysis?
      && (t.report.posture == Falling || (IsDown(t.report.posture, t.report.metrics) && !s.personIsDown))
      && t.state.lastStandingTime.Some? && t.state.lastStandingTime.value != 0.0
      && now - t.state.lastStandingTime.value < 2.0
      && t.state.personIsDown && t.state.downSince == Some(now) && t.state.fallDetectedTime == Some(now)
    // a fresh PERSON_DOWN needs an episode not yet alerted, and marks it alerted
    ensures t.result == PersonDown && t.report != CooldownReport ==>
      && t.report.Analysis? && IsDown(t.report.posture, t.report.metrics)
      && t.report.timeDown > cfg.fallenTimeout
      && s.fallDetectedTime.None? && t.state.fallDetectedTime == Some(now)
      && t.state.cooldownUntil == now + 30.0
    // while the person stays marked down, an alerted episode stays alerted
    ensures t.state.personIsDown && s.fallDetectedTime.Some? ==> t.state.fallDetectedTime.Some?
  {
    if now < s.cooldownUntil then
      Tick(s.lastResult, CooldownReport, s)
    else if landmarks.None? then
      Tick(NoPerson, NoPersonReport, if s.personIsDown then ClearFall(s) else s)
    else
      var lm := landmarks.value;
      var reading := AnalyzePosture(lm, s.postureHistory);
      var s1 := Record(cfg, s, lm, reading.posture, now);
      var m := CalculateBodyMetrics(lm);
      var o := DetectFallState(cfg, s1, reading.posture, m, now);
      Tick(o.result, Analysis(reading.posture, reading.confidence, m, o.timeDown, o.reason),
           o.state.(lastResult := o.result))
  }

  /** `reset()`: histories and fall tracking cleared; the cooldown deadline is kept. */
  function ResetState(s: EngineState): (r: EngineState)
    ensures r == Initial.(cooldownUntil := s.cooldownUntil)
  {
    ClearFall(s).(poseHistory := [], postureHistory := [], timestamps := [],
                  lastStandingTime := None, lastResult := Normal, lastPosture := Unknown)
  }
}
