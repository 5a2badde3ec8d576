/**
 * The posture classifier of the fall detector (`_analyze_posture`) and the
 * body metrics computed beside it (`_calculate_body_metrics`).
 *
 * A landmark snapshot is what the pose detector hands over per frame: named
 * joints with normalised image coordinates (y grows downwards) plus a trunk
 * angle in degrees (0 = upright, 90 = horizontal). Any joint or coordinate may
 * be missing; every reading then falls back to a fixed default, so the
 * classifier is total.
 */
module Posture {
  import opened Wrappers

  datatype BodyPosture = Standing | Sitting | Bending | LyingDown | Falling | Unknown

  /** The joints the detector reads; the snapshot may carry others, which it ignores. */
  datatype JointName =
    | Nose | CenterShoulder | CenterHip
    | LeftKnee | RightKnee | LeftAnkle | RightAnkle | LeftWrist | RightWrist

  /** One joint's coordinates; either may be absent from the joint's dictionary. */
  datatype Coord = Coord(x: Option<real>, y: Option<real>)

  /** One frame's snapshot: the joint dictionary and the optional `body_angle` entry. */
  datatype Landmarks = Landmarks(joints: map<JointName, Coord>, bodyAngle: Option<real>)

  /** `landmarks.get(joint, {}).get('y', default)` */
  function JointY(lm: Landmarks, j: JointName, default: real): (y: real)
    ensures j !in lm.joints ==> y == default
    ensures j in lm.joints && lm.joints[j].y.Some? ==> y == lm.joints[j].y.value
    ensures j in lm.joints && lm.joints[j].y.None? ==> y == default
  {
    if j in lm.joints then lm.joints[j].y.GetOr(default) else default
  }

  /** `landmarks.get('body_angle', 0)` */
  function BodyAngle(lm: Landmarks): real {
    lm.bodyAngle.GetOr(0.0)
  }

  function Abs(x: real): (r: real)
    ensures r >= 0.0 && (r == x || r == -x)
  {
    if x < 0.0 then -x else x
  }

  /** The readings the classifier takes from a snapshot, defaults filled in. */
  datatype Features = Features(noseY: real, shoulderY: real, hipY: real, kneeY: real, ankleY: real, bodyAngle: real)

  /**
   * Each reading is its joint's y with that joint's own default; knees and
   * ankles are the mean of the left and right joint.
   */
  function Extract(lm: Landmarks): (f: Features)
    ensures f.noseY == JointY(lm, Nose, 0.2)
    ensures f.shoulderY == JointY(lm, CenterShoulder, 0.3)
    ensures f.hipY == JointY(lm, CenterHip, 0.5)
    ensures f.kneeY == (JointY(lm, LeftKnee, 0.7) + JointY(lm, RightKnee, 0.7)) / 2.0
    ensures f.ankleY == (JointY(lm, LeftAnkle, 0.9) + JointY(lm, RightAnkle, 0.9)) / 2.0
    ensures f.bodyAngle == lm.bodyAngle.GetOr(0.0)
    ensures lm.joints == map[] ==>
      f == Features(0.2, 0.3, 0.5, 0.7, 0.9, BodyAngle(lm))
  {
    Features(
      JointY(lm, Nose, 0.2),
      JointY(lm, CenterShoulder, 0.3),
      JointY(lm, CenterHip, 0.5),
      (JointY(lm, LeftKnee, 0.7) + JointY(lm, RightKnee, 0.7)) / 2.0,
      (JointY(lm, LeftAnkle, 0.9) + JointY(lm, RightAnkle, 0.9)) / 2.0,
      BodyAngle(lm))
  }

  /** Vertical extent of the tracked body, nose to ankles. */
  function BodyHeight(f: Features): real {
    f.ankleY - f.noseY
  }

  /** Shoulders and hips at a similar height. */
  predicate TorsoHorizontal(f: Features) {
    Abs(f.shoulderY - f.hipY) < 0.15
  }

  /** The nose at, or below, a point just above the hips. */
  predicate HeadBelowNormal(f: Features) {
    f.noseY > f.hipY - 0.1
  }

  // The five rule bodies of the classifier, in the order they are tried.

  predicate LyingRule(f: Features) {
    TorsoHorizontal(f) && BodyHeight(f) < 0.4 && HeadBelowNormal(f)
  }

  predicate StandingRule(f: Features) {
    BodyHeight(f) > 0.5 && f.bodyAngle < 30.0 && !HeadBelowNormal(f)
    && Abs(f.shoulderY - f.hipY) > 0.1
  }

  predicate SittingRule(f: Features) {
    f.hipY > 0.6 && f.kneeY > f.hipY && f.bodyAngle < 40.0
  }

  predicate BendingRule(f: Features) {
    f.bodyAngle > 40.0 && f.bodyAngle < 80.0 && BodyHeight(f) > 0.3
  }

  /** Falling looks only at earlier ticks: five or more postures, the oldest of the last five standing. */
  predicate FallingRule(f: Features, history: seq<BodyPosture>) {
    |history| >= 5 && history[|history| - 5] == Standing
    && (f.bodyAngle > 50.0 || TorsoHorizontal(f))
  }

  datatype Reading = Reading(posture: BodyPosture, confidence: real)

  /** The fixed confidence that goes with each posture. */
  function ConfidenceOf(p: BodyPosture): real {
    match p
    case LyingDown => 0.85
    case Standing => 0.9
    case Sitting => 0.75
    case Bending => 0.8
    case Falling => 0.8
    case Unknown => 0.5
  }

  /**
   * `_analyze_posture`: the first rule that holds wins; none holding gives
   * UNKNOWN. `history` is the posture history before the current tick.
   */
  function Classify(f: Features, history: seq<BodyPosture>): (r: Reading)
    ensures r.confidence == ConfidenceOf(r.posture)
    ensures r.confidence in {0.85, 0.9, 0.75, 0.8, 0.5}
    ensures r.posture == LyingDown <==> LyingRule(f)
    ensures r.posture == Standing ==> StandingRule(f) && !LyingRule(f)
    ensures r.posture == Sitting ==> SittingRule(f) && !LyingRule(f) && !StandingRule(f)
    ensures r.posture == Bending ==> BendingRule(f) && !LyingRule(f) && !StandingRule(f) && !SittingRule(f)
    ensures r.posture == Falling ==>
      |history| >= 5 && history[|history| - 5] == Standing
      && !LyingRule(f) && !StandingRule(f) && !SittingRule(f) && !BendingRule(f)
    ensures r.posture == Unknown <==>
      !LyingRule(f) && !StandingRule(f) && !SittingRule(f) && !BendingRule(f) && !FallingRule(f, history)
  {
    if LyingRule(f) then Reading(LyingDown, 0.85)
    else if StandingRule(f) then Reading(Standing, 0.9)
    else if SittingRule(f) then Reading(Sitting, 0.75)
    else if BendingRule(f) then Reading(Bending, 0.8)
    else if FallingRule(f, history) then Reading(Falling, 0.8)
    else Reading(Unknown, 0.5)
  }

  /**
   * `_analyze_posture` on a snapshot: the first rule in priority order that
   * the snapshot's readings meet, with that posture's fixed confidence.
   */
  function AnalyzePosture(lm: Landmarks, history: seq<BodyPosture>): (r: Reading)
    ensures r.posture == FirstMatch(RuleOrder, Extract(lm), history)
    ensures r.confidence == ConfidenceOf(r.posture)
  {
    ClassifyIsFirstMatch(Extract(lm), history);
    Classify(Extract(lm), history)
  }

  // An independent reference for the cascade: the rule list in priority order,
  // searched front to back.

  const RuleOrder: seq<BodyPosture> := [LyingDown, Standing, Sitting, Bending, Falling]

  predicate RuleHolds(p: BodyPosture, f: Features, history: seq<BodyPosture>) {
    match p
    case LyingDown => LyingRule(f)
    case Standing => StandingRule(f)
    case Sitting => SittingRule(f)
    case Bending => BendingRule(f)
    case Falling => FallingRule(f, history)
    case Unknown => true
  }

  /** The first posture of `rules` whose rule holds, UNKNOWN if none does. */
  function FirstMatch(rules: seq<BodyPosture>, f: Features, history: seq<BodyPosture>): BodyPosture {
    if rules == [] then Unknown
    else if RuleHolds(rules[0], f, history) then rules[0]
    else FirstMatch(rules[1..], f, history)
  }

  /** The classifier is exactly "first rule in priority order that holds". */
  lemma ClassifyIsFirstMatch(f: Features, history: seq<BodyPosture>)
    ensures Classify(f, history).posture == FirstMatch(RuleOrder, f, history)
  {
    var r0 := RuleOrder;
    var r1, r2, r3, r4 := r0[1..], r0[2..], r0[3..], r0[4..];
    assert r1[1..] == r2 && r2[1..] == r3 && r3[1..] == r4 && r4[1..] == [];
    assert FirstMatch(r4, f, history) == if FallingRule(f, history) then Falling else Unknown;
    assert FirstMatch(r3, f, history) == if BendingRule(f) then Bending else FirstMatch(r4, f, history);
    assert FirstMatch(r2, f, history) == if SittingRule(f) then Sitting else FirstMatch(r3, f, history);
    assert FirstMatch(r1, f, history) == if StandingRule(f) then Standing else FirstMatch(r2, f, history);
  }

  /** A snapshot that meets both the lying and the bending rule is lying down. */
  lemma LyingBeatsBending(lm: Landmarks, history: seq<BodyPosture>)
    requires LyingRule(Extract(lm)) && BendingRule(Extract(lm))
    ensures AnalyzePosture(lm, history) == Reading(LyingDown, 0.85)
  {
  }

  /** A snapshot with no joints at all reads as standing: the defaults describe an upright body. */
  lemma EmptySnapshotIsStanding(angle: Option<real>, history: seq<BodyPosture>)
    requires angle.GetOr(0.0) < 30.0
    ensures AnalyzePosture(Landmarks(map[], angle), history) == Reading(Standing, 0.9)
  {
    var f := Extract(Landmarks(map[], angle));
    assert f.noseY == 0.2 && f.hipY == 0.5 && f.shoulderY == 0.3 && f.ankleY == 0.9;
    assert !LyingRule(f);
  }

  /** `_calculate_body_metrics` output. */
  datatype BodyMetrics = BodyMetrics(
    bodyAngle: real,
    headY: real,
    shoulderY: real,
    hipY: real,
    handsExtended: bool,
    bodyHorizontal: bool,
    headAtHipLevel: bool)

  /**
   * `_calculate_body_metrics`: `body_horizontal` uses the classifier's torso
   * threshold; `head_at_hip_level` is a looser version of the classifier's
   * head test; hands count as extended when the wrists are below the hips.
   */
  function CalculateBodyMetrics(lm: Landmarks): (m: BodyMetrics)
    ensures m.bodyHorizontal == TorsoHorizontal(Extract(lm))
    ensures m.headAtHipLevel <==> Extract(lm).noseY > Extract(lm).hipY - 0.15
    ensures HeadBelowNormal(Extract(lm)) ==> m.headAtHipLevel
    ensures m.headY == Extract(lm).noseY && m.shoulderY == Extract(lm).shoulderY
    ensures m.hipY == Extract(lm).hipY && m.bodyAngle == Extract(lm).bodyAngle
    ensures m.handsExtended <==>
      JointY(lm, LeftWrist, 0.5) + JointY(lm, RightWrist, 0.5) > 2.0 * m.hipY
  {
    var noseY := JointY(lm, Nose, 0.2);
    var shoulderY := JointY(lm, CenterShoulder, 0.3);
    var hipY := JointY(lm, CenterHip, 0.5);
    var avgWristY := (JointY(lm, LeftWrist, 0.5) + JointY(lm, RightWrist, 0.5)) / 2.0;
    BodyMetrics(
      BodyAngle(lm),
      noseY,
      shoulderY,
      hipY,
      avgWristY > hipY,
      Abs(shoulderY - hipY) < 0.15,
      noseY > hipY - 0.15)
  }

  /** Every snapshot the classifier calls lying down also meets the metrics' "down" test. */
  lemma LyingMeetsMetricsDown(lm: Landmarks, history: seq<BodyPosture>)
    requires AnalyzePosture(lm, history).posture == LyingDown
    ensures CalculateBodyMetrics(lm).bodyHorizontal && CalculateBodyMetrics(lm).headAtHipLevel
  {
  }
}
