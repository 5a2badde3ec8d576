/**
 * Properties of the fall detector over sequences of ticks: bounded
 * histories on every run, one stay-down alert per down episode, the
 * thirty-second cooldown, and what the detector reports for a subject who
 * leaves the frame, falls, stays down or gets up.
 */
module FallRuns {
  import opened Wrappers
  import opened Posture
  import opened FallEngine

  /** One call of `analyze`: the snapshot (or none) and the time it is made at. */
  datatype TickInput = TickInput(landmarks: Option<Landmarks>, now: real)

  /** The ticks produced by calling `analyze` on each input in turn, starting from `s`. */
  function Trace(cfg: Config, s: EngineState, ins: seq<TickInput>): (ts: seq<Tick>)
    requires Valid(cfg, s)
    ensures |ts| == |ins|
    ensures forall i | 0 <= i < |ts| :: Valid(cfg, ts[i].state)
    decreases |ins|
  {
    if ins == [] then []
    else
      var t := AnalyzeStep(cfg, s, ins[0].landmarks, ins[0].now);
      [t] + Trace(cfg, t.state, ins[1..])
  }

  /** The state after the whole run. */
  function Final(cfg: Config, s: EngineState, ins: seq<TickInput>): EngineState
    requires Valid(cfg, s)
  {
    var ts := Trace(cfg, s, ins);
    if ts == [] then s else ts[|ts| - 1].state
  }

  /** However many ticks are processed, no history exceeds its capacity and the three stay in step. */
  lemma {:induction false} HistoriesStayBounded(cfg: Config, ins: seq<TickInput>)
    ensures var r := Final(cfg, Initial, ins);
      |r.poseHistory| == |r.postureHistory| == |r.timestamps| <= cfg.historySize
  {
    assert Valid(cfg, Initial);
  }

  /** An alert that was actually raised on this tick, not repeated by the cooldown gate. */
  predicate Fresh(t: Tick, r: DetectionResult) {
    t.result == r && t.report != CooldownReport
  }

  function CountFresh(ts: seq<Tick>, r: DetectionResult): nat {
    if ts == [] then 0
    else (if Fresh(ts[0], r) then 1 else 0) + CountFresh(ts[1..], r)
  }

  /**
   * Within one down episode (the person stays marked down after every tick)
   * PERSON_DOWN is raised at most once, and never if the episode was already
   * alerted when the run began.
   */
  lemma {:induction false} AtMostOnePersonDownPerEpisode(cfg: Config, s: EngineState, ins: seq<TickInput>)
    requires Valid(cfg, s)
    requires forall i | 0 <= i < |ins| :: Trace(cfg, s, ins)[i].state.personIsDown
    ensures CountFresh(Trace(cfg, s, ins), PersonDown) <= if s.fallDetectedTime.None? then 1 else 0
    decreases |ins|
  {
    if ins != [] {
      var ts := Trace(cfg, s, ins);
      var t := ts[0];
      var rest := Trace(cfg, t.state, ins[1..]);
      assert ts == [t] + rest;
      assert ts[1..] == rest;
      forall i | 0 <= i < |ins[1..]|
        ensures rest[i].state.personIsDown
      {
        assert rest[i] == ts[i + 1];
      }
      AtMostOnePersonDownPerEpisode(cfg, t.state, ins[1..]);
    }
  }

  /** An episode that opens with FALL_DETECTED never escalates to PERSON_DOWN while it lasts. */
  lemma {:induction false} NoPersonDownAfterFallDetected(cfg: Config, s: EngineState, first: TickInput, ins: seq<TickInput>)
    requires Valid(cfg, s)
    requires Fresh(AnalyzeStep(cfg, s, first.landmarks, first.now), FallDetected)
    requires var t := AnalyzeStep(cfg, s, first.landmarks, first.now);
      forall i | 0 <= i < |ins| :: Trace(cfg, t.state, ins)[i].state.personIsDown
    ensures CountFresh(Trace(cfg, AnalyzeStep(cfg, s, first.landmarks, first.now).state, ins), PersonDown) == 0
  {
    var t := AnalyzeStep(cfg, s, first.landmarks, first.now);
    AtMostOnePersonDownPerEpisode(cfg, t.state, ins);
  }

  /** While every tick is before the cooldown deadline, each repeats the last result and changes nothing. */
  lemma {:induction false} CooldownFreezes(cfg: Config, s: EngineState, ins: seq<TickInput>)
    requires Valid(cfg, s)
    requires forall i | 0 <= i < |ins| :: ins[i].now < s.cooldownUntil
    ensures forall i | 0 <= i < |ins| :: Trace(cfg, s, ins)[i] == Tick(s.lastResult, CooldownReport, s)
    decreases |ins|
  {
    if ins != [] {
      var ts := Trace(cfg, s, ins);
      assert ts[0] == Tick(s.lastResult, CooldownReport, s);
      CooldownFreezes(cfg, s, ins[1..]);
      assert ts == [ts[0]] + Trace(cfg, s, ins[1..]);
    }
  }

  /**
   * After a PERSON_DOWN alert at time t, every call before t + 30 returns
   * PERSON_DOWN again, with the cooldown report, and leaves the state alone:
   * the gate repeats the alert rather than silencing it.
   */
  lemma {:induction false} PersonDownRepeatsDuringCooldown(cfg: Config, s: EngineState, first: TickInput, ins: seq<TickInput>)
    returns (u: EngineState)
    requires Valid(cfg, s)
    requires Fresh(AnalyzeStep(cfg, s, first.landmarks, first.now), PersonDown)
    requires forall i | 0 <= i < |ins| :: ins[i].now < first.now + 30.0
    ensures u == AnalyzeStep(cfg, s, first.landmarks, first.now).state && Valid(cfg, u)
    ensures forall i | 0 <= i < |ins| :: Trace(cfg, u, ins)[i] == Tick(PersonDown, CooldownReport, u)
  {
    u := AlertArmsCooldown(cfg, s, first);
    CooldownFreezes(cfg, u, ins);
  }

  /** The state a fresh PERSON_DOWN leaves: that result remembered, the deadline thirty seconds on. */
  lemma AlertArmsCooldown(cfg: Config, s: EngineState, first: TickInput) returns (u: EngineState)
    requires Valid(cfg, s)
    requires Fresh(AnalyzeStep(cfg, s, first.landmarks, first.now), PersonDown)
    ensures u == AnalyzeStep(cfg, s, first.landmarks, first.now).state
    ensures Valid(cfg, u) && u.lastResult == PersonDown && u.cooldownUntil == first.now + 30.0
  {
    u := AnalyzeStep(cfg, s, first.landmarks, first.now).state;
  }

  /** Once the person is not down, repeated "no person" ticks always give NO_PERSON and never change the state. */
  lemma {:induction false} AbsentTicksAreStable(cfg: Config, s: EngineState, ins: seq<TickInput>)
    requires Valid(cfg, s) && !s.personIsDown
    requires forall i | 0 <= i < |ins| :: ins[i].landmarks.None? && ins[i].now >= s.cooldownUntil
    ensures forall i | 0 <= i < |ins| :: Trace(cfg, s, ins)[i] == Tick(NoPerson, NoPersonReport, s)
    decreases |ins|
  {
    if ins != [] {
      var ts := Trace(cfg, s, ins);
      assert ts[0] == Tick(NoPerson, NoPersonReport, s);
      AbsentTicksAreStable(cfg, s, ins[1..]);
      assert ts == [ts[0]] + Trace(cfg, s, ins[1..]);
    }
  }

  /** A subject who leaves the frame while down ends the episode: the next episode can alert again. */
  lemma LeavingFrameEndsEpisode(cfg: Config, s: EngineState, now: real)
    requires Valid(cfg, s) && s.personIsDown && now >= s.cooldownUntil
    ensures var t := AnalyzeStep(cfg, s, None, now);
      t.result == NoPerson && t.state == ClearFall(s)
      && !t.state.personIsDown && t.state.downSince.None? && t.state.fallDetectedTime.None?
      && t.state.poseHistory == s.poseHistory && t.state.postureHistory == s.postureHistory
      && t.state.timestamps == s.timestamps && t.state.lastStandingTime == s.lastStandingTime
      && t.state.lastResult == s.lastResult
  {
  }

  /**
   * The two-second window: a lying-down snapshot after standing at t0 (and
   * not yet down) raises FALL_DETECTED when it comes 1.9 s later, and not
   * when it comes 2.1 s later.
   */
  lemma SuddenFallWindow(cfg: Config, s: EngineState, lm: Landmarks, t0: real)
    requires Valid(cfg, s) && !s.personIsDown && t0 != 0.0 && s.lastStandingTime == Some(t0)
    requires s.cooldownUntil <= t0 + 1.9
    requires AnalyzePosture(lm, s.postureHistory).posture == LyingDown
    ensures AnalyzeStep(cfg, s, Some(lm), t0 + 1.9).result == FallDetected
    ensures AnalyzeStep(cfg, s, Some(lm), t0 + 2.1).result != FallDetected
  {
  }

  /**
   * The stay-down timeout is strict: for a person marked down since d (and
   * not yet alerted) who is still lying down and not falling freshly, the
   * tick at time now raises PERSON_DOWN exactly when now - d exceeds the timeout.
   */
  lemma StayDownThreshold(cfg: Config, s: EngineState, lm: Landmarks, d: real, now: real)
    requires Valid(cfg, s) && s.personIsDown && s.downSince == Some(d) && d != 0.0
    requires s.fallDetectedTime.None? && now >= s.cooldownUntil
    requires AnalyzePosture(lm, s.postureHistory).posture == LyingDown
    ensures AnalyzeStep(cfg, s, Some(lm), now).result == PersonDown <==> now - d > cfg.fallenTimeout
  {
  }

  /** A processed snapshot whose readings meet the lying-down rule. */
  predicate LyingTick(x: TickInput) {
    x.landmarks.Some? && LyingRule(Extract(x.landmarks.value))
  }

  /**
   * A person marked down since t0 and not yet alerted, who keeps lying
   * outside the cooldown window, gets NORMAL on every tick up to the
   * timeout and PERSON_DOWN on the first tick past it.
   */
  lemma {:induction false} DownUntilTimeout(cfg: Config, s: EngineState, ins: seq<TickInput>, t0: real)
    requires Valid(cfg, s) && s.personIsDown && s.downSince == Some(t0) && t0 != 0.0 && s.fallDetectedTime.None?
    requires |ins| >= 1
    requires forall i | 0 <= i < |ins| :: LyingTick(ins[i]) && s.cooldownUntil <= ins[i].now
    requires forall i | 0 <= i < |ins| - 1 :: ins[i].now - t0 <= cfg.fallenTimeout
    requires ins[|ins| - 1].now - t0 > cfg.fallenTimeout
    ensures var ts := Trace(cfg, s, ins);
      Fresh(ts[|ts| - 1], PersonDown) && forall i | 0 <= i < |ts| - 1 :: ts[i].result == Normal
    decreases |ins|
  {
    var t := AnalyzeStep(cfg, s, ins[0].landmarks, ins[0].now);
    assert AnalyzePosture(ins[0].landmarks.value, s.postureHistory).posture == LyingDown;
    var ts := Trace(cfg, s, ins);
    var rest := Trace(cfg, t.state, ins[1..]);
    assert ts == [t] + rest;
    if |ins| == 1 {
      assert t.result == PersonDown;
    } else {
      assert t.result == Normal;
      assert t.state.personIsDown && t.state.downSince == Some(t0) && t.state.fallDetectedTime.None?;
      assert t.state.cooldownUntil == s.cooldownUntil;
      DownUntilTimeout(cfg, t.state, ins[1..], t0);
      forall i | 0 <= i < |ts| - 1
        ensures ts[i].result == Normal
      {
        if i > 0 {
          assert ts[i] == rest[i - 1];
        }
      }
      assert ts[|ts| - 1] == rest[|rest| - 1];
    }
  }

  /**
   * The stay-down case end to end: someone not yet down who starts lying at
   * t0 (not within two seconds of standing, so no sudden fall) and keeps
   * lying gets NORMAL on every tick while now - t0 is within the timeout,
   * then exactly one PERSON_DOWN on the first tick past it.
   */
  lemma {:induction false} StayingDownRaisesPersonDown(cfg: Config, s: EngineState, ins: seq<TickInput>)
    requires Valid(cfg, s) && !s.personIsDown && s.fallDetectedTime.None?
    requires |ins| >= 1 && ins[0].now != 0.0 && s.cooldownUntil <= ins[0].now
    requires !(Truthy(s.lastStandingTime) && ins[0].now - s.lastStandingTime.value < 2.0)
    requires forall i | 0 <= i < |ins| :: LyingTick(ins[i]) && ins[0].now <= ins[i].now
    requires forall i | 0 <= i < |ins| - 1 :: ins[i].now - ins[0].now <= cfg.fallenTimeout
    requires ins[|ins| - 1].now - ins[0].now > cfg.fallenTimeout
    ensures var ts := Trace(cfg, s, ins);
      Fresh(ts[|ts| - 1], PersonDown) && forall i | 0 <= i < |ts| - 1 :: ts[i].result == Normal
  {
    var t0 := ins[0].now;
    var t := AnalyzeStep(cfg, s, ins[0].landmarks, t0);
    assert AnalyzePosture(ins[0].landmarks.value, s.postureHistory).posture == LyingDown;
    var ts := Trace(cfg, s, ins);
    var rest := Trace(cfg, t.state, ins[1..]);
    assert ts == [t] + rest;
    if |ins| == 1 {
      assert t.result == PersonDown;
    } else {
      assert t.result == Normal;
      assert t.state.personIsDown && t.state.downSince == Some(t0) && t.state.fallDetectedTime.None?;
      assert t.state.cooldownUntil == s.cooldownUntil;
      DownUntilTimeout(cfg, t.state, ins[1..], t0);
      forall i | 0 <= i < |ts| - 1
        ensures ts[i].result == Normal
      {
        if i > 0 {
          assert ts[i] == rest[i - 1];
        }
      }
      assert ts[|ts| - 1] == rest[|rest| - 1];
    }
  }

  /**
   * Recovery re-arms the fall alert: a standing tick while down (with
   * upright metrics) clears the episode, and a lying-down tick within two
   * seconds after it is a fresh sudden fall.
   */
  lemma RecoveryRearmsFallAlert(cfg: Config, s: EngineState, up: Landmarks, down: Landmarks, t1: real, t2: real)
    requires Valid(cfg, s) && s.personIsDown && t1 >= s.cooldownUntil && t1 != 0.0
    requires AnalyzePosture(up, s.postureHistory).posture == Standing
    requires !IsDown(Standing, CalculateBodyMetrics(up))
    requires t1 <= t2 < t1 + 2.0
    requires var u := AnalyzeStep(cfg, s, Some(up), t1);
      AnalyzePosture(down, u.state.postureHistory).posture == LyingDown
    ensures var u := AnalyzeStep(cfg, s, Some(up), t1);
      && u.result == Normal && u.report.reason == Some(PersonRecovered)
      && !u.state.personIsDown && u.state.downSince.None? && u.state.fallDetectedTime.None?
      && AnalyzeStep(cfg, u.state, Some(down), t2).result == FallDetected
  {
  }

  /** Shoulders 0.12 above the hips and the nose at shoulder height; everything else defaulted. */
  const UprightButLevel: Landmarks :=
    Landmarks(map[Nose := Coord(None, Some(0.38)), CenterShoulder := Coord(None, Some(0.38))], None)

  /**
   * A falling posture is a sudden fall even for a person already down and
   * already alerted: within two seconds of standing, FALL_DETECTED is raised
   * again inside the same episode.
   */
  lemma FallDetectedRepeatsWhileDown(cfg: Config, s: EngineState, lm: Landmarks, now: real)
    requires Valid(cfg, s) && s.personIsDown && s.fallDetectedTime.Some? && now >= s.cooldownUntil
    requires Truthy(s.lastStandingTime) && now - s.lastStandingTime.value < 2.0
    requires AnalyzePosture(lm, s.postureHistory).posture == Falling
    ensures var t := AnalyzeStep(cfg, s, Some(lm), now);
      t.result == FallDetected && t.report.reason == Some(SuddenFallFromStanding)
      && t.state.personIsDown && t.state.fallDetectedTime == Some(now) && t.state.downSince == Some(now)
  {
  }

  /**
   * A snapshot can classify as standing and meet the metrics' "down" test at
   * once; for a person not yet down this raises FALL_DETECTED on a standing
   * posture (the standing tick itself supplies the "recently standing" time).
   */
  lemma StandingCanRaiseFallDetected(cfg: Config, s: EngineState, now: real)
    requires Valid(cfg, s) && !s.personIsDown && now != 0.0 && now >= s.cooldownUntil
    ensures var t := AnalyzeStep(cfg, s, Some(UprightButLevel), now);
      t.report.Analysis? && t.report.posture == Standing && t.result == FallDetected
  {
    var f := Extract(UprightButLevel);
    assert f.noseY == 0.38 && f.shoulderY == 0.38 && f.hipY == 0.5 && f.ankleY == 0.9 && f.bodyAngle == 0.0;
    assert StandingRule(f) && !LyingRule(f);
  }
}
