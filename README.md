# Fall detection engine and assistant services — a Dafny model

This project models the decision logic of an IoT fall-detection system:

- **The posture classifier** (`Posture`). Each frame brings a landmark snapshot: named joints with normalised image coordinates, y growing downwards, plus a trunk angle. The classifier maps it to one of six postures with a fixed confidence. It is a first-match-wins cascade of threshold rules: lying down, standing, sitting, bending, falling, unknown. A missing joint or coordinate falls back to a fixed default value.
- **The fall-state engine** (`FallEngine`, `FallDetector`, `FallRuns`). It is a timed state machine over bounded posture, pose and timestamp histories and the fields `person_is_down`, `down_since`, `fall_detected_time`, `last_standing_time`, `cooldown_until`, `last_result` and `last_posture`. On each tick it emits `normal`, `bending_over`, `fall_detected`, `person_down` or `no_person`.
  - `FallEngine` states each tick as a function on an explicit state value. The properties are proved about these functions.
  - `FallDetector.FullBodyFallDetector` is the detector object. Its methods update fields in place, and each method is proved to leave exactly the state the matching function gives.
  - `FallRuns` proves properties of whole runs of ticks.
- **Four assistant services**, each a class over maps and sequences:
  - `Settings.SettingsService`: privacy and accessibility records per user.
  - `Communication.CommunicationService`: the input mode, input dispatch, the visual-feedback queue and notification preferences.
  - `Navigation.NavigationService`: follow mode and person tracking.
  - `Health.HealthService`: medication schedules, reminders and the medical query history.

The time of a tick, generated ids and `utcnow()` timestamps are parameters. Coordinates, angles and times are `real`. The detector's timestamps are `Option<real>`, and the truth test the code applies to them (`if self.last_standing_time:`, `if self.down_since`) is modelled exactly by `FallEngine.Truthy`: `None` and `0.0` are both false.

Four behaviours of the detector are easy to miss; the model keeps each as the code has it:

- **Cooldown ticks.** During the 30-second cooldown, `analyze` returns the previous `last_result`. After a stay-down alert that result is `person_down`, so every tick in the window reports `person_down` again, with a `cooldown` status. The cooldown gate repeats the alert rather than silencing it. See `FallRuns.PersonDownRepeatsDuringCooldown`.
- **Stay-down timeout.** The test is strict: `time_down > fallen_timeout`.
- **Empty snapshot.** A snapshot with no joints and no angle (or an angle below 30°) classifies as standing with confidence 0.9, because the defaults describe an upright body. It does not classify as unknown. See `Posture.EmptySnapshotIsStanding`.
- **Repeated `fall_detected`.** `fall_detected` can be raised on a standing posture, and more than once in one down episode. The sudden-fall test accepts a `falling` posture even when the person is already marked down. For a person not yet marked down, it also accepts any posture that meets the metrics' "down" test. See `FallRuns.StandingCanRaiseFallDetected` and `FallRuns.FallDetectedRepeatsWhileDown`, and the `o.result == FallDetected <==> SuddenFall(...)` clause of `FallEngine.DetectFallState`.

## Model

| member | source | states |
|---|---|---|
| `Posture.JointY` | app/ai/fall_detector.py:149-160 | a joint's y when the joint and its y are present; the given default when the joint is missing or has no y |
| `Posture.Extract` | app/ai/fall_detector.py:148-169 | each reading is its joint's y with that joint's own default (nose 0.2, shoulder 0.3, hip 0.5); the knee and ankle readings are the mean of left and right, each side defaulting to 0.7 and 0.9; the angle defaults to 0; with no joints present every reading is its default |
| `Posture.Classify` | app/ai/fall_detector.py:172-207 | lying down is returned exactly when its rule holds; each other posture is returned only when its rule holds and every earlier rule fails; falling needs at least five earlier postures with the oldest of the last five standing; unknown exactly when no rule holds; the confidence is the fixed one for the posture and lies in {0.85, 0.9, 0.75, 0.8, 0.5} |
| `Posture.AnalyzePosture` | app/ai/fall_detector.py:141-207 | the posture of a snapshot is the first posture in the priority list whose rule its readings meet (unknown if none), with that posture's fixed confidence |
| `Posture.ClassifyIsFirstMatch` | app/ai/fall_detector.py:180-207 | the classifier equals an independent definition: the first posture of the priority list lying, standing, sitting, bending, falling whose rule holds, else unknown |
| `Posture.LyingBeatsBending` | app/ai/fall_detector.py:183-198 | a snapshot that meets both the lying and the bending rule is lying down with confidence 0.85 |
| `Posture.EmptySnapshotIsStanding` | app/ai/fall_detector.py:158-190 | a snapshot without joints (angle below 30) classifies as standing, 0.9 |
| `Posture.CalculateBodyMetrics` | app/ai/fall_detector.py:209-239 | `body_horizontal` is the classifier's torso test; `head_at_hip_level` holds exactly when the nose is lower than 0.15 above the hip, so the classifier's stricter head test implies it; head, shoulder, hip and angle are the classifier's readings; hands are extended exactly when the average wrist y is below the hip |
| `Posture.LyingMeetsMetricsDown` | app/ai/fall_detector.py:233-237 | every lying-down classification also meets the metrics' horizontal and head-at-hip tests |
| `FallEngine.PushBounded` | app/ai/fall_detector.py:69-74 | a bounded append: the new entry goes last, the oldest is dropped when full, the length is min(old + 1, capacity), a zero-capacity history stays empty |
| `FallEngine.ClearFall` | app/ai/fall_detector.py:292-296 | clears exactly the down flag, the down-since time and the alert time |
| `FallEngine.DetectFallState` | app/ai/fall_detector.py:241-290 | FALL_DETECTED exactly when falling or newly down within 2 s of a (truthy) standing time, marking the person down with down-since and alert time now; PERSON_DOWN exactly when down, not a sudden fall, no alert yet in the episode and time down strictly over the timeout, timed from the episode start (this tick if it starts now), arming the cooldown at now + 30; standing while down clears the episode; any other tick only starts tracking a newly-down person (down, since now) and otherwise changes nothing; the reported time down is 0 on a sudden fall and on a tick that is not down; BENDING_OVER only when no alert fired; a state that stays down keeps its alert mark |
| `FallEngine.AnalyzeStep` | app/ai/fall_detector.py:87-139 | before the cooldown deadline the previous result is returned and nothing changes; no landmarks give NO_PERSON and clear the fall fields only if the person was down; otherwise classification sees only the earlier history, each history gets exactly one bounded append, standing updates the last standing time; only PERSON_DOWN moves the cooldown; the histories stay bounded and equally long |
| `FallEngine.ResetState` | app/ai/fall_detector.py:298-306 | reset gives the initial state except that the cooldown deadline is kept |
| `FallDetector.FullBodyFallDetector.constructor` | app/ai/fall_detector.py:56-85 | empty histories, nobody down, no timestamps, cooldown 0, NORMAL and UNKNOWN |
| `FallDetector.FullBodyFallDetector.Analyze` | app/ai/fall_detector.py:87-139 | the result, report and new fields are those of `AnalyzeStep`; in cooldown the object is unchanged |
| `FallDetector.FullBodyFallDetector.DetectFallState` | app/ai/fall_detector.py:241-290 | the early-return code leaves the fields and returns what `FallEngine.DetectFallState` says |
| `FallDetector.FullBodyFallDetector.ResetFallState` | app/ai/fall_detector.py:292-296 | the fields become `ClearFall` of the old ones |
| `FallDetector.FullBodyFallDetector.Reset` | app/ai/fall_detector.py:298-306 | the fields become `ResetState` of the old ones; timeout and capacity are constants |
| `FallRuns.Trace` | app/ai/fall_detector.py:69-74 | along any run of ticks every state keeps its histories within capacity and equally long |
| `FallRuns.HistoriesStayBounded` | app/ai/fall_detector.py:121-123 | after any number of ticks from construction no history exceeds its capacity |
| `FallRuns.AtMostOnePersonDownPerEpisode` | app/ai/fall_detector.py:273-279 | while the person stays marked down, PERSON_DOWN is raised (outside cooldown) at most once, and never if the episode was already alerted |
| `FallRuns.NoPersonDownAfterFallDetected` | app/ai/fall_detector.py:253-279 | an episode opened by FALL_DETECTED never escalates to PERSON_DOWN while it lasts |
| `FallRuns.AlertArmsCooldown` | app/ai/fall_detector.py:274-279 | a fresh PERSON_DOWN leaves that result remembered and the cooldown deadline thirty seconds on |
| `FallRuns.CooldownFreezes` | app/ai/fall_detector.py:105-107 | every tick before the cooldown deadline repeats the last result with the cooldown report and leaves the state unchanged |
| `FallRuns.PersonDownRepeatsDuringCooldown` | app/ai/fall_detector.py:274-279 | after a PERSON_DOWN at time t, every tick before t + 30 returns PERSON_DOWN again with the cooldown report |
| `FallRuns.AbsentTicksAreStable` | app/ai/fall_detector.py:109-113 | repeated no-person ticks outside cooldown, with the person not down, always give NO_PERSON and never change the state |
| `FallRuns.LeavingFrameEndsEpisode` | app/ai/fall_detector.py:109-113 | a no-person tick while down clears exactly the three fall fields: all three histories, last standing time and last result are kept |
| `FallRuns.SuddenFallWindow` | app/ai/fall_detector.py:252-262 | lying down 1.9 s after standing raises FALL_DETECTED; 2.1 s after does not |
| `FallRuns.StayDownThreshold` | app/ai/fall_detector.py:264-279 | for an unalerted down episode that began at d, lying at time now raises PERSON_DOWN exactly when now - d exceeds the timeout |
| `FallRuns.DownUntilTimeout` | app/ai/fall_detector.py:264-279 | a person down since t0 and not alerted who keeps lying gets NORMAL on every tick within the timeout and PERSON_DOWN on the first tick past it |
| `FallRuns.StayingDownRaisesPersonDown` | app/ai/fall_detector.py:246-279 | from not down, lying continuously from t0 (no sudden fall) gives NORMAL while now - t0 is within the timeout and exactly one PERSON_DOWN, on the first tick past it |
| `FallRuns.RecoveryRearmsFallAlert` | app/ai/fall_detector.py:281-284 | standing while down clears the episode (reason person_recovered), and lying down within 2 s after is a fresh FALL_DETECTED |
| `FallRuns.FallDetectedRepeatsWhileDown` | app/ai/fall_detector.py:252-262 | a falling posture within 2 s of standing raises FALL_DETECTED again for a person already down and already alerted, restarting the episode at now |
| `FallRuns.StandingCanRaiseFallDetected` | app/ai/fall_detector.py:247-262 | a concrete snapshot classified as standing raises FALL_DETECTED for a person not yet down |
| `Settings.SetPreference` | app/services/settings_service.py:112-123 | sets exactly the named valid flag, every other flag and field kept |
| `Settings.ToggleThenRead` | app/services/settings_service.py:123 | reading a flag after setting one gives the new value for it and the old value for the others |
| `Settings.ToggleToSameValueIsIdentity` | app/services/settings_service.py:123 | setting a flag to its current value changes nothing |
| `Settings.SettingsService.constructor` | app/services/settings_service.py:17-19 | both dictionaries start empty |
| `Settings.SettingsService.GetPrivacySettings` | app/services/settings_service.py:21-30 | the stored record, else the defaults (standard sharing, location on, health and third-party sharing off, anonymised, 90 days) |
| `Settings.SettingsService.GetAccessibilitySettings` | app/services/settings_service.py:56-68 | the stored record, else the multimodal defaults |
| `Settings.SettingsService.UpdateDataSharing` | app/services/settings_service.py:32-54 | only this user's privacy record changes; the level is set; NONE switches off location tracking, health and third-party sharing; other levels keep them |
| `Settings.SettingsService.UpdateAccessibilityMode` | app/services/settings_service.py:70-100 | only this user's accessibility record changes; TEXT_ONLY, VOICE_ENABLED and MULTIMODAL set their flag groups and keep the remaining flags |
| `Settings.SettingsService.ToggleCommunicationPreference` | app/services/settings_service.py:102-131 | the record is materialised first; an invalid name fails and changes no flag; a valid one sets exactly that flag; other users untouched |
| `Settings.SettingsService.GetAllSettings` | app/services/settings_service.py:133-141 | both getters' results with the user id and time |
| `Settings.SettingsService.ResetToDefaults` | app/services/settings_service.py:143-154 | both records removed; the getters give the defaults again |
| `Communication.ProcessSpokenInput` | app/services/communication_service.py:166-180 | the text given, or the placeholder transcription, with confidence 0.95 |
| `Communication.ProcessSignLanguageInput` | app/services/communication_service.py:182-196 | the text given, or the placeholder interpretation, with confidence 0.88 |
| `Communication.ProcessTouchInput` | app/services/communication_service.py:198-209 | the touch data's action and coordinates, each defaulting to a tap and the origin; without touch data a tap at the origin |
| `Communication.RemoveById` | app/services/communication_service.py:153-156 | keeps exactly the entries with another id, never grows, is the identity when no entry has the id |
| `Communication.RemoveByIdDistributes` | app/services/communication_service.py:153-156 | the filter distributes over concatenation, so the survivors keep their order |
| `Communication.RemoveByIdIdempotent` | app/services/communication_service.py:151-162 | clearing the same id twice equals clearing it once |
| `Communication.AppendThenRemove` | app/services/communication_service.py:151-162 | removing a just-appended entry by its (unique) id restores the queue |
| `Communication.CommunicationService.constructor` | app/services/communication_service.py:17-25 | touch is active and all three modes are available; no preferences, empty queue |
| `Communication.CommunicationService.ValidateModeAvailability` | app/services/communication_service.py:69-71 | a mode is available exactly when the table marks it so |
| `Communication.CommunicationService.SetActiveMode` | app/services/communication_service.py:29-44 | an unavailable mode fails and keeps the active mode; an available one becomes active |
| `Communication.CommunicationService.GetActiveMode` | app/services/communication_service.py:46-48 | the stored active mode, the one the last accepted mode change set |
| `Communication.CommunicationService.ProcessInput` | app/services/communication_service.py:50-67 | the processor of the active mode runs and the reported mode is the active mode |
| `Communication.CommunicationService.SendNotification` | app/services/communication_service.py:75-96 | the notification carries the given id, message, type and priority and is delivered |
| `Communication.CommunicationService.SendVisualFeedback` | app/services/communication_service.py:98-114 | exactly one entry appended at the end; the reported size is the new length |
| `Communication.CommunicationService.GetVisualFeedbackQueue` | app/services/communication_service.py:147-149 | the stored queue itself, in insertion order |
| `Communication.CommunicationService.ClearVisualFeedback` | app/services/communication_service.py:151-162 | the queue becomes `RemoveById` of the old one; the reported size is its length |
| `Communication.CommunicationService.GetNotificationPreferences` | app/services/communication_service.py:116-123 | the stored preferences, else visual and audio on, haptic off, filter normal |
| `Communication.CommunicationService.UpdateNotificationPreferences` | app/services/communication_service.py:125-137 | the user's preferences are replaced wholesale, other users untouched |
| `Communication.CommunicationService.GetSupportedTypes` | app/services/communication_service.py:139-145 | visual, audio and haptic, three entries |
| `Navigation.NavigationService.constructor` | app/services/navigation_service.py:17-20 | inactive, nobody tracked, position (0,0,0) |
| `Navigation.NavigationService.ToggleFollowMode` | app/services/navigation_service.py:24-52 | activating without a non-empty id fails and changes nothing; with one it sets ACTIVE and tracks that id; deactivating always succeeds and clears the tracked person; "active exactly while tracking" is kept |
| `Navigation.NavigationService.GetFollowStatus` | app/services/navigation_service.py:54-61 | `is_active` is true exactly when the mode is ACTIVE |
| `Navigation.NavigationService.TrackPerson` | app/services/navigation_service.py:150-169 | not active: fails, position unchanged; active: the reported position becomes the last position |
| `Health.ApplyUpdates` | app/services/health_service.py:72-73 | for every field, a present key overrides it and an absent key keeps it; `updated_at` becomes now; no keys change only `updated_at` |
| `Health.ActiveOnly` | app/services/health_service.py:89 | keeps exactly the active schedules and never grows |
| `Health.ActiveOnlyDistributes` | app/services/health_service.py:89 | the filter distributes over concatenation, so the stored order is kept |
| `Health.MockSources` | app/services/health_service.py:223-236 | two sources, relevance within [0, 1], most relevant first |
| `Health.MockResponse` | app/services/health_service.py:215-221 | the answer quotes the question verbatim right after its fixed opening |
| `Health.AddDisclaimer` | app/services/health_service.py:200-203 | the response gains the disclaimer and nothing else changes |
| `Health.AlertTypeFor` | app/services/health_service.py:130-136 | 'audio' maps to AUDIO; 'visual', 'both' and anything else to VISUAL; never HAPTIC |
| `Health.HealthService.constructor` | app/services/health_service.py:17-25 | the injected notifier is kept; no schedules, no history |
| `Health.HealthService.CreateSchedule` | app/services/health_service.py:29-59 | one active schedule appended to this user's list (created if absent); other users untouched |
| `Health.HealthService.UpdateSchedule` | app/services/health_service.py:61-84 | fails, changing nothing, exactly when no schedule has the id; otherwise only the first match is updated |
| `Health.HealthService.GetSchedules` | app/services/health_service.py:86-95 | exactly the active schedules in order, total equal to their count |
| `Health.HealthService.GetNextMedication` | app/services/health_service.py:97-119 | None exactly when the user has no schedules; otherwise the first schedule (active or not) at its first time, 'N/A' without times |
| `Health.HealthService.SendMedicationAlert` | app/services/health_service.py:121-148 | a high-priority "Time to take …" notification on the mapped channel |
| `Health.HealthService.Query` | app/services/health_service.py:152-183 | the answer with its sources and the disclaimer is stored under its id; its sources can be read back |
| `Health.HealthService.GetSources` | app/services/health_service.py:195-198 | the stored sources for a known id, none for an unknown one |

## Left out

- Landmark extraction from camera frames, the trunk-angle computation (floating-point `arctan2`) and the midpoint joints are not part of this model. Snapshots and `body_angle` are inputs.
- Floating-point rounding is not modelled, and neither is `int(history_seconds * fps)`: the history capacity is a natural-number parameter. Coordinates and times are exact reals.
- The wall clock (`time.time()`, `datetime.utcnow()`) is not read: times are parameters. Generated ids are parameters too.
- Timestamp entries of result dictionaries that are not stored anywhere are not modelled, for example the `timestamp` of a successful `set_active_mode` or `toggle_follow_mode`. The same goes for the fixed `message` strings of results the model represents by a constructor, such as `PersonIdRequired` and `FollowModeNotActive`.
- Snapshot fields that the detector never reads (z, visibility, pixel coordinates) are not modelled. `_analyze_posture` reads `shoulder_x` and `hip_x` into locals it never uses (app/ai/fall_detector.py:165-166); the model carries a joint's x in `Coord.x` but never reads it. The pose history stores snapshots but is never read.
- Default arguments are not modelled: every argument is passed explicitly. This covers `priority="normal"` of `send_notification`, `duration=5` of `send_visual_feedback`, `alert_type="visual"` of `send_medication_alert` and `person_id=None` of `toggle_follow_mode`. The detector's constructor defaults (`fallen_timeout=5.0`, `history_seconds=3.0`, `fps=30`) are the constant `FallEngine.DefaultConfig` (timeout 5.0, capacity 90).
- `HealthService` is typed to hold a `CommunicationService` as its notifier. The source accepts any `INotificationSystem`, and `CommunicationService` is the implementation the application passes to it (app/blueprints/primary_user.py:13-14); other implementations are not modelled.
- The string values of the enums `BodyPosture`, `DetectionResult` and `FollowMode` (what result dictionaries carry under `posture`, `result` and `follow_mode`) are not modelled: results are the enum constants themselves.
- Python dictionaries with arbitrary keys are typed records here. `update_schedule` accepts only the schedule's own keys. Preference records are fixed records. Aliasing between a returned dictionary and the stored one is not modelled.
- `process_input`'s "Unknown input mode" branch cannot be reached: every mode has a processor. It is not modelled.
- The navigation service's mock vision operations are not modelled. These are `identify_object`, `read_text`, `describe_scene`, `detect_obstacles` and `get_navigation_instructions`. Each returns constant data and touches no state.
- The health service's `verify_response` is not modelled. It returns a constant record.
- Camera capture, streaming, recording, the processing thread, persistence, e-mail, sockets, web routes, configuration and the other mock services are not part of this model.
