/**
 * `CommunicationService`: the active input mode with its availability
 * table, dispatch of an input to the processor of the active mode, the
 * visual-feedback queue, and per-user notification preferences. Generated
 * ids and `utcnow()` timestamps are parameters.
 */
module Communication {
  import opened Wrappers

  datatype InputMode = Spoken | SignLanguage | Touch {
    function Value(): string {
      match this
      case Spoken => "spoken"
      case SignLanguage => "sign_language"
      case Touch => "touch"
    }
  }

  datatype NotificationType = Visual | Audio | Haptic {
    function Value(): string {
      match this
      case Visual => "visual"
      case Audio => "audio"
      case Haptic => "haptic"
    }
  }

  datatype Coordinates = Coordinates(x: real, y: real)

  /** The 'touch' entry of an input: an optional action and optional coordinates. */
  datatype TouchData = TouchData(action: Option<string>, coordinates: Option<Coordinates>)

  /** The entries of `input_data` the processors read. */
  datatype InputData = InputData(text: Option<string>, touch: Option<TouchData>)

  /** What a processor returns; `mode` names the processor that ran. */
  datatype ProcessedInput =
    | SpokenInput(transcribedText: string, confidence: real, timestamp: string)
    | SignLanguageInput(interpretedText: string, confidence: real, timestamp: string)
    | TouchInput(action: string, coordinates: Coordinates, timestamp: string)
  {
    function Mode(): InputMode {
      match this
      case SpokenInput(_, _, _) => Spoken
      case SignLanguageInput(_, _, _) => SignLanguage
      case TouchInput(_, _, _) => Touch
    }
  }

  datatype ModeChange = ModeChange(success: bool, message: string, activeMode: InputMode)

  datatype Notification = Notification(id: string, message: string, notificationType: NotificationType,
                                       priority: string, timestamp: string, delivered: bool)

  datatype Feedback = Feedback(id: string, text: string, duration: int, timestamp: string)

  datatype NotificationPreferences = NotificationPreferences(visual: bool, audio: bool, haptic: bool,
                                                             priorityFilter: string)

  const DefaultNotificationPreferences: NotificationPreferences :=
    NotificationPreferences(true, true, false, "normal")

  /** `_process_spoken_input` */
  function ProcessSpokenInput(input: InputData, now: string): (r: ProcessedInput)
    ensures r.SpokenInput? && r.confidence == 0.95
    ensures r.transcribedText == input.text.GetOr("[Transcribed speech]")
  {
    SpokenInput(input.text.GetOr("[Transcribed speech]"), 0.95, now)
  }

  /** `_process_sign_language_input` */
  function ProcessSignLanguageInput(input: InputData, now: string): (r: ProcessedInput)
    ensures r.SignLanguageInput? && r.confidence == 0.88
    ensures r.interpretedText == input.text.GetOr("[Interpreted sign language]")
  {
    SignLanguageInput(input.text.GetOr("[Interpreted sign language]"), 0.88, now)
  }

  /** `_process_touch_input`: a missing action is a tap, missing coordinates are the origin. */
  function ProcessTouchInput(input: InputData, now: string): (r: ProcessedInput)
    ensures r.TouchInput?
    ensures input.touch.None? ==> r.action == "tap" && r.coordinates == Coordinates(0.0, 0.0)
    ensures input.touch.Some? ==>
      r.action == input.touch.value.action.GetOr("tap")
      && r.coordinates == input.touch.value.coordinates.GetOr(Coordinates(0.0, 0.0))
  {
    var touch := input.touch.GetOr(TouchData(None, None));
    TouchInput(touch.action.GetOr("tap"), touch.coordinates.GetOr(Coordinates(0.0, 0.0)), now)
  }

  /** The queue with every entry carrying `id` removed, order kept. */
  function RemoveById(q: seq<Feedback>, id: string): (r: seq<Feedback>)
    ensures |r| <= |q|
    ensures forall i | 0 <= i < |r| :: r[i].id != id
    ensures forall f :: f in r <==> f in q && f.id != id
    ensures (forall i | 0 <= i < |q| :: q[i].id != id) ==> r == q
  {
    if q == [] then []
    else if q[0].id == id then RemoveById(q[1..], id)
    else [q[0]] + RemoveById(q[1..], id)
  }

  /** Removal keeps the relative order of the survivors: removing from a concatenation removes from each part. */
  lemma {:induction false} RemoveByIdDistributes(a: seq<Feedback>, b: seq<Feedback>, id: string)
    ensures RemoveById(a + b, id) == RemoveById(a, id) + RemoveById(b, id)
  {
    if a == [] {
      assert a + b == b;
    } else {
      assert (a + b)[0] == a[0] && (a + b)[1..] == a[1..] + b;
      RemoveByIdDistributes(a[1..], b, id);
    }
  }

  /** Removing the same id twice is the same as removing it once. */
  lemma {:induction false} RemoveByIdIdempotent(q: seq<Feedback>, id: string)
    ensures RemoveById(RemoveById(q, id), id) == RemoveById(q, id)
  {
  }

  /** A feedback entry just appended can be removed again by its id, leaving the rest as it was. */
  lemma AppendThenRemove(q: seq<Feedback>, f: Feedback)
    requires forall i | 0 <= i < |q| :: q[i].id != f.id
    ensures RemoveById(q + [f], f.id) == q
  {
    RemoveByIdDistributes(q, [f], f.id);
    assert RemoveById([f], f.id) == RemoveById([], f.id);
  }

  class CommunicationService {
    var activeMode: InputMode
    var modeStatus: map<InputMode, bool>
    var notificationPreferences: map<string, NotificationPreferences>
    var visualFeedbackQueue: seq<Feedback>

    /** Touch is active at start and all three modes are available. */
    constructor ()
      ensures activeMode == Touch
      ensures modeStatus == map[Spoken := true, SignLanguage := true, Touch := true]
      ensures notificationPreferences == map[] && visualFeedbackQueue == []
    {
      activeMode := Touch;
      modeStatus := map[Spoken := true, SignLanguage := true, Touch := true];
      notificationPreferences := map[];
      visualFeedbackQueue := [];
    }

    /** `validate_mode_availability`: a mode missing from the table is unavailable. */
    function ValidateModeAvailability(mode: InputMode): (ok: bool)
      reads this
      ensures ok <==> mode in modeStatus && modeStatus[mode]
    {
      if mode in modeStatus then modeStatus[mode] else false
    }

    /** `set_active_mode`: refused, with the mode unchanged, for an unavailable mode. */
    method SetActiveMode(mode: InputMode) returns (r: ModeChange)
      modifies this
      ensures modeStatus == old(modeStatus) && notificationPreferences == old(notificationPreferences)
      ensures visualFeedbackQueue == old(visualFeedbackQueue)
      ensures r.success == old(ValidateModeAvailability(mode))
      ensures r.success ==> activeMode == mode && r.message == "Input mode changed to " + mode.Value()
      ensures !r.success ==>
        activeMode == old(activeMode) && r.message == "Input mode " + mode.Value() + " is not available"
      ensures r.activeMode == activeMode
    {
      if !ValidateModeAvailability(mode) {
        return ModeChange(false, "Input mode " + mode.Value() + " is not available", activeMode);
      }
      activeMode := mode;
      r := ModeChange(true, "Input mode changed to " + mode.Value(), mode);
    }

    /** `get_active_mode` */
    function GetActiveMode(): (mode: InputMode)
      reads this
      ensures mode == activeMode
    {
      activeMode
    }

    /** `process_input`: the processor of the active mode handles the input. */
    method ProcessInput(input: InputData, now: string) returns (r: ProcessedInput)
      ensures r.Mode() == activeMode
      ensures r.Mode() == Spoken ==> r == ProcessSpokenInput(input, now)
      ensures r.Mode() == SignLanguage ==> r == ProcessSignLanguageInput(input, now)
      ensures r.Mode() == Touch ==> r == ProcessTouchInput(input, now)
    {
      match activeMode {
        case Spoken => r := ProcessSpokenInput(input, now);
        case SignLanguage => r := ProcessSignLanguageInput(input, now);
        case Touch => r := ProcessTouchInput(input, now);
      }
    }

    /** `send_notification`: builds the notification record; the service's state is not touched. */
    function SendNotification(id: string, message: string, notificationType: NotificationType,
                              priority: string, now: string): (n: Notification)
      ensures n.id == id && n.message == message && n.notificationType == notificationType
      ensures n.priority == priority && n.delivered
    {
      Notification(id, message, notificationType, priority, now, true)
    }

    /** `send_visual_feedback`: one entry appended at the end; the new queue length is reported. */
    method SendVisualFeedback(id: string, text: string, duration: int, now: string)
      returns (feedback: Feedback, queueSize: nat)
      modifies this
      ensures feedback == Feedback(id, text, duration, now)
      ensures visualFeedbackQueue == old(visualFeedbackQueue) + [feedback]
      ensures queueSize == |visualFeedbackQueue| == |old(visualFeedbackQueue)| + 1
      ensures activeMode == old(activeMode) && modeStatus == old(modeStatus)
      ensures notificationPreferences == old(notificationPreferences)
    {
      feedback := Feedback(id, text, duration, now);
      visualFeedbackQueue := visualFeedbackQueue + [feedback];
      queueSize := |visualFeedbackQueue|;
    }

    /** `get_visual_feedback_queue` */
    function GetVisualFeedbackQueue(): (q: seq<Feedback>)
      reads this
      ensures q == visualFeedbackQueue
    {
      visualFeedbackQueue
    }

    /** `clear_visual_feedback`: exactly the entries with that id go, the rest keep their order. */
    method ClearVisualFeedback(id: string) returns (queueSize: nat)
      modifies this
      ensures visualFeedbackQueue == RemoveById(old(visualFeedbackQueue), id)
      ensures queueSize == |visualFeedbackQueue|
      ensures activeMode == old(activeMode) && modeStatus == old(modeStatus)
      ensures notificationPreferences == old(notificationPreferences)
    {
      visualFeedbackQueue := RemoveById(visualFeedbackQueue, id);
      queueSize := |visualFeedbackQueue|;
    }

    /** `get_notification_preferences`: the stored preferences, or the defaults. */
    function GetNotificationPreferences(userId: string): (p: NotificationPreferences)
      reads this
      ensures userId in notificationPreferences ==> p == notificationPreferences[userId]
      ensures userId !in notificationPreferences ==>
        p.visual && p.audio && !p.haptic && p.priorityFilter == "normal"
    {
      if userId in notificationPreferences then notificationPreferences[userId]
      else DefaultNotificationPreferences
    }

    /** `update_notification_preferences`: the user's preferences are replaced wholesale. */
    method UpdateNotificationPreferences(userId: string, preferences: NotificationPreferences)
      returns (r: NotificationPreferences)
      modifies this
      ensures notificationPreferences == old(notificationPreferences)[userId := preferences]
      ensures GetNotificationPreferences(userId) == preferences && r == preferences
      ensures activeMode == old(activeMode) && modeStatus == old(modeStatus)
      ensures visualFeedbackQueue == old(visualFeedbackQueue)
    {
      notificationPreferences := notificationPreferences[userId := preferences];
      r := preferences;
    }

    /** `get_supported_types` */
    function GetSupportedTypes(): (types: seq<NotificationType>)
      ensures |types| == 3 && Visual in types && Audio in types && Haptic in types
    {
      [Visual, Audio, Haptic]
    }
  }
}
