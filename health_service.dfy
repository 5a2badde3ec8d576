/**
 * `HealthService`: per-user medication schedules (a dictionary of lists),
 * medication reminders sent through the injected notification service, and
 * a mock medical knowledge base whose answers are kept in a query history.
 * Generated schedule/query/notification ids and `utcnow()` timestamps are
 * parameters.
 */
module Health {
  import opened Wrappers
  import opened Communication

  datatype Schedule = Schedule(
    id: string,
    medicationName: string,
    dosage: string,
    frequency: string,
    times: seq<string>,
    startDate: string,
    active: bool,
    createdAt: string,
    updatedAt: Option<string>)

  /** The keys an `updates` dictionary may carry; an absent key leaves the field as it is. */
  datatype ScheduleUpdates = ScheduleUpdates(
    id: Option<string>,
    medicationName: Option<string>,
    dosage: Option<string>,
    frequency: Option<string>,
    times: Option<seq<string>>,
    startDate: Option<string>,
    active: Option<bool>,
    createdAt: Option<string>)

  /** A field after `dict.update`: the update's value when the key is present, the old value otherwise. */
  predicate Overrides<T(==)>(update: Option<T>, before: T, after: T) {
    if update.Some? then after == update.value else after == before
  }

  /** `schedule.update(updates)` followed by `schedule['updated_at'] = now`. */
  function ApplyUpdates(s: Schedule, u: ScheduleUpdates, now: string): (r: Schedule)
    ensures Overrides(u.id, s.id, r.id)
    ensures Overrides(u.medicationName, s.medicationName, r.medicationName)
    ensures Overrides(u.dosage, s.dosage, r.dosage)
    ensures Overrides(u.frequency, s.frequency, r.frequency)
    ensures Overrides(u.times, s.times, r.times)
    ensures Overrides(u.startDate, s.startDate, r.startDate)
    ensures Overrides(u.active, s.active, r.active)
    ensures Overrides(u.createdAt, s.createdAt, r.createdAt)
    ensures r.updatedAt == Some(now)
    ensures u == ScheduleUpdates(None, None, None, None, None, None, None, None) ==> r == s.(updatedAt := Some(now))
  {
    Schedule(
      u.id.GetOr(s.id),
      u.medicationName.GetOr(s.medicationName),
      u.dosage.GetOr(s.dosage),
      u.frequency.GetOr(s.frequency),
      u.times.GetOr(s.times),
      u.startDate.GetOr(s.startDate),
      u.active.GetOr(s.active),
      u.createdAt.GetOr(s.createdAt),
      Some(now))
  }

  /** `[s for s in schedules if s.get('active', False)]` */
  function ActiveOnly(schedules: seq<Schedule>): (r: seq<Schedule>)
    ensures |r| <= |schedules|
    ensures forall i | 0 <= i < |r| :: r[i].active
    ensures forall s :: s in r <==> s in schedules && s.active
  {
    if schedules == [] then []
    else if schedules[0].active then [schedules[0]] + ActiveOnly(schedules[1..])
    else ActiveOnly(schedules[1..])
  }

  /** The filter keeps the order of the schedules it keeps: it distributes over concatenation. */
  lemma {:induction false} ActiveOnlyDistributes(a: seq<Schedule>, b: seq<Schedule>)
    ensures ActiveOnly(a + b) == ActiveOnly(a) + ActiveOnly(b)
  {
    if a == [] {
      assert a + b == b;
    } else {
      assert (a + b)[0] == a[0] && (a + b)[1..] == a[1..] + b;
      ActiveOnlyDistributes(a[1..], b);
    }
  }

  datatype ScheduleList = ScheduleList(schedules: seq<Schedule>, total: nat)

  datatype NextMedication = NextMedication(name: string, dosage: string, scheduledTime: string, timeUntil: string)

  datatype Source = Source(title: string, citation: string, relevance: real)

  datatype QueryResponse = QueryResponse(
    queryId: string,
    question: string,
    answer: string,
    sources: seq<Source>,
    confidence: real,
    timestamp: string,
    verified: bool,
    disclaimer: Option<string>)

  const MedicalDisclaimer: string :=
    "\U{26A0}\U{FE0F} This information is for educational purposes only. "
    + "Always consult with a qualified healthcare professional "
    + "before making any medical decisions."

  /** `_get_mock_sources`: two cited sources, most relevant first, relevance within [0, 1]. */
  function MockSources(): (sources: seq<Source>)
    ensures |sources| == 2
    ensures forall i | 0 <= i < |sources| :: 0.0 <= sources[i].relevance <= 1.0
    ensures sources[0].relevance >= sources[1].relevance
  {
    [ Source("Medical Journal Article", "Journal of Medicine, 2024", 0.95),
      Source("Clinical Guidelines", "WHO Guidelines, 2023", 0.88) ]
  }

  const AnswerOpening: string := "Based on current medical knowledge regarding '"

  /** `_generate_mock_response`: the question is quoted verbatim right after the fixed opening. */
  function MockResponse(question: string): (answer: string)
    ensures |answer| > |AnswerOpening| + |question|
    ensures answer[..|AnswerOpening|] == AnswerOpening
    ensures answer[|AnswerOpening|..|AnswerOpening| + |question|] == question
  {
    AnswerOpening + question + "', "
    + "here is what the research indicates: [RAG-generated response would appear here]. "
    + "This information is derived from peer-reviewed medical sources."
  }

  /** `add_disclaimer`: the response with the medical disclaimer attached, nothing else changed. */
  function AddDisclaimer(response: QueryResponse): (r: QueryResponse)
    ensures r.disclaimer == Some(MedicalDisclaimer)
    ensures r.(disclaimer := response.disclaimer) == response
  {
    response.(disclaimer := Some(MedicalDisclaimer))
  }

  /** The notification channel for a reminder: 'audio' is heard, everything else is shown. */
  function AlertTypeFor(alertType: string): (t: NotificationType)
    ensures t == Audio <==> alertType == "audio"
    ensures t != Haptic
  {
    if alertType == "audio" then Audio else Visual
  }

  class HealthService {
    const notificationService: CommunicationService
    var medicationSchedules: map<string, seq<Schedule>>
    var queryHistory: map<string, QueryResponse>

    constructor (notificationService: CommunicationService)
      ensures this.notificationService == notificationService
      ensures medicationSchedules == map[] && queryHistory == map[]
    {
      this.notificationService := notificationService;
      medicationSchedules := map[];
      queryHistory := map[];
    }

    /** The user's schedules, or none (`self._medication_schedules.get(user_id, [])`). */
    function SchedulesOf(userId: string): seq<Schedule>
      reads this
    {
      if userId in medicationSchedules then medicationSchedules[userId] else []
    }

    /** `create_schedule`: one active schedule appended to the user's list, the list created if needed. */
    method CreateSchedule(userId: string, id: string, medicationName: string, dosage: string,
                          frequency: string, times: seq<string>, startDate: string, now: string)
      returns (schedule: Schedule)
      modifies this
      ensures schedule == Schedule(id, medicationName, dosage, frequency, times, startDate, true, now, None)
      ensures medicationSchedules == old(medicationSchedules)[userId := old(SchedulesOf(userId)) + [schedule]]
      ensures queryHistory == old(queryHistory)
    {
      schedule := Schedule(id, medicationName, dosage, frequency, times, startDate, true, now, None);
      if userId !in medicationSchedules {
        medicationSchedules := medicationSchedules[userId := []];
      }
      medicationSchedules := medicationSchedules[userId := medicationSchedules[userId] + [schedule]];
    }

    /**
     * `update_schedule`: the first schedule with that id receives the updates;
     * with no such schedule nothing changes and None ('Schedule not found') is returned.
     */
    method UpdateSchedule(userId: string, scheduleId: string, updates: ScheduleUpdates, now: string)
      returns (r: Option<Schedule>)
      modifies this
      ensures queryHistory == old(queryHistory)
      ensures var list := old(SchedulesOf(userId));
        r.None? <==> forall j | 0 <= j < |list| :: list[j].id != scheduleId
      ensures r.None? ==> medicationSchedules == old(medicationSchedules)
      ensures r.Some? ==>
        var list := old(SchedulesOf(userId));
        exists k | 0 <= k < |list| ::
          && list[k].id == scheduleId
          && (forall j | 0 <= j < k :: list[j].id != scheduleId)
          && r.value == ApplyUpdates(list[k], updates, now)
          && medicationSchedules == old(medicationSchedules)[userId := list[k := r.value]]
    {
      var list := SchedulesOf(userId);
      var i := 0;
      while i < |list|
        invariant 0 <= i <= |list|
        invariant forall j | 0 <= j < i :: list[j].id != scheduleId
      {
        if list[i].id == scheduleId {
          var updated := ApplyUpdates(list[i], updates, now);
          medicationSchedules := medicationSchedules[userId := list[i := updated]];
          return Some(updated);
        }
        i := i + 1;
      }
      return None;
    }

    /** `get_schedules`: the active schedules in their stored order, and how many there are. */
    function GetSchedules(userId: string): (r: ScheduleList)
      reads this
      ensures r.schedules == ActiveOnly(SchedulesOf(userId)) && r.total == |r.schedules|
      ensures forall s :: s in r.schedules <==> s in SchedulesOf(userId) && s.active
    {
      var active := ActiveOnly(SchedulesOf(userId));
      ScheduleList(active, |active|)
    }

    /**
     * `get_next_medication`: None with no schedules; otherwise the first
     * schedule in the list, active or not, at its first time ('N/A' without times).
     */
    function GetNextMedication(userId: string): (r: Option<NextMedication>)
      reads this
      ensures r.None? <==> SchedulesOf(userId) == []
      ensures r.Some? ==>
        var first := SchedulesOf(userId)[0];
        r.value.name == first.medicationName && r.value.dosage == first.dosage
        && r.value.scheduledTime == (if first.times == [] then "N/A" else first.times[0])
    {
      var schedules := SchedulesOf(userId);
      if schedules == [] then None
      else
        var next := schedules[0];
        Some(NextMedication(next.medicationName, next.dosage,
                            if next.times != [] then next.times[0] else "N/A",
                            "2 hours 30 minutes"))
    }

    /** `send_medication_alert`: a high-priority reminder on the channel the alert type maps to. */
    method SendMedicationAlert(userId: string, medicationName: string, alertType: string,
                               notificationId: string, now: string)
      returns (alert: Notification)
      ensures alert.message == "Time to take " + medicationName
      ensures alert.notificationType == AlertTypeFor(alertType)
      ensures alert.priority == "high" && alert.id == notificationId && alert.delivered
    {
      alert := notificationService.SendNotification(notificationId, "Time to take " + medicationName,
                                                    AlertTypeFor(alertType), "high", now);
    }

    /** `query`: the answer, with its sources and the disclaimer, is stored under its id and returned. */
    method Query(question: string, queryId: string, now: string) returns (response: QueryResponse)
      modifies this
      ensures response.queryId == queryId && response.question == question
      ensures response.answer == MockResponse(question) && response.sources == MockSources()
      ensures response.disclaimer == Some(MedicalDisclaimer)
      ensures queryHistory == old(queryHistory)[queryId := response]
      ensures medicationSchedules == old(medicationSchedules)
      ensures GetSources(queryId) == MockSources()
    {
      response := QueryResponse(queryId, question, MockResponse(question), MockSources(),
                                0.92, now, true, None);
      response := AddDisclaimer(response);
      queryHistory := queryHistory[queryId := response];
    }

    /** `get_sources`: the stored answer's sources, or none for an unknown id. */
    function GetSources(queryId: string): (sources: seq<Source>)
      reads this
      ensures queryId in queryHistory ==> sources == queryHistory[queryId].sources
      ensures queryId !in queryHistory ==> sources == []
    {
      if queryId in queryHistory then queryHistory[queryId].sources else []
    }
  }
}
