/** The interview routes (app/api/v1/interviews.py): scheduling an interview
    with its Zoom meeting and invitation email, queueing a meeting update,
    listing the meetings stored by the meeting task, and reporting the Zoom
    configuration.

    The Celery round trip of the scheduling route (enqueue, then wait for the
    result) is an oracle: the task result, or the exception the wait raises. */
module Interviews {
  import opened Common
  import opened Stores
  import opened Clock
  import opened Zoom
  import opened Notify

  // ----------------------------------------------------------- schedule

  /** The body of `POST /schedule` that the route reads. */
  datatype ScheduleRequest = ScheduleRequest(candidateName: string, candidateEmail: string, interviewerName: string,
                                             interviewerEmail: Option<string>, jobTitle: string, start: DateTime,
                                             duration: Option<int>, timezone: Option<string>, sendEmail: Option<bool>)

  function OptInt(v: Option<int>): Json {
    if v.Some? then JInt(v.value) else JNull
  }

  function OptStr(v: Option<string>): Json {
    if v.Some? then JStr(v.value) else JNull
  }

  /** The reply of the scheduling route. */
  datatype ScheduleReply = ScheduleReply(message: string, taskId: string, candidateName: string, jobTitle: string,
                                         startTime: string, duration: Json, calendarError: string,
                                         emailSent: Option<bool>, emailTaskId: Option<string>,
                                         emailError: Option<string>)

  /** Reading `request.calendar_id` raises: the request model has no such field,
      so the calendar step always ends in its `except`. */
  const CalendarError := "'InterviewScheduleRequest' object has no attribute 'calendar_id'"

  /** The invitation's `interview_details`: the link only when the meeting task
      succeeded, id and passcode defaulting to "N/A". */
  function InterviewDetails(start: DateTime, duration: Json, meeting: MeetingTaskResult): (d: JsonObject)
    requires Valid(start)
    ensures "zoom_link" in d && d["zoom_link"] == (if meeting.MeetingCreated? then meeting.joinUrl else JStr("N/A"))
    ensures "meeting_id" in d && d["meeting_id"] == (if meeting.MeetingCreated? then meeting.meetingId else JStr("N/A"))
    ensures "passcode" in d && d["passcode"] == (if meeting.MeetingCreated? then meeting.password else JStr("N/A"))
    ensures "date" in d && d["date"] == JStr(DateStamp(start)) && "time" in d && d["time"] == JStr(ClockStamp(start))
  {
    var zoomLink := if meeting.MeetingCreated? then meeting.joinUrl else JStr("N/A");
    var meetingId := if meeting.MeetingCreated? then meeting.meetingId else JStr("N/A");
    var passcode := if meeting.MeetingCreated? then meeting.password else JStr("N/A");
    map["date" := JStr(DateStamp(start)), "time" := JStr(ClockStamp(start)), "duration" := duration,
        "type" := JStr("Video Interview"), "zoom_link" := zoomLink, "meeting_id" := meetingId, "passcode" := passcode]
  }

  /** The attendee list the calendar call would receive: the interviewer only
      when an address was given. */
  function Attendees(candidateEmail: string, interviewerEmail: Option<string>): (a: seq<string>)
    ensures |a| >= 1 && a[0] == candidateEmail
    ensures |a| == 2 <==> interviewerEmail.Some? && interviewerEmail.value != ""
    ensures |a| == 2 ==> a[1] == interviewerEmail.value
  {
    if interviewerEmail.Some? && interviewerEmail.value != "" then [candidateEmail, interviewerEmail.value]
    else [candidateEmail]
  }

  /** `schedule_interview_endpoint`: enqueue the meeting task, wait for its
      result, then, when `send_email` is set, construct the email service and
      enqueue the invitation. A failed wait is a 500; an email service whose
      configuration raises (`emailConfigError`) sends nothing and is reported as
      `email_sent: False` with the error. */
  method ScheduleInterview(queue: TaskQueue, templates: TemplateDir, request: ScheduleRequest, taskId: string,
                           meetingResult: Result<MeetingTaskResult, string>, emailConfigError: Option<string>,
                           emailTaskId: string)
    returns (r: Result<ScheduleReply, HttpError>)
    requires Valid(request.start)
    modifies queue, templates
    ensures var meetingTask :=
        CreateInterviewMeeting(request.candidateName, request.interviewerName, request.jobTitle,
                               IsoFormat(request.start), OptInt(request.duration), OptStr(request.timezone));
      match meetingResult
      case Err(e) =>
        r == Err(HttpError(500, e)) && queue.tasks == old(queue.tasks) + [meetingTask] &&
        templates.files == old(templates.files)
      case Ok(meeting) =>
        var emailed := request.sendEmail == Some(true);
        var invited := emailed && emailConfigError.None?;
        r == Ok(ScheduleReply("Interview scheduled successfully", taskId, request.candidateName, request.jobTitle,
                              IsoFormat(request.start), OptInt(request.duration), CalendarError,
                              if emailed then Some(invited) else None, if invited then Some(emailTaskId) else None,
                              if emailed && !invited then emailConfigError else None)) &&
        queue.tasks == old(queue.tasks) + [meetingTask] +
          (if invited then
             [SendEmail(InterviewInvitation(request.candidateEmail, request.candidateName, request.jobTitle,
                                            InterviewDetails(request.start, OptInt(request.duration), meeting),
                                            request.interviewerName, DefaultCompany))]
           else []) &&
        templates.files == (if invited then SeedFrom(old(templates.files), DefaultTemplates) else old(templates.files))
  {
    queue.Enqueue(CreateInterviewMeeting(request.candidateName, request.interviewerName, request.jobTitle,
                                         IsoFormat(request.start), OptInt(request.duration), OptStr(request.timezone)));
    if meetingResult.Err? {
      return Err(HttpError(500, meetingResult.error));
    }
    var emailed := request.sendEmail == Some(true);
    var invited := false;
    if emailed {
      GetEmailService(templates, emailConfigError);
      invited := emailConfigError.None?;
      if invited {
        SendInterviewInvitation(queue, request.candidateEmail, request.candidateName, request.jobTitle,
                                InterviewDetails(request.start, OptInt(request.duration), meetingResult.value),
                                request.interviewerName, DefaultCompany);
      }
    }
    r := Ok(ScheduleReply("Interview scheduled successfully", taskId, request.candidateName, request.jobTitle,
                          IsoFormat(request.start), OptInt(request.duration), CalendarError,
                          if emailed then Some(invited) else None, if invited then Some(emailTaskId) else None,
                          if emailed && !invited then emailConfigError else None));
  }

  /** Run in mock mode, the meeting task the route enqueues meets at the
      requested start under the interview topic, and the invitation carries the
      mock's link, id and passcode. */
  lemma ScheduledMeetingInMockMode(request: ScheduleRequest, reply: HttpReply)
    requires Valid(request.start)
    ensures var m := InterviewMeeting(MockMode, request.candidateName, request.jobTitle, IsoFormat(request.start),
                                      OptInt(request.duration), OptStr(request.timezone), reply);
      m.Ok? && m.value.topic == JStr(InterviewTopic(request.candidateName, request.jobTitle)) &&
      m.value.startTime == JStr(ZuluStamp(request.start))
    ensures var d := InterviewDetails(request.start, OptInt(request.duration),
                                      MeetingCreated(JInt(MockMeetingId), JStr(MockJoinUrl), JStr(MockPassword),
                                                     JStr(InterviewTopic(request.candidateName, request.jobTitle))));
      d["zoom_link"] == JStr(MockJoinUrl) && d["passcode"] == JStr(MockPassword)
  {
    MockInterviewMeeting(request.candidateName, request.jobTitle, request.start, OptInt(request.duration),
                         OptStr(request.timezone), reply);
  }

  // ------------------------------------------------------- update route

  /** Some field of the update request is truthy. */
  predicate AnyUpdate(topic: Option<string>, start: Option<DateTime>, duration: Option<int>,
                      settings: Option<JsonObject>) {
    (topic.Some? && topic.value != "") || start.Some? || (duration.Some? && duration.value != 0) ||
    (settings.Some? && settings.value != map[])
  }

  /** `u` holds exactly the truthy fields of the request, the start rendered with `Z`. */
  predicate IsUpdateSet(u: JsonObject, topic: Option<string>, start: Option<DateTime>, duration: Option<int>,
                        settings: Option<JsonObject>)
    requires start.Some? ==> Valid(start.value)
  {
    u.Keys <= {"topic", "start_time", "duration", "settings"} &&
    ("topic" in u <==> topic.Some? && topic.value != "") &&
    ("topic" in u ==> u["topic"] == JStr(topic.value)) &&
    ("start_time" in u <==> start.Some?) &&
    ("start_time" in u ==> u["start_time"] == JStr(ZuluStamp(start.value))) &&
    ("duration" in u <==> duration.Some? && duration.value != 0) &&
    ("duration" in u ==> u["duration"] == JInt(duration.value)) &&
    ("settings" in u <==> settings.Some? && settings.value != map[]) &&
    ("settings" in u ==> u["settings"] == JObj(settings.value))
  }

  /** The update set is empty exactly when no field is truthy. */
  lemma UpdateSetEmpty(u: JsonObject, topic: Option<string>, start: Option<DateTime>, duration: Option<int>,
                       settings: Option<JsonObject>)
    requires start.Some? ==> Valid(start.value)
    requires IsUpdateSet(u, topic, start, duration, settings)
    ensures u == map[] <==> !AnyUpdate(topic, start, duration, settings)
  {
    if u != map[] {
      var k :| k in u;
      assert k in {"topic", "start_time", "duration", "settings"};
    }
  }

  /** The update set is determined by the request. */
  lemma UpdateSetUnique(u: JsonObject, v: JsonObject, topic: Option<string>, start: Option<DateTime>,
                        duration: Option<int>, settings: Option<JsonObject>)
    requires start.Some? ==> Valid(start.value)
    requires IsUpdateSet(u, topic, start, duration, settings) && IsUpdateSet(v, topic, start, duration, settings)
    ensures u == v
  {
    assert u.Keys == v.Keys by {
      forall k | k in u ensures k in v {
        assert k in {"topic", "start_time", "duration", "settings"};
      }
      forall k | k in v ensures k in u {
        assert k in {"topic", "start_time", "duration", "settings"};
      }
    }
    forall k | k in u ensures u[k] == v[k] {
      assert k in {"topic", "start_time", "duration", "settings"};
    }
  }

  /** The `updates` dict, built field by field. */
  method BuildUpdates(topic: Option<string>, start: Option<DateTime>, duration: Option<int>,
                      settings: Option<JsonObject>) returns (updates: JsonObject)
    requires start.Some? ==> Valid(start.value)
    ensures IsUpdateSet(updates, topic, start, duration, settings)
  {
    updates := map[];
    if topic.Some? && topic.value != "" {
      updates := updates["topic" := JStr(topic.value)];
    }
    if start.Some? {
      updates := updates["start_time" := JStr(ZuluStamp(start.value))];
    }
    if duration.Some? && duration.value != 0 {
      updates := updates["duration" := JInt(duration.value)];
    }
    if settings.Some? && settings.value != map[] {
      updates := updates["settings" := JObj(settings.value)];
    }
  }

  datatype UpdateQueued = UpdateQueued(message: string, taskId: string, meetingId: string, updates: JsonObject)

  /** `update_meeting`: an empty update set raises 400 inside the `try`, which
      the catch-all turns into a 500; otherwise one update task is enqueued. */
  method UpdateMeetingRoute(queue: TaskQueue, meetingId: string, topic: Option<string>, start: Option<DateTime>,
                            duration: Option<int>, settings: Option<JsonObject>, taskId: string)
    returns (r: Result<UpdateQueued, HttpError>)
    requires start.Some? ==> Valid(start.value)
    modifies queue
    ensures r.Err? <==> !AnyUpdate(topic, start, duration, settings)
    ensures r.Err? ==> r.error == HttpError(500, "400: No updates provided") && queue.tasks == old(queue.tasks)
    ensures r.Ok? ==>
      r.value.message == "Meeting update queued" && r.value.taskId == taskId && r.value.meetingId == meetingId &&
      IsUpdateSet(r.value.updates, topic, start, duration, settings) &&
      queue.tasks == old(queue.tasks) + [UpdateMeeting(meetingId, r.value.updates)]
  {
    var updates := BuildUpdates(topic, start, duration, settings);
    UpdateSetEmpty(updates, topic, start, duration, settings);
    if updates == map[] {
      return Err(HttpError(500, "400: No updates provided"));
    }
    queue.Enqueue(UpdateMeeting(meetingId, updates));
    r := Ok(UpdateQueued("Meeting update queued", taskId, meetingId, updates));
  }

  // ---------------------------------------------------- stored meetings

  /** One entry of `list_stored_meetings`. */
  datatype StoredEntry = StoredEntry(meetingId: string, candidateName: Json, jobTitle: Json, interviewerName: Json,
                                     createdAt: Json, meetingDetails: Json)

  predicate IsMeetingFileName(name: string) {
    StartsWith(name, "meeting_") && EndsWith(name, ".json")
  }

  /** The id in a file name: every "meeting_", then every ".json", removed. */
  function StoredMeetingId(name: string): string {
    ReplaceAll(ReplaceAll(name, "meeting_", ""), ".json", "")
  }

  /** The entry for a stored file, when it loads as a dict; a file that does not
      (unreadable, or not a dict, whose `.get` raises) is skipped. */
  function EntryOf(name: string, file: JsonFile): Option<StoredEntry> {
    match file
    case Parsed(JObj(d)) =>
      Some(StoredEntry(StoredMeetingId(name), Get(d, "candidate_name", JNull), Get(d, "job_title", JNull),
                       Get(d, "interviewer_name", JNull), Get(d, "created_at", JNull),
                       Get(d, "meeting_details", JObj(map[]))))
    case _ => None
  }

  /** The entries for the listed names, in `os.listdir` order. */
  function StoredListing(names: seq<string>, files: map<string, JsonFile>): seq<StoredEntry> {
    if names == [] then []
    else
      var prefix := StoredListing(names[..|names| - 1], files);
      var name := names[|names| - 1];
      if IsMeetingFileName(name) && name in files && EntryOf(name, files[name]).Some? then
        prefix + [EntryOf(name, files[name]).value]
      else prefix
  }

  /** Every entry comes from a readable `meeting_*.json` file among the names,
      and every such file gives one. */
  lemma {:induction false} StoredListingExact(names: seq<string>, files: map<string, JsonFile>, e: StoredEntry)
    ensures e in StoredListing(names, files) <==>
      exists name :: name in names && IsMeetingFileName(name) && name in files && EntryOf(name, files[name]) == Some(e)
    decreases |names|
  {
    if names != [] {
      var init := names[..|names| - 1];
      var last := names[|names| - 1];
      assert names == init + [last];
      StoredListingExact(init, files, e);
      if exists name :: name in names && IsMeetingFileName(name) && name in files && EntryOf(name, files[name]) == Some(e) {
        var name :| name in names && IsMeetingFileName(name) && name in files && EntryOf(name, files[name]) == Some(e);
        if name != last {
          assert name in init;
        }
      }
    }
  }

  datatype StoredMeetings = StoredMeetings(meetings: seq<StoredEntry>, count: int)

  /** `list_stored_meetings`: one pass over the directory; `count` is the length. */
  method ListStoredMeetings(names: seq<string>, files: map<string, JsonFile>) returns (r: StoredMeetings)
    ensures r.meetings == StoredListing(names, files)
    ensures r.count == |r.meetings|
  {
    var meetings: seq<StoredEntry> := [];
    var i := 0;
    while i < |names|
      invariant 0 <= i <= |names|
      invariant meetings == StoredListing(names[..i], files)
    {
      assert names[..i + 1][..i] == names[..i];
      var name := names[i];
      if IsMeetingFileName(name) && name in files {
        var entry := EntryOf(name, files[name]);
        if entry.Some? {
          meetings := meetings + [entry.value];
        }
      }
      i := i + 1;
    }
    assert names[..i] == names;
    r := StoredMeetings(meetings, |meetings|);
  }

  /** A meeting stored under an integer id is listed under that id again. */
  lemma StoredIdRoundTrip(id: int)
    ensures IsMeetingFileName(MeetingFile(JInt(id)))
    ensures StoredMeetingId(MeetingFile(JInt(id))) == IntToString(id)
  {
    var digits := IntToString(id);
    var name := MeetingFile(JInt(id));
    NatToStringDigits(if id < 0 then -id else id);
    assert forall i :: 0 <= i < |digits| ==> digits[i] == '-' || IsDigit(digits[i]) by {
      if id < 0 {
        assert forall i :: 1 <= i < |digits| ==> digits[i] == NatToString(-id)[i - 1];
      }
    }
    assert name == "meeting_" + (digits + ".json");
    assert name[..8] == "meeting_";
    assert name[|name| - 5..] == ".json";
    assert 'm' !in digits + ".json" by {
      forall i | 0 <= i < |digits + ".json"| ensures (digits + ".json")[i] != 'm' {
        if i < |digits| {
          assert (digits + ".json")[i] == digits[i];
        }
      }
    }
    RemoveOnlyPrefix("meeting_", digits + ".json");
    assert '.' !in digits;
    ReplaceOnlySuffix(digits, ".json", "");
  }

  // ------------------------------------------------------------- config

  /** The `auth_method` the config route reports. */
  function AuthLabel(c: ZoomCredentials): string {
    if OAuthConfigured(c) then "Server-to-Server OAuth" else if JwtConfigured(c) then "JWT" else "Mock"
  }

  function ModeLabel(m: AuthMode): string {
    match m
    case OAuth => "Server-to-Server OAuth"
    case Jwt => "JWT"
    case MockMode => "Mock"
  }

  /** The route follows the service's precedence: when the token fetch and the
      JWT client succeed it names the mode the service picks; a failed setup
      leaves the route naming a mode the service fell back from. */
  lemma AuthLabelAgrees(c: ZoomCredentials, token: Result<string, string>, jwtClientOk: bool)
    ensures token.Ok? && jwtClientOk ==> AuthLabel(c) == ModeLabel(ChooseAuth(c, token, jwtClientOk))
    ensures token.Err? && OAuthConfigured(c) ==>
      AuthLabel(c) == "Server-to-Server OAuth" && ChooseAuth(c, token, jwtClientOk) == MockMode
  {
  }
}
