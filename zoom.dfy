/** The Zoom integration (app/services/zoom_service.py): the choice of
    authentication mode, the request rules of `_make_api_request`, the mock
    responses used when no credentials work, meeting creation and listing, and
    the Celery task that creates an interview meeting and stores it.

    The HTTP exchange with Zoom is an oracle: the reply to the one request an
    operation makes. The OAuth token fetch and the construction of the JWT
    client are oracles too. */
module Zoom {
  import opened Common
  import opened Stores
  import opened Clock

  // ------------------------------------------------------ authentication

  /** The five `ZOOM_*` environment variables ("" when unset). */
  datatype ZoomCredentials = ZoomCredentials(accountId: string, clientId: string, clientSecret: string,
                                             apiKey: string, apiSecret: string)

  datatype AuthMode = OAuth | Jwt | MockMode

  predicate OAuthConfigured(c: ZoomCredentials) {
    c.accountId != "" && c.clientId != "" && c.clientSecret != ""
  }

  predicate JwtConfigured(c: ZoomCredentials) {
    c.apiKey != "" && c.apiSecret != ""
  }

  /** `_setup_authentication`: OAuth when its three credentials are set and the
      token fetch succeeds; otherwise JWT when key and secret are set and the
      client can be built; mock in every other case, failed setups included. */
  function ChooseAuth(c: ZoomCredentials, token: Result<string, string>, jwtClientOk: bool): (m: AuthMode)
    ensures m == OAuth <==> OAuthConfigured(c) && token.Ok?
    ensures m == Jwt <==> !OAuthConfigured(c) && JwtConfigured(c) && jwtClientOk
    ensures m == MockMode <==>
      (OAuthConfigured(c) && token.Err?) || (!OAuthConfigured(c) && !(JwtConfigured(c) && jwtClientOk))
  {
    if OAuthConfigured(c) then (if token.Ok? then OAuth else MockMode)
    else if JwtConfigured(c) then (if jwtClientOk then Jwt else MockMode)
    else MockMode
  }

  /** `ZoomService`: its authentication mode and OAuth access token, set once
      by the constructor. */
  class ZoomService {
    var authMethod: AuthMode
    var accessToken: Option<string>

    constructor (c: ZoomCredentials, token: Result<string, string>, jwtClientOk: bool)
      ensures authMethod == ChooseAuth(c, token, jwtClientOk)
      ensures accessToken == if authMethod == OAuth then Some(token.value) else None
    {
      accessToken := None;
      if OAuthConfigured(c) {
        match token
        case Ok(t) =>
          accessToken := Some(t);
          authMethod := OAuth;
        case Err(_) =>
          authMethod := MockMode;
      } else if JwtConfigured(c) {
        authMethod := if jwtClientOk then Jwt else MockMode;
      } else {
        authMethod := MockMode;
      }
    }

    /** `list_meetings`: one request, then one row per listed meeting, in order. */
    method ListMeetings(userId: string, reply: HttpReply) returns (r: Result<seq<MeetingRow>, string>)
      ensures r == ListingOf(ApiRequest(authMethod, "GET", "/users/" + userId + "/meetings", None, reply))
    {
      var response := ApiRequest(authMethod, "GET", "/users/" + userId + "/meetings", None, reply);
      if response.Err? {
        return Err(response.error);
      }
      var listed := Get(response.value, "meetings", JArr([]));
      if !listed.JArr? {
        return if IteratesEmpty(listed) then Ok([]) else Err(MalformedList);
      }
      var rows: seq<MeetingRow> := [];
      var i := 0;
      while i < |listed.items|
        invariant 0 <= i <= |listed.items|
        invariant Rows(listed.items[..i]) == Some(rows)
      {
        assert listed.items[..i + 1][..i] == listed.items[..i];
        var item := listed.items[i];
        if !item.JObj? {
          return Err(MalformedList);
        }
        rows := rows + [RowOf(item.fields)];
        i := i + 1;
      }
      assert listed.items[..i] == listed.items;
      r := Ok(rows);
    }
  }

  // ------------------------------------------------------------- requests

  /** The reply to one HTTP request: status, body text, and the body as a JSON
      object when it decodes; or the exception `requests` raised. */
  datatype HttpReply = HttpReply(status: int, text: string, body: Option<JsonObject>) | TransportError(message: string)

  predicate SupportedVerb(httpMethod: string) {
    var verb := Upper(httpMethod);
    verb == "GET" || verb == "POST" || verb == "PATCH" || verb == "DELETE"
  }

  predicate SuccessStatus(status: int) {
    status == 200 || status == 201 || status == 204
  }

  /** `_make_api_request`; an `Err` is the exception it raises. */
  function ApiRequest(mode: AuthMode, httpMethod: string, endpoint: string, data: Option<JsonObject>,
                      reply: HttpReply): (r: Result<JsonObject, string>)
    ensures mode != MockMode ==>
      (r.Ok? <==> SupportedVerb(httpMethod) && reply.HttpReply? && SuccessStatus(reply.status))
    ensures mode != MockMode && !SupportedVerb(httpMethod) ==> r == Err("Unsupported HTTP method: " + httpMethod)
    ensures mode != MockMode && r.Ok? ==> r.value == if reply.body.Some? then reply.body.value else map[]
  {
    if mode == MockMode then MockResponse(httpMethod, endpoint, data)
    else if !SupportedVerb(httpMethod) then Err("Unsupported HTTP method: " + httpMethod)
    else
      match reply
      case TransportError(message) => Err(message)
      case HttpReply(status, text, body) =>
        if SuccessStatus(status) then Ok(if body.Some? then body.value else map[])
        else Err("Zoom API error: " + IntToString(status) + " - " + text)
  }

  const MockMeetingId := 123456789
  const MockPassword := "123456"
  const MockJoinUrl := "https://zoom.us/j/123456789?pwd=mock_password"
  const MockStartUrl := "https://zoom.us/s/123456789?mock_start_token"

  function MockMeetingSettings(): JsonObject {
    map["host_video" := JBool(true), "participant_video" := JBool(true), "join_before_host" := JBool(false),
        "mute_upon_entry" := JBool(true), "waiting_room" := JBool(true)]
  }

  /** The mock reply to a meeting creation, echoing the request's fields. */
  function MockCreated(data: JsonObject): JsonObject {
    map["id" := JInt(MockMeetingId), "host_id" := JStr("mock_host_id"),
        "topic" := Get(data, "topic", JStr("Mock Interview")), "type" := JInt(2),
        "start_time" := Get(data, "start_time", JStr("2024-01-01T10:00:00Z")),
        "duration" := Get(data, "duration", JInt(60)), "timezone" := Get(data, "timezone", JStr("UTC")),
        "password" := JStr(MockPassword), "join_url" := JStr(MockJoinUrl), "start_url" := JStr(MockStartUrl),
        "settings" := JObj(MockMeetingSettings()), "success" := JBool(true)]
  }

  /** The mock reply to a meeting lookup. */
  function MockDetails(id: int, segment: string): JsonObject {
    map["id" := JInt(id), "topic" := JStr("Mock Interview"), "type" := JInt(2), "status" := JStr("waiting"),
        "start_time" := JStr("2024-01-01T10:00:00Z"), "duration" := JInt(60),
        "join_url" := JStr("https://zoom.us/j/" + segment + "?pwd=mock_password"), "password" := JStr(MockPassword)]
  }

  /** `_mock_api_response`: routed by the upper-cased method and substrings of
      the endpoint. A creation without a body and a lookup whose last path
      segment is not an integer raise. */
  function MockResponse(httpMethod: string, endpoint: string, data: Option<JsonObject>): (r: Result<JsonObject, string>)
    ensures r.Err? ==>
      (Upper(httpMethod) == "POST" && data.None?) ||
      (Upper(httpMethod) == "GET" && ParseInt(Basename(endpoint)).None?)
    ensures Upper(httpMethod) == "GET" && Contains(endpoint, "/meetings/") ==>
      match ParseInt(Basename(endpoint))
      case None => r.Err?
      case Some(id) => r.Ok? && "id" in r.value && r.value["id"] == JInt(id)
  {
    var verb := Upper(httpMethod);
    if Contains(endpoint, "/meetings") && verb == "POST" then
      if data.None? then Err("'NoneType' object has no attribute 'get'") else Ok(MockCreated(data.value))
    else if Contains(endpoint, "/meetings/") && verb == "GET" then
      var segment := Basename(endpoint);
      match ParseInt(segment)
      case None => Err("invalid literal for int() with base 10: '" + segment + "'")
      case Some(id) => Ok(MockDetails(id, segment))
    else if Contains(endpoint, "/meetings/") && (verb == "PATCH" || verb == "DELETE") then
      Ok(map["success" := JBool(true)])
    else Ok(map["mock" := JBool(true), "method" := JStr(httpMethod), "endpoint" := JStr(endpoint)])
  }

  /** The routing table of the mock: which reply each request gets. */
  lemma MockRouting(httpMethod: string, endpoint: string, data: JsonObject)
    ensures Contains(endpoint, "/meetings") && Upper(httpMethod) == "POST" ==>
      MockResponse(httpMethod, endpoint, Some(data)) == Ok(MockCreated(data))
    ensures Contains(endpoint, "/meetings/") && (Upper(httpMethod) == "PATCH" || Upper(httpMethod) == "DELETE") ==>
      MockResponse(httpMethod, endpoint, Some(data)) == Ok(map["success" := JBool(true)])
    ensures !Contains(endpoint, "/meetings") ==>
      MockResponse(httpMethod, endpoint, Some(data)) == Ok(map["mock" := JBool(true), "method" := JStr(httpMethod), "endpoint" := JStr(endpoint)])
  {
    if !Contains(endpoint, "/meetings") {
      assert !Contains(endpoint, "/meetings/") by {
        if Contains(endpoint, "/meetings/") {
          var i :| 0 <= i <= |endpoint| - 10 && OccursAt(endpoint, "/meetings/", i);
          assert endpoint[i..i + 9] == endpoint[i..i + 10][..9];
          assert OccursAt(endpoint, "/meetings", i);
        }
      }
    }
  }

  /** A mock lookup of `/meetings/<n>` reports meeting `n`. */
  lemma MockLookupReportsId(httpMethod: string, prefix: string, id: nat)
    requires Upper(httpMethod) == "GET"
    ensures MockResponse(httpMethod, prefix + "/meetings/" + NatToString(id), None)
         == Ok(MockDetails(id, NatToString(id)))
  {
    var digits := NatToString(id);
    var endpoint := prefix + "/meetings/" + digits;
    NatToStringDigits(id);
    assert OccursAt(endpoint, "/meetings/", |prefix|);
    assert OccursAt(endpoint, "/meetings", |prefix|);
    assert '/' !in digits by {
      forall i | 0 <= i < |digits| ensures digits[i] != '/' {
        assert IsDigit(digits[i]);
      }
    }
    assert endpoint == (prefix + "/meetings") + "/" + digits;
    BasenameOfJoin(prefix + "/meetings", digits);
    assert ParseInt(digits) == Some(id);
    assert Upper(httpMethod) != "POST";
  }

  // ------------------------------------------------------ create_meeting

  /** The settings every meeting starts from. */
  function DefaultSettings(): JsonObject {
    map["host_video" := JBool(true), "participant_video" := JBool(true), "join_before_host" := JBool(false),
        "mute_upon_entry" := JBool(true), "waiting_room" := JBool(true), "use_pmi" := JBool(false),
        "approval_type" := JInt(0), "audio" := JStr("both"), "auto_recording" := JStr("none")]
  }

  /** `default_settings.update(settings)` when `settings` is truthy: the caller's
      keys win, every other default is kept. */
  function MergeSettings(settings: Option<JsonObject>): (r: JsonObject)
    ensures settings.None? ==> r == DefaultSettings()
    ensures settings.Some? ==> r.Keys == DefaultSettings().Keys + settings.value.Keys
    ensures settings.Some? ==> forall k :: k in settings.value ==> r[k] == settings.value[k]
    ensures forall k :: k in DefaultSettings() && (settings.None? || k !in settings.value) ==>
      r[k] == DefaultSettings()[k]
  {
    if settings.Some? && settings.value != map[] then DefaultSettings() + settings.value else DefaultSettings()
  }

  /** The body of the creation request. */
  function MeetingData(topic: string, start: DateTime, duration: Json, timezone: Json, password: Option<string>,
                       settings: Option<JsonObject>): (d: JsonObject)
    requires Valid(start)
    ensures "type" in d && d["type"] == JInt(2)
    ensures "topic" in d && d["topic"] == JStr(topic)
    ensures "start_time" in d && d["start_time"] == JStr(ZuluStamp(start))
    ensures "duration" in d && d["duration"] == duration && "timezone" in d && d["timezone"] == timezone
    ensures "settings" in d && d["settings"] == JObj(MergeSettings(settings))
    ensures "password" in d <==> password.Some? && password.value != ""
  {
    var base := map["topic" := JStr(topic), "type" := JInt(2), "start_time" := JStr(ZuluStamp(start)),
                     "duration" := duration, "timezone" := timezone, "settings" := JObj(MergeSettings(settings))];
    if password.Some? && password.value != "" then base["password" := JStr(password.value)] else base
  }

  /** What `create_meeting` returns, field by field; its `status` is always "created". */
  datatype Meeting = Meeting(meetingId: Json, topic: Json, startTime: Json, duration: Json, timezone: Json,
                             joinUrl: Json, startUrl: Json, password: Json, settings: Json)

  /** The projection of Zoom's reply. */
  function Summarize(resp: JsonObject): Meeting {
    Meeting(Get(resp, "id", JNull), Get(resp, "topic", JNull), Get(resp, "start_time", JNull),
            Get(resp, "duration", JNull), Get(resp, "timezone", JNull), Get(resp, "join_url", JNull),
            Get(resp, "start_url", JNull), Get(resp, "password", JNull), Get(resp, "settings", JObj(map[])))
  }

  /** The returned dict. */
  function MeetingJson(m: Meeting): (d: JsonObject)
    ensures "status" in d && d["status"] == JStr("created")
    ensures "meeting_id" in d && d["meeting_id"] == m.meetingId
  {
    map["meeting_id" := m.meetingId, "topic" := m.topic, "start_time" := m.startTime, "duration" := m.duration,
        "timezone" := m.timezone, "join_url" := m.joinUrl, "start_url" := m.startUrl, "password" := m.password,
        "settings" := m.settings, "status" := JStr("created")]
  }

  /** `create_meeting`: one POST to `/users/me/meetings`. */
  function CreateMeeting(mode: AuthMode, topic: string, start: DateTime, duration: Json, timezone: Json,
                         password: Option<string>, settings: Option<JsonObject>, reply: HttpReply)
    : (r: Result<Meeting, string>)
    requires Valid(start)
    ensures mode != MockMode ==> (r.Ok? <==> reply.HttpReply? && SuccessStatus(reply.status))
    ensures mode != MockMode && r.Ok? && reply.body.Some? ==> r.value.meetingId == Get(reply.body.value, "id", JNull)
    ensures mode == MockMode ==> r.Ok? && r.value.meetingId == JInt(MockMeetingId) && r.value.topic == JStr(topic)
  {
    var data := MeetingData(topic, start, duration, timezone, password, settings);
    MockPostCreates(data, reply);
    MockCreatedSummary(data);
    match ApiRequest(mode, "POST", "/users/me/meetings", Some(data), reply)
    case Err(e) => Err(e)
    case Ok(resp) => Ok(Summarize(resp))
  }

  /** In mock mode creation always succeeds and echoes topic, start, duration and
      zone, with the mock's fixed id, links and passcode (the requested passcode is not used). */
  lemma MockCreateEchoes(topic: string, start: DateTime, duration: Json, timezone: Json,
                         password: Option<string>, settings: Option<JsonObject>, reply: HttpReply)
    requires Valid(start)
    ensures CreateMeeting(MockMode, topic, start, duration, timezone, password, settings, reply)
         == Ok(Meeting(JInt(MockMeetingId), JStr(topic), JStr(ZuluStamp(start)), duration, timezone,
                       JStr(MockJoinUrl), JStr(MockStartUrl), JStr(MockPassword), JObj(MockMeetingSettings())))
  {
    var data := MeetingData(topic, start, duration, timezone, password, settings);
    MockPostCreates(data, reply);
    MockCreatedSummary(data);
    assert Get(data, "topic", JStr("Mock Interview")) == JStr(topic);
    assert Get(data, "start_time", JStr("2024-01-01T10:00:00Z")) == JStr(ZuluStamp(start));
    assert Get(data, "duration", JInt(60)) == duration;
    assert Get(data, "timezone", JStr("UTC")) == timezone;
  }

  /** A mock POST to `/users/me/meetings` is a creation. */
  lemma MockPostCreates(data: JsonObject, reply: HttpReply)
    ensures ApiRequest(MockMode, "POST", "/users/me/meetings", Some(data), reply) == Ok(MockCreated(data))
  {
    assert OccursAt("/users/me/meetings", "/meetings", 9);
    assert Upper("POST") == "POST";
  }

  /** What the projection keeps of the mock's creation reply. */
  lemma MockCreatedSummary(data: JsonObject)
    ensures Summarize(MockCreated(data))
         == Meeting(JInt(MockMeetingId), Get(data, "topic", JStr("Mock Interview")),
                    Get(data, "start_time", JStr("2024-01-01T10:00:00Z")), Get(data, "duration", JInt(60)),
                    Get(data, "timezone", JStr("UTC")), JStr(MockJoinUrl), JStr(MockStartUrl), JStr(MockPassword),
                    JObj(MockMeetingSettings()))
  {
  }

  // ------------------------------------------------------- list_meetings

  /** One row of `list_meetings`. */
  datatype MeetingRow = MeetingRow(meetingId: Json, topic: Json, startTime: Json, duration: Json,
                                   status: Json, joinUrl: Json)

  function RowOf(meeting: JsonObject): MeetingRow {
    MeetingRow(Get(meeting, "id", JNull), Get(meeting, "topic", JNull), Get(meeting, "start_time", JNull),
               Get(meeting, "duration", JNull), Get(meeting, "status", JNull), Get(meeting, "join_url", JNull))
  }

  const MalformedList := "meetings is not a list of objects"

  /** The rows for the listed meetings, or None when one of them is not an object. */
  function Rows(items: seq<Json>): (r: Option<seq<MeetingRow>>)
    ensures r.Some? <==> forall i :: 0 <= i < |items| ==> items[i].JObj?
    ensures r.Some? ==> |r.value| == |items| && forall i :: 0 <= i < |items| ==> r.value[i] == RowOf(items[i].fields)
  {
    if items == [] then Some([])
    else
      var init := Rows(items[..|items| - 1]);
      assert forall i :: 0 <= i < |items| - 1 ==> items[..|items| - 1][i] == items[i];
      var last := items[|items| - 1];
      if !last.JObj? || init.None? then None else Some(init.value + [RowOf(last.fields)])
  }

  /** The listing for a reply: its `meetings` (default `[]`), projected in order. */
  function ListingOf(response: Result<JsonObject, string>): Result<seq<MeetingRow>, string> {
    match response
    case Err(e) => Err(e)
    case Ok(resp) =>
      match Get(resp, "meetings", JArr([]))
      case JArr(items) => (match Rows(items) case Some(rows) => Ok(rows) case None => Err(MalformedList))
      case _ => if IteratesEmpty(Get(resp, "meetings", JArr([]))) then Ok([]) else Err(MalformedList)
  }

  /** A value other than a list that a `for` loop runs through without a single
      step: the empty dict and the empty string. A non-empty dict or string
      yields strings, whose `.get` raises; any other value is not iterable. */
  predicate IteratesEmpty(j: Json) {
    j == JObj(map[]) || j == JStr("")
  }

  /** A reply's listing fails exactly when its `meetings` holds something other
      than a list of dicts, an empty dict or an empty string; a reply without
      `meetings` lists nothing. */
  lemma ListingAccepts(resp: JsonObject)
    ensures var m := Get(resp, "meetings", JArr([]));
      ListingOf(Ok(resp)).Ok? <==>
        (m.JArr? && forall i :: 0 <= i < |m.items| ==> m.items[i].JObj?) || m == JObj(map[]) || m == JStr("")
    ensures "meetings" !in resp ==> ListingOf(Ok(resp)) == Ok([])
  {
  }

  /** In mock mode the listing is empty: `/users/me/meetings` holds no
      "/meetings/", so the mock's catch-all reply, without `meetings`, answers. */
  lemma MockListIsEmpty(reply: HttpReply)
    ensures ListingOf(ApiRequest(MockMode, "GET", "/users/" + "me" + "/meetings", None, reply)) == Ok([])
  {
    var endpoint := "/users/" + "me" + "/meetings";
    assert endpoint == "/users/me/meetings";
    assert !Contains(endpoint, "/meetings/") by {
      forall i | 0 <= i <= |endpoint| - 10
        ensures !OccursAt(endpoint, "/meetings/", i)
      {
        assert endpoint[i] != '/' || endpoint[i + 1] != 'm' || endpoint[i + 9] != '/';
        assert "/meetings/"[0] == '/' && "/meetings/"[1] == 'm' && "/meetings/"[9] == '/';
      }
    }
    assert Upper("GET") == "GET";
  }

  // ------------------------------------------------ interview meeting task

  /** The settings the interview task asks for. */
  function InterviewSettings(): JsonObject {
    map["waiting_room" := JBool(true), "join_before_host" := JBool(false), "mute_upon_entry" := JBool(true),
        "host_video" := JBool(true), "participant_video" := JBool(true)]
  }

  function InterviewTopic(candidateName: string, jobTitle: string): string {
    "Interview: " + candidateName + " - " + jobTitle
  }

  /** The meeting the task creates: parse the start, then create the meeting. */
  function InterviewMeeting(mode: AuthMode, candidateName: string, jobTitle: string, startTime: string,
                            duration: Json, timezone: Json, reply: HttpReply): (r: Result<Meeting, string>)
    ensures ParseIso(ReplaceAll(startTime, "Z", "+00:00")).None? ==> r.Err?
    ensures mode == MockMode && ParseIso(ReplaceAll(startTime, "Z", "+00:00")).Some? ==>
      r.Ok? && r.value.topic == JStr(InterviewTopic(candidateName, jobTitle))
  {
    var iso := ReplaceAll(startTime, "Z", "+00:00");
    match ParseIso(iso)
    case None => Err("Invalid isoformat string: '" + iso + "'")
    case Some(start) =>
      CreateMeeting(mode, InterviewTopic(candidateName, jobTitle), start, duration, timezone, None,
                    Some(InterviewSettings()), reply)
  }

  /** What the task returns. */
  datatype MeetingTaskResult =
    | MeetingCreated(meetingId: Json, joinUrl: Json, password: Json, topic: Json)
    | MeetingFailed(error: string)

  /** The stored file `meeting_<id>.json`. */
  function MeetingFile(meetingId: Json): string {
    "meeting_" + PyStr(meetingId) + ".json"
  }

  function StoredMeeting(candidateName: string, interviewerName: string, jobTitle: string, meeting: Meeting,
                         createdAt: string): Json {
    JObj(map["candidate_name" := JStr(candidateName), "interviewer_name" := JStr(interviewerName),
             "job_title" := JStr(jobTitle), "meeting_details" := JObj(MeetingJson(meeting)),
             "created_at" := JStr(createdAt)])
  }

  /** `create_interview_meeting_task`, run with a service in mode `mode`:
      create the meeting, store it, report it; any failure is reported, not raised. */
  method CreateInterviewMeetingTask(dir: JsonDir, mode: AuthMode, candidateName: string, interviewerName: string,
                                    jobTitle: string, startTime: string, duration: Json, timezone: Json,
                                    reply: HttpReply, now: DateTime)
    returns (result: MeetingTaskResult)
    requires Valid(now)
    modifies dir
    ensures match InterviewMeeting(mode, candidateName, jobTitle, startTime, duration, timezone, reply)
      case Err(e) =>
        result == MeetingFailed("Error creating interview meeting: " + e) && dir.files == old(dir.files)
      case Ok(m) =>
        result == MeetingCreated(m.meetingId, m.joinUrl, m.password, m.topic) &&
        dir.files == old(dir.files)[MeetingFile(m.meetingId) :=
          Parsed(StoredMeeting(candidateName, interviewerName, jobTitle, m, IsoFormat(now)))]
  {
    var meeting := InterviewMeeting(mode, candidateName, jobTitle, startTime, duration, timezone, reply);
    if meeting.Err? {
      return MeetingFailed("Error creating interview meeting: " + meeting.error);
    }
    var m := meeting.value;
    dir.Write(MeetingFile(m.meetingId), StoredMeeting(candidateName, interviewerName, jobTitle, m, IsoFormat(now)));
    result := MeetingCreated(m.meetingId, m.joinUrl, m.password, m.topic);
  }

  /** Given a start written by `isoformat()`, the mock-mode task creates the
      meeting at that start, under the topic "Interview: <candidate> - <job>". */
  lemma MockInterviewMeeting(candidateName: string, jobTitle: string, start: DateTime,
                             duration: Json, timezone: Json, reply: HttpReply)
    requires Valid(start)
    ensures InterviewMeeting(MockMode, candidateName, jobTitle, IsoFormat(start), duration, timezone, reply)
         == Ok(Meeting(JInt(MockMeetingId), JStr(InterviewTopic(candidateName, jobTitle)), JStr(ZuluStamp(start)),
                       duration, timezone, JStr(MockJoinUrl), JStr(MockStartUrl), JStr(MockPassword),
                       JObj(MockMeetingSettings())))
  {
    IsoHasNoZ(start);
    IsoRoundTrip(start);
    MockCreateEchoes(InterviewTopic(candidateName, jobTitle), start, duration, timezone, None,
                     Some(InterviewSettings()), reply);
  }
}
