# AI Recruitment System — a verified model of its core

This project is a Dafny model of the backend core of the AI Recruitment System, a FastAPI service in which:

- candidates upload PDF resumes;
- a Celery worker extracts their text;
- an administrator has each resume scored by an LLM (Gemini, OpenAI, or an offline keyword heuristic called "mock");
- the candidate is emailed the result;
- interviews are scheduled as Zoom meetings;
- jobs are posted, searched and applied to in a MongoDB-backed job board guarded by JWT sessions and role gates.

The model follows the source file by file, one module per file:

| module | source |
|---|---|
| `Common` | Python built-ins the core relies on: `str.find`/`rfind`/`replace`/`lower`, slicing, `os.path.basename`/`splitext`, `int`/`str`, truthiness, `dict.get` |
| `Stores` | the JSON upload directory, the upload directory, the MongoDB collections and the Celery queue, as classes whose fields the operations update |
| `Analysis` | `app/services/llm_service.py`, the `LLMService` class |
| `Orchestrator` | `analyze_resume_task` and its lookup chain in `app/services/llm_service.py` |
| `Intake` | `app/services/resume_service.py` and `app/api/v1/resumes.py` |
| `Notify` | `app/services/email_service.py` |
| `Clock` | the `datetime` renderings and parses the routes and tasks use |
| `Zoom` | `app/services/zoom_service.py` |
| `Interviews` | `app/api/v1/interviews.py` |
| `JobService` | `app/services/job_service.py` |
| `JobRoutes` | `app/api/v1/jobs.py` |
| `AuthService` | `app/services/auth_service.py` |
| `Session` | `app/dependencies/auth.py` |
| `Roles` | `app/dependencies/roles.py` |
| `CreateAdmin` | `app/Scripts/create_admin.py` |

What the code does step by step is modelled imperatively. This covers writing files, inserting documents, enqueuing Celery tasks, building a dict field by field, and listing a directory in a loop. Each such method is proved against a specification function. Pure computations are functions, with lemmas that relate them.

Everything the program cannot decide itself is a parameter of the model:

- the LLM's reply to a prompt;
- `json.loads` of the extracted candidate;
- the PDF reader's pages;
- the libmagic MIME string;
- Zoom's HTTP reply;
- JWT decoding;
- bcrypt hashing and verification;
- MongoDB's regex matcher;
- the API keys in the environment, and whether the mail configuration raises;
- generated uuids, ObjectIds and timestamps.

Collections are sequences in natural order, so `find_one` is the first match. An `insert_one` whose `_id` is already present is the duplicate-key error, which surfaces as a 500.

## Model

| member | source | states |
|---|---|---|
| Common.Lower | app/services/llm_service.py:20 | same length as the input, each character lower-cased |
| Common.Upper | app/services/zoom_service.py:159 | same length as the input, each character upper-cased |
| Common.Find | app/services/llm_service.py:129 | -1 exactly when the character is absent, else the index of its first occurrence |
| Common.RFind | app/services/llm_service.py:130 | -1 exactly when the character is absent, else the index of its last occurrence |
| Common.Slice | app/services/llm_service.py:133 | Python slicing: `s[a..b]` when `a < b <= len`, empty when `b <= a` |
| Common.Basename | app/services/resume_service.py:22 | the result has no '/' and ends the path |
| Common.BasenameOfJoin | app/services/resume_service.py:22 | the basename of `dir/name`, and the last segment of an endpoint, is `name` |
| Common.ReplaceWithoutLead | app/api/v1/interviews.py:280 | `replace` leaves a text unchanged when the pattern's first character does not occur in it |
| Common.ReplaceOnlySuffix | app/api/v1/interviews.py:280 | replacing a pattern that occurs only as the suffix rewrites just that suffix |
| Common.RemoveOnlyPrefix | app/api/v1/interviews.py:280 | removing a pattern that occurs only as the prefix leaves the rest |
| Common.StrArray | app/api/v1/jobs.py:22 | a JSON list of the strings, in order |
| Common.NatToStringDigits | app/api/v1/jobs.py:42 | `str(n)` is a non-empty run of digits that reads back as `n` |
| Common.IntRoundTrip | app/services/zoom_service.py:186 | `int(str(i)) == i` for every integer, negative ones included |
| Stores.JsonDir.Write | app/services/llm_service.py:316-318 | the named file holds the dumped document; every other file is unchanged |
| Stores.UploadDir.Save | app/api/v1/resumes.py:46-50 | the named upload holds the bytes; every other file is unchanged |
| Stores.ObjectIdOf | app/services/llm_service.py:334-335 | `ObjectId(s)` of a valid 24-hex-digit string is an ObjectId key, normalised to lower case |
| Stores.ParseObjectId | app/services/llm_service.py:334 | a key exactly when `ObjectId.is_valid(s)` |
| Stores.ResumeCollection.Insert | app/api/v1/resumes.py:59-62 | the metadata record is appended |
| Stores.Collection.Insert | app/services/job_service.py:14 | `insert_one` succeeds exactly when the `_id` is unused, and then appends; otherwise the store is unchanged |
| Stores.FirstWithField | app/services/auth_service.py:11 | `find_one({field: value})`: the first document with that field value, or -1 when none has it |
| Stores.FirstWithKey | app/services/job_service.py:71 | `find_one({"_id": k})`: the first document with that key, -1 exactly when the key is unused |
| Stores.TaskQueue.Enqueue | app/api/v1/resumes.py:53 | the task is appended to the queue |
| Analysis.SetupProvider | app/services/llm_service.py:19-44 | the name is lower-cased; "gemini" with a key is Gemini and without one Mock; "openai" is OpenAI exactly when an OpenAI key is set, and otherwise the client's missing-key error; "mock" is Mock; any other name is the `ValueError` with its message |
| Analysis.AnalysisPrompt | app/services/llm_service.py:67-116 | the prompt starts with the base prompt, contains the resume, and grows beyond it exactly when a job description is given, which it then contains |
| Analysis.ReportBaseKeys | app/services/llm_service.py:208-228 | a built report's dict has the fixed base keys and carries the overall score |
| Analysis.ReportJsonOptional | app/services/llm_service.py:232-284 | `error`, `provider` and `raw_response` are present exactly when the report sets them, with their values |
| Analysis.ReportJsonFields | app/services/llm_service.py:232-284 | a built report's dict carries its overall score and no job-matching keys |
| Analysis.FoundSkills | app/services/llm_service.py:197-198 | never more skills than the vocabulary has |
| Analysis.FoundSkillsExactly | app/services/llm_service.py:192-198 | the found skills are exactly the vocabulary words occurring in the text, kept in vocabulary order |
| Analysis.ExperienceYears | app/services/llm_service.py:201 | between 0 and 15, and 15 exactly when the text has at least 7500 characters |
| Analysis.MockAnalysis | app/services/llm_service.py:188-230 | overall score in [50,100], skill score in [0,100], experience score 6·years ≤ 90 and so never clamped, education 75, provider "mock" |
| Analysis.MockScores | app/services/llm_service.py:201-218 | overall = min(50 + 5·tech + 3·soft + 2·years, 100) and skill score = min(10·tech + 5·soft, 100) |
| Analysis.MockSkills | app/services/llm_service.py:192-198 | technical and soft skills are exactly the respective vocabulary words found in the lower-cased text |
| Analysis.SubsetCount | app/services/llm_service.py:197-198 | if every word found in one text is found in another, the second finds at least as many |
| Analysis.MockScoreMonotone | app/services/llm_service.py:197-206 | a text at least as long that finds every keyword another finds scores at least as high, overall and on skills |
| Analysis.JavaScriptCountsAsJava | app/services/llm_service.py:192-197 | substring matching credits a JavaScript resume with Java as well |
| Analysis.JsonCandidate | app/services/llm_service.py:129-133 | None exactly when there is no '{'; otherwise the text from the first '{' through the last '}', or empty when no '}' follows the first '{' |
| Analysis.StampedProvenance | app/services/llm_service.py:142-143 | after stamping, the dict names the provider and holds the reply verbatim, whatever it held before |
| Analysis.MockIgnoresJobDescription | app/services/llm_service.py:60-65 | the heuristic's result depends on the resume text only: not on the job description, the LLM or the decoder |
| Analysis.RemoteUsesPrompt | app/services/llm_service.py:58-63 | a remote provider's result is its analysis of the model's reply to exactly the built prompt |
| Analysis.RemoteNamesProvider | app/services/llm_service.py:142-149 | every remote outcome (decoded, fallback or error) names its provider, and a replied one carries the raw reply |
| Analysis.NoBraceFallsBack | app/services/llm_service.py:132-143 | a reply without '{' gives the 70-point fallback report with 3 years, a note and the raw reply, stamped with the provider; nothing raises |
| Analysis.UnclosedBraceFallsBack | app/services/llm_service.py:129-143 | a '{' with no later '}' slices "", which fails to decode, giving the stamped fallback report |
| Analysis.UnclosedBraceReadsFallback | app/services/llm_service.py:132-140 | before stamping, that reply reads as the fallback report |
| Analysis.StampedFallback | app/services/llm_service.py:142-143 | stamping the fallback report only adds the provider, since it already holds the reply |
| Analysis.DecodedReportKept | app/services/llm_service.py:133-143 | a decoded candidate keeps all its keys; only `provider` and `raw_response` are overwritten |
| Analysis.CallFailureIsErrorReport | app/services/llm_service.py:259-284 | a failed call gives the error report: every score 0, all eight lists empty, 0 years, the failure summary, the message under `error`, the provider; no fallback dict has `error` |
| Analysis.FallbackAnalysis | app/services/llm_service.py:232-257 | every score 70, the raw reply kept, the parsing note set, no error and no provider yet |
| Analysis.ErrorAnalysis | app/services/llm_service.py:259-284 | every score 0, all eight lists empty and 0 years of experience, the "Analysis failed due to API error" summary, the message under `error`, the provider named |
| Analysis.AnalyzeRemote | app/services/llm_service.py:118-149 | the reply's dict is kept exactly when a candidate exists and decodes; any report the service builds names the provider; a reply that does not decode gives 70 with the raw reply; a failed call gives 0 with the message |
| Analysis.AnalyzeResume | app/services/llm_service.py:46-65 | the resulting dict's `provider` is the provider actually used (after "gemini" without a key became "mock"); the heuristic never reports an error |
| Notify.ScoreTier | app/services/email_service.py:323-329 | "high" iff score ≥ 80, "medium" iff 60 ≤ score < 80, "low" iff below 60; no tier when the score is not a number |
| Notify.TierMonotone | app/services/email_service.py:323-329 | a higher score never gets a lower tier |
| Notify.MissingScoreIsLow | app/services/email_service.py:323 | a missing score counts as 0 and gives "low" |
| Notify.AnalysisNotification | app/services/email_service.py:312-349 | one job to the single recipient, with subject "Resume Analysis Complete - <id>", the analysis template, the computed tier and no `missing_skills`; none when the score cannot be compared |
| Notify.AnalysisNotificationDefaults | app/services/email_service.py:331-342 | for an empty analysis: score 0, "low", summary "Analysis completed", no strengths, no match score, empty fit, provider "unknown" |
| Notify.AnalysisNotificationCopies | app/services/email_service.py:331-342 | keys present in the analysis are copied unchanged into the payload |
| Notify.InterviewInvitation | app/services/email_service.py:351-381 | single recipient, subject "Interview Invitation - <job>", the interview template |
| Notify.InterviewDefaults | app/services/email_service.py:358-368 | duration 60 and type "Video Interview" unless the details give them (a key holding None is kept); the company is "Our Company" when the caller passes the default argument |
| Notify.StatusUpdate | app/services/email_service.py:383-413 | single recipient, subject "Application Status Update - <job>", the status template |
| Notify.StatusNextSteps | app/services/email_service.py:402 | `next_steps` is [] exactly when none or an empty list was given, else the given steps |
| Notify.SendAnalysisNotification | app/services/email_service.py:312-349 | enqueues exactly one email task, the built one, when the score is comparable; otherwise the queue is unchanged |
| Notify.SendInterviewInvitation | app/services/email_service.py:351-381 | enqueues exactly the built invitation |
| Notify.SendStatusUpdate | app/services/email_service.py:383-413 | enqueues exactly the built status update |
| Notify.SeedKeepsExisting | app/services/email_service.py:268-272 | seeding adds exactly the template names and never overwrites an existing file |
| Notify.SeedWritesDefault | app/services/email_service.py:268-272 | an absent template file is written with its default content |
| Notify.SeedIdempotent | app/services/email_service.py:268-272 | seeding twice is seeding once |
| Notify.TemplateDir.SeedDefaults | app/services/email_service.py:68-272 | the loop leaves the template directory equal to the seeded specification |
| Notify.GetEmailService | app/services/email_service.py:37-40 | a configuration that raises leaves the template directory unchanged; otherwise the default templates are seeded |
| Notify.SendEmailTask | app/services/email_service.py:418-462 | a configuration error gives `{"success": False, "error": ...}` with no file written; otherwise templates are seeded and the report says whether the template was found and rendered and the message accepted; nothing raises |
| Notify.BuiltEmailsRender | app/services/email_service.py:274-310 | after seeding, an interview or status email succeeds exactly when delivery accepts it, and an analysis email exactly when, in addition, its `strengths` can be iterated |
| Notify.UnrenderableStrengthsNotSent | app/services/email_service.py:161 | an analysis whose `strengths` is null, a boolean or a number fails to render, so `send_email` returns False whatever the server does |
| Notify.MissingStrengthsRender | app/services/email_service.py:337 | a missing `strengths` defaults to [], which renders |
| Clock.Pad2 | app/api/v1/interviews.py:104-105 | two digits |
| Clock.Pad4 | app/api/v1/interviews.py:104 | four digits |
| Clock.Pad2Value | app/api/v1/interviews.py:104-105 | the two digits read back as the number |
| Clock.Pad4Value | app/api/v1/interviews.py:104 | the four digits read back as the number |
| Clock.DateStamp | app/api/v1/interviews.py:104 | `%Y-%m-%d`: ten characters, the padded year, month and day at their positions with '-' between them |
| Clock.ClockStamp | app/api/v1/interviews.py:105 | `%H:%M`: five characters, the padded hour, ':' and the padded minute |
| Clock.LocalStamp | app/services/zoom_service.py:251 | nineteen characters: the date stamp, 'T', the clock stamp, ':' and the padded second |
| Clock.ParseIso | app/services/zoom_service.py:384 | whatever `fromisoformat` accepts is a valid datetime |
| Clock.IsoRoundTrip | app/services/zoom_service.py:384 | `fromisoformat(dt.isoformat()) == dt`, naive or UTC |
| Clock.IsoHasNoZ | app/services/zoom_service.py:384 | an `isoformat()` text has no 'Z', so the `replace('Z', '+00:00')` leaves it unchanged |
| Clock.ZuluReadsAsUtc | app/services/zoom_service.py:384 | a `...Z` stamp with 'Z' replaced parses back as the same instant at UTC |
| Zoom.ChooseAuth | app/services/zoom_service.py:47-86 | OAuth iff the three Server-to-Server credentials are set and the token fetch succeeds; else JWT iff key and secret are set and the client builds; else mock, including after a failed setup |
| Zoom.ZoomService.constructor | app/services/zoom_service.py:42-60 | the service's `auth_method` is the chosen mode; an access token is held only under OAuth |
| Zoom.ApiRequest | app/services/zoom_service.py:121-154 | outside mock mode: an unsupported verb is the `ValueError`; success iff the status is 200/201/204, giving the body or `{}` |
| Zoom.MockRouting | app/services/zoom_service.py:156-205 | POST to "/meetings" echoes the creation; PATCH or DELETE to "/meetings/" succeeds; any endpoint without "/meetings" gives the `mock` marker |
| Zoom.MockLookupReportsId | app/services/zoom_service.py:182-194 | a mock GET of "/meetings/<id>" reports `int` of the last segment |
| Zoom.MockResponse | app/services/zoom_service.py:156-205 | only a POST without a body or a GET whose last segment is not an integer raises; a GET of "/meetings/<n>" reports id `n` |
| Zoom.MergeSettings | app/services/zoom_service.py:232-245 | the defaults overridden key by key by the caller's settings; default keys the caller omits are kept |
| Zoom.MeetingData | app/services/zoom_service.py:248-258 | type 2, the topic, a `...Z` start time, duration, timezone, the merged settings, and a `password` key iff the password is truthy |
| Zoom.MeetingJson | app/services/zoom_service.py:266-277 | the result has status "created" and the meeting id |
| Zoom.MockCreateEchoes | app/services/zoom_service.py:207-281 | in mock mode, creating a meeting echoes topic, start time, duration and timezone, with the mock id, URLs and password |
| Zoom.MockPostCreates | app/services/zoom_service.py:124-125 | the creation POST in mock mode gives the mock creation response |
| Zoom.MockCreatedSummary | app/services/zoom_service.py:266-277 | the summary of a mock creation falls back to the mock defaults for missing fields |
| Zoom.CreateMeeting | app/services/zoom_service.py:207-281 | outside mock mode it succeeds exactly on a 200/201/204 reply and reports Zoom's id; in mock mode it always succeeds with the mock id and the requested topic |
| Zoom.Rows | app/services/zoom_service.py:348-359 | one row per meeting, in order, projecting six fields; none when an item is not a dict |
| Zoom.ZoomService.ListMeetings | app/services/zoom_service.py:342-363 | the loop's rows are the listing of the GET response |
| Zoom.ListingAccepts | app/services/zoom_service.py:348-357 | the listing fails exactly when `meetings` is neither a list of dicts nor an empty dict or string; a reply without `meetings` lists nothing |
| Zoom.MockListIsEmpty | app/services/zoom_service.py:346-349 | in mock mode the listing is empty, because "/users/me/meetings" has no "/meetings/" |
| Zoom.CreateInterviewMeetingTask | app/services/zoom_service.py:368-434 | on success the file `meeting_<id>.json` holds the stored meeting and the result carries id, URL, password and topic; any failure returns the error text and writes nothing |
| Zoom.InterviewMeeting | app/services/zoom_service.py:384-402 | a start that `fromisoformat` rejects is an error; in mock mode a parsed start always gives a meeting under the interview topic |
| Zoom.MockInterviewMeeting | app/services/zoom_service.py:384-402 | in mock mode the meeting's topic is "Interview: <candidate> - <job>" and its start time is the requested instant as `...Z` |
| Interviews.InterviewDetails | app/api/v1/interviews.py:78-111 | `zoom_link` is "N/A" unless the meeting succeeded; `meeting_id` and `passcode` likewise; date and time in their formats |
| Interviews.Attendees | app/api/v1/interviews.py:92 | the candidate first; the interviewer's email as second exactly when it was given |
| Interviews.ScheduleInterview | app/api/v1/interviews.py:53-130 | enqueues the meeting task; a failed wait is a 500; otherwise the reply carries the request and `calendar_error`; with `send_email` the email service is built, and the invitation is enqueued with `email_sent: True` exactly when its configuration does not raise, else nothing is enqueued and the reply has `email_sent: False` and the error |
| Interviews.ScheduledMeetingInMockMode | app/api/v1/interviews.py:53-111 | in mock mode the meeting has the interview topic and start, and the invitation carries the mock link and passcode |
| Interviews.UpdateSetEmpty | app/api/v1/interviews.py:139-153 | the update set is empty exactly when no field is truthy |
| Interviews.UpdateSetUnique | app/api/v1/interviews.py:139-151 | the update set is determined by the request |
| Interviews.BuildUpdates | app/api/v1/interviews.py:139-151 | topic, `...Z` start, duration and settings, each exactly when truthy (a duration of 0 is dropped) |
| Interviews.UpdateMeetingRoute | app/api/v1/interviews.py:132-167 | no update is the 400 re-raised as 500 with nothing enqueued; otherwise the update task is enqueued and echoed |
| Interviews.StoredListingExact | app/api/v1/interviews.py:278-296 | an entry is listed iff it comes from a "meeting_*.json" file that reads as a dict; unreadable files are skipped |
| Interviews.ListStoredMeetings | app/api/v1/interviews.py:265-303 | the loop's list is the stored listing, and `count` is its length |
| Interviews.StoredIdRoundTrip | app/api/v1/interviews.py:279-280 | the file a meeting is stored under is listed, with the meeting's id |
| Interviews.AuthLabelAgrees | app/api/v1/interviews.py:217-224 | the reported mode follows the service's precedence, except that a failed OAuth token still reports OAuth while the service is in mock mode |
| JobService.BuildQuery | app/services/job_service.py:22-29 | the query built field by field; empty when neither keyword nor location is given |
| JobService.QueryMeansSelection | app/services/job_service.py:22-29 | a document matches the query iff its title or description matches the keyword and its location matches the location, case-insensitively |
| JobService.Matching | app/services/job_service.py:31 | only documents of the store that the filters select |
| JobService.FoundIsMatching | app/services/job_service.py:31 | filtering by the built query is filtering by the selection |
| JobService.Window | app/services/job_service.py:31 | `skip` then `limit`: a contiguous run of at most `limit` items starting at `skip` |
| JobService.ListJobs | app/services/job_service.py:20-36 | the loop returns one view per document of the page, in order, with `_id` as a string |
| JobService.PageBounded | app/services/job_service.py:31-36 | a page has at most `limit` jobs, all in the store and all selected |
| JobService.CreateJob | app/services/job_service.py:11-16 | `posted_by` is the caller, overriding the payload; the job is appended and returned with its `_id` |
| JobService.Application | app/services/job_service.py:42-47 | exactly `job_id`, `user_id`, `resume_text` and `created_at` |
| JobService.ApplyToJob | app/services/job_service.py:41-50 | the application is appended and returned with its `_id` as a string |
| JobService.OwnedIndex | app/services/job_service.py:65-66 | the first job matching both `_id` and owner, or -1 |
| JobService.UpdateJob | app/services/job_service.py:64-71 | an invalid id is a 500; no owned match is 404; every error leaves the store unchanged; otherwise only the given fields of the owned job change and that job is returned, and an empty `$set` leaves the store as it was |
| JobService.DeleteJob | app/services/job_service.py:74-80 | removes exactly the owned job; otherwise 404 (500 for an invalid id) and nothing is removed |
| JobService.UpdateKeepsKeysAndOwner | app/services/job_service.py:65-67 | an update keeps keys unique, the owner, and the job findable at its place |
| JobService.DeleteRemovesKey | app/services/job_service.py:75-77 | after a delete the id is gone, one job fewer, keys still unique |
| JobRoutes.SeedJobs | app/api/v1/jobs.py:13-42 | a non-admin gets 403 and nothing changes; otherwise the store is wiped and holds exactly the two samples, and the reply counts them |
| JobRoutes.SeededStore | app/api/v1/jobs.py:16-42 | the seeded store has distinct ids, both jobs posted by the caller, and the count reads "2" |
| JobRoutes.PostJob | app/api/v1/jobs.py:46-50 | a non-admin gets 403 with the store unchanged; success exactly for an admin whose generated id is unused, and then the job is appended under the admin's username and returned with `_id`; an admin's failure is the duplicate-key 500; every failure leaves the store unchanged |
| JobRoutes.ListJobsRoute | app/api/v1/jobs.py:52-60 | a 422 exactly when `limit < 1` or `skip < 0`; otherwise the page, at most `limit` long |
| JobRoutes.ApplyJob | app/api/v1/jobs.py:63-78 | a non-candidate gets 403; a missing artifact gives 404; neither inserts; otherwise the application carries the artifact's text and the caller's username |
| AuthService.StoredUser | app/services/auth_service.py:15-19 | the payload without `password`, with `hashed_password` and `role` defaulting to "candidate" |
| AuthService.Register | app/services/auth_service.py:10-23 | a taken username is 400 with the store unchanged; otherwise the record is appended and returned with `id` |
| AuthService.RegistrationKeepsUsernamesUnique | app/services/auth_service.py:11-21 | under sequential registrations usernames stay unique |
| AuthService.AuthenticateUser | app/services/auth_service.py:26-30 | 401 for an unknown user or a wrong password; otherwise the stored record, which is never falsy |
| AuthService.RegisteredUserCanSignIn | app/services/auth_service.py:10-30 | signing in with the password just registered returns the new record |
| Session.Projection | app/dependencies/auth.py:19-24 | `id` as the string of `_id`, username, email, and a role defaulting to "candidate"; none when username or email is missing |
| Session.GetCurrentUser | app/dependencies/auth.py:8-26 | every failure is 401 "Invalid token"; success iff the token decodes, `sub` is truthy, a user has that username and projects; the result is exactly the projection of the first user with that username, so its id, email and role are the stored ones |
| Session.RoleDefaultsToCandidate | app/dependencies/auth.py:23 | a user stored without a role is a candidate |
| Roles.RequireAdmin | app/dependencies/roles.py:4-7 | the user unchanged iff the role is "admin", else 403 "Admins only" |
| Roles.RequireCandidate | app/dependencies/roles.py:9-12 | the user unchanged iff the role is "candidate", else 403 "Candidates only" |
| Roles.GatesExclusive | app/dependencies/roles.py:4-12 | no user passes both gates, and an interviewer passes neither |
| CreateAdmin.AdminRecord | app/Scripts/create_admin.py:19-25 | username "admin", email "admin@example.com", role "admin", and the password only as its hash |
| CreateAdmin.CreateInitialAdmin | app/Scripts/create_admin.py:9-28 | the store becomes the bootstrapped store, and `created` holds exactly when a user was added |
| CreateAdmin.BootstrapAddsAtMostOne | app/Scripts/create_admin.py:14-27 | nothing is inserted when an admin exists; otherwise exactly one, after which an admin exists |
| CreateAdmin.BootstrapIdempotent | app/Scripts/create_admin.py:14-27 | running the script twice inserts at most one user |
| CreateAdmin.BootstrapCanDuplicateUsername | app/Scripts/create_admin.py:14 | the guard checks the role, not the username, so a candidate called "admin" gets a namesake |
| Orchestrator.AnalysisFile | app/services/llm_service.py:304-316 | the analysis file is never the text file |
| Orchestrator.FindResume | app/services/llm_service.py:321 | the first metadata record with that resume id, or -1 |
| Orchestrator.UserKey | app/services/llm_service.py:325-341 | an ObjectId key exactly for an ObjectId or a valid ObjectId string; none otherwise |
| Orchestrator.ArtifactText | app/services/llm_service.py:309-312 | a value exactly when the artifact loads as a dict |
| Orchestrator.ProviderText | app/services/llm_service.py:67-75 | a string is used as it is; a remote provider gets any other value as its `str()`; the heuristic gets nothing, since its `.lower()` raises |
| Orchestrator.Prepare | app/services/llm_service.py:302-312 | a provider that cannot be built fails first, with its error; success exactly when the provider builds, the artifact exists, loads as a dict and its text suits the provider |
| Orchestrator.TaskRun | app/services/llm_service.py:300-392 | an analysis is written exactly when preparation succeeds, and it is the analysis of the prepared text; an email only on success; a failure after the write is only the score comparison |
| Orchestrator.AnalyzeResumeTask | app/services/llm_service.py:289-398 | outcome, analysis file and queue are exactly those of the task's specification run, including the provider errors raised before any write |
| Orchestrator.NotifyOwner | app/services/llm_service.py:321-392 | after the write: the lookup chain; the email task is enqueued exactly when the notification resolves |
| Orchestrator.NoTextNoAnalysis | app/services/llm_service.py:304-307 | a missing text artifact is "Resume text not found": no analysis, no write, no email |
| Orchestrator.OpenAIWithoutKeyWritesNothing | app/services/llm_service.py:35-37 | "openai" without a key returns the client's error: no analysis written, no email |
| Orchestrator.NumericTextOnlyFailsHeuristic | app/services/llm_service.py:67-75 | a numeric `text` fails the heuristic with nothing written, while a remote provider analyses its `str()` |
| Orchestrator.BuiltReportNotificationRenders | app/services/llm_service.py:369 | a report the service built (heuristic, fallback or error) has a list of strengths, so its notification renders |
| Orchestrator.EmailOnlyAfterWrite | app/services/llm_service.py:314-392 | an email implies the analysis was written and returned; nothing is written only when the task fails before the write |
| Orchestrator.WrittenIndependentOfLookups | app/services/llm_service.py:314-321 | the written analysis does not depend on the metadata or user stores |
| Orchestrator.LookupMissStillSucceeds | app/services/llm_service.py:345-392 | an unresolved owner still returns "success" with the same analysis, and no email |
| Orchestrator.EmailExactlyWhenResolved | app/services/llm_service.py:321-386 | one email exactly when metadata, a usable `user_id`, a user, a truthy email and a comparable score are present, to that email with the tier |
| Orchestrator.InlinePayloadMatchesBuilder | app/services/llm_service.py:355-384 | the task's inline payload equals the email service's builder, plus `missing_skills` |
| Orchestrator.StringKeyedUserNeverNotified | app/services/llm_service.py:332-338 | only users with an ObjectId `_id` can be resolved |
| Orchestrator.MockNeverFailsOnScore | app/services/llm_service.py:355-356 | the heuristic's integer score never makes the tier comparison fail |
| Orchestrator.ScoreFailureNeedsUntieredScore | app/services/llm_service.py:355-356 | a comparison failure needs an analysis whose score is not a number |
| Orchestrator.MockScoreComparable | app/services/llm_service.py:355-356 | the heuristic's score always has a tier |
| Orchestrator.RunReadsOnlyText | app/services/llm_service.py:304-312 | the task reads only the resume's text file |
| Orchestrator.FilesAfterKeepsText | app/services/llm_service.py:316-318 | the write leaves the text file as it was, and writing again changes nothing |
| Orchestrator.RerunOverwrites | app/services/llm_service.py:316-318 | re-running the task reproduces the same run and the same files: the old analysis is overwritten |
| Intake.SplitextOfPdf | app/services/resume_service.py:22 | `splitext` of `x.pdf` has root `x` |
| Intake.UploadAndParserAgree | app/api/v1/resumes.py:45-56 | the id the upload assigns and the id the parser derives are both `resume_<uuid>`, starting with "resume_" |
| Intake.PagesText | app/services/resume_service.py:11-19 | a text exactly when every page extracts |
| Intake.PagesTextAppend | app/services/resume_service.py:15-16 | page texts concatenate in page order, nothing dropped |
| Intake.SinglePage | app/services/resume_service.py:11-16 | zero pages give "", and one page gives its text |
| Intake.ParseResumeTask | app/services/resume_service.py:10-27 | the artifact `<id>.json` holding exactly `{"text": ...}` is written iff the file opens and every page extracts; otherwise nothing is written |
| Intake.ArtifactRoundTrip | app/services/resume_service.py:23-25 | the analysis task reads back exactly the text the parser wrote |
| Intake.UploadResume | app/api/v1/resumes.py:30-68 | a non-PDF MIME type is 400 before any write, enqueue or insert; otherwise the file is saved, parsing enqueued, and the metadata links the resume id to the uploader |
| Intake.FindResumeAppend | app/api/v1/resumes.py:59-62 | a newly inserted metadata record is the one found for its id |
| Intake.UploaderIsNotified | app/api/v1/resumes.py:59-62 | the analysis task resolves a fresh upload's owner to the uploader's user record |
| Intake.EntryFor | app/api/v1/resumes.py:117-127 | the id is the name without ".pdf"; `parsed` iff `<id>.json` exists; `analyzed` iff `<id>_analysis.json` exists |
| Intake.ListingExact | app/api/v1/resumes.py:115-127 | an entry is listed iff it comes from a name ending in ".pdf" |
| Intake.ListResumes | app/api/v1/resumes.py:109-132 | the loop's list is the listing |
| Intake.GetResumeAnalysis | app/services/llm_service.py:415-424 | absent exactly when the analysis file is missing, else its content |
| Intake.GetAnalysisRoute | app/api/v1/resumes.py:93-107 | success iff the analysis exists and is truthy; a missing one is the 404 re-raised as 500 |
| Intake.WrittenAnalysisServed | app/api/v1/resumes.py:93-104 | a non-empty analysis written by the task is served unchanged |
| Intake.AnalyzeRoute | app/api/v1/resumes.py:70-91 | exactly one analysis task is enqueued, and the reply always says `email_sent: True` |

## Left out

- Floating-point values: JSON numbers are integers only, so a float `overall_score` from a remote model is not modelled.
- Unicode case mapping: `lower()` and `upper()` are modelled on ASCII letters only.
- JobService.UpdateJob: models a MongoDB server of version 5.0 or later, where an empty `$set` is a no-op. Older servers reject it with a write error, which reaches the caller as a 500; that behaviour is not modelled.
- AuthService.AuthenticateUser: a `hashed_password` that is present but not a string is modelled as a 500. What the password check does with it depends on app/utils/hashing.py, which is not part of this model.
- Parsing with `int()`: the model accepts only an optionally signed run of digits. The whitespace and `_` separators that `int()` also accepts are not modelled; the parser reads only the mock GET id.
- The long prompt text and the HTML template bodies: they are modelled as named constants, not reproduced.
- Notify.SendEmailSucceeds: rendering is modelled for the default templates' content; a template file edited on disk renders whatever it says, which the model does not follow.
- Orchestrator.ProviderText: `str()` of a list or dict reaches the prompt only as a placeholder, as for every container rendering.
- `str()` of lists and dicts: only strings and integers are rendered.
- `fromisoformat`: only the two shapes the code produces are modelled (naive, or `+00:00`), without microseconds or other offsets.
- MongoDB regex semantics: the `$regex`/`$options: "i"` match is a parameter.
- JWT, bcrypt, SMTP, PDF, libmagic and HTTP internals: they are parameters; so are generated ids and clocks.
- Celery and asyncio plumbing: `.delay`, `send_task` and the 30-second wait are modelled as enqueuing; the waited-for meeting result is an input.
- Analysis.AnalyzeRemote: the decoder yields a dict or fails. The candidate is empty or runs from a '{' to the last '}', so `json.loads` can only give a dict or a decode error; no other JSON value needs modelling.
- The dashboard, notifications, users and applications routers: they aggregate in MongoDB or only forward.
- Zoom operations outside the core:
  - `get_meeting`, `update_meeting`, `delete_meeting`;
  - `update_meeting_task`, `cancel_meeting_task`, `get_meeting_details`;
  - the cancel, list, test-meeting routes.
- `get_applications_by_job` and the job applicants, update and delete routes: they only forward to the service.
- Pydantic validation of `JobOut`/`PublicJobOut` responses and the detail list of a 422: only the status is modelled.
- `post_job`'s inner role check is not modelled separately: it cannot fail after `require_admin`.
- Interviews.ScheduleInterview: `request.calendar_id` is not a field of the request model, so the calendar step always records `calendar_error`. The calendar call and the attendees list are therefore unreachable as written; they are modelled (`Attendees`) but not wired in.
- Zoom.ZoomService.ListMeetings: a `meetings` value that is neither a list of dicts nor an empty dict or string makes Python raise; the model reports it as one error whose exception text is not modelled.
- CreateAdmin.CreateInitialAdmin: the script stores `_id` as a string, while the analysis task looks users up by ObjectId, so the bootstrap admin is never emailed (`Orchestrator.StringKeyedUserNeverNotified`).
- CreateAdmin.CreateInitialAdmin: the script can create a second user named "admin" (`CreateAdmin.BootstrapCanDuplicateUsername`).
