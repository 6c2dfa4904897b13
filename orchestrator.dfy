/** `analyze_resume_task` (app/services/llm_service.py): read the resume's text
    artifact, analyse it, persist the analysis, then look up the resume's owner
    and enqueue one notification email when an address can be resolved.

    The stores are the JSON directory (text artifacts and analyses), the
    `resumes` and `users` collections, and the Celery queue. */
module Orchestrator {
  import opened Common
  import opened Stores
  import opened Analysis
  import opened Notify

  /** The text artifact `<id>.json` and the analysis `<id>_analysis.json`. */
  function TextFile(resumeId: string): string {
    resumeId + ".json"
  }

  function AnalysisFile(resumeId: string): (name: string)
    ensures name != TextFile(resumeId)
  {
    resumeId + "_analysis.json"
  }

  /** Why the task returned `{"error": ...}`. */
  datatype Failure =
    | ProviderUnset                       // provider None: `None.lower()` raises
    | ProviderRejected(message: string)   // raised by `_setup_provider`: the `ValueError`, or the OpenAI client's error
    | TextNotFound                        // "Resume text not found"
    | ArtifactUnreadable                  // the artifact is not a JSON object: `.get` raises
    | TextNotString                       // the heuristic's `.lower()` on a `text` that is not a string
    | ScoreNotComparable                  // `overall_score >= 80` raises `TypeError`

  /** The task's return value: `{"status": "success", "analysis": ...}` or `{"error": ...}`. */
  datatype TaskOutcome = Completed(analysis: JsonObject) | Failed(failure: Failure)

  /** `resume_data.get("text", "")` for an artifact that loads as a dict; None
      where `.get` raises. `apply_job` reads the artifact the same way. */
  function ArtifactText(file: JsonFile): (r: Option<Json>)
    ensures r.Some? <==> file.Parsed? && file.doc.JObj?
  {
    match file
    case Parsed(JObj(fields)) => Some(Get(fields, "text", JStr("")))
    case _ => None
  }

  /** The resume text a provider works on: a string as it is; any other value
      reaches a remote provider's prompt through the f-string's `str()`, while
      the heuristic's `.lower()` raises on it. */
  function ProviderText(provider: Provider, value: Json): (r: Option<string>)
    ensures value.JStr? ==> r == Some(value.s)
    ensures r.None? <==> provider == Mock && !value.JStr?
    ensures provider != Mock ==> r == Some(PyStr(value))
  {
    if value.JStr? then Some(value.s)
    else if provider == Mock then None
    else Some(PyStr(value))
  }

  /** Index of the first `resumes` document with this `resume_id`, or -1. */
  function FindResume(docs: seq<ResumeMeta>, resumeId: string): (r: int)
    ensures -1 <= r < |docs|
    ensures r >= 0 ==> docs[r].resumeId == resumeId
    ensures forall j :: 0 <= j < |docs| && (r == -1 || j < r) ==> docs[j].resumeId != resumeId
  {
    if docs == [] then -1
    else if docs[0].resumeId == resumeId then 0
    else
      var k := FindResume(docs[1..], resumeId);
      if k == -1 then -1 else k + 1
  }

  /** The `_id` looked up for a `user_id`: an ObjectId as is, a string only when
      it is a valid ObjectId; anything else (missing, None, an invalid string, a
      number) is no lookup at all. */
  function UserKey(ref: UserRef): (k: Option<DocKey>)
    ensures k.Some? ==> k.value.ObjectIdKey?
    ensures k.None? <==> ref.NoUserRef? || (ref.ValueRef? && !(ref.v.JStr? && IsObjectIdText(ref.v.s)))
  {
    match ref
    case NoUserRef => None
    case ObjectIdRef(hex) => Some(ObjectIdKey(hex))
    case ValueRef(v) =>
      if v.JStr? && IsObjectIdText(v.s) then Some(ObjectIdOf(v.s)) else None
  }

  /** The user record the notification goes to, when every lookup succeeds. */
  function ResolveUser(resumes: seq<ResumeMeta>, users: seq<Document>, resumeId: string): Option<Document> {
    var r := FindResume(resumes, resumeId);
    if r < 0 then None
    else
      match UserKey(resumes[r].userId)
      case None => None
      case Some(key) =>
        var u := FirstWithKey(users, key);
        if u < 0 then None else Some(users[u])
  }

  /** The notification email for a resolved user, as the task builds it inline. */
  function NotificationJob(user: Document, resumeId: string, analysis: JsonObject, tier: string): EmailJob {
    EmailJob([Get(user.fields, "email", JNull)], "Resume Analysis Complete - " + resumeId, AnalysisTemplate,
      AnalysisMail(Get(user.fields, "name", JStr("Candidate")), resumeId,
        Get(analysis, "overall_score", JInt(0)), tier,
        Get(analysis, "summary", JStr("Analysis completed")),
        Get(analysis, "strengths", JArr([])),
        Get(analysis, "job_match_score", JNull),
        Some(Get(analysis, "missing_skills", JArr([]))),
        Get(analysis, "fit_assessment", JStr("")),
        Get(analysis, "provider", JStr("unknown")),
        DashboardUrl))
  }

  /** One run of the task: its result, the analysis it wrote, the email it enqueued. */
  datatype Run = Run(outcome: TaskOutcome, written: Option<JsonObject>, email: Option<EmailJob>)

  /** The analysis the task computes from readable text. */
  function TaskAnalysis(provider: Provider, text: string, jobDescription: Option<string>,
                        llm: string -> ProviderReply, decode: string -> Option<JsonObject>): JsonObject
  {
    AnalysisJson(AnalyzeResume(provider, text, if jobDescription.Some? then jobDescription.value else "", llm, decode))
  }

  /** The provider and the text, once construction and the artifact read succeed. */
  datatype Prepared = Prepared(provider: Provider, text: string)

  /** Everything before the analysis: provider construction, then the artifact read. */
  function Prepare(files: map<string, JsonFile>, resumeId: string, providerName: Option<string>,
                   env: ProviderEnv): (r: Result<Prepared, Failure>)
    ensures r.Err? ==> r.error != ScoreNotComparable
    ensures providerName.Some? && SetupProvider(providerName.value, env).Err? ==>
      r == Err(ProviderRejected(SetupProvider(providerName.value, env).error))
    ensures r.Ok? <==>
      providerName.Some? && SetupProvider(providerName.value, env).Ok? &&
      TextFile(resumeId) in files && ArtifactText(files[TextFile(resumeId)]).Some? &&
      ProviderText(SetupProvider(providerName.value, env).value, ArtifactText(files[TextFile(resumeId)]).value).Some?
    ensures r.Ok? ==>
      SetupProvider(providerName.value, env) == Ok(r.value.provider) &&
      ProviderText(r.value.provider, ArtifactText(files[TextFile(resumeId)]).value) == Some(r.value.text)
  {
    if providerName.None? then Err(ProviderUnset)
    else
      match SetupProvider(providerName.value, env)
      case Err(message) => Err(ProviderRejected(message))
      case Ok(provider) =>
        if TextFile(resumeId) !in files then Err(TextNotFound)
        else
          match ArtifactText(files[TextFile(resumeId)])
          case None => Err(ArtifactUnreadable)
          case Some(value) =>
            match ProviderText(provider, value)
            case None => Err(TextNotString)
            case Some(text) => Ok(Prepared(provider, text))
  }

  /** Everything after the write: the email to enqueue, if any; the only failure
      left is a score that cannot be compared. */
  function Notification(resumes: seq<ResumeMeta>, users: seq<Document>, resumeId: string,
                        analysis: JsonObject): Result<Option<EmailJob>, Failure>
  {
    match ResolveUser(resumes, users, resumeId)
    case None => Ok(None)
    case Some(user) =>
      if !Truthy(Get(user.fields, "email", JNull)) then Ok(None)
      else
        match ScoreTier(Get(analysis, "overall_score", JInt(0)))
        case None => Err(ScoreNotComparable)
        case Some(tier) => Ok(Some(NotificationJob(user, resumeId, analysis, tier)))
  }

  /** What `analyze_resume_task` does, as a function of the stores it reads. */
  function TaskRun(files: map<string, JsonFile>, resumes: seq<ResumeMeta>, users: seq<Document>,
                   resumeId: string, jobDescription: Option<string>, providerName: Option<string>,
                   env: ProviderEnv, llm: string -> ProviderReply,
                   decode: string -> Option<JsonObject>): (run: Run)
    ensures run.written.Some? <==> Prepare(files, resumeId, providerName, env).Ok?
    ensures run.written.Some? ==>
      var prepared := Prepare(files, resumeId, providerName, env).value;
      run.written == Some(TaskAnalysis(prepared.provider, prepared.text, jobDescription, llm, decode))
    ensures run.email.Some? ==> run.outcome.Completed?
    ensures run.outcome.Failed? && run.written.Some? ==> run.outcome.failure == ScoreNotComparable
  {
    match Prepare(files, resumeId, providerName, env)
    case Err(failure) => Run(Failed(failure), None, None)
    case Ok(prepared) =>
      var analysis := TaskAnalysis(prepared.provider, prepared.text, jobDescription, llm, decode);
      match Notification(resumes, users, resumeId, analysis)
      case Err(failure) => Run(Failed(failure), Some(analysis), None)
      case Ok(email) => Run(Completed(analysis), Some(analysis), email)
  }

  /** The JSON directory after a run. */
  function FilesAfter(files: map<string, JsonFile>, resumeId: string, run: Run): map<string, JsonFile> {
    if run.written.Some? then files[AnalysisFile(resumeId) := Parsed(JObj(run.written.value))] else files
  }

  /** `analyze_resume_task`, step by step over the stores. */
  method AnalyzeResumeTask(dir: JsonDir, resumes: ResumeCollection, users: Collection, queue: TaskQueue,
                           resumeId: string, jobDescription: Option<string>, providerName: Option<string>,
                           env: ProviderEnv, llm: string -> ProviderReply,
                           decode: string -> Option<JsonObject>)
    returns (outcome: TaskOutcome)
    modifies dir, queue
    ensures var run := TaskRun(old(dir.files), resumes.docs, users.docs, resumeId, jobDescription,
                               providerName, env, llm, decode);
      && outcome == run.outcome
      && dir.files == FilesAfter(old(dir.files), resumeId, run)
      && queue.tasks == old(queue.tasks) + (if run.email.Some? then [SendEmail(run.email.value)] else [])
  {
    if providerName.None? {
      return Failed(ProviderUnset);
    }
    var setup := SetupProvider(providerName.value, env);
    if setup.Err? {
      return Failed(ProviderRejected(setup.error));
    }
    if TextFile(resumeId) !in dir.files {
      return Failed(TextNotFound);
    }
    var value := ArtifactText(dir.files[TextFile(resumeId)]);
    if value.None? {
      return Failed(ArtifactUnreadable);
    }
    var text := ProviderText(setup.value, value.value);
    if text.None? {
      return Failed(TextNotString);
    }
    assert Prepare(dir.files, resumeId, providerName, env) == Ok(Prepared(setup.value, text.value));
    var analysis := TaskAnalysis(setup.value, text.value, jobDescription, llm, decode);
    dir.Write(AnalysisFile(resumeId), JObj(analysis));
    outcome := NotifyOwner(resumes, users, queue, resumeId, analysis);
  }

  /** The part of the task after the write: resolve the resume's owner and
      enqueue the notification when every lookup succeeds. */
  method NotifyOwner(resumes: ResumeCollection, users: Collection, queue: TaskQueue, resumeId: string,
                     analysis: JsonObject) returns (outcome: TaskOutcome)
    modifies queue
    ensures var note := Notification(resumes.docs, users.docs, resumeId, analysis);
      && outcome == (if note.Err? then Failed(note.error) else Completed(analysis))
      && queue.tasks == old(queue.tasks) + (if note.Ok? && note.value.Some? then [SendEmail(note.value.value)] else [])
  {
    var r := FindResume(resumes.docs, resumeId);
    if r < 0 {
      return Completed(analysis);
    }
    var key := UserKey(resumes.docs[r].userId);
    if key.None? {
      return Completed(analysis);
    }
    var u := FirstWithKey(users.docs, key.value);
    if u < 0 {
      return Completed(analysis);
    }
    var user := users.docs[u];
    assert ResolveUser(resumes.docs, users.docs, resumeId) == Some(user);
    var recipientEmail := Get(user.fields, "email", JNull);
    if !Truthy(recipientEmail) {
      return Completed(analysis);
    }
    var tier := ScoreTier(Get(analysis, "overall_score", JInt(0)));
    if tier.None? {
      return Failed(ScoreNotComparable);
    }
    queue.Enqueue(SendEmail(NotificationJob(user, resumeId, analysis, tier.value)));
    return Completed(analysis);
  }

  // ------------------------------------------------------------ properties

  /** Without a text artifact the task reports "Resume text not found", writes
      nothing and sends nothing. */
  lemma NoTextNoAnalysis(files: map<string, JsonFile>, resumes: seq<ResumeMeta>, users: seq<Document>,
                         resumeId: string, jobDescription: Option<string>, providerName: string,
                         env: ProviderEnv, llm: string -> ProviderReply, decode: string -> Option<JsonObject>)
    requires SetupProvider(providerName, env).Ok?
    requires TextFile(resumeId) !in files
    ensures TaskRun(files, resumes, users, resumeId, jobDescription, Some(providerName), env, llm, decode)
         == Run(Failed(TextNotFound), None, None)
  {
  }

  /** Asked for OpenAI without an OpenAI key, the task fails while building the
      service, before reading the artifact: it returns the client's error,
      writes nothing and sends nothing. */
  lemma OpenAIWithoutKeyWritesNothing(files: map<string, JsonFile>, resumes: seq<ResumeMeta>, users: seq<Document>,
                                      resumeId: string, jobDescription: Option<string>, providerName: string,
                                      env: ProviderEnv, llm: string -> ProviderReply, decode: string -> Option<JsonObject>)
    requires Lower(providerName) == "openai" && env.openaiApiKey.None?
    ensures TaskRun(files, resumes, users, resumeId, jobDescription, Some(providerName), env, llm, decode)
         == Run(Failed(ProviderRejected(OpenAIKeyMissing)), None, None)
  {
  }

  /** A `text` that is not a string fails only the heuristic: a remote provider
      analyses its `str()` and the analysis is written, while the heuristic's
      `.lower()` raises before anything is written. */
  lemma NumericTextOnlyFailsHeuristic(files: map<string, JsonFile>, resumes: seq<ResumeMeta>, users: seq<Document>,
                                      resumeId: string, jobDescription: Option<string>, providerName: string,
                                      env: ProviderEnv, llm: string -> ProviderReply,
                                      decode: string -> Option<JsonObject>, n: int)
    requires SetupProvider(providerName, env).Ok?
    requires TextFile(resumeId) in files && files[TextFile(resumeId)] == Parsed(JObj(map["text" := JInt(n)]))
    ensures SetupProvider(providerName, env) == Ok(Mock) ==>
      TaskRun(files, resumes, users, resumeId, jobDescription, Some(providerName), env, llm, decode)
        == Run(Failed(TextNotString), None, None)
    ensures SetupProvider(providerName, env) != Ok(Mock) ==>
      TaskRun(files, resumes, users, resumeId, jobDescription, Some(providerName), env, llm, decode).written
        == Some(TaskAnalysis(SetupProvider(providerName, env).value, IntToString(n), jobDescription, llm, decode))
  {
    assert ArtifactText(files[TextFile(resumeId)]) == Some(JInt(n));
  }

  /** Only a run that wrote an analysis can send an email, and only one. */
  lemma EmailOnlyAfterWrite(files: map<string, JsonFile>, resumes: seq<ResumeMeta>, users: seq<Document>,
                            resumeId: string, jobDescription: Option<string>, providerName: Option<string>,
                            env: ProviderEnv, llm: string -> ProviderReply, decode: string -> Option<JsonObject>)
    ensures var run := TaskRun(files, resumes, users, resumeId, jobDescription, providerName, env, llm, decode);
      && (run.email.Some? ==> run.written.Some? && run.outcome == Completed(run.written.value))
      && (run.outcome.Completed? ==> run.written == Some(run.outcome.analysis))
      && (run.written.None? <==> run.outcome.Failed? && run.outcome.failure != ScoreNotComparable)
  {
    var run := TaskRun(files, resumes, users, resumeId, jobDescription, providerName, env, llm, decode);
    var prep := Prepare(files, resumeId, providerName, env);
    if prep.Err? {
      assert run == Run(Failed(prep.error), None, None);
      assert prep.error != ScoreNotComparable;
    } else {
      var analysis := TaskAnalysis(prep.value.provider, prep.value.text, jobDescription, llm, decode);
      var note := Notification(resumes, users, resumeId, analysis);
      assert note.Err? ==> note.error == ScoreNotComparable;
      assert run == if note.Err? then Run(Failed(note.error), Some(analysis), None)
                    else Run(Completed(analysis), Some(analysis), note.value);
    }
  }

  /** The analysis is persisted before any lookup: what is written depends on
      the text, the provider and the oracles only, never on the `resumes` or
      `users` collections. */
  lemma WrittenIndependentOfLookups(files: map<string, JsonFile>, resumes1: seq<ResumeMeta>, users1: seq<Document>,
                                    resumes2: seq<ResumeMeta>, users2: seq<Document>,
                                    resumeId: string, jobDescription: Option<string>, providerName: Option<string>,
                                    env: ProviderEnv, llm: string -> ProviderReply, decode: string -> Option<JsonObject>)
    ensures TaskRun(files, resumes1, users1, resumeId, jobDescription, providerName, env, llm, decode).written
         == TaskRun(files, resumes2, users2, resumeId, jobDescription, providerName, env, llm, decode).written
  {
  }

  /** Every lookup miss is harmless: with no resolvable user the task still
      succeeds with the analysis it wrote, and sends nothing. */
  lemma LookupMissStillSucceeds(files: map<string, JsonFile>, resumes: seq<ResumeMeta>, users: seq<Document>,
                                resumeId: string, jobDescription: Option<string>, providerName: Option<string>,
                                env: ProviderEnv, llm: string -> ProviderReply, decode: string -> Option<JsonObject>)
    requires Prepare(files, resumeId, providerName, env).Ok?
    requires ResolveUser(resumes, users, resumeId).None?
    ensures var run := TaskRun(files, resumes, users, resumeId, jobDescription, providerName, env, llm, decode);
      run.outcome == Completed(run.written.value) && run.email.None?
  {
  }

  /** An email is enqueued exactly when the analysis was written, the resume's
      owner resolves to a user with a non-empty email, and the score can be
      tiered; it goes to that address only, tiered like the builder. */
  lemma EmailExactlyWhenResolved(files: map<string, JsonFile>, resumes: seq<ResumeMeta>, users: seq<Document>,
                                 resumeId: string, jobDescription: Option<string>, providerName: Option<string>,
                                 env: ProviderEnv, llm: string -> ProviderReply, decode: string -> Option<JsonObject>)
    ensures var run := TaskRun(files, resumes, users, resumeId, jobDescription, providerName, env, llm, decode);
      var user := ResolveUser(resumes, users, resumeId);
      && (run.email.Some? <==>
            run.written.Some? && user.Some? && Truthy(Get(user.value.fields, "email", JNull))
            && ScoreTier(Get(run.written.value, "overall_score", JInt(0))).Some?)
      && (run.email.Some? ==>
            && run.email.value.recipients == [Get(user.value.fields, "email", JNull)]
            && run.email.value.subject == "Resume Analysis Complete - " + resumeId
            && run.email.value.data.scoreClass == ScoreTier(Get(run.written.value, "overall_score", JInt(0))).value)
  {
  }

  /** The task's inline payload is the `send_analysis_notification` payload plus
      `missing_skills`, for a user with a string email and name. */
  lemma InlinePayloadMatchesBuilder(user: Document, resumeId: string, analysis: JsonObject, email: string, name: string)
    requires Get(user.fields, "email", JNull) == JStr(email)
    requires Get(user.fields, "name", JStr("Candidate")) == JStr(name)
    requires ScoreTier(Get(analysis, "overall_score", JInt(0))).Some?
    ensures var tier := ScoreTier(Get(analysis, "overall_score", JInt(0))).value;
      var built := AnalysisNotification(email, name, resumeId, analysis, DashboardUrl).value;
      NotificationJob(user, resumeId, analysis, tier)
        == built.(data := built.data.(missingSkills := Some(Get(analysis, "missing_skills", JArr([])))))
  {
  }

  /** A report the service built itself (heuristic, fallback or error report)
      carries a list of strengths, so its notification renders; only a decoded
      reply can carry a `strengths` that does not. */
  lemma BuiltReportNotificationRenders(user: Document, resumeId: string, report: Report, tier: string)
    ensures Renders(NotificationJob(user, resumeId, ReportJson(report), tier))
  {
    assert ReportJson(report)["strengths"] == StrArray(report.strengths);
  }

  /** A user whose `_id` is a plain string (as `create_initial_admin` stores it)
      is never found by the ObjectId lookup, so is never notified. */
  lemma StringKeyedUserNeverNotified(resumes: seq<ResumeMeta>, users: seq<Document>, resumeId: string)
    ensures ResolveUser(resumes, users, resumeId).Some? ==> ResolveUser(resumes, users, resumeId).value.key.ObjectIdKey?
  {
  }

  /** With the keyword heuristic the score is always an integer, so the task
      never fails on tiering. */
  lemma MockNeverFailsOnScore(files: map<string, JsonFile>, resumes: seq<ResumeMeta>, users: seq<Document>,
                              resumeId: string, jobDescription: Option<string>, env: ProviderEnv,
                              llm: string -> ProviderReply, decode: string -> Option<JsonObject>)
    ensures TaskRun(files, resumes, users, resumeId, jobDescription, Some("mock"), env, llm, decode).outcome
         != Failed(ScoreNotComparable)
  {
    ScoreFailureNeedsUntieredScore(files, resumes, users, resumeId, jobDescription, Some("mock"), env, llm, decode);
    assert Lower("mock") == "mock";
    var prep := Prepare(files, resumeId, Some("mock"), env);
    if prep.Ok? {
      assert prep.value.provider == Mock;
      MockScoreComparable(prep.value.text, jobDescription, llm, decode);
    }
  }

  /** The only way to fail on tiering: the artifact was read and the analysis's score does not tier. */
  lemma ScoreFailureNeedsUntieredScore(files: map<string, JsonFile>, resumes: seq<ResumeMeta>, users: seq<Document>,
                                       resumeId: string, jobDescription: Option<string>, providerName: Option<string>,
                                       env: ProviderEnv, llm: string -> ProviderReply,
                                       decode: string -> Option<JsonObject>)
    ensures var run := TaskRun(files, resumes, users, resumeId, jobDescription, providerName, env, llm, decode);
      var prep := Prepare(files, resumeId, providerName, env);
      run.outcome == Failed(ScoreNotComparable) ==>
      prep.Ok? &&
      ScoreTier(Get(TaskAnalysis(prep.value.provider, prep.value.text, jobDescription, llm, decode),
                    "overall_score", JInt(0))).None?
  {
  }

  /** The heuristic's analysis always carries a score that tiers. */
  lemma MockScoreComparable(text: string, jobDescription: Option<string>,
                            llm: string -> ProviderReply, decode: string -> Option<JsonObject>)
    ensures ScoreTier(Get(TaskAnalysis(Mock, text, jobDescription, llm, decode), "overall_score", JInt(0))).Some?
  {
    var analysis := TaskAnalysis(Mock, text, jobDescription, llm, decode);
    assert analysis == ReportJson(MockAnalysis(text));
    ReportJsonFields(MockAnalysis(text));
  }

  /** The run reads the JSON directory only through the text artifact. */
  lemma RunReadsOnlyText(files1: map<string, JsonFile>, files2: map<string, JsonFile>,
                         resumes: seq<ResumeMeta>, users: seq<Document>,
                         resumeId: string, jobDescription: Option<string>, providerName: Option<string>,
                         env: ProviderEnv, llm: string -> ProviderReply, decode: string -> Option<JsonObject>)
    requires TextFile(resumeId) in files1 <==> TextFile(resumeId) in files2
    requires TextFile(resumeId) in files1 ==> files1[TextFile(resumeId)] == files2[TextFile(resumeId)]
    ensures TaskRun(files1, resumes, users, resumeId, jobDescription, providerName, env, llm, decode)
         == TaskRun(files2, resumes, users, resumeId, jobDescription, providerName, env, llm, decode)
  {
    assert Prepare(files1, resumeId, providerName, env) == Prepare(files2, resumeId, providerName, env);
  }

  /** The analysis file is not the text artifact, so writing it leaves the artifact alone. */
  lemma FilesAfterKeepsText(files: map<string, JsonFile>, resumeId: string, run: Run)
    ensures TextFile(resumeId) in FilesAfter(files, resumeId, run) <==> TextFile(resumeId) in files
    ensures TextFile(resumeId) in files ==> FilesAfter(files, resumeId, run)[TextFile(resumeId)] == files[TextFile(resumeId)]
    ensures FilesAfter(FilesAfter(files, resumeId, run), resumeId, run) == FilesAfter(files, resumeId, run)
  {
  }

  /** Re-running the task with the same stores and oracles rewrites the same
      analysis: the directory effect is idempotent, and the second run reads
      the same text artifact because the analysis has its own file. */
  lemma RerunOverwrites(files: map<string, JsonFile>, resumes: seq<ResumeMeta>, users: seq<Document>,
                        resumeId: string, jobDescription: Option<string>, providerName: Option<string>,
                        env: ProviderEnv, llm: string -> ProviderReply, decode: string -> Option<JsonObject>)
    ensures var run1 := TaskRun(files, resumes, users, resumeId, jobDescription, providerName, env, llm, decode);
      var files1 := FilesAfter(files, resumeId, run1);
      var run2 := TaskRun(files1, resumes, users, resumeId, jobDescription, providerName, env, llm, decode);
      run2 == run1 && FilesAfter(files1, resumeId, run2) == files1
  {
    var run1 := TaskRun(files, resumes, users, resumeId, jobDescription, providerName, env, llm, decode);
    var files1 := FilesAfter(files, resumeId, run1);
    FilesAfterKeepsText(files, resumeId, run1);
    RunReadsOnlyText(files1, files, resumes, users, resumeId, jobDescription, providerName, env, llm, decode);
  }
}
