/** The notification service of app/services/email_service.py: score tiering,
    the three payload builders and their enqueueing, seeding of the default
    templates, and the `send_email_task` result. SMTP delivery is an outcome
    given as a parameter; rendering needs the template file and, for the
    analysis template, an iterable `strengths`. */
module Notify {
  import opened Common
  import opened Stores

  // ------------------------------------------------------------- tiering

  /** The integer a score compares as: `bool` is an `int` in Python; any other
      non-integer raises `TypeError` on `>=` (floats are not modelled). */
  function ScoreValue(score: Json): Option<int> {
    match score
    case JInt(i) => Some(i)
    case JBool(b) => Some(if b then 1 else 0)
    case _ => None
  }

  /** The `score_class`: "high" from 80, "medium" from 60, "low" below; None
      where the comparison raises. */
  function ScoreTier(score: Json): (tier: Option<string>)
    ensures tier.Some? <==> ScoreValue(score).Some?
    ensures tier == Some("high") <==> ScoreValue(score).Some? && ScoreValue(score).value >= 80
    ensures tier == Some("medium") <==> ScoreValue(score).Some? && 60 <= ScoreValue(score).value < 80
    ensures tier == Some("low") <==> ScoreValue(score).Some? && ScoreValue(score).value < 60
  {
    match ScoreValue(score)
    case None => None
    case Some(v) => Some(if v >= 80 then "high" else if v >= 60 then "medium" else "low")
  }

  function TierRank(tier: string): int {
    if tier == "high" then 2 else if tier == "medium" then 1 else 0
  }

  /** A higher score never lands in a lower tier. */
  lemma TierMonotone(a: int, b: int)
    requires a <= b
    ensures TierRank(ScoreTier(JInt(a)).value) <= TierRank(ScoreTier(JInt(b)).value)
  {
  }

  /** An analysis without `overall_score` counts as 0, which is "low". */
  lemma MissingScoreIsLow(analysis: JsonObject)
    requires "overall_score" !in analysis
    ensures ScoreTier(Get(analysis, "overall_score", JInt(0))) == Some("low")
  {
  }

  // ------------------------------------------------------------- builders

  const DashboardUrl: string := "http://localhost:8000/dashboard"
  const DefaultCompany: string := "Our Company"

  const AnalysisTemplate: string := "analysis_notification.html"
  const InterviewTemplate: string := "interview_invitation.html"
  const StatusTemplate: string := "status_update.html"
  const BaseTemplate: string := "base.html"

  /** `send_analysis_notification`'s email; None where the score comparison raises. */
  function AnalysisNotification(recipientEmail: string, recipientName: string, resumeId: string,
                                analysis: JsonObject, dashboardUrl: string): (job: Option<EmailJob>)
    ensures job.Some? <==> ScoreTier(Get(analysis, "overall_score", JInt(0))).Some?
    ensures job.Some? ==>
      && job.value.recipients == [JStr(recipientEmail)]
      && job.value.subject == "Resume Analysis Complete - " + resumeId
      && job.value.templateName == AnalysisTemplate
      && job.value.data.AnalysisMail?
      && job.value.data.scoreClass == ScoreTier(Get(analysis, "overall_score", JInt(0))).value
      && job.value.data.missingSkills.None?
  {
    var overall := Get(analysis, "overall_score", JInt(0));
    match ScoreTier(overall)
    case None => None
    case Some(tier) =>
      Some(EmailJob([JStr(recipientEmail)], "Resume Analysis Complete - " + resumeId, AnalysisTemplate,
        AnalysisMail(JStr(recipientName), resumeId, overall, tier,
          Get(analysis, "summary", JStr("Analysis completed")),
          Get(analysis, "strengths", JArr([])),
          Get(analysis, "job_match_score", JNull),
          None,
          Get(analysis, "fit_assessment", JStr("")),
          Get(analysis, "provider", JStr("unknown")),
          dashboardUrl)))
  }

  /** An analysis with none of the keys gets every default: score 0 in the "low"
      tier, summary "Analysis completed", no strengths, no job match, an empty
      fit assessment, provider "unknown". */
  lemma AnalysisNotificationDefaults(recipientEmail: string, recipientName: string, resumeId: string)
    ensures AnalysisNotification(recipientEmail, recipientName, resumeId, map[], DashboardUrl)
         == Some(EmailJob([JStr(recipientEmail)], "Resume Analysis Complete - " + resumeId, AnalysisTemplate,
              AnalysisMail(JStr(recipientName), resumeId, JInt(0), "low", JStr("Analysis completed"),
                           JArr([]), JNull, None, JStr(""), JStr("unknown"), DashboardUrl)))
  {
  }

  /** A key the analysis does have is passed through unchanged. */
  lemma AnalysisNotificationCopies(recipientEmail: string, recipientName: string, resumeId: string,
                                   analysis: JsonObject, dashboardUrl: string)
    requires AnalysisNotification(recipientEmail, recipientName, resumeId, analysis, dashboardUrl).Some?
    ensures var d := AnalysisNotification(recipientEmail, recipientName, resumeId, analysis, dashboardUrl).value.data;
      && ("overall_score" in analysis ==> d.overallScore == analysis["overall_score"])
      && ("summary" in analysis ==> d.summary == analysis["summary"])
      && ("strengths" in analysis ==> d.strengths == analysis["strengths"])
      && ("job_match_score" in analysis ==> d.jobMatchScore == analysis["job_match_score"])
      && ("provider" in analysis ==> d.provider == analysis["provider"])
  {
  }

  /** `send_interview_invitation`'s email. */
  function InterviewInvitation(candidateEmail: string, candidateName: string, jobTitle: string,
                               details: JsonObject, interviewerName: string, companyName: string): (job: EmailJob)
    ensures job.recipients == [JStr(candidateEmail)]
    ensures job.subject == "Interview Invitation - " + jobTitle
    ensures job.templateName == InterviewTemplate
  {
    EmailJob([JStr(candidateEmail)], "Interview Invitation - " + jobTitle, InterviewTemplate,
      InterviewMail(candidateName, jobTitle,
        Get(details, "date", JNull), Get(details, "time", JNull),
        Get(details, "duration", JInt(60)), Get(details, "type", JStr("Video Interview")),
        Get(details, "zoom_link", JNull), Get(details, "meeting_id", JNull), Get(details, "passcode", JNull),
        interviewerName, companyName))
  }

  /** Interview defaults: 60 minutes, "Video Interview", apply only to absent keys;
      a present key, even one holding None, is passed through. */
  lemma InterviewDefaults(candidateEmail: string, candidateName: string, jobTitle: string,
                          details: JsonObject, interviewerName: string)
    ensures var d := InterviewInvitation(candidateEmail, candidateName, jobTitle, details, interviewerName, DefaultCompany).data;
      && d.companyName == "Our Company"
      && d.duration == (if "duration" in details then details["duration"] else JInt(60))
      && d.interviewType == (if "type" in details then details["type"] else JStr("Video Interview"))
  {
  }

  /** `send_status_update`'s email. */
  function StatusUpdate(candidateEmail: string, candidateName: string, jobTitle: string, status: string,
                        statusMessage: string, recruiterName: string, companyName: string,
                        nextSteps: Option<seq<string>>, feedback: Option<string>): (job: EmailJob)
    ensures job.recipients == [JStr(candidateEmail)]
    ensures job.subject == "Application Status Update - " + jobTitle
    ensures job.templateName == StatusTemplate
  {
    EmailJob([JStr(candidateEmail)], "Application Status Update - " + jobTitle, StatusTemplate,
      StatusMail(candidateName, jobTitle, status, statusMessage,
        if nextSteps.Some? then nextSteps.value else [], feedback, recruiterName, companyName))
  }

  /** `next_steps or []`: no steps and an empty list both become []. */
  lemma StatusNextSteps(candidateEmail: string, candidateName: string, jobTitle: string, status: string,
                        statusMessage: string, recruiterName: string, nextSteps: Option<seq<string>>)
    ensures var d := StatusUpdate(candidateEmail, candidateName, jobTitle, status, statusMessage,
                                  recruiterName, DefaultCompany, nextSteps, None).data;
      && (d.nextSteps == [] <==> nextSteps.None? || nextSteps.value == [])
      && (nextSteps.Some? ==> d.nextSteps == nextSteps.value)
  {
  }

  /** `send_analysis_notification`: one task enqueued; when the score comparison
      raises, nothing is. */
  method SendAnalysisNotification(queue: TaskQueue, recipientEmail: string, recipientName: string,
                                  resumeId: string, analysis: JsonObject, dashboardUrl: string)
    returns (enqueued: bool)
    modifies queue
    ensures enqueued <==> ScoreTier(Get(analysis, "overall_score", JInt(0))).Some?
    ensures queue.tasks == old(queue.tasks) +
      (if enqueued then [SendEmail(AnalysisNotification(recipientEmail, recipientName, resumeId, analysis, dashboardUrl).value)] else [])
  {
    var job := AnalysisNotification(recipientEmail, recipientName, resumeId, analysis, dashboardUrl);
    enqueued := job.Some?;
    if enqueued {
      queue.Enqueue(SendEmail(job.value));
    }
  }

  /** `send_interview_invitation`: exactly one task enqueued. */
  method SendInterviewInvitation(queue: TaskQueue, candidateEmail: string, candidateName: string,
                                 jobTitle: string, details: JsonObject, interviewerName: string, companyName: string)
    modifies queue
    ensures queue.tasks == old(queue.tasks) +
      [SendEmail(InterviewInvitation(candidateEmail, candidateName, jobTitle, details, interviewerName, companyName))]
  {
    queue.Enqueue(SendEmail(InterviewInvitation(candidateEmail, candidateName, jobTitle, details, interviewerName, companyName)));
  }

  /** `send_status_update`: exactly one task enqueued. */
  method SendStatusUpdate(queue: TaskQueue, candidateEmail: string, candidateName: string, jobTitle: string,
                          status: string, statusMessage: string, recruiterName: string, companyName: string,
                          nextSteps: Option<seq<string>>, feedback: Option<string>)
    modifies queue
    ensures queue.tasks == old(queue.tasks) +
      [SendEmail(StatusUpdate(candidateEmail, candidateName, jobTitle, status, statusMessage,
                              recruiterName, companyName, nextSteps, feedback))]
  {
    queue.Enqueue(SendEmail(StatusUpdate(candidateEmail, candidateName, jobTitle, status, statusMessage,
                                         recruiterName, companyName, nextSteps, feedback)));
  }

  // ------------------------------------------------------------ templates

  datatype TemplateFile = TemplateFile(name: string, content: string)

  /** The four default templates, in the order they are written. Their HTML is
      abbreviated to the blocks they define. */
  const DefaultTemplates: seq<TemplateFile> := [
    TemplateFile(BaseTemplate, "<html>{% block content %}{% endblock %}</html>"),
    TemplateFile(AnalysisTemplate, "{% extends \"base.html\" %}analysis"),
    TemplateFile(InterviewTemplate, "{% extends \"base.html\" %}interview"),
    TemplateFile(StatusTemplate, "{% extends \"base.html\" %}status")
  ]

  function Names(templates: seq<TemplateFile>): set<string> {
    set t | t in templates :: t.name
  }

  /** Writing each template whose file is absent, in order. */
  function SeedFrom(files: map<string, string>, templates: seq<TemplateFile>): map<string, string>
    decreases |templates|
  {
    if templates == [] then files
    else
      var t := templates[0];
      SeedFrom(if t.name in files then files else files[t.name := t.content], templates[1..])
  }

  /** Seeding never overwrites a file and adds exactly the missing templates. */
  lemma {:induction false} SeedKeepsExisting(files: map<string, string>, templates: seq<TemplateFile>)
    ensures SeedFrom(files, templates).Keys == files.Keys + Names(templates)
    ensures forall k :: k in files ==> SeedFrom(files, templates)[k] == files[k]
    decreases |templates|
  {
    if templates != [] {
      var t := templates[0];
      var next := if t.name in files then files else files[t.name := t.content];
      SeedKeepsExisting(next, templates[1..]);
      assert Names(templates) == {t.name} + Names(templates[1..]) by {
        assert forall u :: u in templates <==> u == t || u in templates[1..];
      }
    }
  }

  /** A template that was absent gets its default content, when names are distinct. */
  lemma {:induction false} SeedWritesDefault(files: map<string, string>, templates: seq<TemplateFile>, i: int)
    requires 0 <= i < |templates|
    requires forall a, b :: 0 <= a < b < |templates| ==> templates[a].name != templates[b].name
    requires templates[i].name !in files
    ensures templates[i].name in SeedFrom(files, templates)
         && SeedFrom(files, templates)[templates[i].name] == templates[i].content
    decreases |templates|
  {
    SeedKeepsExisting(files, templates);
    var t := templates[0];
    var next := if t.name in files then files else files[t.name := t.content];
    if i == 0 {
      SeedKeepsExisting(next, templates[1..]);
    } else {
      SeedWritesDefault(next, templates[1..], i - 1);
    }
  }

  /** Seeding twice is seeding once. */
  lemma SeedIdempotent(files: map<string, string>, templates: seq<TemplateFile>)
    ensures SeedFrom(SeedFrom(files, templates), templates) == SeedFrom(files, templates)
  {
    var once := SeedFrom(files, templates);
    SeedKeepsExisting(files, templates);
    SeedKeepsExisting(once, templates);
  }

  /** The directory app/templates/email, by file name. */
  class TemplateDir {
    var files: map<string, string>

    constructor (initial: map<string, string>)
      ensures files == initial
    {
      files := initial;
    }

    /** `_create_default_templates`. */
    method SeedDefaults()
      modifies this
      ensures files == SeedFrom(old(files), DefaultTemplates)
    {
      var i := 0;
      while i < |DefaultTemplates|
        invariant 0 <= i <= |DefaultTemplates|
        invariant SeedFrom(files, DefaultTemplates[i..]) == SeedFrom(old(files), DefaultTemplates)
      {
        var t := DefaultTemplates[i];
        assert DefaultTemplates[i..][1..] == DefaultTemplates[i + 1..];
        if t.name !in files {
          files := files[t.name := t.content];
        }
        i := i + 1;
      }
    }
  }

  // ------------------------------------------------------------- sending

  /** What the SMTP server does with one message. */
  datatype Delivery = Accepted | Refused(reason: string)

  /** A value Jinja's `{% for %}` can iterate: a list, a string or a dict; any
      other value raises `TypeError`. */
  predicate Iterable(j: Json) {
    j.JArr? || j.JStr? || j.JObj?
  }

  /** Rendering a default template raises only in the analysis template's
      unguarded `{% for strength in strengths %}`, on a `strengths` that is not
      iterable; the status template's loop is guarded and `next_steps` is always
      a list, and a variable the data lacks is undefined, which iterates as empty. */
  predicate Renders(job: EmailJob) {
    job.templateName == AnalysisTemplate && job.data.AnalysisMail? ==> Iterable(job.data.strengths)
  }

  /** `send_email`: True exactly when the template is found, renders, and the
      message is accepted; every failure is False, never an exception. */
  predicate SendEmailSucceeds(templates: map<string, string>, job: EmailJob, delivery: Delivery) {
    job.templateName in templates && Renders(job) && delivery.Accepted?
  }

  /** The dict `send_email_task` returns. */
  datatype EmailTaskResult =
    | TaskReport(success: bool, recipients: seq<Json>, subject: string)
    | TaskError(error: string)

  /** `EmailService()` / `get_email_service()`: the mail configuration is built
      first, and only when it is accepted are the default templates seeded;
      `configError` is what the configuration raises, if anything. */
  method GetEmailService(dir: TemplateDir, configError: Option<string>)
    modifies dir
    ensures dir.files == if configError.None? then SeedFrom(old(dir.files), DefaultTemplates) else old(dir.files)
  {
    if configError.None? {
      dir.SeedDefaults();
    }
  }

  /** `send_email_task`: constructing the service seeds the templates (unless the
      mail configuration itself fails), then the email is sent. */
  method SendEmailTask(dir: TemplateDir, job: EmailJob, configError: Option<string>, delivery: Delivery)
    returns (r: EmailTaskResult)
    modifies dir
    ensures configError.Some? ==> r == TaskError("Error sending email: " + configError.value) && dir.files == old(dir.files)
    ensures configError.None? ==> dir.files == SeedFrom(old(dir.files), DefaultTemplates)
    ensures configError.None? ==> r == TaskReport(SendEmailSucceeds(dir.files, job, delivery), job.recipients, job.subject)
  {
    GetEmailService(dir, configError);
    if configError.Some? {
      return TaskError("Error sending email: " + configError.value);
    }
    r := TaskReport(SendEmailSucceeds(dir.files, job, delivery), job.recipients, job.subject);
  }

  /** Every email the builders produce names a default template, so once the
      service is constructed an interview or status email is sent exactly when
      the server accepts it, and an analysis email exactly when, in addition,
      its `strengths` can be iterated. */
  lemma BuiltEmailsRender(files: map<string, string>, job: EmailJob, delivery: Delivery)
    requires job.templateName in {AnalysisTemplate, InterviewTemplate, StatusTemplate}
    ensures job.templateName != AnalysisTemplate ==>
      (SendEmailSucceeds(SeedFrom(files, DefaultTemplates), job, delivery) <==> delivery.Accepted?)
    ensures job.data.AnalysisMail? ==>
      (SendEmailSucceeds(SeedFrom(files, DefaultTemplates), job, delivery) <==>
         delivery.Accepted? && (job.templateName == AnalysisTemplate ==> Iterable(job.data.strengths)))
  {
    SeedKeepsExisting(files, DefaultTemplates);
    assert DefaultTemplates[1].name == AnalysisTemplate && DefaultTemplates[2].name == InterviewTemplate
        && DefaultTemplates[3].name == StatusTemplate;
  }

  /** An analysis whose `strengths` is null, a boolean or a number is never
      delivered: its notification fails to render whatever the server would do,
      and `send_email` returns False. */
  lemma UnrenderableStrengthsNotSent(files: map<string, string>, recipientEmail: string, recipientName: string,
                                     resumeId: string, analysis: JsonObject, dashboardUrl: string, delivery: Delivery)
    requires "strengths" in analysis && !Iterable(analysis["strengths"])
    requires AnalysisNotification(recipientEmail, recipientName, resumeId, analysis, dashboardUrl).Some?
    ensures !SendEmailSucceeds(SeedFrom(files, DefaultTemplates),
                               AnalysisNotification(recipientEmail, recipientName, resumeId, analysis, dashboardUrl).value,
                               delivery)
  {
  }

  /** An analysis without `strengths` gets the default [], which renders. */
  lemma MissingStrengthsRender(recipientEmail: string, recipientName: string, resumeId: string,
                               analysis: JsonObject, dashboardUrl: string)
    requires "strengths" !in analysis
    requires AnalysisNotification(recipientEmail, recipientName, resumeId, analysis, dashboardUrl).Some?
    ensures Renders(AnalysisNotification(recipientEmail, recipientName, resumeId, analysis, dashboardUrl).value)
  {
  }
}
