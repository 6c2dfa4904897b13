/** The job routes (app/api/v1/jobs.py): seeding, posting, listing and
    applying, each behind its role gate. */
module JobRoutes {
  import opened Common
  import opened Stores
  import opened Session
  import opened Roles
  import opened JobService
  import Orchestrator
  import Intake

  /** FastAPI's answer to a query parameter outside its declared range. */
  const ValidationFailed := HttpError(422, "Unprocessable Entity")

  const ResumeNotFound := HttpError(404, "Resume not found")

  /** The two sample jobs, both posted by `owner`. */
  function BackendJob(owner: Json): (j: JsonObject)
    ensures "posted_by" in j && j["posted_by"] == owner
  {
    map["title" := JStr("Backend Developer"), "description" := JStr("Work with FastAPI and MongoDB."),
        "skills" := StrArray(["FastAPI", "MongoDB", "Python"]), "salary" := JStr("100k"),
        "company" := JStr("TechCorp"), "location" := JStr("Remote"),
        "tags" := StrArray(["backend", "python"]), "posted_by" := owner]
  }

  function DataJob(owner: Json): (j: JsonObject)
    ensures "posted_by" in j && j["posted_by"] == owner
  {
    map["title" := JStr("Data Scientist"), "description" := JStr("Build data pipelines and ML models."),
        "skills" := StrArray(["Python", "Pandas", "Scikit-learn"]), "salary" := JStr("120k"),
        "company" := JStr("DataWorks"), "location" := JStr("New York"),
        "tags" := StrArray(["data", "ml", "python"]), "posted_by" := owner]
  }

  function SeededMessage(count: nat): string {
    NatToString(count) + " jobs seeded successfully"
  }

  /** `seed_jobs`: an admin wipes the job store and inserts the two samples;
      the reply counts the jobs inserted. `id1` and `id2` are the generated ids. */
  method SeedJobs(jobs: Collection, user: CurrentUser, id1: string, id2: string) returns (r: Result<string, HttpError>)
    modifies jobs
    ensures RequireAdmin(user).Err? ==> r == Err(RequireAdmin(user).error) && jobs.docs == old(jobs.docs)
    ensures RequireAdmin(user).Ok? && id1 == id2 ==>
      r == Err(InternalError) && jobs.docs == [Document(ObjectIdKey(id1), BackendJob(user.username))]
    ensures r.Ok? <==> RequireAdmin(user).Ok? && id1 != id2
    ensures r.Ok? ==>
      jobs.docs == [Document(ObjectIdKey(id1), BackendJob(user.username)),
                    Document(ObjectIdKey(id2), DataJob(user.username))] &&
      r.value == SeededMessage(|jobs.docs|)
  {
    var gate := RequireAdmin(user);
    if gate.Err? {
      return Err(gate.error);
    }
    jobs.docs := [];
    var first := jobs.Insert(Document(ObjectIdKey(id1), BackendJob(user.username)));
    assert KeyUsed(jobs.docs, ObjectIdKey(id2)) <==> id1 == id2 by {
      assert jobs.docs[0].key == ObjectIdKey(id1);
    }
    var second := jobs.Insert(Document(ObjectIdKey(id2), DataJob(user.username)));
    if !second {
      return Err(InternalError);
    }
    r := Ok(SeededMessage(2));
  }

  /** After seeding, the store holds exactly the two samples, with distinct
      `_id`s, both posted by the seeding admin, whatever it held before; the
      reply's count reads "2". */
  lemma SeededStore(user: CurrentUser, id1: string, id2: string)
    requires id1 != id2
    ensures var docs := [Document(ObjectIdKey(id1), BackendJob(user.username)),
                         Document(ObjectIdKey(id2), DataJob(user.username))];
      UniqueKeys(docs) && (forall d :: d in docs ==> FieldIs(d, "posted_by", user.username)) &&
      NatToString(|docs|) == "2"
  {
    var docs := [Document(ObjectIdKey(id1), BackendJob(user.username)),
                 Document(ObjectIdKey(id2), DataJob(user.username))];
    assert FieldIs(docs[0], "posted_by", user.username) && FieldIs(docs[1], "posted_by", user.username);
    assert NatToString(2) == [DigitChar(2)];
  }

  /** `post_job`: only an admin creates a job, posted under the admin's username. */
  method PostJob(jobs: Collection, user: CurrentUser, payload: JsonObject, newId: string)
    returns (r: Result<JsonObject, HttpError>)
    modifies jobs
    ensures RequireAdmin(user).Err? ==> r == Err(HttpError(403, "Admins only")) && jobs.docs == old(jobs.docs)
    ensures r.Ok? <==> RequireAdmin(user).Ok? && !KeyUsed(old(jobs.docs), ObjectIdKey(newId))
    ensures RequireAdmin(user).Ok? && r.Err? ==> r == Err(InternalError)
    ensures r.Err? ==> jobs.docs == old(jobs.docs)
    ensures r.Ok? ==>
      user.role == AdminRole &&
      jobs.docs == old(jobs.docs) + [Document(ObjectIdKey(newId), payload["posted_by" := user.username])] &&
      r.value == payload["posted_by" := user.username]["_id" := JStr(newId)]
  {
    var gate := RequireAdmin(user);
    if gate.Err? {
      return Err(gate.error);
    }
    r := CreateJob(jobs, payload, user.username, newId);
  }

  /** `list_jobs`: `limit` must be at least 1 and `skip` at least 0; the
      reply is the requested page of matching jobs. */
  method ListJobsRoute(docs: seq<Document>, keyword: Option<string>, location: Option<string>, limit: int, skip: int,
                       search: Search) returns (r: Result<seq<JobView>, HttpError>)
    ensures r.Err? <==> limit < 1 || skip < 0
    ensures r.Err? ==> r.error == ValidationFailed
    ensures r.Ok? ==>
      var page := Window(Matching(docs, keyword, location, search), skip, limit);
      |r.value| == |page| <= limit && forall i :: 0 <= i < |page| ==> r.value[i] == ViewOf(page[i])
  {
    if limit < 1 || skip < 0 {
      return Err(ValidationFailed);
    }
    var listed := ListJobs(docs, keyword, location, skip, limit, search);
    PageBounded(docs, keyword, location, skip, limit, search);
    r := Ok(listed);
  }

  /** `apply_job`: a candidate applies with a resume's text artifact; a
      missing artifact is a 404 and nothing is inserted. */
  method ApplyJob(files: map<string, JsonFile>, applications: Collection, user: CurrentUser, jobId: string,
                  resumeId: string, createdAt: Json, newId: string) returns (r: Result<JsonObject, HttpError>)
    modifies applications
    ensures RequireCandidate(user).Err? ==>
      r == Err(HttpError(403, "Candidates only")) && applications.docs == old(applications.docs)
    ensures RequireCandidate(user).Ok? && Orchestrator.TextFile(resumeId) !in files ==>
      r == Err(ResumeNotFound) && applications.docs == old(applications.docs)
    ensures r.Err? ==> applications.docs == old(applications.docs)
    ensures r.Ok? <==>
      RequireCandidate(user).Ok? && Orchestrator.TextFile(resumeId) in files &&
      Orchestrator.ArtifactText(files[Orchestrator.TextFile(resumeId)]).Some? && !KeyUsed(old(applications.docs), ObjectIdKey(newId))
    ensures r.Ok? ==>
      var app := Application(jobId, user.username, Orchestrator.ArtifactText(files[Orchestrator.TextFile(resumeId)]).value, createdAt);
      applications.docs == old(applications.docs) + [Document(ObjectIdKey(newId), app)] &&
      r.value == app["_id" := JStr(newId)]
  {
    var gate := RequireCandidate(user);
    if gate.Err? {
      return Err(gate.error);
    }
    var path := Orchestrator.TextFile(resumeId);
    if path !in files {
      return Err(ResumeNotFound);
    }
    var text := Orchestrator.ArtifactText(files[path]);
    if text.None? {
      return Err(InternalError);
    }
    r := ApplyToJob(applications, jobId, user.username, text.value, createdAt, newId);
  }
}
