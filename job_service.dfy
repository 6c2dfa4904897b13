/** `JobService` (app/services/job_service.py): the job-search query, paging,
    and the job and application store operations.

    MongoDB's case-insensitive regular-expression search is an oracle
    `search(pattern, text)`; `insert_one`'s generated ObjectId is a parameter. */
module JobService {
  import opened Common
  import opened Stores


  /** A case-insensitive regular-expression search: does `pattern` occur in `text`? */
  type Search = (string, string) -> bool

  // ---------------------------------------------------------------- query

  /** `{"$regex": pattern, "$options": "i"}`. */
  function RegexFilter(pattern: string): Json {
    JObj(map["$regex" := JStr(pattern), "$options" := JStr("i")])
  }

  predicate Given(v: Option<string>) {
    v.Some? && v.value != ""
  }

  /** The filter `list_jobs` intends: an `$or` of title and description
      matches for a given keyword, a location match for a given location, and
      nothing else. */
  predicate IsJobQuery(query: JsonObject, keyword: Option<string>, location: Option<string>) {
    query.Keys <= {"$or", "location"} &&
    ("$or" in query <==> Given(keyword)) &&
    ("$or" in query ==>
      query["$or"] == JArr([JObj(map["title" := RegexFilter(keyword.value)]),
                            JObj(map["description" := RegexFilter(keyword.value)])])) &&
    ("location" in query <==> Given(location)) &&
    ("location" in query ==> query["location"] == RegexFilter(location.value))
  }

  /** The query dict, built one condition at a time. */
  method BuildQuery(keyword: Option<string>, location: Option<string>) returns (query: JsonObject)
    ensures IsJobQuery(query, keyword, location)
    ensures !Given(keyword) && !Given(location) ==> query == map[]
  {
    query := map[];
    if Given(keyword) {
      query := query["$or" := JArr([JObj(map["title" := RegexFilter(keyword.value)]),
                                    JObj(map["description" := RegexFilter(keyword.value)])])];
    }
    if Given(location) {
      query := query["location" := RegexFilter(location.value)];
    }
  }

  /** A field condition `{"$regex": p, ...}` holds when the field is a string `p` is found in. */
  predicate RegexHolds(fields: JsonObject, field: string, cond: Json, search: Search) {
    cond.JObj? && "$regex" in cond.fields && cond.fields["$regex"].JStr? &&
    field in fields && fields[field].JStr? && search(cond.fields["$regex"].s, fields[field].s)
  }

  /** A clause of `$or`: every field condition in it holds. */
  predicate ClauseHolds(fields: JsonObject, clause: Json, search: Search) {
    clause.JObj? && forall k :: k in clause.fields ==> RegexHolds(fields, k, clause.fields[k], search)
  }

  /** How MongoDB evaluates a query of this shape: `$or` needs one clause to
      hold, every other key is a field condition that must hold. */
  predicate QueryMatches(fields: JsonObject, query: JsonObject, search: Search) {
    ("$or" in query ==>
      query["$or"].JArr? && exists i :: 0 <= i < |query["$or"].items| && ClauseHolds(fields, query["$or"].items[i], search)) &&
    (forall k :: k in query && k != "$or" ==> RegexHolds(fields, k, query[k], search))
  }

  /** The intended selection: the keyword in the title or the description, and
      the location in the location; an absent or empty filter selects everything. */
  predicate Selects(fields: JsonObject, keyword: Option<string>, location: Option<string>, search: Search) {
    (!Given(keyword) ||
      RegexHolds(fields, "title", RegexFilter(keyword.value), search) ||
      RegexHolds(fields, "description", RegexFilter(keyword.value), search)) &&
    (!Given(location) || RegexHolds(fields, "location", RegexFilter(location.value), search))
  }

  /** The built query selects exactly the intended jobs. */
  lemma QueryMeansSelection(query: JsonObject, fields: JsonObject, keyword: Option<string>, location: Option<string>,
                            search: Search)
    requires IsJobQuery(query, keyword, location)
    ensures QueryMatches(fields, query, search) <==> Selects(fields, keyword, location, search)
  {
    if Given(keyword) {
      var items := query["$or"].items;
      var t := map["title" := RegexFilter(keyword.value)];
      var d := map["description" := RegexFilter(keyword.value)];
      assert items == [JObj(t), JObj(d)];
      assert ClauseHolds(fields, items[0], search) <==> RegexHolds(fields, "title", RegexFilter(keyword.value), search) by {
        assert t.Keys == {"title"};
      }
      assert ClauseHolds(fields, items[1], search) <==> RegexHolds(fields, "description", RegexFilter(keyword.value), search) by {
        assert d.Keys == {"description"};
      }
    }
    assert (forall k :: k in query && k != "$or" ==> RegexHolds(fields, k, query[k], search)) <==>
           (!Given(location) || RegexHolds(fields, "location", RegexFilter(location.value), search)) by {
      forall k | k in query && k != "$or" ensures k == "location" {
        assert k in {"$or", "location"};
      }
    }
  }

  // --------------------------------------------------------------- paging

  /** The jobs a query selects, in natural order. */
  function Matching(docs: seq<Document>, keyword: Option<string>, location: Option<string>, search: Search)
    : (r: seq<Document>)
    ensures |r| <= |docs|
    ensures forall d :: d in r ==> d in docs && Selects(d.fields, keyword, location, search)
  {
    if docs == [] then []
    else
      var prefix := Matching(docs[..|docs| - 1], keyword, location, search);
      var last := docs[|docs| - 1];
      if Selects(last.fields, keyword, location, search) then prefix + [last] else prefix
  }

  /** `find(query)`: the documents the query matches, in natural order. */
  function Found(docs: seq<Document>, query: JsonObject, search: Search): (r: seq<Document>)
    ensures |r| <= |docs|
  {
    if docs == [] then []
    else
      var prefix := Found(docs[..|docs| - 1], query, search);
      var last := docs[|docs| - 1];
      if QueryMatches(last.fields, query, search) then prefix + [last] else prefix
  }

  /** Running the built query finds exactly the intended jobs, in order. */
  lemma {:induction false} FoundIsMatching(docs: seq<Document>, query: JsonObject, keyword: Option<string>,
                                           location: Option<string>, search: Search)
    requires IsJobQuery(query, keyword, location)
    ensures Found(docs, query, search) == Matching(docs, keyword, location, search)
  {
    if docs != [] {
      FoundIsMatching(docs[..|docs| - 1], query, keyword, location, search);
      QueryMeansSelection(query, docs[|docs| - 1].fields, keyword, location, search);
    }
  }

  /** `.skip(skip).limit(limit)`; a limit of 0 is no limit. */
  function Window<T>(s: seq<T>, skip: nat, limit: nat): (r: seq<T>)
    ensures limit > 0 ==> |r| == Min(limit, if skip < |s| then |s| - skip else 0)
    ensures limit == 0 ==> |r| == (if skip < |s| then |s| - skip else 0)
    ensures skip >= |s| ==> r == []
    ensures skip < |s| ==> r == s[skip..skip + |r|]
  {
    var rest := if skip < |s| then s[skip..] else [];
    if limit == 0 || limit >= |rest| then rest else rest[..limit]
  }

  /** A listed job: its fields with `_id` as a string. */
  datatype JobView = JobView(id: string, fields: JsonObject)

  function ViewOf(d: Document): JobView {
    JobView(KeyText(d.key), d.fields)
  }

  /** `list_jobs`: the selected jobs of the requested page, each with its `_id` as text. */
  method ListJobs(docs: seq<Document>, keyword: Option<string>, location: Option<string>, skip: nat, limit: nat,
                  search: Search) returns (jobs: seq<JobView>)
    ensures var page := Window(Matching(docs, keyword, location, search), skip, limit);
      |jobs| == |page| && forall i :: 0 <= i < |jobs| ==> jobs[i] == ViewOf(page[i])
  {
    var query := BuildQuery(keyword, location);
    var cursor := Window(Found(docs, query, search), skip, limit);
    FoundIsMatching(docs, query, keyword, location, search);
    jobs := [];
    var i := 0;
    while i < |cursor|
      invariant 0 <= i <= |cursor|
      invariant |jobs| == i && forall j :: 0 <= j < i ==> jobs[j] == ViewOf(cursor[j])
    {
      jobs := jobs + [ViewOf(cursor[i])];
      i := i + 1;
    }
  }

  /** A page never holds more than `limit` jobs, and every job on it was selected. */
  lemma PageBounded(docs: seq<Document>, keyword: Option<string>, location: Option<string>, skip: nat, limit: nat,
                    search: Search)
    ensures var page := Window(Matching(docs, keyword, location, search), skip, limit);
      (limit > 0 ==> |page| <= limit) &&
      forall d :: d in page ==> d in docs && Selects(d.fields, keyword, location, search)
  {
    var m := Matching(docs, keyword, location, search);
    var page := Window(m, skip, limit);
    forall d | d in page ensures d in m {
      var i :| 0 <= i < |page| && page[i] == d;
      assert page[i] == m[skip + i];
    }
  }

  // ------------------------------------------------------ create and apply

  /** `create_job`: the payload with `posted_by` set to the caller, inserted;
      the reply carries the new `_id` as text. */
  method CreateJob(jobs: Collection, payload: JsonObject, username: Json, newId: string)
    returns (r: Result<JsonObject, HttpError>)
    modifies jobs
    ensures var job := payload["posted_by" := username];
      if KeyUsed(old(jobs.docs), ObjectIdKey(newId)) then
        r == Err(InternalError) && jobs.docs == old(jobs.docs)
      else
        r == Ok(job["_id" := JStr(newId)]) && jobs.docs == old(jobs.docs) + [Document(ObjectIdKey(newId), job)]
  {
    var job := payload["posted_by" := username];
    var ok := jobs.Insert(Document(ObjectIdKey(newId), job));
    if !ok {
      return Err(InternalError);
    }
    r := Ok(job["_id" := JStr(newId)]);
  }

  /** The stored application. */
  function Application(jobId: string, userId: Json, resumeText: Json, createdAt: Json): (a: JsonObject)
    ensures a.Keys == {"job_id", "user_id", "resume_text", "created_at"}
    ensures a["job_id"] == JStr(jobId) && a["user_id"] == userId && a["resume_text"] == resumeText
  {
    map["job_id" := JStr(jobId), "user_id" := userId, "resume_text" := resumeText, "created_at" := createdAt]
  }

  /** `apply_to_job`: insert the application; the reply adds its `_id` as text. */
  method ApplyToJob(applications: Collection, jobId: string, userId: Json, resumeText: Json, createdAt: Json,
                    newId: string) returns (r: Result<JsonObject, HttpError>)
    modifies applications
    ensures var app := Application(jobId, userId, resumeText, createdAt);
      if KeyUsed(old(applications.docs), ObjectIdKey(newId)) then
        r == Err(InternalError) && applications.docs == old(applications.docs)
      else
        r == Ok(app["_id" := JStr(newId)]) &&
        applications.docs == old(applications.docs) + [Document(ObjectIdKey(newId), app)]
  {
    var app := Application(jobId, userId, resumeText, createdAt);
    var ok := applications.Insert(Document(ObjectIdKey(newId), app));
    if !ok {
      return Err(InternalError);
    }
    r := Ok(app["_id" := JStr(newId)]);
  }

  // ------------------------------------------------ owner-checked changes

  /** Index of the first job with this `_id` posted by `username`, or -1. */
  function OwnedIndex(docs: seq<Document>, key: DocKey, username: Json): (r: int)
    ensures -1 <= r < |docs|
    ensures r >= 0 ==> docs[r].key == key && FieldIs(docs[r], "posted_by", username)
    ensures forall j :: 0 <= j < |docs| && (r == -1 || j < r) ==>
      !(docs[j].key == key && FieldIs(docs[j], "posted_by", username))
  {
    if docs == [] then -1
    else if docs[0].key == key && FieldIs(docs[0], "posted_by", username) then 0
    else
      var k := OwnedIndex(docs[1..], key, username);
      if k == -1 then -1 else k + 1
  }

  /** The fields a job update may carry (`JobUpdate`). */
  const JobUpdateFields: set<string> := {"title", "description", "location", "salary", "skills", "company", "tags"}

  const NotFoundOrUnauthorized := HttpError(404, "Job not found or unauthorized")

  /** `update_job`: `$set` the provided fields on the caller's own job, then
      return the job with that `_id`. A malformed id raises; no owned job is a
      404; in every failure the store is unchanged. An empty change set is a
      no-op update, as MongoDB 5.0 and later treat an empty `$set`. */
  method UpdateJob(jobs: Collection, jobId: string, changes: JsonObject, username: Json)
    returns (r: Result<Document, HttpError>)
    modifies jobs
    ensures !IsObjectIdText(jobId) ==> r == Err(InternalError)
    ensures IsObjectIdText(jobId) && OwnedIndex(old(jobs.docs), ObjectIdOf(jobId), username) == -1 ==>
      r == Err(NotFoundOrUnauthorized)
    ensures r.Err? ==> jobs.docs == old(jobs.docs)
    ensures r.Ok? ==>
      IsObjectIdText(jobId) &&
      var i := OwnedIndex(old(jobs.docs), ObjectIdOf(jobId), username);
      0 <= i &&
      jobs.docs == old(jobs.docs)[i := Document(ObjectIdOf(jobId), old(jobs.docs)[i].fields + changes)] &&
      0 <= FirstWithKey(jobs.docs, ObjectIdOf(jobId)) &&
      r.value == jobs.docs[FirstWithKey(jobs.docs, ObjectIdOf(jobId))]
    ensures changes == map[] ==> jobs.docs == old(jobs.docs)
  {
    if !IsObjectIdText(jobId) {
      return Err(InternalError);
    }
    var key := ObjectIdOf(jobId);
    var i := OwnedIndex(jobs.docs, key, username);
    if i < 0 {
      return Err(NotFoundOrUnauthorized);
    }
    assert changes == map[] ==> jobs.docs[i] == Document(key, jobs.docs[i].fields + changes);
    jobs.docs := jobs.docs[i := Document(key, jobs.docs[i].fields + changes)];
    assert KeyUsed(jobs.docs, key) by {
      assert jobs.docs[i].key == key;
    }
    r := Ok(jobs.docs[FirstWithKey(jobs.docs, key)]);
  }

  /** `delete_job`: remove the caller's own job with this `_id`; otherwise a 404
      and nothing is removed. */
  method DeleteJob(jobs: Collection, jobId: string, username: Json) returns (r: Result<string, HttpError>)
    modifies jobs
    ensures !IsObjectIdText(jobId) ==> r == Err(InternalError)
    ensures IsObjectIdText(jobId) && OwnedIndex(old(jobs.docs), ObjectIdOf(jobId), username) == -1 ==>
      r == Err(NotFoundOrUnauthorized)
    ensures r.Err? ==> jobs.docs == old(jobs.docs)
    ensures r.Ok? ==>
      IsObjectIdText(jobId) && r.value == "Job deleted" &&
      var i := OwnedIndex(old(jobs.docs), ObjectIdOf(jobId), username);
      0 <= i && jobs.docs == old(jobs.docs)[..i] + old(jobs.docs)[i + 1..]
  {
    if !IsObjectIdText(jobId) {
      return Err(InternalError);
    }
    var i := OwnedIndex(jobs.docs, ObjectIdOf(jobId), username);
    if i < 0 {
      return Err(NotFoundOrUnauthorized);
    }
    jobs.docs := jobs.docs[..i] + jobs.docs[i + 1..];
    r := Ok("Job deleted");
  }

  /** An update keeps `_id`s unique, keeps the owner, and with unique `_id`s
      returns the job it changed. */
  lemma UpdateKeepsKeysAndOwner(docs: seq<Document>, key: DocKey, username: Json, changes: JsonObject)
    requires UniqueKeys(docs)
    requires changes.Keys <= JobUpdateFields
    requires OwnedIndex(docs, key, username) >= 0
    ensures var i := OwnedIndex(docs, key, username);
      var after := docs[i := Document(key, docs[i].fields + changes)];
      UniqueKeys(after) && FieldIs(after[i], "posted_by", username) && FirstWithKey(after, key) == i
  {
    var i := OwnedIndex(docs, key, username);
    var after := docs[i := Document(key, docs[i].fields + changes)];
    assert forall j :: 0 <= j < |after| ==> after[j].key == docs[j].key;
    assert after[i].key == key;
    var f := FirstWithKey(after, key);
    assert 0 <= f && after[f].key == after[i].key;
  }

  /** A deletion keeps `_id`s unique and leaves no job with that `_id`. */
  lemma DeleteRemovesKey(docs: seq<Document>, key: DocKey, username: Json)
    requires UniqueKeys(docs)
    requires OwnedIndex(docs, key, username) >= 0
    ensures var i := OwnedIndex(docs, key, username);
      var after := docs[..i] + docs[i + 1..];
      UniqueKeys(after) && !KeyUsed(after, key) && |after| == |docs| - 1
  {
    var i := OwnedIndex(docs, key, username);
    var after := docs[..i] + docs[i + 1..];
    assert forall j :: 0 <= j < |after| ==> after[j] == (if j < i then docs[j] else docs[j + 1]);
    forall j | 0 <= j < |after| ensures after[j].key != key {
      assert j < i ==> docs[j].key != docs[i].key;
      assert j >= i ==> docs[j + 1].key != docs[i].key;
    }
  }
}
