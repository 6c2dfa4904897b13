/** The durable state the backend works on: the JSON directory
    (app/uploads/json), the upload directory (app/uploads/resumes), the MongoDB
    collections (`resumes`, `users`, `jobs`, `applications`) and the Celery
    queue, to which every `.delay`/`send_task` appends one task. */
module Stores {
  import opened Common

  /** A file under app/uploads/json: a document `json.load` accepts, or one it rejects. */
  datatype JsonFile = Parsed(doc: Json) | Corrupt

  /** The directory app/uploads/json, by file name. */
  class JsonDir {
    var files: map<string, JsonFile>

    constructor (initial: map<string, JsonFile>)
      ensures files == initial
    {
      files := initial;
    }

    /** `json.dump(doc, open(name, 'w'))`: the file now holds exactly `doc`. */
    method Write(name: string, doc: Json)
      modifies this
      ensures files == old(files)[name := Parsed(doc)]
    {
      files := files[name := Parsed(doc)];
    }
  }

  type Bytes = seq<bv8>

  /** The directory app/uploads/resumes, by file name. */
  class UploadDir {
    var files: map<string, Bytes>

    constructor (initial: map<string, Bytes>)
      ensures files == initial
    {
      files := initial;
    }

    /** `open(name, "wb").write(content)`. */
    method Save(name: string, content: Bytes)
      modifies this
      ensures files == old(files)[name := content]
    {
      files := files[name := content];
    }
  }

  // ------------------------------------------------------- identifiers

  /** The `_id` of a stored document: a BSON ObjectId, kept as its 24
      lower-case hex digits, or a plain string. */
  datatype DocKey = ObjectIdKey(hex: string) | StringKey(text: string)

  /** `str(doc["_id"])`. */
  function KeyText(k: DocKey): string {
    match k
    case ObjectIdKey(hex) => hex
    case StringKey(text) => text
  }

  predicate IsHexDigit(c: char) {
    '0' <= c <= '9' || 'a' <= c <= 'f' || 'A' <= c <= 'F'
  }

  /** `ObjectId.is_valid(s)` for a string: exactly 24 hex digits. */
  predicate IsObjectIdText(s: string) {
    |s| == 24 && forall i :: 0 <= i < |s| ==> IsHexDigit(s[i])
  }

  /** `ObjectId(s)` for a valid string, `str` of which is lower-case. */
  function ObjectIdOf(s: string): (k: DocKey)
    requires IsObjectIdText(s)
    ensures k.ObjectIdKey? && IsObjectIdText(k.hex) && Lower(k.hex) == k.hex
  {
    ObjectIdKey(Lower(s))
  }

  /** `ObjectId(s)` in a route: a string that is not an ObjectId raises. */
  function ParseObjectId(s: string): (r: Option<DocKey>)
    ensures r.Some? <==> IsObjectIdText(s)
  {
    if IsObjectIdText(s) then Some(ObjectIdOf(s)) else None
  }

  // -------------------------------------------------------- collections

  /** What a `resumes` document's `user_id` holds: nothing, an ObjectId, or a JSON value. */
  datatype UserRef = NoUserRef | ObjectIdRef(hex: string) | ValueRef(v: Json)

  /** A document of the `resumes` collection. */
  datatype ResumeMeta = ResumeMeta(resumeId: string, userId: UserRef)

  /** A document of `users`, `jobs` or `applications`: its `_id` and its other fields. */
  datatype Document = Document(key: DocKey, fields: JsonObject)

  /** The `resumes` collection in natural order. */
  class ResumeCollection {
    var docs: seq<ResumeMeta>

    constructor (initial: seq<ResumeMeta>)
      ensures docs == initial
    {
      docs := initial;
    }

    /** `insert_one` of a document without `_id`: MongoDB generates a fresh one. */
    method Insert(m: ResumeMeta)
      modifies this
      ensures docs == old(docs) + [m]
    {
      docs := docs + [m];
    }
  }

  /** A collection keyed by `_id` (`users`, `jobs`, `applications`) in natural order. */
  class Collection {
    var docs: seq<Document>

    constructor (initial: seq<Document>)
      ensures docs == initial
    {
      docs := initial;
    }

    /** `insert_one`: a document whose `_id` is already taken is refused
        (DuplicateKeyError) and the collection is unchanged. */
    method Insert(d: Document) returns (ok: bool)
      modifies this
      ensures ok <==> !KeyUsed(old(docs), d.key)
      ensures docs == if ok then old(docs) + [d] else old(docs)
    {
      ok := !KeyUsed(docs, d.key);
      if ok {
        docs := docs + [d];
      }
    }
  }

  predicate KeyUsed(docs: seq<Document>, k: DocKey) {
    exists i :: 0 <= i < |docs| && docs[i].key == k
  }

  /** No two documents share an `_id` (MongoDB's unique index on `_id`). */
  predicate UniqueKeys(docs: seq<Document>) {
    forall i, j :: 0 <= i < j < |docs| ==> docs[i].key != docs[j].key
  }

  /** Document `d` matches the equality filter `{field: value}`. */
  predicate FieldIs(d: Document, field: string, value: Json) {
    field in d.fields && d.fields[field] == value
  }

  /** Index of the first document matching `{field: value}`, or -1: what `find_one` returns. */
  function FirstWithField(docs: seq<Document>, field: string, value: Json): (r: int)
    ensures -1 <= r < |docs|
    ensures r >= 0 ==> FieldIs(docs[r], field, value)
    ensures forall j :: 0 <= j < |docs| && (r == -1 || j < r) ==> !FieldIs(docs[j], field, value)
  {
    if docs == [] then -1
    else if FieldIs(docs[0], field, value) then 0
    else
      var k := FirstWithField(docs[1..], field, value);
      if k == -1 then -1 else k + 1
  }

  /** Index of the document with `_id == k`, or -1. */
  function FirstWithKey(docs: seq<Document>, k: DocKey): (r: int)
    ensures -1 <= r < |docs|
    ensures r >= 0 ==> docs[r].key == k
    ensures r == -1 <==> !KeyUsed(docs, k)
    ensures r >= 0 ==> forall j :: 0 <= j < r ==> docs[j].key != k
  {
    if docs == [] then -1
    else if docs[0].key == k then 0
    else
      var m := FirstWithKey(docs[1..], k);
      assert forall j :: 1 <= j < |docs| ==> docs[j] == docs[1..][j - 1];
      if m == -1 then -1 else m + 1
  }

  // -------------------------------------------------------------- queue

  /** The `template_data` dict of each kind of email, field by field. */
  datatype MailData =
    | AnalysisMail(recipientName: Json, resumeId: string, overallScore: Json, scoreClass: string,
                   summary: Json, strengths: Json, jobMatchScore: Json, missingSkills: Option<Json>,
                   fitAssessment: Json, provider: Json, dashboardUrl: string)
    | InterviewMail(candidateName: string, jobTitle: string, interviewDate: Json, interviewTime: Json,
                    duration: Json, interviewType: Json, zoomLink: Json, meetingId: Json, passcode: Json,
                    interviewerName: string, companyName: string)
    | StatusMail(candidateName: string, jobTitle: string, status: string, statusMessage: string,
                 nextSteps: seq<string>, feedback: Option<string>, recruiterName: string, companyName: string)

  /** The arguments of one `send_email_task`. */
  datatype EmailJob = EmailJob(recipients: seq<Json>, subject: string, templateName: string, data: MailData)

  /** A task handed to Celery. */
  datatype Task =
    | Parse(filePath: string)
    | Analyze(resumeId: string, adminUserId: string, jobDescription: Option<string>, provider: Option<string>)
    | SendEmail(job: EmailJob)
    | CreateInterviewMeeting(candidateName: string, interviewerName: string, jobTitle: string,
                    startTime: string, duration: Json, timezone: Json)
    | UpdateMeeting(meetingId: string, updates: JsonObject)

  /** The Celery broker: the tasks enqueued so far, oldest first. */
  class TaskQueue {
    var tasks: seq<Task>

    constructor ()
      ensures tasks == []
    {
      tasks := [];
    }

    method Enqueue(t: Task)
      modifies this
      ensures tasks == old(tasks) + [t]
    {
      tasks := tasks + [t];
    }
  }
}
