/** Resume intake: the upload route and listing of app/api/v1/resumes.py, the
    PDF text extraction of `parse_resume_task` (app/services/resume_service.py),
    and the two routes that trigger and read an analysis.

    The PDF reader is an oracle: the document either cannot be opened, or is a
    sequence of pages each of which either yields its text or raises. The MIME
    type that libmagic sniffs and the `uuid4()` of the stored name are
    parameters. */
module Intake {
  import opened Common
  import opened Stores
  import opened Orchestrator

  // ------------------------------------------------------------ names

  const UploadRoot := "app/uploads/resumes"
  const PdfMime := "application/pdf"

  /** `os.path.join(UPLOAD_DIR, name)`. */
  function UploadPath(name: string): string {
    UploadRoot + "/" + name
  }

  /** The stored name `resume_<uuid>.pdf`. */
  function StoredName(uuid: string): string {
    "resume_" + uuid + ".pdf"
  }

  /** The id the upload route assigns: the name with every ".pdf" removed. */
  function UploadedResumeId(name: string): string {
    ReplaceAll(name, ".pdf", "")
  }

  /** The id the parser derives from the path: basename, last extension removed. */
  function ParsedResumeId(filePath: string): string {
    SplitextRoot(Basename(filePath))
  }

  /** `str(uuid.uuid4())`: 36 characters, hex digits and dashes. */
  predicate IsUuidText(u: string) {
    |u| == 36 && forall i :: 0 <= i < |u| ==> IsHexDigit(u[i]) || u[i] == '-'
  }

  /** The root of `x.pdf` is `x` when `x` has no dot and does not start empty. */
  lemma SplitextOfPdf(x: string)
    requires x != [] && x[0] != '.' && '.' !in x && '/' !in x
    ensures SplitextRoot(x + ".pdf") == x
  {
    var s := x + ".pdf";
    var k := |x|;
    var dot := RFind(s, '.');
    assert s[k] == '.' && s[k + 1..] == "pdf";
    assert dot >= k ==> dot == k;
    assert dot <= k ==> s[k] in s[dot + 1..] || dot == k;
    assert s[0] != '.';
    assert s[..k] == x;
  }

  /** The upload route and the parser agree on the id of every uploaded resume,
      and it always starts with "resume_". */
  lemma UploadAndParserAgree(uuid: string)
    requires IsUuidText(uuid)
    ensures UploadedResumeId(StoredName(uuid)) == "resume_" + uuid
    ensures ParsedResumeId(UploadPath(StoredName(uuid))) == "resume_" + uuid
    ensures StartsWith(UploadedResumeId(StoredName(uuid)), "resume_")
  {
    var x := "resume_" + uuid;
    assert '.' !in x && '/' !in x by {
      forall i | 0 <= i < |x|
        ensures x[i] != '.' && x[i] != '/'
      {
        if i >= 7 {
          assert x[i] == uuid[i - 7];
        }
      }
    }
    assert StoredName(uuid) == x + ".pdf";
    ReplaceOnlySuffix(x, ".pdf", "");
    assert '/' !in x + ".pdf";
    BasenameOfJoin(UploadRoot, x + ".pdf");
    SplitextOfPdf(x);
  }

  // ----------------------------------------------------------- parsing

  /** What `page.extract_text()` does for one page. */
  datatype PageText = Extracted(text: string) | ExtractFailed

  /** What `open` plus `PdfReader` give: the pages, or an exception. */
  datatype PdfRead = Opened(pages: seq<PageText>) | OpenFailed

  /** The text of the pages in page order, or None as soon as one page fails. */
  function PagesText(pages: seq<PageText>): (r: Option<string>)
    ensures r.Some? <==> forall i :: 0 <= i < |pages| ==> pages[i].Extracted?
  {
    if pages == [] then Some("")
    else
      var prefix := PagesText(pages[..|pages| - 1]);
      assert forall i :: 0 <= i < |pages| - 1 ==> pages[..|pages| - 1][i] == pages[i];
      match pages[|pages| - 1]
      case ExtractFailed => None
      case Extracted(t) => if prefix.None? then None else Some(prefix.value + t)
  }

  /** Extraction distributes over concatenation of page runs: later pages
      follow earlier ones, nothing is dropped or reordered. */
  lemma {:induction false} PagesTextAppend(a: seq<PageText>, b: seq<PageText>)
    requires PagesText(a).Some? && PagesText(b).Some?
    ensures PagesText(a + b) == Some(PagesText(a).value + PagesText(b).value)
    decreases |b|
  {
    if b == [] {
      assert a + b == a && PagesText(b) == Some("");
      assert PagesText(a).value + "" == PagesText(a).value;
    } else {
      var b' := b[..|b| - 1];
      var last := b[|b| - 1];
      assert last.Extracted?;
      assert (a + b)[..|a + b| - 1] == a + b' && (a + b)[|a + b| - 1] == last;
      assert PagesText(b) == Some(PagesText(b').value + last.text);
      PagesTextAppend(a, b');
      assert PagesText(a + b) == Some(PagesText(a + b').value + last.text);
      assert PagesText(a).value + PagesText(b').value + last.text
          == PagesText(a).value + (PagesText(b').value + last.text);
    }
  }

  /** A document without pages yields the empty text; a single page
      contributes exactly its text. */
  lemma SinglePage(t: string)
    ensures PagesText([]) == Some("")
    ensures PagesText([Extracted(t)]) == Some(t)
  {
    assert [Extracted(t)][..0] == [];
    assert PagesText([]) == Some("");
    assert "" + t == t;
  }

  /** The artifact `{"text": text}`. */
  function TextArtifact(text: string): JsonFile {
    Parsed(JObj(map["text" := JStr(text)]))
  }

  /** `parse_resume_task`: accumulate the page texts, then write the artifact;
      any failure returns before anything is written. */
  method ParseResumeTask(dir: JsonDir, filePath: string, pdf: PdfRead) returns (written: bool)
    modifies dir
    ensures written <==> pdf.Opened? && PagesText(pdf.pages).Some?
    ensures written ==>
      dir.files == old(dir.files)[TextFile(ParsedResumeId(filePath)) := TextArtifact(PagesText(pdf.pages).value)]
    ensures !written ==> dir.files == old(dir.files)
  {
    if pdf.OpenFailed? {
      return false;
    }
    var extracted := "";
    var i := 0;
    while i < |pdf.pages|
      invariant 0 <= i <= |pdf.pages|
      invariant PagesText(pdf.pages[..i]) == Some(extracted)
    {
      match pdf.pages[i]
      case ExtractFailed =>
        return false;
      case Extracted(t) =>
        assert pdf.pages[..i + 1][..i] == pdf.pages[..i];
        extracted := extracted + t;
      i := i + 1;
    }
    assert pdf.pages[..i] == pdf.pages;
    dir.Write(TextFile(ParsedResumeId(filePath)), JObj(map["text" := JStr(extracted)]));
    written := true;
  }

  /** The analysis task reads back exactly the text the parser wrote. */
  lemma ArtifactRoundTrip(text: string)
    ensures ArtifactText(TextArtifact(text)) == Some(JStr(text))
  {
    assert "text" in map["text" := JStr(text)];
  }

  // ------------------------------------------------------------ upload

  datatype UploadReceipt = UploadReceipt(message: string, fileName: string, resumeId: string)

  /** `upload_resume`: the MIME guard, then the file write, the parse task and
      the metadata insert, in that order. */
  method UploadResume(uploads: UploadDir, resumes: ResumeCollection, queue: TaskQueue,
                      mime: string, content: Bytes, uuid: string, uploaderId: string)
    returns (r: Result<UploadReceipt, HttpError>)
    modifies uploads, resumes, queue
    ensures mime != PdfMime ==>
      r == Err(HttpError(400, "Only PDF files are allowed.")) &&
      uploads.files == old(uploads.files) && resumes.docs == old(resumes.docs) && queue.tasks == old(queue.tasks)
    ensures mime == PdfMime ==>
      var name := StoredName(uuid);
      r == Ok(UploadReceipt("File uploaded successfully", name, UploadedResumeId(name))) &&
      uploads.files == old(uploads.files)[name := content] &&
      queue.tasks == old(queue.tasks) + [Parse(UploadPath(name))] &&
      resumes.docs == old(resumes.docs) + [ResumeMeta(UploadedResumeId(name), ValueRef(JStr(uploaderId)))]
  {
    if mime != PdfMime {
      return Err(HttpError(400, "Only PDF files are allowed."));
    }
    var name := StoredName(uuid);
    uploads.Save(name, content);
    queue.Enqueue(Parse(UploadPath(name)));
    var resumeId := UploadedResumeId(name);
    resumes.Insert(ResumeMeta(resumeId, ValueRef(JStr(uploaderId))));
    r := Ok(UploadReceipt("File uploaded successfully", name, resumeId));
  }

  lemma {:induction false} FindResumeAppend(docs: seq<ResumeMeta>, m: ResumeMeta)
    requires FindResume(docs, m.resumeId) == -1
    ensures FindResume(docs + [m], m.resumeId) == |docs|
    decreases |docs|
  {
    if docs == [] {
    } else {
      assert (docs + [m])[1..] == docs[1..] + [m];
      assert FindResume(docs[1..], m.resumeId) == -1;
      FindResumeAppend(docs[1..], m);
    }
  }

  /** For a new resume id, the analysis task notifies the uploader: the user whose
      `_id` is the uploader's id, when that user exists. */
  lemma UploaderIsNotified(resumes: seq<ResumeMeta>, users: seq<Document>, resumeId: string, uploaderId: string)
    requires FindResume(resumes, resumeId) == -1
    requires IsObjectIdText(uploaderId)
    ensures var u := FirstWithKey(users, ObjectIdOf(uploaderId));
      ResolveUser(resumes + [ResumeMeta(resumeId, ValueRef(JStr(uploaderId)))], users, resumeId)
        == if u < 0 then None else Some(users[u])
  {
    FindResumeAppend(resumes, ResumeMeta(resumeId, ValueRef(JStr(uploaderId))));
  }

  // ----------------------------------------------------------- listing

  /** One entry of `list_resumes`. */
  datatype ResumeEntry = ResumeEntry(resumeId: string, fileName: string, parsed: bool, analyzed: bool)

  /** The entry for an uploaded file: `parsed` and `analyzed` report whether the
      text artifact and the analysis exist. */
  function EntryFor(name: string, jsonFiles: map<string, JsonFile>): (e: ResumeEntry)
    ensures e.fileName == name && e.resumeId == UploadedResumeId(name)
    ensures e.parsed <==> TextFile(e.resumeId) in jsonFiles
    ensures e.analyzed <==> AnalysisFile(e.resumeId) in jsonFiles
  {
    var id := UploadedResumeId(name);
    ResumeEntry(id, name, TextFile(id) in jsonFiles, AnalysisFile(id) in jsonFiles)
  }

  /** The listing of the upload directory, in `os.listdir` order. */
  function Listing(names: seq<string>, jsonFiles: map<string, JsonFile>): seq<ResumeEntry> {
    if names == [] then []
    else
      var prefix := Listing(names[..|names| - 1], jsonFiles);
      var name := names[|names| - 1];
      if EndsWith(name, ".pdf") then prefix + [EntryFor(name, jsonFiles)] else prefix
  }

  /** Some ".pdf" name among `names` has `e` as its entry. */
  predicate ListedFrom(names: seq<string>, jsonFiles: map<string, JsonFile>, e: ResumeEntry) {
    exists name :: name in names && EndsWith(name, ".pdf") && e == EntryFor(name, jsonFiles)
  }

  /** The listing holds an entry for every ".pdf" name and for nothing else. */
  lemma {:induction false} ListingExact(names: seq<string>, jsonFiles: map<string, JsonFile>, e: ResumeEntry)
    ensures e in Listing(names, jsonFiles) <==> ListedFrom(names, jsonFiles, e)
    decreases |names|
  {
    if names != [] {
      var init := names[..|names| - 1];
      var last := names[|names| - 1];
      var hit := EndsWith(last, ".pdf") && e == EntryFor(last, jsonFiles);
      assert names == init + [last];
      ListingExact(init, jsonFiles, e);
      assert e in Listing(names, jsonFiles) <==> e in Listing(init, jsonFiles) || hit;
      if ListedFrom(names, jsonFiles, e) {
        var name :| name in names && EndsWith(name, ".pdf") && e == EntryFor(name, jsonFiles);
        assert name in init || name == last;
      }
      assert ListedFrom(init, jsonFiles, e) ==> ListedFrom(names, jsonFiles, e);
    }
  }

  /** `list_resumes`: one pass over the directory, appending an entry per PDF. */
  method ListResumes(names: seq<string>, jsonFiles: map<string, JsonFile>) returns (entries: seq<ResumeEntry>)
    ensures entries == Listing(names, jsonFiles)
  {
    entries := [];
    var i := 0;
    while i < |names|
      invariant 0 <= i <= |names|
      invariant entries == Listing(names[..i], jsonFiles)
    {
      assert names[..i + 1][..i] == names[..i];
      var name := names[i];
      if EndsWith(name, ".pdf") {
        entries := entries + [EntryFor(name, jsonFiles)];
      }
      i := i + 1;
    }
    assert names[..i] == names;
  }

  // ------------------------------------------------- analysis routes

  /** What `get_resume_analysis` finds: the loaded analysis, no file, or a file
      `json.load` rejects (which raises). */
  datatype StoredAnalysis = Found(doc: Json) | Absent | Undecodable

  function GetResumeAnalysis(jsonFiles: map<string, JsonFile>, resumeId: string): (r: StoredAnalysis)
    ensures r.Absent? <==> AnalysisFile(resumeId) !in jsonFiles
    ensures r.Found? ==> jsonFiles[AnalysisFile(resumeId)] == Parsed(r.doc)
  {
    if AnalysisFile(resumeId) !in jsonFiles then Absent
    else
      match jsonFiles[AnalysisFile(resumeId)]
      case Parsed(doc) => Found(doc)
      case Corrupt => Undecodable
  }

  const NotAnalysed := "Analysis not found. Please trigger analysis first."

  datatype AnalysisView = AnalysisView(resumeId: string, analysis: Json)

  /** `get_analysis`: every exception inside the `try`, the 404 included, is
      re-raised as a 500 whose detail is `str(e)`; the 404 reads "404: ...". */
  function GetAnalysisRoute(jsonFiles: map<string, JsonFile>, resumeId: string, decodeError: string)
    : (r: Result<AnalysisView, HttpError>)
    ensures r.Err? ==> r.error.status == 500
    ensures r.Ok? <==> GetResumeAnalysis(jsonFiles, resumeId).Found? && Truthy(GetResumeAnalysis(jsonFiles, resumeId).doc)
    ensures r.Ok? ==> r.value == AnalysisView(resumeId, GetResumeAnalysis(jsonFiles, resumeId).doc)
    ensures GetResumeAnalysis(jsonFiles, resumeId).Absent? ==> r == Err(HttpError(500, "404: " + NotAnalysed))
  {
    match GetResumeAnalysis(jsonFiles, resumeId)
    case Undecodable => Err(HttpError(500, decodeError))
    case Absent => Err(HttpError(500, "404: " + NotAnalysed))
    case Found(doc) =>
      if !Truthy(doc) then Err(HttpError(500, "404: " + NotAnalysed))
      else Ok(AnalysisView(resumeId, doc))
  }

  /** Once the analysis task has written a non-empty analysis, the route serves it. */
  lemma WrittenAnalysisServed(files: map<string, JsonFile>, resumeId: string, run: Run, decodeError: string)
    requires run.written.Some? && run.written.value != map[]
    ensures GetAnalysisRoute(FilesAfter(files, resumeId, run), resumeId, decodeError)
         == Ok(AnalysisView(resumeId, JObj(run.written.value)))
  {
    var after := FilesAfter(files, resumeId, run);
    assert after[AnalysisFile(resumeId)] == Parsed(JObj(run.written.value));
  }

  /** The reply of `analyze_resume` (202). */
  datatype AnalyzeAccepted = AnalyzeAccepted(message: string, taskId: string, resumeId: string,
                                             provider: Option<string>, emailSent: bool)

  const AnalysisStarted := "Analysis has been started and you will be notified via email upon completion."

  /** `analyze_resume`: enqueue the analysis task and report that an email was
      sent, whatever the task will do. */
  method AnalyzeRoute(queue: TaskQueue, resumeId: string, adminUserId: string,
                      jobDescription: Option<string>, provider: Option<string>, taskId: string)
    returns (reply: AnalyzeAccepted)
    modifies queue
    ensures queue.tasks == old(queue.tasks) + [Analyze(resumeId, adminUserId, jobDescription, provider)]
    ensures reply == AnalyzeAccepted(AnalysisStarted, taskId, resumeId, provider, true)
  {
    queue.Enqueue(Analyze(resumeId, adminUserId, jobDescription, provider));
    reply := AnalyzeAccepted(AnalysisStarted, taskId, resumeId, provider, true);
  }
}
