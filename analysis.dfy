/** The analysis engine of app/services/llm_service.py: provider selection,
    the prompt, the remote providers' JSON extraction with its fallback and
    error reports, and the offline keyword heuristic ("mock" provider).

    The remote model is an oracle `llm` from prompt to reply, and `json.loads`
    of the extracted candidate is an oracle `decode` that yields the decoded
    object or None where Python raises `JSONDecodeError`. */
module Analysis {
  import opened Common

  datatype Provider = Gemini | OpenAI | Mock

  /** The value of `self.provider` after construction. */
  function ProviderName(p: Provider): string {
    match p
    case Gemini => "gemini"
    case OpenAI => "openai"
    case Mock => "mock"
  }

  /** The environment variables provider construction reads: `GENAI_API_KEY`
      and the `OPENAI_API_KEY` the OpenAI client reads itself. */
  datatype ProviderEnv = ProviderEnv(genaiApiKey: Option<string>, openaiApiKey: Option<string>)

  /** `if api_key:` on `os.getenv("GENAI_API_KEY")`. */
  predicate KeyConfigured(apiKey: Option<string>) {
    apiKey.Some? && apiKey.value != ""
  }

  /** What `openai.OpenAI()` raises when no API key is set at all (an empty
      key is accepted at construction). */
  const OpenAIKeyMissing: string :=
    "The api_key client option must be set either by passing api_key to the client or by setting the OPENAI_API_KEY environment variable"

  /** `LLMService(provider)`: the name is lower-cased; "gemini" without an API
      key silently becomes "mock"; "openai" raises the client's error without
      an OpenAI key; any other unknown name raises `ValueError`. */
  function SetupProvider(name: string, env: ProviderEnv): (r: Result<Provider, string>)
    ensures r.Ok? <==> Lower(name) in {"gemini", "mock"} || (Lower(name) == "openai" && env.openaiApiKey.Some?)
    ensures r.Err? && Lower(name) == "openai" ==> r.error == OpenAIKeyMissing
    ensures r.Err? && Lower(name) != "openai" ==> r.error == "Unsupported LLM provider: " + Lower(name)
    ensures r == Ok(Gemini) <==> Lower(name) == "gemini" && KeyConfigured(env.genaiApiKey)
    ensures r == Ok(OpenAI) <==> Lower(name) == "openai" && env.openaiApiKey.Some?
    ensures r == Ok(Mock) <==> Lower(name) == "mock" || (Lower(name) == "gemini" && !KeyConfigured(env.genaiApiKey))
  {
    var p := Lower(name);
    if p == "gemini" then
      if KeyConfigured(env.genaiApiKey) then Ok(Gemini) else Ok(Mock)
    else if p == "openai" then
      if env.openaiApiKey.Some? then Ok(OpenAI) else Err(OpenAIKeyMissing)
    else if p == "mock" then Ok(Mock)
    else Err("Unsupported LLM provider: " + p)
  }

  // ------------------------------------------------------------- prompt

  // The prompt's wording is abbreviated; its structure is kept.
  const PromptHead: string := "Analyze this resume.\nRESUME TEXT:\n"
  const PromptFormat: string := "\nAnswer in the report's JSON format.\n"
  const JobHead: string := "\nJOB DESCRIPTION:\n"
  const JobTail: string := "\nAlso report the job match.\n"

  function BasePrompt(resumeText: string): string {
    PromptHead + resumeText + PromptFormat
  }

  /** `_create_analysis_prompt`: the resume is embedded in the base prompt, and
      the job-matching block is appended exactly when a job description is given. */
  function AnalysisPrompt(resumeText: string, jobDescription: string): (p: string)
    ensures Contains(p, resumeText)
    ensures StartsWith(p, BasePrompt(resumeText))
    ensures |p| == |BasePrompt(resumeText)| <==> jobDescription == ""
    ensures jobDescription != "" ==> Contains(p, jobDescription)
  {
    var base := BasePrompt(resumeText);
    assert OccursAt(base, resumeText, |PromptHead|) by {
      assert base[|PromptHead|..|PromptHead| + |resumeText|] == resumeText;
    }
    if jobDescription != "" then
      var p := base + (JobHead + jobDescription + JobTail);
      assert p[..|base|] == base;
      assert OccursAt(p, resumeText, |PromptHead|) by {
        assert p[|PromptHead|..|PromptHead| + |resumeText|] == base[|PromptHead|..|PromptHead| + |resumeText|];
      }
      assert OccursAt(p, jobDescription, |base| + |JobHead|) by {
        assert p[|base| + |JobHead|..|base| + |JobHead| + |jobDescription|] == jobDescription;
      }
      p
    else
      base
  }

  // ------------------------------------------------------------ reports

  datatype SkillsPart = SkillsPart(technical: seq<string>, soft: seq<string>, score: int)
  datatype ExperiencePart = ExperiencePart(years: int, relevant: seq<string>, score: int)
  datatype EducationPart = EducationPart(degrees: seq<string>, certifications: seq<string>, score: int)

  /** A report the service builds itself (heuristic, fallback or error); the
      optional fields are present in its JSON form only when set. */
  datatype Report = Report(
    overall: int, skills: SkillsPart, experience: ExperiencePart, education: EducationPart,
    strengths: seq<string>, weaknesses: seq<string>, recommendations: seq<string>, summary: string,
    provider: Option<string>, rawResponse: Option<string>, note: Option<string>, error: Option<string>)

  /** `d[key] = value` when the value is set. */
  function SetOptional(d: JsonObject, key: string, value: Option<string>): JsonObject {
    if value.Some? then d[key := JStr(value.value)] else d
  }

  /** The keys every built report has. */
  function ReportBase(r: Report): JsonObject {
    map[
      "overall_score" := JInt(r.overall),
      "skills" := JObj(map[
        "technical_skills" := StrArray(r.skills.technical),
        "soft_skills" := StrArray(r.skills.soft),
        "skill_score" := JInt(r.skills.score)]),
      "experience" := JObj(map[
        "years_of_experience" := JInt(r.experience.years),
        "relevant_experience" := StrArray(r.experience.relevant),
        "experience_score" := JInt(r.experience.score)]),
      "education" := JObj(map[
        "degrees" := StrArray(r.education.degrees),
        "certifications" := StrArray(r.education.certifications),
        "education_score" := JInt(r.education.score)]),
      "strengths" := StrArray(r.strengths),
      "weaknesses" := StrArray(r.weaknesses),
      "recommendations" := StrArray(r.recommendations),
      "summary" := JStr(r.summary)]
  }

  /** The dict the service returns for a report it built: the base keys, then
      the optional ones that are set. */
  function ReportJson(r: Report): JsonObject {
    SetOptional(SetOptional(SetOptional(SetOptional(ReportBase(r),
      "provider", r.provider), "raw_response", r.rawResponse), "note", r.note), "error", r.error)
  }

  /** The base keys: the overall score, and none of the job-matching or optional keys. */
  lemma ReportBaseKeys(r: Report)
    ensures ReportBase(r).Keys == {"overall_score", "skills", "experience", "education",
                                   "strengths", "weaknesses", "recommendations", "summary"}
    ensures ReportBase(r)["overall_score"] == JInt(r.overall)
  {
  }

  /** An optional key is present exactly when the report sets it, with its value. */
  lemma ReportJsonOptional(r: Report)
    ensures "error" in ReportJson(r) <==> r.error.Some?
    ensures r.error.Some? ==> ReportJson(r)["error"] == JStr(r.error.value)
    ensures "provider" in ReportJson(r) <==> r.provider.Some?
    ensures r.provider.Some? ==> ReportJson(r)["provider"] == JStr(r.provider.value)
    ensures "raw_response" in ReportJson(r) <==> r.rawResponse.Some?
    ensures r.rawResponse.Some? ==> ReportJson(r)["raw_response"] == JStr(r.rawResponse.value)
  {
    ReportBaseKeys(r);
  }

  /** What the rest of the backend reads from a built report's dict: its overall
      score, and no job-matching keys, so `missing_skills` defaults to []. */
  lemma ReportJsonFields(r: Report)
    ensures "overall_score" in ReportJson(r) && ReportJson(r)["overall_score"] == JInt(r.overall)
    ensures "missing_skills" !in ReportJson(r) && "job_match_score" !in ReportJson(r)
  {
    ReportBaseKeys(r);
  }

  // --------------------------------------------------- keyword heuristic

  const TechnicalKeywords: seq<string> :=
    ["python", "javascript", "java", "react", "sql", "aws", "docker", "kubernetes"]
  const SoftKeywords: seq<string> :=
    ["leadership", "communication", "teamwork", "problem-solving", "analytical"]

  /** `a` is `b` with some elements dropped, order kept. */
  predicate IsSubsequence<T(==)>(a: seq<T>, b: seq<T>)
    decreases |b|
  {
    a == [] || (b != [] && if a[0] == b[0] then IsSubsequence(a[1..], b[1..]) else IsSubsequence(a, b[1..]))
  }

  /** `[skill for skill in vocabulary if skill in text]`. */
  function FoundSkills(vocabulary: seq<string>, text: string): (found: seq<string>)
    ensures |found| <= |vocabulary|
  {
    if vocabulary == [] then []
    else if Contains(text, vocabulary[0]) then [vocabulary[0]] + FoundSkills(vocabulary[1..], text)
    else FoundSkills(vocabulary[1..], text)
  }

  /** The skills found are exactly the vocabulary words occurring in the text,
      in vocabulary order. */
  lemma {:induction false} FoundSkillsExactly(vocabulary: seq<string>, text: string)
    ensures forall w :: w in FoundSkills(vocabulary, text) <==> w in vocabulary && Contains(text, w)
    ensures IsSubsequence(FoundSkills(vocabulary, text), vocabulary)
  {
    if vocabulary != [] {
      FoundSkillsExactly(vocabulary[1..], text);
      var rest := FoundSkills(vocabulary[1..], text);
      assert forall w :: w in vocabulary <==> w == vocabulary[0] || w in vocabulary[1..];
      if !Contains(text, vocabulary[0]) {
        assert rest == [] || rest[0] != vocabulary[0] by {
          if rest != [] {
            assert rest[0] in rest;
          }
        }
      }
    }
  }

  /** `min(len(resume_text) // 500, 15)`. */
  function ExperienceYears(resumeText: string): (years: int)
    ensures 0 <= years <= 15
    ensures years == 15 <==> |resumeText| >= 7500
  {
    Min(|resumeText| / 500, 15)
  }

  /** `_analyze_with_mock`: a report computed from the resume text alone. */
  function MockAnalysis(resumeText: string): (r: Report)
    ensures 50 <= r.overall <= 100 && 0 <= r.skills.score <= 100
    ensures r.experience.score == 6 * r.experience.years <= 90
    ensures r.education.score == 75
    ensures r.provider == Some("mock") && r.error.None? && r.rawResponse.None?
  {
    var textLower := Lower(resumeText);
    var tech := FoundSkills(TechnicalKeywords, textLower);
    var soft := FoundSkills(SoftKeywords, textLower);
    var years := ExperienceYears(resumeText);
    Report(
      Min(50 + |tech| * 5 + |soft| * 3 + years * 2, 100),
      SkillsPart(tech, soft, Min(|tech| * 10 + |soft| * 5, 100)),
      ExperiencePart(years, ["Experience extracted from resume"], Min(years * 6, 100)),
      EducationPart(["Degree information extracted"], ["Certifications found"], 75),
      ["Strong technical background", "Good communication skills"],
      ["Could improve in specific areas"],
      ["Consider additional certifications", "Expand project portfolio"],
      "Candidate shows promise with relevant skills and experience",
      Some("mock"), None, None, None)
  }

  /** The heuristic's scoring rule: each technical keyword found adds 5 points and
      each soft keyword 3 to a base of 50, each estimated year 2, capped at 100;
      the skill score is 10 per technical and 5 per soft keyword, capped at 100. */
  lemma MockScores(resumeText: string)
    ensures var r := MockAnalysis(resumeText);
      var tech := FoundSkills(TechnicalKeywords, Lower(resumeText));
      var soft := FoundSkills(SoftKeywords, Lower(resumeText));
      var years := ExperienceYears(resumeText);
      && r.skills.technical == tech && r.skills.soft == soft && r.experience.years == years
      && r.overall == Min(50 + 5 * |tech| + 3 * |soft| + 2 * years, 100)
      && r.skills.score == Min(10 * |tech| + 5 * |soft|, 100)
  {
  }

  /** The heuristic reports exactly the vocabulary words found in the
      lower-cased text, technical and soft apart. */
  lemma MockSkills(resumeText: string)
    ensures var r := MockAnalysis(resumeText);
      && (forall w :: w in r.skills.technical <==> w in TechnicalKeywords && Contains(Lower(resumeText), w))
      && (forall w :: w in r.skills.soft <==> w in SoftKeywords && Contains(Lower(resumeText), w))
  {
    FoundSkillsExactly(TechnicalKeywords, Lower(resumeText));
    FoundSkillsExactly(SoftKeywords, Lower(resumeText));
  }

  /** More keywords never lower the heuristic's score: a text whose found skills
      include another's, and which is at least as long, scores at least as high. */
  lemma MockScoreMonotone(a: string, b: string)
    requires |a| <= |b|
    requires Covers(TechnicalKeywords, Lower(a), Lower(b)) && Covers(SoftKeywords, Lower(a), Lower(b))
    ensures MockAnalysis(a).overall <= MockAnalysis(b).overall
    ensures MockAnalysis(a).skills.score <= MockAnalysis(b).skills.score
  {
    SubsetCount(TechnicalKeywords, Lower(a), Lower(b));
    SubsetCount(SoftKeywords, Lower(a), Lower(b));
  }

  /** Every vocabulary word found in `a` is also found in `b`. */
  predicate Covers(vocabulary: seq<string>, a: string, b: string) {
    forall w :: w in vocabulary && Contains(a, w) ==> Contains(b, w)
  }

  /** Filtering one vocabulary by two texts: when every word found in the first
      is found in the second, the second finds at least as many. */
  lemma {:induction false} SubsetCount(vocabulary: seq<string>, a: string, b: string)
    requires Covers(vocabulary, a, b)
    ensures |FoundSkills(vocabulary, a)| <= |FoundSkills(vocabulary, b)|
  {
    if vocabulary != [] {
      SubsetCount(vocabulary[1..], a, b);
    }
  }

  /** A resume naming only JavaScript is also credited with Java, because the
      match is by substring. */
  lemma JavaScriptCountsAsJava()
    ensures "javascript" in FoundSkills(TechnicalKeywords, Lower("JavaScript"))
    ensures "java" in FoundSkills(TechnicalKeywords, Lower("JavaScript"))
  {
    var t := Lower("JavaScript");
    assert t == "javascript";
    assert OccursAt(t, "javascript", 0);
    assert OccursAt(t, "java", 0) by { assert t[0..4] == "java"; }
  }

  // ------------------------------------------- remote providers' reports

  /** `_create_fallback_analysis`: a neutral 70-point report keeping the raw text. */
  function FallbackAnalysis(responseText: string): (r: Report)
    ensures r.overall == 70 && r.skills.score == 70 && r.experience.score == 70 && r.education.score == 70
    ensures r.rawResponse == Some(responseText) && r.note.Some? && r.error.None? && r.provider.None?
  {
    var inRaw := "Analysis available in raw response";
    Report(
      70,
      SkillsPart(["Skills analysis available in raw response"], ["Soft skills analysis available in raw response"], 70),
      ExperiencePart(3, ["Experience analysis available in raw response"], 70),
      EducationPart(["Education analysis available in raw response"], ["Certification analysis available in raw response"], 70),
      [inRaw], [inRaw], [inRaw],
      "Detailed analysis available in raw response",
      None, Some(responseText), Some("JSON parsing failed, check raw_response for detailed analysis"), None)
  }

  /** A report that claims nothing: every one of its eight lists is empty and
      it credits no years of experience. */
  predicate ClaimsNothing(r: Report) {
    && r.skills.technical == [] && r.skills.soft == []
    && r.experience.years == 0 && r.experience.relevant == []
    && r.education.degrees == [] && r.education.certifications == []
    && r.strengths == [] && r.weaknesses == [] && r.recommendations == []
  }

  /** `_create_error_analysis`: every score zero, every list empty, the error kept. */
  function ErrorAnalysis(provider: string, errorMessage: string): (r: Report)
    ensures r.overall == 0 && r.skills.score == 0 && r.experience.score == 0 && r.education.score == 0
    ensures ClaimsNothing(r) && r.summary == "Analysis failed due to API error"
    ensures r.error == Some(errorMessage) && r.provider == Some(provider) && r.rawResponse.None?
  {
    Report(
      0, SkillsPart([], [], 0), ExperiencePart(0, [], 0), EducationPart([], [], 0),
      [], [], [], "Analysis failed due to API error",
      Some(provider), None, None, Some(errorMessage))
  }

  /** The JSON candidate of a reply: from the first '{' through the last '}';
      empty when the last '}' comes before the first '{', that is when no '}'
      follows it; None when there is no '{'. The
      source's second test `end_idx != -1` always holds, since `rfind('}') + 1 >= 0`. */
  function JsonCandidate(text: string): (r: Option<string>)
    ensures r.None? <==> '{' !in text
    ensures r.Some? ==> Find(text, '{') < RFind(text, '}') ==> r.value == text[Find(text, '{')..RFind(text, '}') + 1]
    ensures r.Some? ==> (r.value == [] <==> RFind(text, '}') < Find(text, '{'))
  {
    var start := Find(text, '{');
    var end := RFind(text, '}') + 1;
    if start != -1 && end != -1 then Some(Slice(text, start, end)) else None
  }

  /** What the remote model does with one prompt: a reply text, or a raised error. */
  datatype ProviderReply = Replied(text: string) | CallFailed(message: string)

  /** An analysis dict: one decoded from the model's reply, or one the service built. */
  datatype Analysis = Decoded(obj: JsonObject) | Built(report: Report)

  function AnalysisJson(a: Analysis): JsonObject {
    match a
    case Decoded(obj) => obj
    case Built(report) => ReportJson(report)
  }

  /** `analysis["provider"] = ...; analysis["raw_response"] = response_text`. */
  function Stamp(a: Analysis, provider: string, text: string): Analysis {
    match a
    case Decoded(obj) => Decoded(obj["provider" := JStr(provider)]["raw_response" := JStr(text)])
    case Built(report) => Built(report.(provider := Some(provider), rawResponse := Some(text)))
  }

  /** Whatever was decoded or built, the stamped dict names the provider and
      holds the reply verbatim. */
  lemma StampedProvenance(a: Analysis, provider: string, text: string)
    ensures var j := AnalysisJson(Stamp(a, provider, text));
      && "provider" in j && j["provider"] == JStr(provider)
      && "raw_response" in j && j["raw_response"] == JStr(text)
  {
    if a.Built? {
      ReportJsonOptional(a.report.(provider := Some(provider), rawResponse := Some(text)));
    }
  }

  /** The analysis read from a reply before stamping: the decoded candidate, or
      the fallback report when there is no candidate or it does not decode. */
  function ReadReply(text: string, decode: string -> Option<JsonObject>): Analysis {
    match JsonCandidate(text)
    case None => Built(FallbackAnalysis(text))
    case Some(candidate) =>
      match decode(candidate)
      case Some(obj) => Decoded(obj)
      case None => Built(FallbackAnalysis(text))
  }

  /** `_analyze_with_gemini` / `_analyze_with_openai` after the call: the reply
      read and stamped; a failed call gives the error report. */
  function AnalyzeRemote(provider: string, reply: ProviderReply, decode: string -> Option<JsonObject>): (a: Analysis)
    ensures a.Decoded? <==>
      reply.Replied? && JsonCandidate(reply.text).Some? && decode(JsonCandidate(reply.text).value).Some?
    ensures a.Built? ==> a.report.provider == Some(provider)
    ensures a.Built? && reply.Replied? ==> a.report.overall == 70 && a.report.rawResponse == Some(reply.text)
    ensures reply.CallFailed? ==> a.Built? && a.report.overall == 0 && a.report.error == Some(reply.message)
  {
    match reply
    case CallFailed(message) => Built(ErrorAnalysis(provider, message))
    case Replied(text) => Stamp(ReadReply(text, decode), provider, text)
  }

  /** `LLMService.analyze_resume`: one model call for a remote provider; the
      heuristic reads the resume text only. */
  function AnalyzeResume(provider: Provider, resumeText: string, jobDescription: string,
                         llm: string -> ProviderReply, decode: string -> Option<JsonObject>): (a: Analysis)
    ensures var j := AnalysisJson(a); "provider" in j && j["provider"] == JStr(ProviderName(provider))
    ensures provider == Mock ==> a.Built? && a.report.error.None?
  {
    match provider
    case Gemini =>
      RemoteNamesProvider("gemini", llm(AnalysisPrompt(resumeText, jobDescription)), decode);
      AnalyzeRemote("gemini", llm(AnalysisPrompt(resumeText, jobDescription)), decode)
    case OpenAI =>
      RemoteNamesProvider("openai", llm(AnalysisPrompt(resumeText, jobDescription)), decode);
      AnalyzeRemote("openai", llm(AnalysisPrompt(resumeText, jobDescription)), decode)
    case Mock =>
      ReportJsonOptional(MockAnalysis(resumeText));
      Built(MockAnalysis(resumeText))
  }

  // ------------------------------------------------------------ lemmas

  /** The heuristic ignores the job description and never consults the oracles:
      equal resume texts give identical reports. */
  lemma MockIgnoresJobDescription(resumeText: string, jd1: string, jd2: string,
                                  llm1: string -> ProviderReply, llm2: string -> ProviderReply,
                                  decode1: string -> Option<JsonObject>, decode2: string -> Option<JsonObject>)
    ensures AnalyzeResume(Mock, resumeText, jd1, llm1, decode1) == AnalyzeResume(Mock, resumeText, jd2, llm2, decode2)
    ensures AnalyzeResume(Mock, resumeText, jd1, llm1, decode1) == Built(MockAnalysis(resumeText))
  {
  }

  /** A remote provider sends the model exactly the prompt built from the resume
      and the job description. */
  lemma RemoteUsesPrompt(provider: Provider, resumeText: string, jobDescription: string,
                         llm: string -> ProviderReply, decode: string -> Option<JsonObject>)
    requires provider != Mock
    ensures AnalyzeResume(provider, resumeText, jobDescription, llm, decode)
         == AnalyzeRemote(ProviderName(provider), llm(AnalysisPrompt(resumeText, jobDescription)), decode)
  {
  }

  /** Every remote outcome, decoded, fallback or error, names its provider. */
  lemma RemoteNamesProvider(provider: string, reply: ProviderReply, decode: string -> Option<JsonObject>)
    ensures var j := AnalysisJson(AnalyzeRemote(provider, reply, decode));
      "provider" in j && j["provider"] == JStr(provider)
    ensures reply.Replied? ==> var j := AnalysisJson(AnalyzeRemote(provider, reply, decode));
      "raw_response" in j && j["raw_response"] == JStr(reply.text)
  {
    if reply.CallFailed? {
      ReportJsonOptional(ErrorAnalysis(provider, reply.message));
    } else {
      StampedProvenance(ReadReply(reply.text, decode), provider, reply.text);
    }
  }

  /** A reply without '{' degrades to the 70-point fallback report; nothing is raised. */
  lemma NoBraceFallsBack(provider: string, text: string, decode: string -> Option<JsonObject>)
    requires '{' !in text
    ensures var a := AnalyzeRemote(provider, Replied(text), decode);
      && a == Built(FallbackAnalysis(text).(provider := Some(provider)))
      && a.report.overall == 70 && a.report.experience.years == 3
      && a.report.note.Some? && a.report.rawResponse == Some(text) && a.report.error.None?
  {
  }

  /** A '{' with no later '}' slices the empty string, which `json.loads`
      rejects: the fallback report again. */
  lemma UnclosedBraceFallsBack(provider: string, text: string, decode: string -> Option<JsonObject>)
    requires '{' in text && RFind(text, '}') < Find(text, '{')
    requires decode("") == None
    ensures AnalyzeRemote(provider, Replied(text), decode) == Built(FallbackAnalysis(text).(provider := Some(provider)))
  {
    UnclosedBraceReadsFallback(text, decode);
    StampedFallback(provider, text);
  }

  /** The empty candidate does not decode, so the reply reads as the fallback report. */
  lemma UnclosedBraceReadsFallback(text: string, decode: string -> Option<JsonObject>)
    requires '{' in text && RFind(text, '}') < Find(text, '{')
    requires decode("") == None
    ensures ReadReply(text, decode) == Built(FallbackAnalysis(text))
  {
    assert JsonCandidate(text) == Some("");
  }

  /** Stamping the fallback report only adds the provider: it already holds the reply. */
  lemma StampedFallback(provider: string, text: string)
    ensures Stamp(Built(FallbackAnalysis(text)), provider, text) == Built(FallbackAnalysis(text).(provider := Some(provider)))
  {
  }

  /** A candidate that decodes keeps every key of the decoded object except the
      two stamps, which are overwritten. */
  lemma DecodedReportKept(provider: string, text: string, decode: string -> Option<JsonObject>)
    requires JsonCandidate(text).Some? && decode(JsonCandidate(text).value).Some?
    ensures var obj := decode(JsonCandidate(text).value).value;
      var j := AnalysisJson(AnalyzeRemote(provider, Replied(text), decode));
      && j.Keys == obj.Keys + {"provider", "raw_response"}
      && j["raw_response"] == JStr(text)
      && forall k :: k in obj && k != "provider" && k != "raw_response" ==> j[k] == obj[k]
  {
  }

  /** A failed call gives the zero-score error report carrying the message and the
      provider; its dict has an `error` key, which no fallback dict has. */
  lemma CallFailureIsErrorReport(provider: string, message: string, decode: string -> Option<JsonObject>, text: string)
    ensures var a := AnalyzeRemote(provider, CallFailed(message), decode);
      && a.Built? && a.report.error == Some(message) && a.report.provider == Some(provider)
      && a.report.overall == 0 && a.report.skills.score == 0 && a.report.experience.score == 0 && a.report.education.score == 0
      && ClaimsNothing(a.report) && a.report.summary == "Analysis failed due to API error"
      && "error" in AnalysisJson(a)
      && "error" !in ReportJson(FallbackAnalysis(text).(provider := Some(provider)))
  {
    ReportJsonOptional(ErrorAnalysis(provider, message));
    ReportJsonOptional(FallbackAnalysis(text).(provider := Some(provider)));
  }
}
