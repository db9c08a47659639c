/**
 * ResumeController: the POST /api/analyze-file endpoint. It dispatches on
 * the mode, validates the uploaded parts, extracts text with Tika (a
 * parameter here), calls the service and turns the service's string into
 * an HTTP response.
 */
module ResumeController {
  import opened Wrappers
  import opened JavaString
  import opened Json
  import opened Multipart
  import OpenAIService

  /** An HTTP response: the status code and the JSON body Spring serialises. */
  datatype Response = Response(status: nat, body: Json)

  /** `Map.of("error", message)` */
  function ErrorBody(message: string): (j: Json)
    ensures j.JObject? && |j.fields| == 1
    ensures Lookup(j.fields, "error") == Some(JString(message))
  {
    JObject([("error", JString(message))])
  }

  const MissingJdOrResumes: string := "Missing JD or resumes."
  const MissingResumeFile: string := "Missing resume file."
  const InvalidJsonLead: string := "Invalid JSON from AI: "
  /** The fixed e-mail the company branch passes to the service. */
  const PlaceholderEmail: string := "no-email@example.com"

  /** The interactions with collaborators, in the order they happen. */
  datatype Call = TikaParse(content: seq<bv8>) | Completion(prompt: string)

  /** The company test: `"company".equalsIgnoreCase(mode)`. */
  predicate IsCompany(mode: string)
  {
    EqualsIgnoreCase("company", mode)
  }

  /**
   * `parseJson`: 200 with the decoded value when Jackson reads
   * the string, otherwise 500 with the reader's message after a fixed lead.
   */
  function ParseJson(jsonString: string, readValue: string -> Result<Json, string>): (r: Response)
    ensures r.status == 200 <==> readValue(jsonString).Ok?
    ensures r.status == 200 || r.status == 500
    ensures readValue(jsonString).Ok? ==> r.body == readValue(jsonString).value
    ensures readValue(jsonString).Err? ==>
      r.body == ErrorBody(InvalidJsonLead + readValue(jsonString).error)
  {
    match readValue(jsonString)
    case Ok(obj) => Response(200, obj)
    case Err(message) => Response(500, ErrorBody(InvalidJsonLead + message))
  }

  /** Tika's calls on the first `n` uploads, in upload order. */
  function ParseCalls(files: seq<Upload>, n: nat): (calls: seq<Call>)
    requires n <= |files|
    ensures |calls| == n
    ensures forall k :: 0 <= k < n ==> calls[k] == TikaParse(files[k].content)
  {
    if n == 0 then [] else ParseCalls(files, n - 1) + [TikaParse(files[n - 1].content)]
  }

  /**
   * The resume loop of `analyzeFile`'s company branch: the text and the file name of each upload,
   * appended to two lists in upload order; the first Tika failure aborts
   * the loop with that failure's message.
   */
  method CollectResumes(files: seq<Upload>, tika: seq<bv8> -> Result<string, string>)
    returns (r: Result<(seq<string>, seq<Option<string>>), string>, ghost calls: seq<Call>)
    ensures r.Ok? <==> forall k :: 0 <= k < |files| ==> tika(files[k].content).Ok?
    ensures r.Ok? ==>
      && |r.value.0| == |files| && |r.value.1| == |files|
      && (forall k :: 0 <= k < |files| ==> r.value.0[k] == tika(files[k].content).value)
      && (forall k :: 0 <= k < |files| ==> r.value.1[k] == files[k].originalFilename)
      && calls == ParseCalls(files, |files|)
    ensures r.Err? ==>
      exists failed ::
        && 0 <= failed < |files|
        && (forall k :: 0 <= k < failed ==> tika(files[k].content).Ok?)
        && tika(files[failed].content) == Err(r.error)
        && calls == ParseCalls(files, failed + 1)
  {
    var resumeTexts: seq<string> := [];
    var fileNames: seq<Option<string>> := [];
    calls := [];
    var i := 0;
    while i < |files|
      invariant 0 <= i <= |files|
      invariant |resumeTexts| == i && |fileNames| == i
      invariant forall k :: 0 <= k < i ==> tika(files[k].content).Ok?
      invariant forall k :: 0 <= k < i ==> resumeTexts[k] == tika(files[k].content).value
      invariant forall k :: 0 <= k < i ==> fileNames[k] == files[k].originalFilename
      invariant calls == ParseCalls(files, i)
    {
      var parsed := tika(files[i].content);
      calls := calls + [TikaParse(files[i].content)];
      if parsed.Err? {
        return Err(parsed.error), calls;
      }
      resumeTexts := resumeTexts + [parsed.value];
      fileNames := fileNames + [files[i].originalFilename];
      i := i + 1;
    }
    r := Ok((resumeTexts, fileNames));
  }

  /** The texts the loop collects when Tika reads every upload. */
  function CompanyTexts(files: seq<Upload>, tika: seq<bv8> -> Result<string, string>): (texts: seq<string>)
    requires forall k :: 0 <= k < |files| ==> tika(files[k].content).Ok?
    ensures |texts| == |files|
    ensures forall k :: 0 <= k < |files| ==> texts[k] == tika(files[k].content).value
  {
    if |files| == 0 then [] else [tika(files[0].content).value] + CompanyTexts(files[1..], tika)
  }

  /** The original file names of the uploads, in upload order. */
  function CompanyNames(files: seq<Upload>): (names: seq<Option<string>>)
    ensures |names| == |files|
    ensures forall k :: 0 <= k < |files| ==> names[k] == files[k].originalFilename
  {
    if |files| == 0 then [] else [files[0].originalFilename] + CompanyNames(files[1..])
  }

  /** Lists aligned with the uploads are the ones the loop collects. */
  lemma CompanyListsAre(files: seq<Upload>, tika: seq<bv8> -> Result<string, string>,
                        texts: seq<string>, names: seq<Option<string>>)
    requires forall k :: 0 <= k < |files| ==> tika(files[k].content).Ok?
    requires |texts| == |files| && |names| == |files|
    requires forall k :: 0 <= k < |files| ==> texts[k] == tika(files[k].content).value
    requires forall k :: 0 <= k < |files| ==> names[k] == files[k].originalFilename
    ensures texts == CompanyTexts(files, tika) && names == CompanyNames(files)
  {
  }

  /** `StringBuilder.append(String)` writes "null" for a null file name. */
  function NameText(name: Option<string>): string
  {
    match name
    case Some(s) => s
    case None => "null"
  }

  /** The file names as the batch prompt prints them. */
  function NameTexts(names: seq<Option<string>>): (r: seq<string>)
    ensures |r| == |names|
    ensures forall k :: 0 <= k < |names| ==> r[k] == NameText(names[k])
  {
    if |names| == 0 then [] else [NameText(names[0])] + NameTexts(names[1..])
  }

  /** The JD batch prompt over the numbered list of the uploads' texts and names. */
  function CompanyPrompt(files: seq<Upload>, tika: seq<bv8> -> Result<string, string>,
                         jdText: string): string
    requires forall k :: 0 <= k < |files| ==> tika(files[k].content).Ok?
  {
    OpenAIService.BatchWithJDPrompt(
      OpenAIService.ResumesBlock(CompanyTexts(files, tika), NameTexts(CompanyNames(files)), |files|), jdText)
  }

  /**
   * What the company branch of `analyzeFile` answers, and the calls it makes:
   * 400 without resumes or job description, before any call; 500 with the
   * message of the first upload Tika cannot read, after the calls up to it;
   * 500 with the message of a job description Tika cannot read; otherwise
   * the JD batch prompt over the numbered list goes to the provider and the
   * shaped answer through `parseJson`.
   */
  ghost predicate CompanyOutcome(files: Option<seq<Upload>>, jdFile: Option<Upload>,
                                 tika: seq<bv8> -> Result<string, string>,
                                 complete: string -> OpenAIService.ProviderReply,
                                 readValue: string -> Result<Json, string>,
                                 resp: Response, calls: seq<Call>)
  {
    if files.None? || |files.value| == 0 || jdFile.None? then
      resp == Response(400, ErrorBody(MissingJdOrResumes)) && calls == []
    else if exists k :: 0 <= k < |files.value| && tika(files.value[k].content).Err? then
      exists failed ::
        && 0 <= failed < |files.value|
        && (forall k :: 0 <= k < failed ==> tika(files.value[k].content).Ok?)
        && tika(files.value[failed].content).Err?
        && resp == Response(500, ErrorBody(tika(files.value[failed].content).error))
        && calls == ParseCalls(files.value, failed + 1)
    else
      match tika(jdFile.value.content)
      case Err(m) =>
        && resp == Response(500, ErrorBody(m))
        && calls == ParseCalls(files.value, |files.value|) + [TikaParse(jdFile.value.content)]
      case Ok(jdText) =>
        var prompt := CompanyPrompt(files.value, tika, jdText);
        && resp == ParseJson(OpenAIService.CallOpenAI(complete(prompt)), readValue)
        && calls == ParseCalls(files.value, |files.value|) + [TikaParse(jdFile.value.content)] + [Completion(prompt)]
  }

  /**
   * What the single-file branch of `analyzeFile` answers, and the calls it
   * makes: 400 without a file, before any call; 500 with Tika's message;
   * otherwise the analysis of the text with the raw mode string, through
   * `parseJson`.
   */
  ghost predicate SingleOutcome(mode: string, role: string, file: Option<Upload>,
                                tika: seq<bv8> -> Result<string, string>,
                                complete: string -> OpenAIService.ProviderReply,
                                readTree: string -> Result<Json, string>, render: Json -> string,
                                readValue: string -> Result<Json, string>,
                                resp: Response, calls: seq<Call>)
  {
    if file.None? then
      resp == Response(400, ErrorBody(MissingResumeFile)) && calls == []
    else
      match tika(file.value.content)
      case Err(m) => resp == Response(500, ErrorBody(m)) && calls == [TikaParse(file.value.content)]
      case Ok(text) =>
        var prompt := OpenAIService.AnalyzePrompt(text, role, mode);
        && resp == ParseJson(OpenAIService.Fallbacks(OpenAIService.CallOpenAI(complete(prompt)),
                                                     mode, readTree, render), readValue)
        && calls == [TikaParse(file.value.content)] + [Completion(prompt)]
  }

  /** The company branch of `analyzeFile`: validation, the resume loop, the job description and the batch call. */
  method AnalyzeCompany(files: Option<seq<Upload>>, jdFile: Option<Upload>,
                        tika: seq<bv8> -> Result<string, string>,
                        complete: string -> OpenAIService.ProviderReply,
                        readValue: string -> Result<Json, string>)
    returns (resp: Response, ghost calls: seq<Call>)
    ensures CompanyOutcome(files, jdFile, tika, complete, readValue, resp, calls)
  {
    calls := [];
    if files.None? || |files.value| == 0 || jdFile.None? {
      return Response(400, ErrorBody(MissingJdOrResumes)), calls;
    }
    var collected, parseCalls := CollectResumes(files.value, tika);
    calls := parseCalls;
    if collected.Err? {
      return Response(500, ErrorBody(collected.error)), calls;
    }
    var resumeTexts, fileNames := collected.value.0, collected.value.1;
    CompanyListsAre(files.value, tika, resumeTexts, fileNames);
    var parsedJd := tika(jdFile.value.content);
    calls := calls + [TikaParse(jdFile.value.content)];
    if parsedJd.Err? {
      return Response(500, ErrorBody(parsedJd.error)), calls;
    }
    var res := OpenAIService.CompareResumesInBatchWithJD(resumeTexts, NameTexts(fileNames), parsedJd.value, PlaceholderEmail, complete);
    ghost var prompt := CompanyPrompt(files.value, tika, parsedJd.value);
    calls := calls + [Completion(prompt)];
    resp := ParseJson(res, readValue);
  }

  /** The single-file branch of `analyzeFile`: validation, Tika and the analysis with the raw mode. */
  method AnalyzeSingle(mode: string, role: string, file: Option<Upload>,
                       tika: seq<bv8> -> Result<string, string>,
                       complete: string -> OpenAIService.ProviderReply,
                       readTree: string -> Result<Json, string>, render: Json -> string,
                       readValue: string -> Result<Json, string>)
    returns (resp: Response, ghost calls: seq<Call>)
    ensures SingleOutcome(mode, role, file, tika, complete, readTree, render, readValue, resp, calls)
  {
    calls := [];
    if file.None? {
      return Response(400, ErrorBody(MissingResumeFile)), calls;
    }
    var parsed := tika(file.value.content);
    calls := [TikaParse(file.value.content)];
    if parsed.Err? {
      return Response(500, ErrorBody(parsed.error)), calls;
    }
    var res := OpenAIService.AnalyzeResume(parsed.value, role, mode, complete, readTree, render);
    calls := calls + [Completion(OpenAIService.AnalyzePrompt(parsed.value, role, mode))];
    resp := ParseJson(res, readValue);
  }

  /**
   * `analyzeFile`: the company branch for "company" in any
   * letter case, the single-file branch with the raw mode string otherwise.
   * Validation failures are 400s reached before any collaborator is called.
   */
  method AnalyzeFile(mode: string, role: string,
                     file: Option<Upload>, files: Option<seq<Upload>>, jdFile: Option<Upload>,
                     tika: seq<bv8> -> Result<string, string>,
                     complete: string -> OpenAIService.ProviderReply,
                     readTree: string -> Result<Json, string>, render: Json -> string,
                     readValue: string -> Result<Json, string>)
    returns (resp: Response, ghost calls: seq<Call>)
    ensures resp.status in {200, 400, 500}
    ensures resp.status == 400 ==> calls == []
    ensures IsCompany(mode) && (files.None? || |files.value| == 0 || jdFile.None?) ==>
      resp == Response(400, ErrorBody(MissingJdOrResumes))
    ensures !IsCompany(mode) && file.None? ==> resp == Response(400, ErrorBody(MissingResumeFile))
    ensures IsCompany(mode) ==> CompanyOutcome(files, jdFile, tika, complete, readValue, resp, calls)
    ensures !IsCompany(mode) ==>
      SingleOutcome(mode, role, file, tika, complete, readTree, render, readValue, resp, calls)
  {
    if IsCompany(mode) {
      resp, calls := AnalyzeCompany(files, jdFile, tika, complete, readValue);
    } else {
      resp, calls := AnalyzeSingle(mode, role, file, tika, complete, readTree, render, readValue);
    }
  }

  /** The mode tests ignore letter case. */
  lemma CompanyModeAnyCase()
    ensures IsCompany("Company") && IsCompany("COMPANY")
  {
    EqualsIgnoreCaseByChars("company", "Company");
    EqualsIgnoreCaseByChars("company", "COMPANY");
  }

  /**
   * A mode that is neither "company" nor "candidate" in any case takes the
   * single-file branch and gets the non-candidate prompt.
   */
  lemma UnknownModeExample()
    ensures !IsCompany("candidate") && OpenAIService.IsCandidate("Candidate")
    ensures !IsCompany("xyz") && !OpenAIService.IsCandidate("xyz")
  {
    EqualsIgnoreCaseByChars("candidate", "Candidate");
  }
}
