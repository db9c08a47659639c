# Resume Help backend — a Dafny model

The Resume Help backend is a Spring service with one endpoint,
`POST /api/analyze-file`. It reads uploaded resumes and asks a chat-completion
provider to evaluate them against a role or a job description. It then repairs
the provider's JSON answer and returns it.

This project models the decision logic of that service.

- **`OpenAIService`**
  - builds the prompts for the four flows: analyse, improve, batch-compare, and batch-compare with a job description;
  - cuts the JSON object out of the provider's reply (`extractJson`);
  - shapes the provider's answer and error cases into strings (`callOpenAI`);
  - fills in the fields the model left out (`enforceFallbacks`, `enforceArrayDefault`).
- **`ResumeController`**
  - dispatches on the mode string, ignoring letter case;
  - validates the uploaded parts;
  - collects the texts and file names of the resumes in upload order;
  - turns the service's string into a 200 or 500 response (`parseJson`).
- **`ResumeService`**
  - chooses the PDF or DOCX parser by the lower-cased file extension;
  - joins the DOCX paragraphs into one text.

Collaborators the model cannot see are function parameters:

| collaborator | parameter | type |
|---|---|---|
| the chat-completion exchange | `complete` | prompt → `ProviderReply` |
| Jackson's `readTree` | `decode` / `readTree` | text → tree or error message |
| Jackson's `readValue` | `readValue` | text → tree or error message |
| Jackson's pretty printer | `render` | tree → text |
| Tika | `tika` | bytes → text or error message |
| `MultipartFile.getInputStream` | `openStream` | bytes → the IOException's message, if it fails |
| PDFBox | `loadPdf` | bytes → text or error message |
| POI | `loadDocxParagraphs` | bytes → paragraphs or error message |

The source updates state in place in two places, and both are modelled that way:

- The Jackson `ObjectNode` is a class whose field list the methods reassign (`Json.ObjectNode`).
- The `StringBuilder` and `ArrayList` loops are `while` loops with invariants.

Each such method is tied to a specification function, and the properties are proved about those functions.

Files:

- `wrappers.dfy` — `Option` and `Result`.
- `java_string.dfy` — the `java.lang.String` operations the code relies on.
- `json.dfy` — the JSON tree and `ObjectNode`.
- `multipart.dfy` — the uploaded file.
- `openai_service.dfy`, `resume_controller.dfy`, `resume_service.dfy` — the three classes.

In these places the code does something other than what its intent suggests. The model follows the code:

- **Empty values.** `strong_points`, `weak_points` and the recommendation sub-keys are replaced when their value is missing, null, or of size 0.
  - Jackson gives every scalar size 0, so a string or a number is replaced as well.
  - An empty object is replaced too, not just an empty array.
- **No `recommendations` key.** The normaliser never adds the `recommendations` object.
  - Even in candidate mode, an answer without it stays without it.
- **Non-candidate modes.** The normaliser never removes a `recommendations` object the model returned.
- **Braces in the wrong order.** Some replies hold a `}` and a `{` but no `{` before any `}`; the code distinguishes two cases.
  - When the last `}` sits just before the first `{`, `substring` returns the empty string and `extractJson` yields `""`.
  - Only when the last `}` is further left does `substring` throw. That exception becomes an `API Error` string.
- **The company branch does not check file types.** It reads every upload with Tika directly. The extension check of `ResumeService.extractText` is not on this endpoint's path.

## Model

| member | source | states |
|---|---|---|
| JavaString.IndexOf | src/main/java/com/resumehelp/service/OpenAIService.java:157 | -1 exactly when the character is absent; otherwise the position holds it and no earlier position does |
| JavaString.LastIndexOf | src/main/java/com/resumehelp/service/OpenAIService.java:158 | -1 exactly when the character is absent; otherwise the position holds it and no later position does |
| JavaString.Trim | src/main/java/com/resumehelp/service/OpenAIService.java:149 | `trim()`: never longer than the input; the result's ends are above U+0020; empty exactly when every character is at most U+0020; otherwise the slice from the first kept character to the last |
| JavaString.TrimKeepsUntrimmableEnds | src/main/java/com/resumehelp/service/OpenAIService.java:160 | trimming a string whose ends are not blank changes nothing |
| JavaString.ReplaceChar | src/main/java/com/resumehelp/service/OpenAIService.java:152 | `replace("\"", "'")` replaces every occurrence and keeps every other character and the length |
| JavaString.ReplaceCharRemoves | src/main/java/com/resumehelp/service/OpenAIService.java:152 | after replacing a character by a different one, none of it is left |
| JavaString.EqualsIgnoreCaseIsLowerEq | src/main/java/com/resumehelp/service/OpenAIService.java:34 | `equalsIgnoreCase` holds exactly when the lower-cased strings are equal (both directions) |
| JavaString.EqualsIgnoreCase | src/main/java/com/resumehelp/controller/ResumeController.java:32 | defines `equalsIgnoreCase` position by position on ASCII case folding |
| JavaString.EqualsIgnoreCaseByChars | src/main/java/com/resumehelp/controller/ResumeController.java:32 | `equalsIgnoreCase` holds exactly when the lengths agree and every position matches ignoring case |
| JavaString.ToLowerAscii | src/main/java/com/resumehelp/service/ResumeService.java:20 | `toLowerCase()`: same length, every position lower-cased |
| JavaString.DecimalString | src/main/java/com/resumehelp/service/OpenAIService.java:85 | `append(i + 1)` writes at least one decimal digit, with no leading zero |
| JavaString.ParseDecimalString | src/main/java/com/resumehelp/service/OpenAIService.java:85 | the decimal rendering reads back as the number |
| JavaString.DecimalStringInjective | src/main/java/com/resumehelp/service/OpenAIService.java:85 | different numbers render differently |
| JavaString.EndsWithConcat | src/main/java/com/resumehelp/service/ResumeService.java:23 | a concatenation ends with its second part |
| JavaString.EndsWith | src/main/java/com/resumehelp/service/ResumeService.java:23-25 | defines `endsWith`: the string is at least as long and its tail equals the suffix |
| Json.Lookup | src/main/java/com/resumehelp/service/OpenAIService.java:170 | `get(key)` is absent exactly when no field has the key, and otherwise is the value of a field with that key |
| Json.Has | src/main/java/com/resumehelp/service/OpenAIService.java:178 | `has(key)` holds exactly when some field carries the key, whatever its value, JSON null included |
| Json.Size | src/main/java/com/resumehelp/service/OpenAIService.java:170 | `size()` is the number of elements of an array and of fields of an object, and positive only for those: every scalar counts as empty |
| Json.Put | src/main/java/com/resumehelp/service/OpenAIService.java:171 | `putArray`/`set` keeps the number of fields when the key exists and adds one otherwise |
| Json.PutReplacesFirst | src/main/java/com/resumehelp/service/OpenAIService.java:171 | on a present key `putArray`/`set` replaces the first field with that key at its own position and leaves every other field where it was |
| Json.PutAppends | src/main/java/com/resumehelp/service/OpenAIService.java:171 | on an absent key `putArray`/`set` appends the new field after all existing ones |
| Json.LookupPutSame | src/main/java/com/resumehelp/service/OpenAIService.java:171 | after a put the key holds the new value |
| Json.LookupPutOther | src/main/java/com/resumehelp/service/OpenAIService.java:171 | a put leaves every other key as it was |
| Json.PutExisting | src/main/java/com/resumehelp/service/OpenAIService.java:179 | putting back the value a key already holds changes nothing |
| Json.HasPut | src/main/java/com/resumehelp/service/OpenAIService.java:178 | after a put the keys are the old ones plus the key put |
| Json.HasNonNull | src/main/java/com/resumehelp/service/OpenAIService.java:170 | `hasNonNull(key)` is defined as: the key is present and its value is not JSON null |
| Json.IsEmpty | src/main/java/com/resumehelp/service/OpenAIService.java:170 | `isEmpty()` is defined as size 0, so every scalar is empty |
| Json.UniqueKeys | src/main/java/com/resumehelp/service/OpenAIService.java:168 | defines the trees `readTree` returns: no object at any depth repeats a key |
| Json.PutUnique | src/main/java/com/resumehelp/service/OpenAIService.java:196 | a put of a value with unique keys keeps every key of the object unique |
| Json.ObjectNode.constructor | src/main/java/com/resumehelp/service/OpenAIService.java:168 | the node holds the parsed fields |
| Json.ObjectNode.PutArrayWith | src/main/java/com/resumehelp/service/OpenAIService.java:196 | `putArray(key).add(item)` leaves the fields as the put of a one-element array |
| Json.ObjectNode.Set | src/main/java/com/resumehelp/service/OpenAIService.java:179-185 | storing the patched child back is the put of its value |
| OpenAIService.ErrorObject | src/main/java/com/resumehelp/service/OpenAIService.java:147 | every error string starts with `{` and ends with `}` |
| OpenAIService.ApiError | src/main/java/com/resumehelp/service/OpenAIService.java:151-153 | the caught exception's message is embedded after "API Error: " with the same length and no double quote: each double quote becomes a single quote and every other character is kept |
| OpenAIService.SubstringMessage | src/main/java/com/resumehelp/service/OpenAIService.java:160 | defines the message of the `substring` exception: "begin b, end e, length l" |
| OpenAIService.ExtractJson | src/main/java/com/resumehelp/service/OpenAIService.java:156-163 | the sentinel when a brace is missing; the slice from the first `{` to the last `}` when the first precedes the last; "" when the last `}` is just before the first `{`; the `substring` exception when it is further left |
| OpenAIService.ExtractJsonSlice | src/main/java/com/resumehelp/service/OpenAIService.java:157-160 | when some `{` precedes some `}`, the result is brace-delimited, no longer than the input, a slice with no `{` before it and no `}` after it |
| OpenAIService.ExtractJsonOkShape | src/main/java/com/resumehelp/service/OpenAIService.java:157-160 | every non-empty successful result is brace-delimited |
| OpenAIService.ExtractJsonOfDelimited | src/main/java/com/resumehelp/service/OpenAIService.java:157-160 | a brace-delimited string is returned unchanged |
| OpenAIService.ExtractJsonIdempotent | src/main/java/com/resumehelp/service/OpenAIService.java:157-160 | extraction applied to its own non-empty output gives the same result |
| OpenAIService.ExtractJsonAround | src/main/java/com/resumehelp/service/OpenAIService.java:157-160 | an object surrounded by prose with no `{` before it and no `}` after it is extracted exactly (so "Sure! Here is the result: {...} Thanks!" gives the object) |
| OpenAIService.CallOpenAI | src/main/java/com/resumehelp/service/OpenAIService.java:143-153 | missing or empty choices give the empty-response sentinel; an exception gives the API-error string; otherwise the trimmed first choice goes through extraction, whose `substring` exception also becomes an API-error string |
| OpenAIService.CallOpenAIShape | src/main/java/com/resumehelp/service/OpenAIService.java:143-153 | whatever the provider does, the result is "" or brace-delimited |
| OpenAIService.DefaultKeys | src/main/java/com/resumehelp/service/OpenAIService.java:181-185 | the keys of a default table, position by position |
| OpenAIService.NeedsDefault | src/main/java/com/resumehelp/service/OpenAIService.java:195 | defines the test of `enforceArrayDefault`: missing, null, or of size 0 |
| OpenAIService.ArrayDefault | src/main/java/com/resumehelp/service/OpenAIService.java:194-198 | defines `enforceArrayDefault` on the fields: a one-element fallback array is put when the test holds, the fields are unchanged otherwise |
| OpenAIService.ApplyDefaults | src/main/java/com/resumehelp/service/OpenAIService.java:181-185 | defines a run of `enforceArrayDefault` calls, one per table entry, in table order |
| OpenAIService.IsCandidate | src/main/java/com/resumehelp/service/OpenAIService.java:178 | defines candidate mode as `"candidate".equalsIgnoreCase(mode)` |
| OpenAIService.NeedsDefaultIffNotFilled | src/main/java/com/resumehelp/service/OpenAIService.java:195 | the test "missing, null or empty" fails exactly when the value is a non-empty array or object |
| OpenAIService.ArrayDefaultEffect | src/main/java/com/resumehelp/service/OpenAIService.java:194-198 | afterwards the key holds a non-empty container: the one-element fallback array if it needed the default, the untouched fields otherwise; other keys unchanged |
| OpenAIService.ApplyDefaultsSnoc | src/main/java/com/resumehelp/service/OpenAIService.java:181-185 | a run of defaults followed by one more call is the longer run |
| OpenAIService.PointDefaultsUnfold | src/main/java/com/resumehelp/service/OpenAIService.java:170-176 | the point table is the `strong_points` call followed by the `weak_points` call |
| OpenAIService.ApplyDefaultsOther | src/main/java/com/resumehelp/service/OpenAIService.java:181-185 | keys a run does not mention keep their values |
| OpenAIService.ApplyDefaultsKeepsFilled | src/main/java/com/resumehelp/service/OpenAIService.java:181-185 | an already filled key keeps its value through a run |
| OpenAIService.ApplyDefaultsFills | src/main/java/com/resumehelp/service/OpenAIService.java:181-185 | after a run each mentioned key is filled: the old value if it was a non-empty container, its fallback array otherwise |
| OpenAIService.ApplyDefaultsNoop | src/main/java/com/resumehelp/service/OpenAIService.java:181-185 | a run changes nothing when every mentioned key is already filled |
| OpenAIService.ApplyDefaultsIdempotent | src/main/java/com/resumehelp/service/OpenAIService.java:181-185 | running the defaults twice equals running them once |
| OpenAIService.DefaultTables | src/main/java/com/resumehelp/service/OpenAIService.java:170-185 | the fallback tables hold the source's keys, in call order, and each key's fallback sentence, for the two point lists and the five recommendation sub-keys |
| OpenAIService.NormalizeTreeFails | src/main/java/com/resumehelp/service/OpenAIService.java:168-190 | the rewrite gives up exactly for a non-object root, or in candidate mode for a present `recommendations` that is not an object |
| OpenAIService.NormalizeTree | src/main/java/com/resumehelp/service/OpenAIService.java:165-192 | defines the tree rewrite of `enforceFallbacks`: None for a non-object root or, in candidate mode, a present non-object `recommendations`; otherwise the two point defaults and, in candidate mode with `recommendations` present, the five sub-key defaults |
| OpenAIService.ApplyDefaultsUnique | src/main/java/com/resumehelp/service/OpenAIService.java:170-185 | a run of defaults keeps every key unique |
| OpenAIService.NormalizeTreeUnique | src/main/java/com/resumehelp/service/OpenAIService.java:165-192 | the rewrite of a tree with unique keys has unique keys |
| OpenAIService.NormalizeTreePoints | src/main/java/com/resumehelp/service/OpenAIService.java:170-176 | after a successful rewrite both point lists are non-empty containers: untouched if they were, the fallback array otherwise |
| OpenAIService.NormalizeTreeRecommendations | src/main/java/com/resumehelp/service/OpenAIService.java:178-186 | the `recommendations` key is never added or removed; its value changes only in candidate mode, where the five sub-keys become filled (untouched if they were) and other sub-keys stay |
| OpenAIService.NormalizeTreeOtherKeys | src/main/java/com/resumehelp/service/OpenAIService.java:165-192 | every other top-level key keeps its value |
| OpenAIService.NormalizeTreeStable | src/main/java/com/resumehelp/service/OpenAIService.java:165-192 | a tree whose required fields are already filled comes back unchanged |
| OpenAIService.NormalizeTreeIdempotent | src/main/java/com/resumehelp/service/OpenAIService.java:165-192 | rewriting a rewritten tree changes nothing |
| OpenAIService.FallbacksCases | src/main/java/com/resumehelp/service/OpenAIService.java:165-192 | unparsable text, a non-object root and a non-object `recommendations` in candidate mode return the raw text; otherwise the printed rewritten tree |
| OpenAIService.Fallbacks | src/main/java/com/resumehelp/service/OpenAIService.java:165-192 | defines `enforceFallbacks` on text: the raw text when parsing fails or the rewrite gives up, otherwise the printed rewritten tree |
| OpenAIService.FallbacksIdempotent | src/main/java/com/resumehelp/service/OpenAIService.java:165-192 | with a parser that, like Jackson's, returns only trees whose keys are unique, and a printer it reads back on such trees, normalising the normaliser's output gives the same text |
| OpenAIService.EnforceArrayDefault | src/main/java/com/resumehelp/service/OpenAIService.java:194-198 | the node's new fields are the array default of its old fields |
| OpenAIService.EnforceRecommendationDefaults | src/main/java/com/resumehelp/service/OpenAIService.java:181-185 | the five calls leave the node as the run of the recommendation table |
| OpenAIService.EnforceFallbacks | src/main/java/com/resumehelp/service/OpenAIService.java:165-192 | the in-place patching returns exactly `Fallbacks` of the raw text |
| OpenAIService.Keys | src/main/java/com/resumehelp/service/OpenAIService.java:45-64 | the template's keys at its own level, in order |
| OpenAIService.KeysAppearQuoted | src/main/java/com/resumehelp/service/OpenAIService.java:45-66 | every key of the template, at any depth, appears in double quotes in its rendering |
| OpenAIService.BulletsListEach | src/main/java/com/resumehelp/service/OpenAIService.java:35-40 | every listed key has its own bullet line |
| OpenAIService.AnalyzePromptEndsWithResume | src/main/java/com/resumehelp/service/OpenAIService.java:66 | every analysis prompt ends with "\n\n### Resume:\n" followed by the resume text |
| OpenAIService.AnalyzePrompt | src/main/java/com/resumehelp/service/OpenAIService.java:21-66 | defines the analysis prompt: the advisor line, the role line, the task steps, step 6 by mode, the JSON template of the mode, then the resume section |
| OpenAIService.AnalyzePromptByCandidacy | src/main/java/com/resumehelp/service/OpenAIService.java:34-52 | the prompt depends on the mode only through the case-insensitive candidate test |
| OpenAIService.ShapeKeyTables | src/main/java/com/resumehelp/service/OpenAIService.java:45-64 | the key sets of the template's parts |
| OpenAIService.AllKeysAppend | src/main/java/com/resumehelp/service/OpenAIService.java:45-64 | the keys of joined template parts are the union of the parts' keys |
| OpenAIService.ResponseShapeByMode | src/main/java/com/resumehelp/service/OpenAIService.java:45-64 | both templates ask for the point lists; candidate mode asks for `recommendations` with exactly the five defaulted sub-keys and no `comparison_score`; other modes ask for `comparison_score` and for none of the recommendation keys |
| OpenAIService.CandidateShapeKeys | src/main/java/com/resumehelp/service/OpenAIService.java:45-60 | the candidate template's complete key set |
| OpenAIService.OtherShapeKeys | src/main/java/com/resumehelp/service/OpenAIService.java:45-63 | the non-candidate template's complete key set |
| OpenAIService.AnalyzePromptMentionsKeys | src/main/java/com/resumehelp/service/OpenAIService.java:45-66 | every key of the mode's template appears quoted in the prompt |
| OpenAIService.CandidatePromptListsRecommendations | src/main/java/com/resumehelp/service/OpenAIService.java:34-40 | in candidate mode step 6 lists each of the five recommendation keys |
| OpenAIService.AnalyzeResume | src/main/java/com/resumehelp/service/OpenAIService.java:21-70 | the result is the normalised, shaped provider answer to the analysis prompt |
| OpenAIService.ImprovePromptEndsWithResume | src/main/java/com/resumehelp/service/OpenAIService.java:73-77 | the improvement prompt ends with "### Resume:\n" followed by the resume text |
| OpenAIService.ImprovePrompt | src/main/java/com/resumehelp/service/OpenAIService.java:72-77 | defines the improvement prompt: the role line, the two instructions, the reply shape, then "### Resume:\n" and the resume |
| OpenAIService.GenerateImprovedResume | src/main/java/com/resumehelp/service/OpenAIService.java:72-80 | the result is "" or brace-delimited, whatever the provider does |
| OpenAIService.BuildResumesBlock | src/main/java/com/resumehelp/service/OpenAIService.java:83-88 | the loop builds the numbered list of all resumes |
| OpenAIService.ResumesBlock | src/main/java/com/resumehelp/service/OpenAIService.java:83-88 | defines the numbered list: "Resume i+1 (File: name):\n", the text and a blank line, for the first n resumes in order |
| OpenAIService.ResumesBlockPrefix | src/main/java/com/resumehelp/service/OpenAIService.java:84-88 | the list after more resumes extends the list after fewer |
| OpenAIService.ResumesBlockEntry | src/main/java/com/resumehelp/service/OpenAIService.java:84-88 | the entry "Resume i+1 (File: name):\ntext\n\n" of every resume appears, in input order, right after the entries before it |
| OpenAIService.ResumeLabelsDistinct | src/main/java/com/resumehelp/service/OpenAIService.java:85 | different positions get different labels |
| OpenAIService.FirstResumeLabel | src/main/java/com/resumehelp/service/OpenAIService.java:85 | labels count from "Resume 1" |
| OpenAIService.BatchPromptsEndWithResumes | src/main/java/com/resumehelp/service/OpenAIService.java:95-126 | both batch prompts end with "### Resumes:\n" followed by the list |
| OpenAIService.BatchPrompt | src/main/java/com/resumehelp/service/OpenAIService.java:90-95 | defines the role batch prompt: the instructions, then "### Resumes:\n" and the list |
| OpenAIService.BatchWithJDPrompt | src/main/java/com/resumehelp/service/OpenAIService.java:108-126 | defines the JD batch prompt: the opening line, the job description, the instructions, then "### Resumes:\n" and the list |
| OpenAIService.BatchWithJDPromptHasJobDescription | src/main/java/com/resumehelp/service/OpenAIService.java:108-109 | the job description stands verbatim right after the opening line |
| OpenAIService.CompareResumesInBatch | src/main/java/com/resumehelp/service/OpenAIService.java:82-98 | the shaped provider answer to the role prompt over the numbered list; "" or brace-delimited |
| OpenAIService.CompareResumesInBatchWithJD | src/main/java/com/resumehelp/service/OpenAIService.java:100-129 | the shaped provider answer to the job-description prompt over the numbered list; "" or brace-delimited |
| ResumeService.FileKindOf | src/main/java/com/resumehelp/service/ResumeService.java:20-29 | PDF exactly when the lower-cased name ends with ".pdf"; DOCX exactly when it does not but ends with ".docx" |
| ResumeService.FileKindIgnoresCase | src/main/java/com/resumehelp/service/ResumeService.java:20 | names that differ only in letter case are dispatched alike |
| ResumeService.ToLowerAsciiAppend | src/main/java/com/resumehelp/service/ResumeService.java:20 | lower-casing distributes over concatenation |
| ResumeService.PdfExtensionAnyCase | src/main/java/com/resumehelp/service/ResumeService.java:20-24 | any name ending in ".pdf" in any letter case takes the PDF path |
| ResumeService.DocxExtensionAnyCase | src/main/java/com/resumehelp/service/ResumeService.java:20-26 | any name ending in ".docx" in any letter case takes the DOCX path |
| ResumeService.UnsupportedByLastChar | src/main/java/com/resumehelp/service/ResumeService.java:27-28 | a name whose last letter is neither "f" nor "x" is unsupported |
| ResumeService.FileKindExamples | src/main/java/com/resumehelp/service/ResumeService.java:20-29 | "CV.PDF" is PDF, "Resume.Docx" is DOCX, "resume.doc" and "notes.txt" are unsupported |
| ResumeService.ExtractDocxText | src/main/java/com/resumehelp/service/ResumeService.java:40-46 | the loop's text is the paragraph join |
| ResumeService.JoinParagraphsLength | src/main/java/com/resumehelp/service/ResumeService.java:43 | the text is as long as the sum of paragraph length plus one |
| ResumeService.JoinParagraphs | src/main/java/com/resumehelp/service/ResumeService.java:40-46 | defines the DOCX text: every paragraph followed by a line break, in order |
| ResumeService.JoinParagraphsAppend | src/main/java/com/resumehelp/service/ResumeService.java:43 | joining two runs of paragraphs is joining each and concatenating |
| ResumeService.JoinParagraphsLine | src/main/java/com/resumehelp/service/ResumeService.java:43 | each paragraph appears, followed by a line break, right after the paragraphs before it |
| ResumeService.ExtractText | src/main/java/com/resumehelp/service/ResumeService.java:15-31 | missing or empty file gives the missing-file error; a null name throws; a failure to open the stream throws its IOException; otherwise PDF and DOCX names use their parser (the DOCX text is the paragraph join) and pass its failure on; any other name gives the unsupported-type error |
| ResumeController.ParseJson | src/main/java/com/resumehelp/controller/ResumeController.java:58-65 | 200 with the decoded value exactly when the string decodes; otherwise 500 with "Invalid JSON from AI: " and the reader's message |
| ResumeController.ParseCalls | src/main/java/com/resumehelp/controller/ResumeController.java:39-40 | one Tika call per upload, in upload order |
| ResumeController.CollectResumes | src/main/java/com/resumehelp/controller/ResumeController.java:37-42 | succeeds exactly when Tika reads every upload; the two lists then match the uploads in length and order; otherwise the first failure's message, after exactly the calls up to it |
| ResumeController.CompanyTexts | src/main/java/com/resumehelp/controller/ResumeController.java:40 | the text of every upload, in upload order |
| ResumeController.CompanyNames | src/main/java/com/resumehelp/controller/ResumeController.java:41 | the file name of every upload, in upload order |
| ResumeController.CompanyListsAre | src/main/java/com/resumehelp/controller/ResumeController.java:37-42 | lists aligned with the uploads are the collected ones |
| ResumeController.NameTexts | src/main/java/com/resumehelp/service/OpenAIService.java:86 | each file name as the prompt prints it, "null" for a missing one |
| ResumeController.AnalyzeFile | src/main/java/com/resumehelp/controller/ResumeController.java:24-56 | "company" in any letter case takes the company branch and every other mode the single-file branch; every answer is 200, 400 or 500, and a 400 comes before any call |
| ResumeController.IsCompany | src/main/java/com/resumehelp/controller/ResumeController.java:32 | defines company mode as `"company".equalsIgnoreCase(mode)` |
| ResumeController.ErrorBody | src/main/java/com/resumehelp/controller/ResumeController.java:35-63 | `Map.of("error", message)` is an object with the single field "error" holding the message |
| ResumeController.CompanyOutcome | src/main/java/com/resumehelp/controller/ResumeController.java:33-45 | defines the company branch's answer and call trace for each of its four paths |
| ResumeController.SingleOutcome | src/main/java/com/resumehelp/controller/ResumeController.java:46-51 | defines the single-file branch's answer and call trace for each of its three paths |
| ResumeController.AnalyzeCompany | src/main/java/com/resumehelp/controller/ResumeController.java:33-45 | no resumes or no job description gives 400 before any call; the first upload Tika cannot read gives 500 with its message after the calls up to it; an unreadable job description gives 500 after all resume calls; otherwise the JD batch prompt over the numbered list goes to the provider and the answer through `parseJson`, after exactly those calls |
| ResumeController.AnalyzeSingle | src/main/java/com/resumehelp/controller/ResumeController.java:46-51 | no file gives 400 before any call; a Tika failure gives 500 with its message after that one call; otherwise the analysis prompt with the raw mode goes to the provider, the answer is normalised and put through `parseJson` |
| ResumeController.CompanyModeAnyCase | src/main/java/com/resumehelp/controller/ResumeController.java:32 | "Company" and "COMPANY" are company mode |
| ResumeController.UnknownModeExample | src/main/java/com/resumehelp/controller/ResumeController.java:32-50 | "candidate" is not company mode and "Candidate" is candidate mode; "xyz" is neither, so it takes the single-file branch and gets the non-candidate prompt |

## Left out

- The HTTP exchange of `callOpenAI` is the `complete` parameter. This covers the request's headers, bearer key, endpoint, the "gpt-4" model name and the 0.7 temperature; it is network I/O plus a floating-point constant.
- Reading `choices[0].message.content` is also receiving data. `ProviderReply` carries the contents after `String.valueOf`, so a null content arrives as "null".
- A null pointer inside the exchange or the reply becomes `Threw` with some message.
- `OpenAIService.CallOpenAI`: an exception whose message is null makes the catch block itself throw. The model gives every exception a message.
- `OpenAIService.SubstringMessage`: the wording of the `substring` message is the one of JDK 9 through 17 ("begin b, end e, length l"). Older JDKs, and newer ones that check bounds through `Preconditions`, word it differently.
- `OpenAIService.SubstringMessage`: its numbers count Dafny characters (Unicode scalar values), where Java's `indexOf`, `lastIndexOf` and `length` count UTF-16 code units. A character outside the Basic Multilingual Plane before a brace changes the numbers in the message. The extracted text itself is the same.
- `OpenAIService.ResponseShapeByMode`: the absence of `comparison_score` in candidate mode, and of the recommendation keys in other modes, is proved for the keys of the JSON template only. It is not proved for the rest of the prompt's text: the fixed instruction lines around the template, and the role and resume text, which are arbitrary and may contain any word.
- Jackson's parsing and pretty printing are the opaque `decode`/`readTree`, `readValue` and `render` functions.
  - Idempotence of `enforceFallbacks` on text is proved for a parser that returns trees with unique keys, as Jackson's keeps the last of repeated keys, and a printer that parser reads back on such trees. Byte-level formatting is not modelled.
  - The JSON tree has no floating-point numbers.
- Tika, PDFBox and POI are the `tika`, `loadPdf` and `loadDocxParagraphs` parameters.
  - In the controller, `getInputStream` failures are folded into `tika`. In `ResumeService.extractText` opening the stream is its own step, the `openStream` parameter.
- `ResumeService.ExtractText`: closing the stream at the end of the `try` block can also throw. The model does not include that failure.
- `ResumeService.ExtractDocxText`: the round trip `new String(s.getBytes(), UTF_8)` is taken as the identity. It depends on the platform's default charset.
- `JavaString.ToLowerAscii`, `JavaString.EqualsIgnoreCase`: case folding is modelled for ASCII letters only. Java also folds other Unicode letters.
- `OpenAIService.CompareResumesInBatch`: requires at least as many file names as texts, where the source throws `IndexOutOfBoundsException`. Nothing in the repository calls this method.
- `OpenAIService.CompareResumesInBatchWithJD`: requires at least as many file names as texts, where the source throws `IndexOutOfBoundsException`. Its only caller (`ResumeController.java` line 44) passes two lists built by the same loop, so they have equal length.
- `ResumeController.AnalyzeFile`: the collaborators are pure functions here. "No extraction or service call happens" is stated through the ghost `calls` trace.
- `ResumeController.AnalyzeFile`: `Map.of("error", e.getMessage())` throws when the message is null. The model gives every Tika failure a message.
- `ResumeController.AnalyzeFile`: runtime exceptions other than `IOException` and `TikaException` escape the controller and Spring answers them. The modelled path does not produce any.
- Spring's annotations, dependency injection, the multipart binding and `CorsConfig.java` are framework configuration with no logic. `CorsConfig.java` is not part of this model.
- The `userEmail` parameter of `compareResumesInBatchWithJD` is unused by the source. It is kept as an ignored parameter.
