/**
 * ResumeService: turns an uploaded resume into plain text, choosing the
 * parser by the lower-cased file extension. The PDF and DOCX parsers
 * (PDFBox and Apache POI) are parameters; only the dispatch and the
 * paragraph join of the DOCX path are modelled.
 */
module ResumeService {
  import opened Wrappers
  import opened JavaString
  import opened Multipart

  /** The exceptions `extractText` lets escape. */
  datatype ExtractError =
    | IllegalArgument(message: string)
    | NullFileName                      // `getOriginalFilename()` returned null
    | StreamFailed(message: string)     // the IOException of `getInputStream()`
    | ParserFailed(message: string)     // thrown by PDFBox or POI while reading the stream

  const MissingFileMessage: string := "\U{274C} Resume file is missing."
  const UnsupportedTypeMessage: string := "\U{274C} Unsupported file type. Please upload a PDF or DOCX file."

  datatype FileKind = Pdf | Docx | Unsupported

  /** The dispatch of `extractText`: ".pdf" is tested first, then ".docx", on the lower-cased name. */
  function FileKindOf(fileName: string): (k: FileKind)
    ensures k == Pdf <==> EndsWith(ToLowerAscii(fileName), ".pdf")
    ensures k == Docx <==> !EndsWith(ToLowerAscii(fileName), ".pdf") && EndsWith(ToLowerAscii(fileName), ".docx")
  {
    var lower := ToLowerAscii(fileName);
    if EndsWith(lower, ".pdf") then Pdf
    else if EndsWith(lower, ".docx") then Docx
    else Unsupported
  }

  /** File names that differ only in letter case are dispatched alike. */
  lemma FileKindIgnoresCase(a: string, b: string)
    requires EqualsIgnoreCase(a, b)
    ensures FileKindOf(a) == FileKindOf(b)
  {
    EqualsIgnoreCaseIsLowerEq(a, b);
  }

  /** Lower-casing distributes over concatenation. */
  lemma ToLowerAsciiAppend(a: string, b: string)
    ensures ToLowerAscii(a + b) == ToLowerAscii(a) + ToLowerAscii(b)
  {
    var l := ToLowerAscii(a + b);
    var r := ToLowerAscii(a) + ToLowerAscii(b);
    forall k | 0 <= k < |l|
      ensures l[k] == r[k]
    {
      if k < |a| {
        assert (a + b)[k] == a[k];
        assert r[k] == ToLowerAscii(a)[k];
      } else {
        assert (a + b)[k] == b[k - |a|];
        assert r[k] == ToLowerAscii(b)[k - |a|];
      }
    }
    assert l == r;
  }

  /**
   * Any name whose extension is ".pdf" in any letter case takes the PDF
   * path, whatever comes before it.
   */
  lemma PdfExtensionAnyCase(stem: string, ext: string)
    requires EqualsIgnoreCase(ext, ".pdf")
    ensures FileKindOf(stem + ext) == Pdf
  {
    EqualsIgnoreCaseIsLowerEq(ext, ".pdf");
    ToLowerAsciiAppend(stem, ext);
    assert ToLowerAscii(".pdf") == ".pdf";
    EndsWithConcat(ToLowerAscii(stem), ".pdf");
  }

  /** Any name whose extension is ".docx" in any letter case takes the DOCX path. */
  lemma DocxExtensionAnyCase(stem: string, ext: string)
    requires EqualsIgnoreCase(ext, ".docx")
    ensures FileKindOf(stem + ext) == Docx
  {
    EqualsIgnoreCaseIsLowerEq(ext, ".docx");
    ToLowerAsciiAppend(stem, ext);
    assert ToLowerAscii(".docx") == ".docx";
    var lower := ToLowerAscii(stem) + ".docx";
    EndsWithConcat(ToLowerAscii(stem), ".docx");
    assert lower[|lower| - 1] == 'x';
  }

  /** A name whose last letter is neither "f" nor "x" in any case is unsupported. */
  lemma UnsupportedByLastChar(fileName: string)
    requires |fileName| > 0
    requires LowerChar(fileName[|fileName| - 1]) != 'f' && LowerChar(fileName[|fileName| - 1]) != 'x'
    ensures FileKindOf(fileName) == Unsupported
  {
    var lower := ToLowerAscii(fileName);
    assert lower[|lower| - 1] == LowerChar(fileName[|fileName| - 1]);
    assert forall t :: |t| > 0 && EndsWith(lower, t) ==> lower[|lower| - 1] == t[|t| - 1];
  }

  lemma FileKindExamples()
    ensures FileKindOf("CV.PDF") == Pdf
    ensures FileKindOf("Resume.Docx") == Docx
    ensures FileKindOf("resume.doc") == Unsupported
    ensures FileKindOf("notes.txt") == Unsupported
  {
    PdfExtensionAnyCase("CV", ".PDF");
    assert "CV" + ".PDF" == "CV.PDF";
    DocxExtensionAnyCase("Resume", ".Docx");
    assert "Resume" + ".Docx" == "Resume.Docx";
    UnsupportedByLastChar("resume.doc");
    UnsupportedByLastChar("notes.txt");
  }

  /** The text of `extractDocxText`: every paragraph followed by a line break, in order. */
  function JoinParagraphs(paragraphs: seq<string>): string
  {
    if |paragraphs| == 0 then ""
    else JoinParagraphs(paragraphs[..|paragraphs| - 1]) + paragraphs[|paragraphs| - 1] + "\n"
  }

  /** The sum over paragraphs of their length plus one. */
  function LineLengths(paragraphs: seq<string>): nat
  {
    if |paragraphs| == 0 then 0
    else LineLengths(paragraphs[..|paragraphs| - 1]) + |paragraphs[|paragraphs| - 1]| + 1
  }

  /** The paragraph loop of `extractDocxText`; its charset round trip is the identity here. */
  method ExtractDocxText(paragraphs: seq<string>) returns (text: string)
    ensures text == JoinParagraphs(paragraphs)
  {
    var sb := "";
    var i := 0;
    while i < |paragraphs|
      invariant 0 <= i <= |paragraphs|
      invariant sb == JoinParagraphs(paragraphs[..i])
    {
      assert paragraphs[..i + 1][..i] == paragraphs[..i];
      sb := sb + paragraphs[i] + "\n";
      i := i + 1;
    }
    assert paragraphs[..i] == paragraphs;
    text := sb;
  }

  /** The joined text is as long as all paragraphs plus one line break each. */
  lemma {:induction false} JoinParagraphsLength(paragraphs: seq<string>)
    ensures |JoinParagraphs(paragraphs)| == LineLengths(paragraphs)
  {
    if |paragraphs| > 0 {
      JoinParagraphsLength(paragraphs[..|paragraphs| - 1]);
    }
  }

  /** Joining two runs of paragraphs is joining each and concatenating. */
  lemma {:induction false} JoinParagraphsAppend(a: seq<string>, b: seq<string>)
    ensures JoinParagraphs(a + b) == JoinParagraphs(a) + JoinParagraphs(b)
    decreases |b|
  {
    if |b| == 0 {
      assert a + b == a;
    } else {
      var b' := b[..|b| - 1];
      assert (a + b)[..|a + b| - 1] == a + b';
      assert (a + b)[|a + b| - 1] == b[|b| - 1];
      JoinParagraphsAppend(a, b');
    }
  }

  /**
   * Paragraph `k` appears, followed by its line break, right after the text
   * of the paragraphs before it.
   */
  lemma JoinParagraphsLine(paragraphs: seq<string>, k: nat)
    requires k < |paragraphs|
    ensures OccursAt(JoinParagraphs(paragraphs), paragraphs[k] + "\n", |JoinParagraphs(paragraphs[..k])|)
  {
    var before := paragraphs[..k];
    var rest := paragraphs[k + 1..];
    assert paragraphs == before + [paragraphs[k]] + rest;
    JoinParagraphsAppend(before + [paragraphs[k]], rest);
    JoinParagraphsAppend(before, [paragraphs[k]]);
    assert JoinParagraphs([paragraphs[k]]) == paragraphs[k] + "\n" by {
      assert [paragraphs[k]][..0] == [];
    }
    OccursAtMiddle(JoinParagraphs(before), paragraphs[k] + "\n", JoinParagraphs(rest));
  }

  /**
   * `extractText`: the missing-file error, the null-name exception of
   * `toLowerCase`, the IOException of opening the upload's stream (reported
   * by `openStream` as its message), then the PDF and DOCX parsers chosen
   * by the extension, and the unsupported-type error. A parser's exception
   * propagates unchanged.
   */
  method ExtractText(file: Option<Upload>,
                     openStream: seq<bv8> -> Option<string>,
                     loadPdf: seq<bv8> -> Result<string, string>,
                     loadDocxParagraphs: seq<bv8> -> Result<seq<string>, string>)
    returns (r: Result<string, ExtractError>)
    ensures file.None? || IsEmptyUpload(file.value) ==> r == Err(IllegalArgument(MissingFileMessage))
    ensures file.Some? && !IsEmptyUpload(file.value) && file.value.originalFilename.None? ==> r == Err(NullFileName)
    ensures file.Some? && !IsEmptyUpload(file.value) && file.value.originalFilename.Some?
            && openStream(file.value.content).Some? ==>
      r == Err(StreamFailed(openStream(file.value.content).value))
    ensures file.Some? && !IsEmptyUpload(file.value) && file.value.originalFilename.Some?
            && openStream(file.value.content).None? ==>
      match FileKindOf(file.value.originalFilename.value)
      case Pdf =>
        r == (match loadPdf(file.value.content)
              case Ok(text) => Ok(text)
              case Err(m) => Err(ParserFailed(m)))
      case Docx =>
        r == (match loadDocxParagraphs(file.value.content)
              case Ok(ps) => Ok(JoinParagraphs(ps))
              case Err(m) => Err(ParserFailed(m)))
      case Unsupported => r == Err(IllegalArgument(UnsupportedTypeMessage))
  {
    if file.None? || IsEmptyUpload(file.value) {
      return Err(IllegalArgument(MissingFileMessage));
    }
    var upload := file.value;
    if upload.originalFilename.None? {
      return Err(NullFileName);
    }
    var streamError := openStream(upload.content);
    if streamError.Some? {
      return Err(StreamFailed(streamError.value));
    }
    var fileName := upload.originalFilename.value;
    match FileKindOf(fileName)
    case Pdf =>
      match loadPdf(upload.content) {
        case Ok(text) => r := Ok(text);
        case Err(m) => r := Err(ParserFailed(m));
      }
    case Docx =>
      match loadDocxParagraphs(upload.content) {
        case Ok(ps) =>
          var text := ExtractDocxText(ps);
          r := Ok(text);
        case Err(m) => r := Err(ParserFailed(m));
      }
    case Unsupported =>
      r := Err(IllegalArgument(UnsupportedTypeMessage));
  }
}
