/** The three agent tools: `process_pdf`, `summarize_text` and `generate_audio`. */
module Tools {
  import opened Wrappers
  import opened Text
  import opened Speech
  import AudioGenerator

  // ---------------------------------------------------------------------
  // process_pdf
  // ---------------------------------------------------------------------

  /** Python truthiness of an optional string argument: None and "" are false. */
  predicate Truthy(arg: Option<string>) {
    arg.Some? && arg.value != []
  }

  const PdfDone: string := "Processed PDF: "
  const ArxivDone: string := "Processed arXiv paper: "
  /** One message, written in two parts so that the verifier can read its
      first characters. */
  const NoSource: string := "Error:" + " Either pdf_path or arxiv_id must be provided"
  const PdfFailed: string := "Error processing PDF: "

  /** `process_pdf(pdf_path, arxiv_id)`, with `pathExists` standing for
      `os.path.exists` (which may raise, with a message). A usable local file
      wins over the arXiv id; every exception is turned into a message, so the
      tool never raises. Each outcome is told apart by how the text starts. */
  function ProcessPdf(pdfPath: Option<string>, arxivId: Option<string>, pathExists: string -> Result<bool, string>): (r: string)
    ensures PdfDone <= r <==> Truthy(pdfPath) && pathExists(pdfPath.value) == Success(true)
    ensures ArxivDone <= r <==>
              (!Truthy(pdfPath) || pathExists(pdfPath.value) == Success(false)) && Truthy(arxivId)
    ensures PdfFailed <= r <==> Truthy(pdfPath) && pathExists(pdfPath.value).Failure?
    ensures r == NoSource <==>
              (!Truthy(pdfPath) || pathExists(pdfPath.value) == Success(false)) && !Truthy(arxivId)
  {
    if Truthy(pdfPath) && pathExists(pdfPath.value).Failure? then
      var r := PdfFailed + pathExists(pdfPath.value).error;
      assert r[0] == 'E' && r[5] == ' ' && NoSource[5] == ':';
      r
    else if Truthy(pdfPath) && pathExists(pdfPath.value).value then
      var r := PdfDone + pdfPath.value;
      assert r[0] == 'P' && r[10] == 'P' && |r| > 10;
      r
    else if Truthy(arxivId) then
      var r := ArxivDone + arxivId.value;
      assert r[0] == 'P' && r[10] == 'a' && |r| > 10;
      r
    else
      assert NoSource[0] == 'E' && NoSource[5] == ':' && PdfFailed[5] == ' ';
      NoSource
  }

  /** The path or id a successful call reports is the one it was given, and
      the failure text carries the exception's message. */
  lemma ProcessPdfReportsSource(pdfPath: Option<string>, arxivId: Option<string>, pathExists: string -> Result<bool, string>)
    ensures var r := ProcessPdf(pdfPath, arxivId, pathExists);
            && (PdfDone <= r ==> r[|PdfDone|..] == pdfPath.value)
            && (ArxivDone <= r ==> r[|ArxivDone|..] == arxivId.value)
            && (PdfFailed <= r ==> r[|PdfFailed|..] == pathExists(pdfPath.value).error)
  {
  }

  // ---------------------------------------------------------------------
  // summarize_text
  // ---------------------------------------------------------------------

  const SummarizeHeader: string := "Summarize the following text:\n"

  /** The most characters of the text the summary prompt carries. */
  const PromptLimit: nat := 3000

  /** The prompt `summarize_text` sends: the header, then at most the first
      3000 characters of the text. */
  function SummarizePrompt(text: string): (p: string)
    ensures SummarizeHeader <= p
    ensures |p| == |SummarizeHeader| + (if |text| < PromptLimit then |text| else PromptLimit)
    ensures p[|SummarizeHeader|..] <= text
  {
    var body := Take(text, PromptLimit);
    assert (SummarizeHeader + body)[|SummarizeHeader|..] == body;
    SummarizeHeader + body
  }

  /** `summarize_text(text)`, with `llm` the model's `invoke`: its answer, or
      the exception it raises, comes back unchanged. */
  function SummarizeText(text: string, llm: string -> Result<string, string>): Result<string, string> {
    llm(SummarizePrompt(text))
  }

  /** Text up to the limit reaches the model whole, after the header. */
  lemma ShortTextSentWhole(text: string)
    requires |text| <= PromptLimit
    ensures SummarizePrompt(text) == SummarizeHeader + text
  {
  }

  /** Only the first 3000 characters of the text reach the model: texts that
      share them send the same prompt. */
  lemma SummaryOnlySeesPrefix(t1: string, t2: string)
    requires |t1| >= PromptLimit && |t2| >= PromptLimit && t1[..PromptLimit] == t2[..PromptLimit]
    ensures SummarizePrompt(t1) == SummarizePrompt(t2)
  {
  }

  // ---------------------------------------------------------------------
  // generate_audio
  // ---------------------------------------------------------------------

  const DefaultOutput: string := "output.mp3"

  /** The text this tool hands to synthesis: flattened, then cut to 2000
      characters with no ellipsis. */
  function ToolSpeechText(text: string): (r: string)
    ensures |r| <= SpeechLimit
    ensures r <= Flatten(text)
    ensures '\n' !in r
    ensures r == [] || !IsPySpace(r[0])
  {
    FlattenOneLine(text);
    CutKeepsShape(Flatten(text), SpeechLimit);
    Take(Flatten(text), SpeechLimit)
  }

  lemma CutKeepsShape(c: string, n: nat)
    requires '\n' !in c && IsTrimmed(c, IsPySpace)
    ensures var r := Take(c, n); '\n' !in r && (r == [] || !IsPySpace(r[0]))
  {
    var r := Take(c, n);
    assert r == c[..|r|];
    PrefixOneLine(c, |r|);
  }

  /** A one-line text of more than 2000 characters is cut to its first 2000. */
  lemma CutOfFlatText(text: string)
    requires |text| > SpeechLimit && '\n' !in text && IsTrimmed(text, IsPySpace)
    ensures ToolSpeechText(text) == text[..SpeechLimit]
  {
    FlattenOfFlat(text);
  }

  /** Unlike the audio module's text, this one can end in whitespace: when the
      2000th character of a one-line text is a space, the cut keeps it. */
  lemma CutCanEndInSpace(text: string)
    requires |text| > SpeechLimit && '\n' !in text && IsTrimmed(text, IsPySpace)
    requires text[SpeechLimit - 1] == ' '
    ensures !IsTrimmed(ToolSpeechText(text), IsPySpace)
  {
    CutOfFlatText(text);
    EndsInSpace(text[..SpeechLimit]);
  }

  lemma FlattenOfFlat(text: string)
    requires '\n' !in text && IsTrimmed(text, IsPySpace)
    ensures Flatten(text) == text
  {
    OneLineFlatten(text);
    TrimOfTrimmed(text, IsPySpace);
  }

  lemma EndsInSpace(r: string)
    requires r != [] && r[|r| - 1] == ' '
    ensures !IsTrimmed(r, IsPySpace)
  {
  }

  lemma OneLineFlatten(text: string)
    requires '\n' !in text
    ensures Flatten(text) == PyStrip(text)
  {
    assert ReplaceChar(text, '\n', ' ') == text;
  }

  /** `generate_audio(text, output_path)`, with `None` for an omitted output
      path, which defaults to "output.mp3": the directory, the model and the
      synthesis are done in order, and the first exception is re-raised. Gives
      the path written, and the calls made after `history`. */
  function GenerateAudio(text: string, outputPath: Option<string>, host: Host, history: seq<Effect>): (Result<string, Exc>, seq<Effect>) {
    var path := outputPath.GetOr(DefaultOutput);
    var (r, h) := RunSteps(host, history, SpeechSteps(ToolSpeechText(text), path));
    (if r.Success? then Success(path) else Failure(r.error), h)
  }

  /** On success the tool returns the path it wrote, "output.mp3" when none
      was given, after making the directory, loading the model and
      synthesizing the prepared text there. */
  lemma GenerateAudioReturnsPath(text: string, outputPath: Option<string>, host: Host, history: seq<Effect>)
    requires GenerateAudio(text, outputPath, host, history).0.Success?
    ensures var path := if outputPath.Some? then outputPath.value else DefaultOutput;
            && GenerateAudio(text, outputPath, host, history).0 == Success(path)
            && GenerateAudio(text, outputPath, host, history).1 == history + SpeechSteps(ToolSpeechText(text), path)
  {
    RunStepsSucceeded(host, history, SpeechSteps(ToolSpeechText(text), outputPath.GetOr(DefaultOutput)));
  }

  /** A failure is the exception the host raised on the last call made. */
  lemma GenerateAudioReraises(text: string, outputPath: Option<string>, host: Host, history: seq<Effect>)
    requires GenerateAudio(text, outputPath, host, history).0.Failure?
    ensures var (r, trace) := GenerateAudio(text, outputPath, host, history);
            LastCallRaised(host, history, trace, r.error)
  {
    RunStepsReraises(host, history, SpeechSteps(ToolSpeechText(text), outputPath.GetOr(DefaultOutput)));
  }

  /** The two back ends prepare the same text up to the cut: where the
      audio module appends `...` this tool does not. */
  lemma SpeechTextsAgree(text: string)
    ensures |Flatten(text)| <= SpeechLimit ==> ToolSpeechText(text) == AudioGenerator.SpeechText(text)
    ensures |Flatten(text)| > SpeechLimit ==> ToolSpeechText(text) + "..." == AudioGenerator.SpeechText(text)
  {
  }
}
