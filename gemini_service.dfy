/**
 * The request side and the response side of the generation service:
 * the prompt template and its two lookup tables, the clean-up applied to a
 * decoded response, and how each failure is turned into the message the
 * user sees. The remote model itself is a parameter (`generate`).
 */
module GeminiService {
  import opened Wrappers
  import opened ProcessedTextModel

  // ---------------------------------------------------------------- lookup tables

  const DefaultStyle := "Make this easier to process"
  const OneStepStyle := "One step at a time"
  const LiteralStyle := "Clear and literal"
  const CalmStyle := "Calm and reassuring"

  const KeyPointsModifier := "- Summarize into 4\U{2013}6 key points\n- Use short sentences\n- Remove non-essential detail"
  const SequentialModifier := "- Break into sequential steps\n- One action per step\n- No combined instructions"
  const LiteralModifier := "- Avoid figurative language\n- Explain terms briefly if needed\n- Use concrete wording"
  const CalmModifier := "- Use neutral, steady tone\n- Avoid urgency words (now, immediately, must)\n- Acknowledge complexity without emotional framing"

  /**
   * Style id to style modifier. Each of the three named styles has its own
   * modifier; every other string, the default id included, gets the key-points one.
   */
  function StyleInstruction(style: string): (r: string)
    ensures r == SequentialModifier <==> style == OneStepStyle
    ensures r == LiteralModifier <==> style == LiteralStyle
    ensures r == CalmModifier <==> style == CalmStyle
    ensures r == KeyPointsModifier <==> style !in {OneStepStyle, LiteralStyle, CalmStyle}
  {
    if style == OneStepStyle then SequentialModifier
    else if style == LiteralStyle then LiteralModifier
    else if style == CalmStyle then CalmModifier
    else KeyPointsModifier
  }

  const ShortLevel := "short"
  const ReasoningLevel := "reasoning"
  const WhyLevel := "why"

  const ReasoningInstruction := "Include a brief, user-friendly section in the 'explanation' field that outlines the logical steps you took to arrive at the answer (e.g., 'First, I identified the main topic...')."
  const WhyInstruction := "Include a brief, user-friendly section in the 'explanation' field that explains *why* the structured output is helpful for clarity (e.g., 'Breaking this down into steps can make the process feel more manageable.')."
  const ShortInstruction := "Provide the direct answer or transformation. Do not include meta-commentary about your reasoning process. The 'explanation' field should be empty."

  /**
   * Explanation level to instruction. "reasoning" and "why" ask for an
   * explanation; every other string, "short" included, asks for none.
   */
  function ExplanationInstruction(level: string): (r: string)
    ensures r == ReasoningInstruction <==> level == ReasoningLevel
    ensures r == WhyInstruction <==> level == WhyLevel
    ensures r == ShortInstruction <==> level !in {ReasoningLevel, WhyLevel}
  {
    if level == ReasoningLevel then ReasoningInstruction
    else if level == WhyLevel then WhyInstruction
    else ShortInstruction
  }

  // ---------------------------------------------------------------- prompt template

  const PromptHead :=
    "\n      System Prompt (Fixed \U{2013} Non-Editable)"
    + "\n      You are NeuroCalm. Your role is to reduce cognitive load while preserving meaning. You support clarity, not correction. You do not diagnose, label, or assume user conditions."
    + "\n      You:"
    + "\n      - Use calm, respectful, adult language"
    + "\n      - Present information in structured formats"
    + "\n      - Avoid urgency, judgment, or persuasion"
    + "\n      - Preserve user agency at all times"
    + "\n      - Explicitly flag uncertainty. If parts of an input are unclear, ambiguous, or unreadable, you must state this neutrally in the 'uncertaintyNote' field and avoid guessing."
    + "\n      You do not:"
    + "\n      - Offer medical or psychological advice"
    + "\n      - Reference disorders unless the user explicitly does"
    + "\n      - Simplify beyond what the user asked for"
    + "\n"
    + "\n      Task Prompt (Dynamic \U{2013} Based on User Selection)"
    + "\n"
    + "\n      Base Instruction:"
    + "\n      "

  const PromptAfterBase :=
    "\n"
    + "\n      Constraints:"
    + "\n      - Preserve original meaning and intent"
    + "\n      - Use clear, literal language"
    + "\n      - Avoid metaphors and idioms"
    + "\n      - Use structured output"
    + "\n      - Do not add assumptions or advice"
    + "\n"
    + "\n      Style Modifier:"
    + "\n      "

  const PromptAfterStyle := "\n\n      Explanation Level:\n      "

  /** The line that fences the user's text off from the instructions, above and below. */
  const Fence := "\n      ---\n"
  const Indent := "      "

  const UserHeading := "\n      \n      User's text input to process or use as context:"
  const Outro := "    "

  /** The full instruction text sent to the model. */
  function SystemPrompt(baseInstruction: string, styleModifier: string, explanationModifier: string, userText: string): string {
    PromptHead + baseInstruction + PromptAfterBase + styleModifier + PromptAfterStyle + explanationModifier
    + UserHeading + Fence + Indent + userText + Fence + Outro
  }

  /**
   * The prompt holds the base instruction, the style modifier, the explanation
   * modifier and the user's text verbatim and in that order, at positions that
   * depend only on the lengths of the parts before them; the user's text sits on
   * its own line between two fence lines.
   */
  lemma PromptLayout(baseInstruction: string, styleModifier: string, explanationModifier: string, userText: string)
    ensures var r := SystemPrompt(baseInstruction, styleModifier, explanationModifier, userText);
      var b := |PromptHead|;
      var s := b + |baseInstruction| + |PromptAfterBase|;
      var e := s + |styleModifier| + |PromptAfterStyle|;
      var f := e + |explanationModifier| + |UserHeading|;
      var u := f + |Fence| + |Indent|;
      && |r| == u + |userText| + |Fence| + |Outro|
      && r[b..b + |baseInstruction|] == baseInstruction
      && r[s..s + |styleModifier|] == styleModifier
      && r[e..e + |explanationModifier|] == explanationModifier
      && r[f..f + |Fence|] == Fence
      && r[u..u + |userText|] == userText
      && r[u + |userText|..u + |userText| + |Fence|] == Fence
  {
    SlotsOf(PromptHead, baseInstruction, PromptAfterBase, styleModifier, PromptAfterStyle,
            explanationModifier, UserHeading, Fence, Indent, userText, Fence, Outro);
  }

  /** Every other part of a twelve-part concatenation can be read back at its offset. */
  lemma SlotsOf(p0: string, p1: string, p2: string, p3: string, p4: string, p5: string,
                p6: string, p7: string, p8: string, p9: string, p10: string, p11: string)
    ensures var r := p0 + p1 + p2 + p3 + p4 + p5 + p6 + p7 + p8 + p9 + p10 + p11;
      var o1 := |p0|;
      var o3 := o1 + |p1| + |p2|;
      var o5 := o3 + |p3| + |p4|;
      var o7 := o5 + |p5| + |p6|;
      var o9 := o7 + |p7| + |p8|;
      && |r| == o9 + |p9| + |p10| + |p11|
      && r[o1..o1 + |p1|] == p1
      && r[o3..o3 + |p3|] == p3
      && r[o5..o5 + |p5|] == p5
      && r[o7..o7 + |p7|] == p7
      && r[o9..o9 + |p9|] == p9
      && r[o9 + |p9|..o9 + |p9| + |p10|] == p10
  {
    var r := p0 + p1 + p2 + p3 + p4 + p5 + p6 + p7 + p8 + p9 + p10 + p11;
    var tail := p9 + p10 + p11;
    assert r == p0 + p1 + (p2 + p3 + p4 + p5 + p6 + p7 + p8 + tail);
    assert r == (p0 + p1 + p2) + p3 + (p4 + p5 + p6 + p7 + p8 + tail);
    assert r == (p0 + p1 + p2 + p3 + p4) + p5 + (p6 + p7 + p8 + tail);
    assert r == (p0 + p1 + p2 + p3 + p4 + p5 + p6) + p7 + (p8 + tail);
    assert r == (p0 + p1 + p2 + p3 + p4 + p5 + p6 + p7 + p8) + p9 + (p10 + p11);
    assert r == (p0 + p1 + p2 + p3 + p4 + p5 + p6 + p7 + p8 + p9) + p10 + p11;
  }

  // ---------------------------------------------------------------- response clean-up

  /** Every step of a list with its `completed` flag cleared. */
  function UncheckSteps(steps: seq<Step>): (r: seq<Step>)
    ensures |r| == |steps|
    ensures forall i :: 0 <= i < |steps| ==> r[i].text == steps[i].text && !r[i].completed
  {
    if steps == [] then [] else [Step(steps[0].text, false)] + UncheckSteps(steps[1..])
  }

  /** No step of the record is marked completed. */
  predicate Unchecked(p: ProcessedText) {
    p.steps.Some? ==> forall i :: 0 <= i < |p.steps.value| ==> !p.steps.value[i].completed
  }

  /**
   * The clean-up of a decoded response: present steps keep their number, order
   * and text but all start unchecked; absent steps stay absent; no other field
   * changes.
   */
  function PrepareOutput(parsed: ProcessedText): (r: ProcessedText)
    ensures Unchecked(r)
    ensures r.steps.Some? <==> parsed.steps.Some?
    ensures r.steps.Some? ==> StepTexts(r.steps.value) == StepTexts(parsed.steps.value)
    ensures r.(steps := parsed.steps) == parsed
  {
    if parsed.steps.Some? then parsed.(steps := Some(UncheckSteps(parsed.steps.value))) else parsed
  }

  /** Cleaning up an already cleaned-up record changes nothing. */
  lemma PrepareOutputIdempotent(parsed: ProcessedText)
    ensures PrepareOutput(PrepareOutput(parsed)) == PrepareOutput(parsed)
  {
    var once := PrepareOutput(parsed);
    if once.steps.Some? {
      var s := once.steps.value;
      assert UncheckSteps(s) == s by {
        forall i | 0 <= i < |s| ensures UncheckSteps(s)[i] == s[i] {
          assert StepTexts(s)[i] == StepTexts(parsed.steps.value)[i];
        }
      }
    }
  }

  // ---------------------------------------------------------------- the three process calls

  /** A browser `File`, reduced to an identity and its declared MIME type. */
  datatype UploadedFile = UploadedFile(id: nat, mimeType: string)

  /** What is being simplified: typed text, or an image or a video with optional text. */
  datatype ServiceInput = TextInput | ImageInput(image: UploadedFile) | VideoInput(video: UploadedFile)

  /**
   * The outcome of reading a file as base64. A failed read rejects with the
   * reader's error event, which carries no message.
   */
  datatype FileRead = Base64(data: string) | ReadFailed

  /** The request: the prompt alone, or a media part followed by the prompt. */
  datatype Request = TextRequest(contents: string) | MediaRequest(mimeType: string, data: string, text: string)

  /**
   * The remote call: a response whose text decoded to a record (`None` when it
   * did not decode), or a failure whose detail is only logged.
   */
  datatype CallOutcome = Responded(parsed: Option<ProcessedText>) | CallFailed(detail: string)

  const NotInitializedMessage := "Gemini AI client is not initialized."
  const TextFailureMessage := "Failed to process the text. Please check the input and try again."
  const ImageFailureMessage := "Failed to process the image. Please try another image or check the input."
  const VideoFailureMessage := "Failed to process the video. The file may be too large or in an unsupported format."

  const TextBaseInstruction := "Transform the following content to be easier to process."
  const ImageBaseInstruction := "Analyze the provided image and transform its content to be easier to process. Interpret it literally. Extract visible text, identify the main sections, explain its structure, and list any requirements mentioned. Do not infer emotion, intent, or urgency. If the user provides an additional text prompt, use it to focus your analysis."
  const VideoBaseInstruction := "Analyze the provided video and transform its content into a structured summary or a step-by-step guide. Focus on the main actions, spoken words, and visual cues to create a clear, easy-to-process output. Do not infer emotion, intent, or urgency. If the user provides an additional text prompt, use it to focus your analysis (e.g., 'summarize the key decision' or 'list the ingredients mentioned')."

  function BaseInstruction(input: ServiceInput): string {
    match input
    case TextInput => TextBaseInstruction
    case ImageInput(_) => ImageBaseInstruction
    case VideoInput(_) => VideoBaseInstruction
  }

  /**
   * The one message each modality shows for any failure of its generate-and-parse
   * step. It is never empty, so the form shows it as it is, and it never reads
   * as the missing-client error.
   */
  function FailureMessage(input: ServiceInput): (m: string)
    ensures m != "" && m != NotInitializedMessage
  {
    match input
    case TextInput => TextFailureMessage
    case ImageInput(_) => ImageFailureMessage
    case VideoInput(_) => VideoFailureMessage
  }

  /** The request sent for an input; `data` is the base64 content of the file, unused for text. */
  function RequestFor(input: ServiceInput, data: string, userInput: string, style: string, level: string): (r: Request)
    ensures r.TextRequest? <==> input.TextInput?
    ensures input.ImageInput? ==> r.mimeType == input.image.mimeType && r.data == data
    ensures input.VideoInput? ==> r.mimeType == input.video.mimeType && r.data == data
    ensures var p := SystemPrompt(BaseInstruction(input), StyleInstruction(style), ExplanationInstruction(level), userInput);
      (r.TextRequest? ==> r.contents == p) && (r.MediaRequest? ==> r.text == p)
  {
    var prompt := SystemPrompt(BaseInstruction(input), StyleInstruction(style), ExplanationInstruction(level), userInput);
    match input
    case TextInput => TextRequest(prompt)
    case ImageInput(f) => MediaRequest(f.mimeType, data, prompt)
    case VideoInput(f) => MediaRequest(f.mimeType, data, prompt)
  }

  /** The guarded generate-and-parse step: any failure in it becomes the modality's message. */
  function Generate(req: Request, generate: Request -> CallOutcome, failure: string): (r: Result<ProcessedText>)
    ensures r.Ok? <==> generate(req).Responded? && generate(req).parsed.Some?
    ensures r.Ok? ==> r.value == PrepareOutput(generate(req).parsed.value) && Unchecked(r.value)
    ensures r.Err? ==> r.message == failure
  {
    match generate(req)
    case Responded(Some(parsed)) => Ok(PrepareOutput(parsed))
    case _ => Err(failure)
  }

  /**
   * `processText`, `processImage` and `processVideo`. Without a client they
   * fail with the not-initialized error whatever the rest. A failed file read
   * is not remapped: it surfaces as it is, an error without a message. Otherwise the request built from the
   * input is sent, and the call succeeds exactly when the service responds with
   * a decodable record, which is returned cleaned up; every other outcome is the
   * modality's fixed message.
   */
  function Process(configured: bool, input: ServiceInput, userInput: string, style: string, level: string,
                   read: FileRead, generate: Request -> CallOutcome): (r: Result<ProcessedText>)
    ensures !configured ==> r == Err(NotInitializedMessage)
    ensures r.Ok? ==> configured && Unchecked(r.value)
    ensures configured && !input.TextInput? && read.ReadFailed? ==> r == Err("")
    ensures configured && (input.TextInput? || read.Base64?) ==>
      var req := RequestFor(input, if read.Base64? then read.data else "", userInput, style, level);
      && (r.Ok? <==> generate(req).Responded? && generate(req).parsed.Some?)
      && (r.Ok? ==> r.value == PrepareOutput(generate(req).parsed.value))
      && (r.Err? ==> r.message == FailureMessage(input))
  {
    if !configured then Err(NotInitializedMessage)
    else if !input.TextInput? && read.ReadFailed? then Err("")
    else
      var data := if read.Base64? then read.data else "";
      Generate(RequestFor(input, data, userInput, style, level), generate, FailureMessage(input))
  }
}
