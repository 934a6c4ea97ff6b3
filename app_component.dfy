// The application controller: the crisis filter, the eligibility rule and the
// state transitions of the input form.
module AppComponent {
  import opened Wrappers
  import opened JsText
  import opened ProcessedTextModel
  import opened GeminiService

  // ---------------------------------------------------------------- crisis filter

  const CrisisPatterns: seq<string> := [
    "want to hurt myself", "thinking about ending", "wish i wasn't here",
    "can't take this anymore", "everything is falling apart", "no point in trying",
    "kill myself", "suicide"
  ]

  /** `patterns.some(p => t.includes(p))`. */
  function AnyIncluded(t: string, patterns: seq<string>): (r: bool)
    ensures r <==> exists k :: 0 <= k < |patterns| && Includes(t, patterns[k])
  {
    if patterns == [] then false
    else Includes(t, patterns[0]) || AnyIncluded(t, patterns[1..])
  }

  /** The input reads as a crisis: its lower-cased form includes one of the patterns. */
  function CheckForCrisis(text: string): (r: bool)
    ensures r <==> exists k :: 0 <= k < |CrisisPatterns| && Includes(ToLower(text), CrisisPatterns[k])
  {
    AnyIncluded(ToLower(text), CrisisPatterns)
  }

  /**
   * The filter holds exactly when some pattern occurs somewhere in the
   * lower-cased text.
   */
  lemma CrisisIff(text: string)
    ensures CheckForCrisis(text) <==>
      exists k: nat, i: nat :: k < |CrisisPatterns| && OccursAt(ToLower(text), CrisisPatterns[k], i)
  {
    forall k | 0 <= k < |CrisisPatterns| {
      IncludesIff(ToLower(text), CrisisPatterns[k]);
    }
  }

  /**
   * A phrase that lower-cases to one of the patterns is caught wherever it
   * sits in the input and whatever the case of its letters.
   */
  lemma CrisisInAnyCase(before: string, phrase: string, after: string, k: nat)
    requires k < |CrisisPatterns| && ToLower(phrase) == CrisisPatterns[k]
    ensures CheckForCrisis(before + phrase + after)
  {
    var p := CrisisPatterns[k];
    ToLowerAppend(before + phrase, after);
    ToLowerAppend(before, phrase);
    var t := ToLower(before + phrase + after);
    assert t == ToLower(before) + p + ToLower(after);
    assert t[|before|..|before| + |p|] == p;
    assert OccursAt(t, p, |before|);
    IncludesIff(t, p);
  }

  /** The patterns are written in lower case, so lower-casing leaves them as they are. */
  lemma PatternsAreLowerCase(k: nat)
    requires k < |CrisisPatterns|
    ensures ToLower(CrisisPatterns[k]) == CrisisPatterns[k]
  {
    ToLowerKeepsLowerCase(CrisisPatterns[k]);
  }

  /** Each pattern, typed as listed, is caught wherever it sits in the input. */
  lemma CrisisAsListed(before: string, after: string, k: nat)
    requires k < |CrisisPatterns|
    ensures CheckForCrisis(before + CrisisPatterns[k] + after)
  {
    PatternsAreLowerCase(k);
    CrisisInAnyCase(before, CrisisPatterns[k], after, k);
  }

  // ---------------------------------------------------------------- eligibility

  datatype InputMode = TextMode | ImageMode | VideoMode

  datatype ExplanationLevel = Short | Reasoning | Why

  /** The id the service receives for a level. */
  function LevelId(level: ExplanationLevel): (id: string)
    ensures id == ShortLevel <==> level == Short
    ensures id == ReasoningLevel <==> level == Reasoning
    ensures id == WhyLevel <==> level == Why
  {
    match level
    case Short => ShortLevel
    case Reasoning => ReasoningLevel
    case Why => WhyLevel
  }

  /**
   * `canProcess`: never while loading; otherwise text mode needs a character
   * that is not whitespace, and the media modes need their file.
   */
  function CanProcess(isLoading: bool, mode: InputMode, userInput: string,
                      image: Option<UploadedFile>, video: Option<UploadedFile>): (r: bool)
    ensures isLoading ==> !r
    ensures !isLoading && mode == TextMode ==>
      (r <==> exists i :: 0 <= i < |userInput| && !IsWhitespace(userInput[i]))
    ensures !isLoading && mode == ImageMode ==> (r <==> image.Some?)
    ensures !isLoading && mode == VideoMode ==> (r <==> video.Some?)
  {
    TrimNonEmptyIff(userInput);
    if isLoading then false
    else match mode
      case TextMode => |Trim(userInput)| > 0
      case ImageMode => image.Some?
      case VideoMode => video.Some?
  }

  /** What the service is asked to process in a mode that is ready. */
  function ServiceInputFor(mode: InputMode, image: Option<UploadedFile>, video: Option<UploadedFile>): ServiceInput
    requires mode == ImageMode ==> image.Some?
    requires mode == VideoMode ==> video.Some?
  {
    match mode
    case TextMode => TextInput
    case ImageMode => ImageInput(image.value)
    case VideoMode => VideoInput(video.value)
  }

  /** A service call that has been started and not yet answered. */
  datatype ServiceCall = ServiceCall(input: ServiceInput, userInput: string, style: string, level: string)

  const UnknownErrorMessage := "An unknown error occurred."
  const InvalidFileMessage := "Please upload a valid image or video file."

  /** `e.message || 'An unknown error occurred.'`: an empty message is replaced. */
  function ShownError(message: string): (shown: string)
    ensures shown != ""
    ensures message != "" ==> shown == message
    ensures message == "" ==> shown == UnknownErrorMessage
  {
    if message == "" then UnknownErrorMessage else message
  }

  // ---------------------------------------------------------------- the controller

  /** The root component: the input form, its options and the request state. */
  class App {
    var inputMode: InputMode
    var userInput: string
    var uploadedImage: Option<UploadedFile>
    var imagePreviewUrl: Option<string>
    var uploadedVideo: Option<UploadedFile>
    var videoPreviewUrl: Option<string>
    var selectedStyle: string
    var explanationLevel: ExplanationLevel
    var processedOutput: Option<ProcessedText>
    var isLoading: bool
    var error: Option<string>
    var isCrisisDetected: bool
    /** Whether the service was given an API key; fixed for the life of the component. */
    const apiKeyConfigured: bool

    /** Every record shown came back through the service's clean-up: no step is checked. */
    ghost predicate Valid() reads this {
      processedOutput.Some? ==> Unchecked(processedOutput.value)
    }

    /** The state the component starts in and `reset` returns to. */
    ghost predicate Initial() reads this {
      && inputMode == TextMode && userInput == ""
      && uploadedImage.None? && imagePreviewUrl.None?
      && uploadedVideo.None? && videoPreviewUrl.None?
      && selectedStyle == DefaultStyle && explanationLevel == Short
      && processedOutput.None? && !isLoading && error.None? && !isCrisisDetected
    }

    /** The form fields the user fills in, which processing never changes. */
    twostate predicate FormUnchanged() reads this {
      && inputMode == old(inputMode) && userInput == old(userInput)
      && uploadedImage == old(uploadedImage) && imagePreviewUrl == old(imagePreviewUrl)
      && uploadedVideo == old(uploadedVideo) && videoPreviewUrl == old(videoPreviewUrl)
      && selectedStyle == old(selectedStyle) && explanationLevel == old(explanationLevel)
    }

    predicate Ready() reads this {
      CanProcess(isLoading, inputMode, userInput, uploadedImage, uploadedVideo)
    }

    constructor (apiKeyConfigured: bool)
      ensures Valid() && Initial()
      ensures this.apiKeyConfigured == apiKeyConfigured
    {
      this.apiKeyConfigured := apiKeyConfigured;
      inputMode := TextMode;
      userInput := "";
      uploadedImage := None;
      imagePreviewUrl := None;
      uploadedVideo := None;
      videoPreviewUrl := None;
      selectedStyle := DefaultStyle;
      explanationLevel := Short;
      processedOutput := None;
      isLoading := false;
      error := None;
      isCrisisDetected := false;
    }

    /** The text box is bound to `userInput`. */
    method EditInput(text: string)
      modifies this`userInput
      ensures userInput == text
    {
      userInput := text;
    }

    /** The level buttons are bound to `explanationLevel`. */
    method SelectExplanationLevel(level: ExplanationLevel)
      modifies this`explanationLevel
      ensures explanationLevel == level
    {
      explanationLevel := level;
    }

    method SelectStyle(styleId: string)
      modifies this`selectedStyle
      ensures selectedStyle == styleId
    {
      selectedStyle := styleId;
    }

    /**
     * The synchronous part of `processInput`, up to the service call. Not
     * ready: nothing changes. A crisis in the input: the crisis notice is
     * shown, output, error and loading are cleared and nothing is sent.
     * Otherwise loading starts, error, output and the notice are cleared and
     * the call for the current form is returned.
     */
    method BeginProcessInput() returns (call: Option<ServiceCall>)
      requires Valid()
      modifies this
      ensures Valid() && FormUnchanged()
      ensures !old(Ready()) ==> call.None? && unchanged(this)
      ensures old(Ready()) && CheckForCrisis(old(userInput)) ==>
        && call.None?
        && isCrisisDetected && !isLoading && processedOutput.None? && error.None?
      ensures old(Ready()) && !CheckForCrisis(old(userInput)) ==>
        && call.Some?
        && call.value.input == ServiceInputFor(inputMode, uploadedImage, uploadedVideo)
        && call.value.userInput == userInput
        && call.value.style == selectedStyle
        && call.value.level == LevelId(explanationLevel)
        && isLoading && error.None? && processedOutput.None? && !isCrisisDetected
    {
      if !Ready() {
        return None;
      }
      if CheckForCrisis(userInput) {
        isCrisisDetected := true;
        isLoading := false;
        processedOutput := None;
        error := None;
        return None;
      }
      isLoading := true;
      error := None;
      processedOutput := None;
      isCrisisDetected := false;
      var input := ServiceInputFor(inputMode, uploadedImage, uploadedVideo);
      call := Some(ServiceCall(input, userInput, selectedStyle, LevelId(explanationLevel)));
    }

    /**
     * The rest of `processInput`, once the service answers `call`: a record is
     * shown, a failure shows its message (or the stand-in for an empty one),
     * and loading ends either way. Nothing checks that `call` is still the
     * latest one.
     */
    method FinishProcessInput(call: ServiceCall, read: FileRead, generate: Request -> CallOutcome)
      requires Valid()
      modifies this
      ensures Valid() && FormUnchanged()
      ensures !isLoading && isCrisisDetected == old(isCrisisDetected)
      ensures
        var result := Process(apiKeyConfigured, call.input, call.userInput, call.style, call.level, read, generate);
        && (result.Ok? ==> processedOutput == Some(result.value) && error == old(error))
        && (result.Err? ==> error == Some(ShownError(result.message)) && processedOutput == old(processedOutput))
    {
      var result := Process(apiKeyConfigured, call.input, call.userInput, call.style, call.level, read, generate);
      ShowResult(result);
    }

    /**
     * The `try`/`catch`/`finally` of `processInput` applied to the service's
     * answer: a record is shown, a failure shows its message (or the stand-in
     * for an empty one), and loading ends either way.
     */
    method ShowResult(result: Result<ProcessedText>)
      requires Valid()
      requires result.Ok? ==> Unchecked(result.value)
      modifies this
      ensures Valid() && FormUnchanged()
      ensures !isLoading && isCrisisDetected == old(isCrisisDetected)
      ensures result.Ok? ==> processedOutput == Some(result.value) && error == old(error)
      ensures result.Err? ==> error == Some(ShownError(result.message)) && processedOutput == old(processedOutput)
    {
      match result {
        case Ok(value) =>
          processedOutput := Some(value);
        case Err(message) =>
          error := Some(ShownError(message));
      }
      isLoading := false;
    }

    /**
     * `processInput` when no other action interleaves with the call. Not
     * ready: nothing changes. Crisis: only the notice, no call. Otherwise
     * exactly one of a cleaned-up record and an error message is shown,
     * loading is over and the notice is off.
     */
    method ProcessInput(read: FileRead, generate: Request -> CallOutcome) returns (call: Option<ServiceCall>)
      requires Valid()
      modifies this
      ensures Valid() && FormUnchanged()
      ensures !old(Ready()) ==> call.None? && unchanged(this)
      ensures old(Ready()) ==> !isLoading
      ensures old(Ready()) && CheckForCrisis(old(userInput)) ==>
        call.None? && isCrisisDetected && processedOutput.None? && error.None?
      ensures old(Ready()) && !CheckForCrisis(old(userInput)) ==>
        && call == Some(ServiceCall(ServiceInputFor(inputMode, uploadedImage, uploadedVideo),
                                    userInput, selectedStyle, LevelId(explanationLevel)))
        && !isCrisisDetected
        && var result := Process(apiKeyConfigured, call.value.input, userInput, selectedStyle,
                                 LevelId(explanationLevel), read, generate);
           && (result.Ok? ==> processedOutput == Some(result.value) && error.None?)
           && (result.Err? ==> processedOutput.None? && error == Some(ShownError(result.message)))
    {
      call := BeginProcessInput();
      if call.Some? {
        FinishProcessInput(call.value, read, generate);
      }
    }

    /** Everything goes back to its initial value. */
    method Reset()
      modifies this
      ensures Valid() && Initial()
    {
      userInput := "";
      processedOutput := None;
      error := None;
      isLoading := false;
      selectedStyle := DefaultStyle;
      explanationLevel := Short;
      isCrisisDetected := false;
      inputMode := TextMode;
      uploadedImage := None;
      imagePreviewUrl := None;
      uploadedVideo := None;
      videoPreviewUrl := None;
    }

    /** Ignored while loading; otherwise switches mode and clears error and output. */
    method SetInputMode(mode: InputMode)
      requires Valid()
      modifies this
      ensures Valid()
      ensures old(isLoading) ==> unchanged(this)
      ensures !old(isLoading) ==>
        && inputMode == mode && error.None? && processedOutput.None?
        && userInput == old(userInput) && uploadedImage == old(uploadedImage) && uploadedVideo == old(uploadedVideo)
        && imagePreviewUrl == old(imagePreviewUrl) && videoPreviewUrl == old(videoPreviewUrl)
        && selectedStyle == old(selectedStyle) && explanationLevel == old(explanationLevel)
        && isLoading == old(isLoading) && isCrisisDetected == old(isCrisisDetected)
    {
      if isLoading {
        return;
      }
      inputMode := mode;
      error := None;
      processedOutput := None;
    }

    /**
     * A chosen or dropped file. Error and output are cleared first. An
     * `image/` type is stored as the image and selects image mode, a `video/`
     * type likewise for video (the mode stays put while loading); any other
     * type is rejected with a message and changes nothing else.
     */
    method HandleFile(file: UploadedFile)
      requires Valid()
      modifies this
      ensures Valid() && processedOutput.None?
      ensures userInput == old(userInput) && selectedStyle == old(selectedStyle)
      ensures explanationLevel == old(explanationLevel) && isLoading == old(isLoading)
      ensures isCrisisDetected == old(isCrisisDetected)
      ensures imagePreviewUrl == old(imagePreviewUrl) && videoPreviewUrl == old(videoPreviewUrl)
      ensures "image/" <= file.mimeType ==>
        && uploadedImage == Some(file) && uploadedVideo == old(uploadedVideo) && error.None?
        && inputMode == (if old(isLoading) then old(inputMode) else ImageMode)
      ensures !("image/" <= file.mimeType) && "video/" <= file.mimeType ==>
        && uploadedVideo == Some(file) && uploadedImage == old(uploadedImage) && error.None?
        && inputMode == (if old(isLoading) then old(inputMode) else VideoMode)
      ensures !("image/" <= file.mimeType) && !("video/" <= file.mimeType) ==>
        && error == Some(InvalidFileMessage) && inputMode == old(inputMode)
        && uploadedImage == old(uploadedImage) && uploadedVideo == old(uploadedVideo)
    {
      error := None;
      processedOutput := None;
      if "image/" <= file.mimeType {
        SetInputMode(ImageMode);
        uploadedImage := Some(file);
      } else if "video/" <= file.mimeType {
        SetInputMode(VideoMode);
        uploadedVideo := Some(file);
      } else {
        error := Some(InvalidFileMessage);
      }
    }

    /** The image preview reader has produced its data URL. */
    method ImagePreviewLoaded(url: string)
      modifies this`imagePreviewUrl
      ensures imagePreviewUrl == Some(url)
    {
      imagePreviewUrl := Some(url);
    }

    /** The video preview reader has produced its data URL. */
    method VideoPreviewLoaded(url: string)
      modifies this`videoPreviewUrl
      ensures videoPreviewUrl == Some(url)
    {
      videoPreviewUrl := Some(url);
    }

    /** Drops the image and its preview, and the output made from it. */
    method RemoveImage()
      modifies this`uploadedImage, this`imagePreviewUrl, this`processedOutput
      ensures uploadedImage.None? && imagePreviewUrl.None? && processedOutput.None?
    {
      uploadedImage := None;
      imagePreviewUrl := None;
      processedOutput := None;
    }

    /** Drops the video and its preview, and the output made from it. */
    method RemoveVideo()
      modifies this`uploadedVideo, this`videoPreviewUrl, this`processedOutput
      ensures uploadedVideo.None? && videoPreviewUrl.None? && processedOutput.None?
    {
      uploadedVideo := None;
      videoPreviewUrl := None;
      processedOutput := None;
    }
  }
}
