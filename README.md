# NeuroCalm core, modelled in Dafny

NeuroCalm is a small Angular application. It sends a text, an image or a video
to a generative model and shows the structured result: a title, key points and
optional summary, requirements, steps, next step, uncertainty note and
explanation. The result can be copied as plain text or read aloud. This project
models the deterministic logic around the remote call:

- `processed_text.dfy` (`ProcessedTextModel`): the result record (`ProcessedText`,
  `Step`) and JavaScript truthiness of its optional fields.
- `gemini_service.dfy` (`GeminiService`):
  - the style and explanation lookup tables;
  - the prompt template;
  - the clean-up that unchecks every step;
  - `processText`/`processImage`/`processVideo`. The remote call is a function
    parameter `generate` and the file read a parameter `read`.
- `output_display.dfy` (`OutputDisplay`):
  - the clipboard and speech flattenings of a record, their section outline and
    the method that builds the clipboard text;
  - the rate cycle;
  - the narration state machine (class `Narrator`).
- `app_component.dfy` (`AppComponent`): the crisis filter, the `canProcess` rule
  and the form controller (class `App`).
- `js_text.dfy` (`JsText`): the JavaScript string operations the code relies on
  (`trim`, ASCII `toLowerCase`, `includes`, `join`).
- `wrappers.dfy` (`Wrappers`): `Option` and `Result`.

Behaviours of the code worth knowing, which the model keeps as they are:

- The crisis filter looks at the typed text in every input mode, not only in
  text mode.
- Changing the rate while narrating passes through `stopped`. It is back to
  `playing` only when the platform reports the start.
- The spoken next-step segment ends in "." rather than ". ".
- A response that arrives after a newer request has started is not discarded.

## Model

| member | source | states |
|---|---|---|
| JsText.IsWhitespace | src/app.component.ts:67 | The characters `trim` removes: the ECMAScript white-space and line-terminator set (tab, vertical tab, form feed, space, no-break space, the other space separators, line feed, carriage return, the line and paragraph separators and the byte-order mark). It is a definition; `Trim`, `TrimNonEmptyIff` and `CanProcess` state what it is used for. |
| JsText.Trim | src/app.component.ts:67 | `trim()`: the result is a contiguous slice of the input. Neither end of it is whitespace, and everything cut off on either side is whitespace. |
| JsText.TrimNonEmptyIff | src/app.component.ts:67 | The trimmed text is non-empty exactly when the input holds a character that is not whitespace. |
| JsText.LowerChar | src/app.component.ts:84 | An ASCII capital becomes its small letter (code point plus 32). Every other character is kept. |
| JsText.ToLower | src/app.component.ts:84 | Lower-casing keeps the length. It turns each ASCII capital into its small letter and keeps every other character, so no capital is left. |
| JsText.ToLowerKeepsLowerCase | src/app.component.ts:84 | A text without capitals is its own lower-cased form. |
| JsText.ToLowerAppend | src/app.component.ts:84 | Lower-casing distributes over concatenation. |
| JsText.Includes | src/app.component.ts:85 | `includes`, defined as a scan over start positions. Its contract states only the necessary length bound; `IncludesIff` carries its meaning. |
| JsText.IncludesIff | src/app.component.ts:85 | The `includes` scan succeeds exactly when the pattern occurs at some position of the text. |
| JsText.Join | src/components/output-display/output-display.component.ts:125-130 | `join`: the empty list gives the empty string and a one-element list gives that element. Otherwise the result starts with the first element and ends with the last. |
| JsText.JoinSnoc | src/components/output-display/output-display.component.ts:125-130 | Joining one more element appends the separator and that element. Together with the one-element case in `Join`'s contract this fixes every element and every separator of the result. |
| ProcessedTextModel.StepTexts | src/components/output-display/output-display.component.ts:130 | `steps.map(s => s.text)`: same length, with each entry the text of the step at the same index. |
| GeminiService.StyleInstruction | src/services/gemini.service.ts:227-239 | Each of the three named styles gets its own modifier, and only that style gets it. Every other id, including the default one, gets the key-points modifier. |
| GeminiService.ExplanationInstruction | src/services/gemini.service.ts:241-251 | "reasoning" and "why" each get their own instruction, and only they get it. Every other level, "short" included, gets the no-explanation instruction. |
| GeminiService.SystemPrompt | src/services/gemini.service.ts:86-124 | The template, as a definition with no contract of its own. `PromptLayout` states where each part sits. |
| GeminiService.PromptLayout | src/services/gemini.service.ts:86-124 | The prompt holds the base instruction, style modifier, explanation modifier and user text verbatim and in that order. The user text sits between two `---` fence lines. |
| GeminiService.UncheckSteps | src/services/gemini.service.ts:222 | The step list keeps its length, order and texts, and every step comes out unchecked. |
| GeminiService.PrepareOutput | src/services/gemini.service.ts:217-225 | The clean-up leaves no step checked and keeps step presence and step texts. It changes no field other than `steps`. |
| GeminiService.PrepareOutputIdempotent | src/services/gemini.service.ts:221-223 | Cleaning up twice is cleaning up once. |
| GeminiService.BaseInstruction | src/services/gemini.service.ts:126-215 | The base instruction each of `processText`, `processImage` and `processVideo` puts first in its prompt (lines 131, 157 and 190). It is a definition; `RequestFor` and `PromptLayout` place it verbatim in the prompt. |
| GeminiService.FailureMessage | src/services/gemini.service.ts:126-215 | The fixed message each modality throws from its `catch` (lines 147, 180 and 213). It is never empty, so the form shows it unchanged, and it differs from the not-initialized error. `Process` states when it is the result. |
| GeminiService.RequestFor | src/services/gemini.service.ts:129-132 | Text input gives a text-only request. An image or video gives a media request that carries the file's MIME type unchanged and the base64 data. In every case the prompt sent is `SystemPrompt` of the modality's base instruction, the looked-up style modifier, the looked-up explanation modifier and the user text; with `PromptLayout`, each of them sits verbatim in its slot of the request. |
| GeminiService.Generate | src/services/gemini.service.ts:134-148 | The guarded step succeeds exactly when the service returns a decodable record, which comes back cleaned up with no step checked. Every failure becomes the one message given. |
| GeminiService.Process | src/services/gemini.service.ts:126-215 | Without a client the result is the not-initialized error. A failed file read is not remapped: it surfaces as the reader's error event, which has no message. Otherwise the result is a record exactly when the service returns a decodable one; that record comes back cleaned up. Any other outcome is the modality's fixed message. |
| OutputDisplay.Filter | src/components/output-display/output-display.component.ts:45-75 | The kept sections are exactly those of the list that the guard accepts. |
| OutputDisplay.FilterSorted | src/components/output-display/output-display.component.ts:45-75 | Filtering keeps the fixed section order. |
| OutputDisplay.Emitted | src/components/output-display/output-display.component.ts:45-75 | The JavaScript truthiness guards: title and KEY POINTS always, an optional string only when present and non-empty, an optional list only when present and non-empty. The spoken form applies the same guards (lines 117-132). It is a definition; `Outline` states which sections it admits and in what order. |
| OutputDisplay.Outline | src/components/output-display/output-display.component.ts:45-75 | The sections flattened are exactly those whose field is present and non-empty, in the fixed order NOTE, title, summary, EXPLANATION, KEY POINTS, REQUIREMENTS, STEP-BY-STEP, OPTIONAL NEXT STEP. The title and KEY POINTS are always included. |
| OutputDisplay.ConcatFilter | src/components/output-display/output-display.component.ts:45-75 | Concatenating only the accepted sections equals concatenating every section guarded by its condition. |
| OutputDisplay.ConcatEight | src/components/output-display/output-display.component.ts:45-75 | The concatenation over the eight-section list is the eight texts in a row. |
| OutputDisplay.Lines | src/components/output-display/output-display.component.ts:56-70 | The `forEach` lines: nothing exactly for an empty list, otherwise text ending in a newline. `AppendLines` is proved against it. |
| OutputDisplay.CopyBlock | src/components/output-display/output-display.component.ts:46-75 | One section's clipboard text, as a definition. `BlockEnding`, `FlatteningFollowsOutline` and `CopyToClipboard` carry its properties. |
| OutputDisplay.SpeechBlock | src/components/output-display/output-display.component.ts:116-134 | One section's spoken text, as a definition. `BlockEnding` and `FlatteningFollowsOutline` carry its properties. |
| OutputDisplay.Document | src/components/output-display/output-display.component.ts:45-134 | The guarded appends in source order, as a definition. `FlatteningFollowsOutline` states its meaning. |
| OutputDisplay.ClipboardText | src/components/output-display/output-display.component.ts:77 | The trimmed clipboard flattening, as a definition. `CopyToClipboard` is proved to produce it. |
| OutputDisplay.SpeechText | src/components/output-display/output-display.component.ts:116-136 | The spoken flattening, as a definition. `Speak` is proved to request it. |
| OutputDisplay.BlockEnding | src/components/output-display/output-display.component.ts:46-134 | On the clipboard each section ends in a blank line and the last in a newline. Spoken, each ends in ". " and the next step in ".". |
| OutputDisplay.FlatteningFollowsOutline | src/components/output-display/output-display.component.ts:45-134 | Both flattenings are the outline's blocks, in the outline's order, and nothing else. |
| OutputDisplay.FlatteningIgnoresCompletion | src/components/output-display/output-display.component.ts:66-131 | Records that differ only in their steps' `completed` flags flatten identically, both for the clipboard and for speech. |
| OutputDisplay.PartIgnoresCompletion | src/components/output-display/output-display.component.ts:66-131 | The same, one section at a time. |
| OutputDisplay.CleanUpIsInvisible | src/services/gemini.service.ts:221-223 | The service's clean-up never changes how a record is flattened. |
| OutputDisplay.IndexOf | src/components/output-display/output-display.component.ts:100 | `indexOf` gives the first index holding the value, or -1 exactly when the value is absent. |
| OutputDisplay.NextRate | src/components/output-display/output-display.component.ts:98-102 | The next rate is always a listed one. The cycle is 0.7 → 0.9 → 1.1 → 1.3 → 0.7, and an unlisted rate moves to 0.7. |
| OutputDisplay.RateCycle | src/components/output-display/output-display.component.ts:98-102 | Four presses bring a listed rate back to itself, and no fewer do. |
| OutputDisplay.StateAfter | src/components/output-display/output-display.component.ts:140-144 | The state each callback sets, as a definition: start and resume give playing, pause gives paused, end and error give stopped. `HandleEvent` uses it. |
| OutputDisplay.Narrator.constructor | src/components/output-display/output-display.component.ts:13-20 | The component starts stopped at rate 0.9 with no utterance. |
| OutputDisplay.Narrator.CancelAudio | src/components/output-display/output-display.component.ts:149-161 | The current utterance's callbacks are detached and the state becomes stopped. Nothing else changes. |
| OutputDisplay.Narrator.DataChanged | src/components/output-display/output-display.component.ts:22-27 | A new record replaces the data and cancels narration. The old utterance, if any, is kept but detached. The rate, the request log and the id counter are kept. |
| OutputDisplay.Narrator.Destroy | src/components/output-display/output-display.component.ts:30-32 | Tear-down cancels narration: the utterance is detached and nothing else changes. |
| OutputDisplay.Narrator.Speak | src/components/output-display/output-display.component.ts:110-147 | With no record or no speech support, nothing changes. Otherwise narration is cancelled, a new attached utterance of the record's speech text at the current rate is made and requested, and the state stays stopped. |
| OutputDisplay.Narrator.ToggleAudio | src/components/output-display/output-display.component.ts:87-96 | Playing requests a pause and paused requests a resume, with the state unchanged until a callback. Stopped speaks, using the next utterance id. |
| OutputDisplay.Narrator.ChangePlaybackRate | src/components/output-display/output-display.component.ts:98-108 | The rate advances. While stopped nothing else changes. While playing or paused the record is spoken again at the new rate with the next utterance id, passing through stopped. |
| OutputDisplay.Narrator.HandleEvent | src/components/output-display/output-display.component.ts:140-156 | A callback of the current, attached utterance sets start → playing, pause → paused, resume → playing, end and error → stopped. Any other callback is ignored. |
| OutputDisplay.Narrator.CopyToClipboard | src/components/output-display/output-display.component.ts:41-77 | Without a record nothing is copied. Otherwise the text handed over is the trimmed clipboard flattening. |
| OutputDisplay.AppendSection | src/components/output-display/output-display.component.ts:46-75 | One guarded block appends that section's clipboard text when the section is emitted, and nothing otherwise. |
| OutputDisplay.AppendLines | src/components/output-display/output-display.component.ts:56-70 | The `forEach` loop appends one marker-prefixed line per item, in order. |
| AppComponent.CheckForCrisis | src/app.component.ts:83-86 | The filter holds exactly when the lower-cased text includes one of the eight patterns. |
| AppComponent.AnyIncluded | src/app.component.ts:85 | `some(includes)` holds exactly when some pattern is included. |
| AppComponent.CrisisIff | src/app.component.ts:77-86 | The crisis filter holds exactly when one of the eight patterns occurs in the lower-cased text. |
| AppComponent.CrisisInAnyCase | src/app.component.ts:77-86 | A phrase that lower-cases to a pattern is caught anywhere in the input and in any letter case. |
| AppComponent.PatternsAreLowerCase | src/app.component.ts:77-81 | Every pattern is written in lower case, so lower-casing leaves it unchanged. |
| AppComponent.CrisisAsListed | src/app.component.ts:77-86 | Each pattern typed as listed is caught wherever it sits in the input. |
| AppComponent.LevelId | src/app.component.ts:15-18 | Each level maps to its own id: "short", "reasoning" or "why". |
| AppComponent.CanProcess | src/app.component.ts:63-75 | Never while loading. Otherwise text mode needs a non-whitespace character, image mode an image and video mode a video. |
| AppComponent.ShownError | src/app.component.ts:121 | An error message is shown unchanged, and an empty one is replaced by "An unknown error occurred.". |
| AppComponent.App.constructor | src/app.component.ts:30-48 | The initial state: text mode, empty input, no files, previews, output or error, the default style, "short", not loading, no crisis notice. |
| AppComponent.App.EditInput | src/app.component.ts:31 | The text box sets the input. |
| AppComponent.App.SelectExplanationLevel | src/app.component.ts:42 | The level buttons set the level. |
| AppComponent.App.SelectStyle | src/app.component.ts:142-144 | Sets the style. |
| AppComponent.ServiceInputFor | src/app.component.ts:110-118 | The mode dispatch of `processInput`: text mode calls `processText`, image mode `processImage` with the uploaded image, video mode `processVideo` with the uploaded video. The "Invalid input state." branch is excluded by its precondition, which `canProcess` guarantees before any call. It is a definition; `BeginProcessInput` and `ProcessInput` state that the call made is the one it picks. |
| AppComponent.App.BeginProcessInput | src/app.component.ts:88-113 | If the form is not ready, nothing changes. On a crisis, the notice is set, output, error and loading are cleared and no call is made. Otherwise loading starts, error, output and the notice are cleared, and the call for the current mode, text, style and level is made. The form fields never change. |
| AppComponent.App.FinishProcessInput | src/app.component.ts:104-124 | A record from the service is shown. A failure shows its message; an empty one, like that of a failed file read, shows "An unknown error occurred.". Loading always ends. |
| AppComponent.App.ShowResult | src/app.component.ts:119-124 | The `try`/`catch`/`finally` applied to an answer: a record is shown and the error kept, a failure shows its message (an empty one replaced by "An unknown error occurred.") and the output kept, and loading ends either way. The form fields and the crisis notice are not touched, and a shown record stays cleaned up. |
| AppComponent.App.ProcessInput | src/app.component.ts:88-125 | Begin then finish with nothing in between. A record means no error; an error means no record; loading is over and the notice is off. A crisis means no call. |
| AppComponent.App.Reset | src/app.component.ts:127-140 | Every field returns to its initial value. |
| AppComponent.App.SetInputMode | src/app.component.ts:146-151 | Ignored while loading. Otherwise the mode is set and error and output are cleared, with nothing else touched. |
| AppComponent.App.HandleFile | src/app.component.ts:160-179 | Error and output are cleared. An `image/` type stores the image and selects image mode, unless loading. A `video/` type does the same for video. Anything else sets the rejection message and leaves mode and files as they were. |
| AppComponent.App.ImagePreviewLoaded | src/app.component.ts:168 | The preview reader's result becomes the image preview. |
| AppComponent.App.VideoPreviewLoaded | src/app.component.ts:174 | The preview reader's result becomes the video preview. |
| AppComponent.App.RemoveImage | src/app.component.ts:181-185 | Image, image preview and output are cleared. |
| AppComponent.App.RemoveVideo | src/app.component.ts:187-191 | Video, video preview and output are cleared. |

## Left out

- The `GoogleGenAI` client and `generateContent`: the network call is the parameter `generate`, which returns either a decoded record or a failure.
- `JSON.parse` of the response: `generate` returns an already decoded `Option<ProcessedText>`. Like the code, nothing checks the required fields at parse time. A decoded value without `title` or `keyPoints` cannot be expressed in the record type.
- `fileToBase64` and the preview `FileReader`s: the read outcome is the parameter `read`. A failed read is `ReadFailed`, with no message, like the reader's error event. Preview results arrive through `ImagePreviewLoaded`/`VideoPreviewLoaded`.
- `navigator.clipboard.writeText` and the two-second label revert: only the string handed to the clipboard is modelled.
- `window.speechSynthesis`: pause, resume and speak are logged as requests, and the callbacks are the events of `HandleEvent`. The platform `cancel()` call and its `speaking`/`pending` test are not modelled. The utterance's pitch is not modelled.
- `toggleStep`, `onFileSelected`, and the drag-and-drop handlers with `isDragging`: DOM-only UI.
- Angular signals, `computed`, `effect` and `inject` become plain fields, a function and the explicit `DataChanged` method.
- The "Invalid input state." branch of `processInput`: it cannot be reached once `canProcess` holds, so `ServiceInputFor` requires the mode's file.
- Interleavings: `ProcessInput` runs begin and finish back to back. `FinishProcessInput` can be called for an older call, and, like the code, it does not discard stale answers.
- JsText.ToLower: lowercases ASCII letters only, not the full Unicode mapping.
- OutputDisplay.NextRate: rates are exact reals rather than IEEE doubles. The listed values are compared exactly, as `indexOf` does.
