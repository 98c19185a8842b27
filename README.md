# Virtual try-on front end: a Dafny model

The application lets a user upload a photo of a person (the *model image*) and
a photo of a garment, sends both with an instruction to Google's Gemini image
model, and shows the returned composite. The user can then refine it with a
text instruction, adjust cosmetic filters, and download it. This project
models the three places where that front end makes decisions:

- **The generation adapter** (`services/geminiService.ts`). `parseDataUrl`
  splits a `data:` URL with the pattern `^data:(.+);base64,(.+)$`. The
  adapter then checks the API key, parses both images, and builds the
  three-part request. From the response parts it returns the first inline
  image, re-encoded as a data URL, or throws an error. Modules `DataUrl` and
  `GeminiService`.
- **The application state** (`App.tsx`). There are five slots: model image,
  garment image, result image, loading flag and error. The upload, remove,
  try-on and edit handlers update them. Class `App.App`. Each asynchronous
  handler is split at its `await`. A `Begin` method runs the synchronous part
  and returns the call it hands to the service, or `None` when a guard stops
  it. `FinishGeneration` runs the continuation. A `Handle` method runs both,
  with the service given as a function.
- **The result viewer** (`components/ResultDisplay.tsx`). It holds the
  loading-stage counter, the three filters, the edit text, the filter string,
  the edit-submit guard and the download request. Class
  `ResultDisplay.ResultDisplay`; the filter record is a value (`Filters`),
  updated by a pure function as the source does with object spread.

Module `JsText` gives the JavaScript string semantics the code relies on:
- the truthiness of a `string | null` (`null` and `""` are both falsy);
- `String.prototype.trim` with ECMAScript's whitespace and line-terminator set;
- the decimal rendering of a number in a template literal.

Module `Scenarios` states and proves end-to-end scenarios of the application
against the adapter: two uploads, a try-on, and a fixed service answer.

The model follows the code on four points where one might expect otherwise:

- A text-only response does not fail with the text itself. The code throws
  `AI model returned a text response instead of an image: "<text>"`, and the
  application prefixes that again (`GeminiService.TextPartBecomesError`,
  `Scenarios.TextAnswer`).
- The filter values are not kept within 50–150 / 0–200 by the code. Only the
  slider attributes bound them, and the change handler stores any number
  (`ResultDisplay.SlidersKeepRange`, `ResultDisplay.DefaultsWithinNoClamp`).
- The try-on button tests the images against `null`, but the handler tests
  truthiness. An image slot holding `""` therefore enables the button, and the
  handler then rejects the click (`App.App.CanTryOn`, `App.EmptyImageEnablesRejectedButton`).
- Removing an image does not clear the result. One might expect it to, as
  uploading a new image does, but the remove callbacks only null their slot
  (`App.App.RemoveImage`, `App.App.HandleImageUpload`).

## Model

| member | source | states |
|---|---|---|
| `JsText.TrimStart` | App.tsx:62 | the result is a suffix of the input; everything removed is trimmable; what is left starts with a kept character |
| `JsText.TrimEnd` | App.tsx:62 | the result is a prefix of the input; everything removed is trimmable; what is left ends with a kept character |
| `JsText.Trim` | App.tsx:62 | the result is the slice of the input that starts where `TrimStart` cuts, with a blank prefix before it and a blank suffix after it; a non-empty result starts and ends with a character `trim` keeps |
| `JsText.TrimEmptyIffBlank` | components/ResultDisplay.tsx:118 | `!s.trim()` holds exactly when every character of `s` is JavaScript whitespace or a line terminator |
| `JsText.NatToString` | components/ResultDisplay.tsx:85 | a number renders as a non-empty digit string that starts with `0` only when it is `0`, and whose decimal value is the number |
| `JsText.ReadNatRoundTrip` | components/ResultDisplay.tsx:85 | reading the digits of a rendered number back gives the number and leaves the following text untouched |
| `DataUrl.LastSplitBelow` | services/geminiService.ts:5 | the backtracking of the greedy first group: the greatest position below the bound where the `;base64,` marker can split the string, or none |
| `DataUrl.ParseDataUrl` | services/geminiService.ts:4-10 | succeeds exactly on `data:` + non-empty media type + `;base64,` + non-empty data with no line terminators; otherwise fails with "Invalid data URL format provided."; on success the media type ends at the last usable marker, and re-encoding gives back the input |
| `DataUrl.EncodeDataUrl` | services/geminiService.ts:55 | the template starts with `data:` and puts the marker right after the media type; with a non-empty media type and data and no line terminators the result is a string the pattern matches |
| `DataUrl.RoundTrip` | services/geminiService.ts:4-10 | a non-empty media type and non-empty data without line terminators, and without `;` in the data, encode to a data URL that parses back to the same pair |
| `DataUrl.GreedyMediaType` | services/geminiService.ts:5 | with two markers, the media type swallows the first: `data:a;base64,b;base64,c` parses to (`a;base64,b`, `c`) |
| `DataUrl.RoundTripNeedsMarkerFreeData` | services/geminiService.ts:5 | data containing the marker is not recovered by the round trip |
| `GeminiService.FirstImageIndex` | services/geminiService.ts:51-57 | the index of the first part with inline data, and no earlier part has any; none when no part has any |
| `GeminiService.FirstTextIndex` | services/geminiService.ts:59-63 | the index of the first part with non-empty text, and no earlier part has any; none when no part has any |
| `GeminiService.ExtractImage` | services/geminiService.ts:51-65 | the decision rule over the parts succeeds exactly when some part carries inline data, and whatever it throws is an `Error` |
| `GeminiService.ScanResponse` | services/geminiService.ts:51-65 | the two for-of scans with early return and throw compute the decision rule over the parts |
| `GeminiService.FirstImageWins` | services/geminiService.ts:51-57 | the result is the data URL of the first inline-image part, whatever text parts come before or after it |
| `GeminiService.SurroundingPartsIgnored` | services/geminiService.ts:51-57 | image-less parts in front of, and any parts after, a response that holds an image do not change the result |
| `GeminiService.TextPartBecomesError` | services/geminiService.ts:59-63 | with no image part, the first non-empty text part is thrown wrapped in the fixed sentence and quotes, so the message never equals the text; empty texts are skipped |
| `GeminiService.NothingUsable` | services/geminiService.ts:65 | with neither an image nor a non-empty text part, the fixed "No image data was found…" error is thrown |
| `GeminiService.RequestFor` | services/geminiService.ts:17-49 | a missing or empty key throws the configuration error before any parse; then an unparsable image throws the data-URL error; otherwise the request holds the parsed model image, the parsed garment image and the prompt, in that order, each image part re-encoding to its source string |
| `GeminiService.TryOnOutcome` | services/geminiService.ts:12-66 | a guard failure is the outcome before the service is asked; once the request is built, a value the service throws passes through unchanged and an answer is decided by `ExtractImage` over its parts; a success means the key and both images passed and the service responded |
| `GeminiService.MissingKeyFailsFirst` | services/geminiService.ts:17-19 | without a key the outcome is the configuration error, whatever the images and the service |
| `GeminiService.PerformVirtualTryOn` | services/geminiService.ts:12-66 | a request is sent exactly when key and both images pass, and it is the request described above; the outcome is the service's thrown value or the decision rule over its parts |
| `App.EditPrompt` | App.tsx:71 | the edit prompt opens with the try-on instruction sentence and carries the edit text verbatim between double quotes |
| `App.App.constructor` | App.tsx:12-16 | all slots start null and loading false |
| `App.App.CanTryOn` | App.tsx:83 | the button is enabled only when both images are non-null and nothing is loading; it agrees with the handlers' truthiness guard except when an image slot holds the empty string |
| `App.App.HandleImageUpload` | App.tsx:18-32 | a successful upload sets only its slot and clears error and result; a failed one sets the fixed error and leaves the images and the result; loading is never touched |
| `App.App.RemoveImage` | App.tsx:99-106 | removing nulls only that slot; result, error and loading are unchanged |
| `App.App.BeginTryOn` | App.tsx:34-43 | with either image missing or empty: the fixed error, loading and result unchanged, no call; otherwise loading on, error and result cleared, and the call carries both images and the fixed prompt |
| `App.App.FinishGeneration` | App.tsx:44-54 | success stores the result; failure sets prefix + the error's message, or the unknown-error text for a non-`Error`; loading ends either way |
| `App.App.HandleTryOn` | App.tsx:34-55 | the whole try-on: guard path as above; otherwise loading ends false, success gives the result with no error, failure gives no result and the prefixed error |
| `App.App.BeginImageEdit` | App.tsx:57-69 | the image guard comes first, then the blank-text guard, each with its own error and no call; otherwise loading on and error cleared, but the previous result kept; the call carries the edit prompt |
| `App.App.HandleImageEdit` | App.tsx:57-81 | the whole edit: a failed edit keeps the previous result and reports "Failed to edit image. " + message |
| `App.EmptyImageEnablesRejectedButton` | App.tsx:35 | with both slots non-null, either of them holding `""`, and nothing loading, the button is enabled and the handler's guard rejects the click |
| `ResultDisplay.NextStage` | components/ResultDisplay.tsx:61 | a tick keeps the stage within the four labels and wraps to 0 exactly after the last |
| `ResultDisplay.StageAfterCycles` | components/ResultDisplay.tsx:57-65 | after n ticks since loading began the stage is n mod 4 |
| `ResultDisplay.WithFilter` | components/ResultDisplay.tsx:80-82 | a filter change sets the named field and leaves the other two unchanged |
| `ResultDisplay.SlidersKeepRange` | components/ResultDisplay.tsx:230-253 | any sequence of slider changes keeps every filter within its slider's range, given that each value comes from its slider |
| `ResultDisplay.DefaultsWithinNoClamp` | components/ResultDisplay.tsx:80-82 | the defaults are within range, and an out-of-range value is stored as given, since nothing clamps |
| `ResultDisplay.FilterStyle` | components/ResultDisplay.tsx:84-86 | the string `brightness(B%) contrast(C%) saturate(S%)` reads back into exactly the three current values, in that order |
| `ResultDisplay.FilterStyleInjective` | components/ResultDisplay.tsx:84-86 | different filter settings never give the same filter string |
| `ResultDisplay.ResultDisplay.constructor` | components/ResultDisplay.tsx:49-55 | mount: stage 0, empty edit text, all filters 100 |
| `ResultDisplay.ResultDisplay.ReceiveProps` | components/ResultDisplay.tsx:57-78 | loading turning on resets the stage to 0; a changed result image resets all filters to 100; otherwise both are kept |
| `ResultDisplay.ResultDisplay.Tick` | components/ResultDisplay.tsx:60-62 | the interval tick maps the stage s to (s+1) mod 4 and keeps it in [0, 4) |
| `ResultDisplay.ResultDisplay.StageLabel` | components/ResultDisplay.tsx:151 | the label lookup is in bounds and yields one of the four stage labels |
| `ResultDisplay.ResultDisplay.ResetFilters` | components/ResultDisplay.tsx:67-73 | brightness, contrast and saturate all become 100; the stage stays in range |
| `ResultDisplay.ResultDisplay.FilterChange` | components/ResultDisplay.tsx:80-82 | the filters become the old ones with the named field replaced; the stage stays in range |
| `ResultDisplay.ResultDisplay.SetEditText` | components/ResultDisplay.tsx:187 | the edit text becomes what was typed; the stage stays in range |
| `ResultDisplay.ResultDisplay.ApplyDisabled` | components/ResultDisplay.tsx:196 | the Apply button is disabled exactly when the edit text is blank |
| `ResultDisplay.ResultDisplay.EditSubmit` | components/ResultDisplay.tsx:116-120 | `onImageEdit` is called, with the untrimmed text, exactly when the Apply button is enabled, i.e. when the text is not all whitespace |
| `ResultDisplay.ResultDisplay.DownloadRequest` | components/ResultDisplay.tsx:88-114 | nothing happens without a truthy result image; otherwise the image is exported as `virtual-try-on.png` in `image/png`, drawn with the current filter string, which reads back into the current filter values |
| `Scenarios.ImageAnswer` | App.tsx:34-55 | upload, upload, try-on, and a service answering one `image/png` part `AAAA`: the result is `data:image/png;base64,AAAA` and there is no error |
| `Scenarios.TextAnswer` | App.tsx:34-55 | the same with a text-only answer: no result, and the error is the try-on prefix followed by the adapter's wrapped text message |
| `Scenarios.MissingKey` | App.tsx:34-55 | the same without a key: no result, loading over, and the error is the try-on prefix followed by the configuration message |

## Left out

- The `GoogleGenAI` client and its `generateContent` call are a foreign library and a network round trip. They are the parameter `generate: Request -> Reply`. The reply is either the content parts or a thrown value.
- `GeminiService.PerformVirtualTryOn`: reading `response.candidates[0].content.parts` is not modelled. A response with no candidates makes the source throw a `TypeError`; the model folds that into the service reply `Threw(...)`.
- `process.env.API_KEY` is the parameter `apiKey: Option<string>`.
- `fileToBase64` (utils/fileUtils) is not part of this model. It does file I/O. An upload is given as its outcome: a data URL, or a failure.
- The canvas rendering, `Image` loading, `toDataURL` and the link click of the download are browser I/O. `DownloadRequest` states only what would be exported.
- The progress-bar width is floating-point CSS arithmetic. The `setInterval` timing is left out, and only the tick transition is kept.
- `ResultDisplay.ResultDisplay.Tick` requires the loading flag. The interval that calls it exists only while loading, because the effect's cleanup clears it.
- `ResultDisplay.ResultDisplay.FilterChange` takes the value as a natural number. `Number(value)` of a range input's string is always a non-negative integer, so NaN and fractions are not modelled.
- `JsText.NatToString`: JavaScript's exponent notation for numbers of 10^21 and above is not modelled. Slider values are at most 200.
- Overlapping in-flight requests and their last-write-wins races are concurrency. The split into `Begin…` and `FinishGeneration` allows such interleavings, but no property about them is stated.
- JSX rendering and styling are left out, and so are `ImageUploader` (drag-and-drop and file-input plumbing), `Header` and `Footer` (static markup; the footer reads the clock), and `console.error` logging.
- Strings are sequences of Unicode scalar values, not UTF-16 code units. This makes no difference to the patterns and the trimming modelled here.
