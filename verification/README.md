# PassportUK-Pro photo pipeline, modelled in Dafny

This project models the core of PassportUK-Pro, a single-page app that turns a portrait into a UK passport photo. The user uploads a file and crops it to 35:45. The crop is sent to a generative-image backend with a fixed compliance prompt and an optional refinement. The result can be adjusted with four sliders and downloaded once its compliance score reaches 90.

Modules, one per source file:

- `Types` (types.ts) holds the `ProcessingStatus` stages. `Uploading` is the stage reached after a crop is confirmed.
- `App` (App.tsx) holds the page component's state.
  - `PipelineState` and the pure transition function `Step` specify every handler.
  - The asynchronous continuations are events of their own: the file reader's `onload` is `FileLoaded`, and `handleProcess` is `ProcessStarted` followed by `ProcessSucceeded` or `ProcessFailed`.
  - The class `PassportApp` keeps the same fields and updates them in place. Each of its state-changing methods is proved to have exactly the effect `Step` gives, and to keep the four adjustments in [50, 150]. `HandleDownload` changes nothing and is proved to return the file `ExportOf` describes.
  - `RequestOf` is what `handleProcess` sends. `ExportOf` is what `handleDownload` produces.
- `AppProperties` holds lemmas about `Step` and `Run` (a sequence of events).
- `GeminiService` (geminiService.ts) covers the backend adapter: prompt assembly, the `split(',')[1]` payload extraction, the scan for the first inline-image part, and the try/catch that collapses every failure into one message. The backend is a parameter mapping the request to its reply.
- `ImageCropper` (components/ImageCropper.tsx) covers the crop. `handleDone` is a fresh canvas of the selected area's size, filled pixel by pixel as `drawImage` of the HTML Living Standard (section 4.12.5.1.14) fills it. It also covers the three paths that never call back, and cancel.
- `JsStrings` holds the JavaScript behaviour the others rely on: truthiness of a `string | null`, `split` on one character, and `${n}` for an integer.

Behaviour of the code worth knowing:

- **Result shape.** `processPassportPhoto` returns a plain data-URL string (geminiService.ts:35, 77). `handleProcess` nevertheless reads `image`, `description`, `score` and `metrics` from that result (App.tsx:60-64). The code never parses a score, metrics or a report out of the reply text. The model gives the adapter the string result it returns, and gives `App` the record it reads (`BackendResult`).
- **Text-only replies.** A reply whose parts carry only text throws "AI Synthesis failed. …" inside the try block (geminiService.ts:73-75). The catch replaces it, like every other error, with the single "Transformation failed. …" message (geminiService.ts:78-81). The reply's text never reaches the caller.
- **Score gate.** `handleDownload` does not check `complianceScore` (App.tsx:80-99); it reads it only to name the file (App.tsx:94). Only the download button is disabled below 90 (App.tsx:290). See `DownloadHandlerIgnoresScore`.
- **Stale processed image.** `onCropDone` sets only the original image and the stage (App.tsx:52). An earlier processed image therefore stays, and `processedImage || originalImage` (App.tsx:60) sends it as the base of the next request, not the new crop. See `NewCropKeepsProcessedImage`.
- **Late replies.** The code after the awaited call (App.tsx:61-65) does not look at the stage. A reply that arrives after `reset` still sets the result and the `Completed` stage. See `ReplyAfterResetStillCompletes`.
- **Crop area outside the image.** `handleDone` draws whatever area the widget reported (components/ImageCropper.tsx:30-39). Pixels outside the image stay transparent black, because `drawImage` clips. For an in-bounds area every pixel is copied exactly.

## Model

| member | source | states |
|---|---|---|
| `App.PresetValues` | App.tsx:72-77 | exactly the names neutral, studio and highkey have values; every preset lies in the slider domain [50,150] |
| `App.RequestOf` | App.tsx:54-60 | no request without a truthy original image; the base is the processed image if truthy, else the original; the prompt is the specific repair if non-empty, else the custom prompt |
| `App.ExportOf` | App.tsx:80-99 | a file is produced exactly when a processed image exists, the image loads and a 2D context exists; a white background is painted exactly for JPEG |
| `App.Initial` | App.tsx:13-31 | the first-render adjustments are the neutral preset and in the slider domain; download is not enabled and there is nothing to download |
| `App.Step` | App.tsx:38-105 | the effect of every handler and continuation on the whole state; only a success or reset changes the processed image or score, only a crop or reset the original image, only a preset, a slider or reset the adjustments, only the format buttons the format and only the overlay switch the guidelines; choosing a file and the toolkit, prompt, format and overlay controls never change the stage |
| `App.Badge` | App.tsx:162-163 | the badge is PASSED or REJECTED, and PASSED exactly when `DownloadEnabled` holds |
| `App.FileName` | App.tsx:94 | the name starts with `UK-Passport-Pass-`, the score's numeral follows with a minus sign exactly for a negative score, and it ends in `.png` or `.jpg` according to the format |
| `App.ResetRestoresDefaults` | App.tsx:101-105 | reset yields the initial state except that export format and guideline switch are kept |
| `App.PassportApp.constructor` | App.tsx:13-31 | the initial state: idle, no images, empty texts, score 0, no metrics, JPEG, guidelines on, all adjustments 100 |
| `App.PassportApp.HandleFileChange` | App.tsx:38-50 | a read starts exactly for a file whose type starts with `image/`; a non-image file only sets "Invalid image."; no file changes nothing |
| `App.PassportApp.OnFileLoaded` | App.tsx:43-47 | the loaded image becomes the temporary image, the stage becomes cropping and the error is cleared |
| `App.PassportApp.OnCropDone` | App.tsx:52 | the crop becomes the original image and the stage becomes uploading; nothing else changes |
| `App.PassportApp.OnCropCancel` | App.tsx:125 | the temporary image is dropped and the stage returns to idle |
| `App.PassportApp.StartProcess` | App.tsx:54-60 | returns the request `RequestOf` describes; with an original image enters processing and clears the error, otherwise changes nothing |
| `App.PassportApp.FinishSuccess` | App.tsx:61-65 | image, description, score and metrics are replaced by the result's and the stage becomes completed |
| `App.PassportApp.FinishFailure` | App.tsx:66-69 | the error becomes the message, or "Transformation failed." when it is empty; the stage becomes failed; the prior result stays |
| `App.PassportApp.ApplyPreset` | App.tsx:72-78 | a known preset overwrites all four adjustments; an unknown name changes nothing; the domain invariant is kept |
| `App.PassportApp.SetSlider` | App.tsx:254-265 | a slider sets only its own adjustment, to a value the range input allows, keeping the domain invariant |
| `App.PassportApp.SetCustomPrompt` | App.tsx:142 | the directive text is replaced and nothing else changes |
| `App.PassportApp.SetExportFormat` | App.tsx:286-288 | the export format is replaced and nothing else changes |
| `App.PassportApp.ToggleGuidelines` | App.tsx:277 | the guideline overlay switch flips and nothing else changes |
| `App.PassportApp.HandleDownload` | App.tsx:80-99 | changes no state and returns the file `ExportOf` describes for the current state |
| `App.PassportApp.Reset` | App.tsx:101-105 | the state becomes the reset state and the domain invariant is kept |
| `AppProperties.StepKeepsDomain` | App.tsx:72-77 | no event takes an adjustment out of [50,150] |
| `AppProperties.RunKeepsDomain` | App.tsx:265 | every sequence of events from an in-domain state keeps all four adjustments in [50,150] |
| `AppProperties.PresetOverwritesAll` | App.tsx:72-77 | a known preset sets the same four values whatever the prior ones and touches nothing else; an unknown one is a no-op |
| `AppProperties.NeutralPresetIsReset` | App.tsx:74 | the neutral preset restores the adjustments reset restores |
| `AppProperties.NonImageFileOnlySetsError` | App.tsx:41 | a non-image file starts no read and changes only the error, to "Invalid image." |
| `AppProperties.ImageFileThenLoadEntersCropping` | App.tsx:42-47 | choosing an image file changes nothing until the load, which sets the temporary image, the cropping stage and clears the error |
| `AppProperties.CropEndsInCancelOrUpload` | App.tsx:52 | cancel drops the temporary image and returns to idle; confirm stores the crop and enters uploading; nothing else changes |
| `AppProperties.ProcessWithoutOriginalIsNoop` | App.tsx:55 | without an original image nothing is sent and nothing changes |
| `AppProperties.ProcessStartClearsError` | App.tsx:56-57 | with an original image a request is sent, the stage becomes processing and only the error is cleared |
| `AppProperties.SuccessReplacesResult` | App.tsx:61-65 | the new result replaces image, description, score and metrics regardless of the old ones |
| `AppProperties.FailureKeepsPriorResult` | App.tsx:66-69 | a failure keeps image, description, score, metrics and original, and always leaves a non-empty error |
| `AppProperties.ResubmissionChainsProcessedImage` | App.tsx:60-65 | after a success the next request's base is the image just produced |
| `AppProperties.UploadCropSubmit` | App.tsx:38-60 | from first render, file, load, crop and prompt lead to uploading with a request carrying the crop and the prompt |
| `AppProperties.ReplyAfterResetStillCompletes` | App.tsx:61-65 | a reply arriving after reset still completes the pipeline, with no original image |
| `AppProperties.NewCropKeepsProcessedImage` | App.tsx:52 | a new crop leaves an earlier processed image in place, and it is sent as the next base |
| `AppProperties.BadgeAgreesWithGate` | App.tsx:290 | the download button (`DownloadEnabled`) is enabled exactly from a score of 90, and the badge reads PASSED exactly then |
| `AppProperties.FileNameRoundTrip` | App.tsx:94 | the export name starts with `UK-Passport-Pass-` and its score and extension read back to the score and format |
| `AppProperties.DownloadNamesItsFile` | App.tsx:89-94 | a download is named after the current score and format, uses the format's MIME type, paints white only for JPEG and filters with the current adjustments |
| `AppProperties.DownloadHandlerIgnoresScore` | App.tsx:81 | the handler produces a file for a score of 0, while the button would be disabled (App.tsx:290) |
| `GeminiService.FinalPrompt` | geminiService.ts:40-42 | every prompt begins with the base prompt and extends it |
| `GeminiService.RefinementRoundTrip` | geminiService.ts:40-42 | a non-empty refinement can be read back intact from the prompt; an absent or empty one yields the default prompt, which carries none |
| `GeminiService.FinalPromptInjective` | geminiService.ts:40-42 | distinct non-empty refinements give distinct prompts, all distinct from the default prompt |
| `GeminiService.ImagePayload` | geminiService.ts:52 | a payload exists exactly when the data URL has a comma, and it contains no comma |
| `GeminiService.PayloadOfDataUrl` | geminiService.ts:52 | for `<header>,<data>` followed by nothing or a further comma field, the payload is exactly the data |
| `GeminiService.BuildRequest` | geminiService.ts:45-60 | the request names the fixed model, has a PNG image part whose data is present exactly when the data URL has a comma, and a prompt that starts with the base prompt and from which the refinement reads back |
| `GeminiService.PartsOf` | geminiService.ts:64 | parts are found only through a present, non-empty candidate list |
| `GeminiService.FirstImageData` | geminiService.ts:64-71 | none exactly when no part carries inline data; otherwise the data of the first such part, with no image part before it |
| `GeminiService.LaterImagesIgnored` | geminiService.ts:65-69 | with only text parts before an image part, that part's data is the result whatever follows |
| `GeminiService.ScanForImage` | geminiService.ts:62-71 | the loop yields "" when no part has an image, else `data:image/png;base64,` followed by the first image part's data |
| `GeminiService.ProcessPassportPhoto` | geminiService.ts:35-82 | succeeds exactly when the reply to the built request holds an image part, with that image's data URL; every failure carries only the generic message |
| `ImageCropper.CropToCanvas` | components/ImageCropper.tsx:30-39 | a fresh buffer of the area's width and height whose pixel (i, j) is the source pixel (x+i, y+j), transparent outside the image; exact copy for an in-bounds area |
| `ImageCropper.CropperComponent.constructor` | components/ImageCropper.tsx:13 | no area has been reported yet |
| `ImageCropper.CropperComponent.OnCropCompleteInternal` | components/ImageCropper.tsx:17 | the reported area is stored |
| `ImageCropper.CropperComponent.HandleDone` | components/ImageCropper.tsx:27-44 | calls back exactly when decoding succeeded, a context exists and an area was reported, once, with the drawn buffer; otherwise no callback |
| `ImageCropper.CropperComponent.Cancel` | components/ImageCropper.tsx:64 | only the cancel callback is made |
| `JsStrings.OrElse` | App.tsx:59-60 | `a \|\| b` on optional strings is one of its operands, and truthy exactly when either operand is |
| `JsStrings.Split` | geminiService.ts:52 | a split always has at least one field |
| `JsStrings.SplitFieldCount` | geminiService.ts:52 | a split has one field more than the string has separators |
| `JsStrings.SplitFieldsHaveNoSeparator` | geminiService.ts:52 | no field of a split contains the separator |
| `JsStrings.JoinSplit` | geminiService.ts:52 | joining the fields of a split with the separator restores the string |
| `JsStrings.SplitHasSecondField` | geminiService.ts:52 | a split has a second field exactly when the separator occurs |
| `JsStrings.SplitAfterField` | geminiService.ts:52 | a separator-free prefix and a separator split off as the first field |
| `JsStrings.SplitFirstField` | geminiService.ts:52 | a separator-free prefix followed by nothing or the separator is the first field |
| `JsStrings.NatToString` | App.tsx:94 | a non-empty numeral of decimal digits without leading zeros |
| `JsStrings.IntToString` | App.tsx:94 | non-empty, with a leading minus sign exactly for negative numbers |
| `JsStrings.ParseNatToString` | App.tsx:94 | reading a rendered natural number back gives the number |
| `JsStrings.ParseIntToString` | App.tsx:94 | reading a rendered integer back gives the integer |

## Left out

- The JSX, Tailwind classes and layout are left out. So are `components/Header.tsx`, `components/RequirementCard.tsx` and `components/PassportPreview.tsx`, which are static presentation.
- The `GoogleGenAI` network call and the API key are left out. The backend is a function from the request to its reply or to a thrown error. The client is constructed before the `try` (geminiService.ts:36), so an error thrown there would reach the caller with its own message; `GeminiService.ProcessPassportPhoto` promises the single generic message only for failures inside the `try` block (geminiService.ts:44-81).
- Every `console.error` is left out.
- FileReader, `Image` decoding and `toDataURL` encoding are opaque:
  - images are data-URL strings;
  - a decoded image is a parameter that may be missing;
  - the crop callback carries the drawn canvas rather than its PNG encoding;
  - the download's image load and context lookup are boolean inputs.
- The contents of the base compliance prompt are unspecified (`GeminiService.BasePrompt`), because only the backend interprets them.
- Floating-point values are left out:
  - the CSS filter string with `exposure/100`;
  - the JPEG quality 0.9;
  - the `complianceScore * 2.51` ring;
  - the cropper's zoom with step 0.1.
  `ExportFile.filter` records the four integer adjustments instead.
- The cropping widget's aspect-locked geometry (35:45), its pan position and its zoom are left out. They belong to the widget, and the area it reports is an input.
- The page view and scrolling are left out. So are the compare toggle, the repair-mode toggle, and which buttons are rendered or disabled in which stage. The handlers are modelled as callable at any time, as written.
- `JsStrings.IntToString`: renders integers only. A non-integer score, or a score of magnitude 10^21 or more (which JavaScript writes in exponent form), is not modelled, because the score is modelled as an integer.
- `GeminiService.ProcessPassportPhoto`: an inline part whose `data` field is missing (rendered as `undefined` in the URL) is not modelled, because part data is always a string here.
- `App.PassportApp.FinishFailure`: a thrown value whose `message` is not a string is not modelled. The message is a string, with "" for a missing one.
