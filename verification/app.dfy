/** The photo pipeline held in the page component's state (App.tsx:12-105).

    `Step` is the specification: the effect of each handler, and of each
    asynchronous continuation (the file reader's `onload`, the end of the
    awaited backend call), on the whole state. The class `PassportApp` keeps the
    same fields and updates them in place; each of its state-changing methods
    is proved to have exactly the effect `Step` gives, and `HandleDownload`,
    which changes nothing, is proved to return the file `ExportOf` describes. */
module App {
  import opened Wrappers
  import opened JsStrings
  import opened Types

  const MinAdjustment := 50
  const MaxAdjustment := 150
  const DefaultAdjustment := 100
  /** The compliance score from which download is enabled and the badge passes. */
  const PassThreshold := 90
  const InvalidImage := "Invalid image."
  const FallbackFailure := "Transformation failed."
  const FileNamePrefix := "UK-Passport-Pass-"

  datatype ExportFormat = Png | Jpeg

  function MimeType(format: ExportFormat): string {
    match format
    case Png => "image/png"
    case Jpeg => "image/jpeg"
  }

  function Extension(format: ExportFormat): string {
    if format == Png then "png" else "jpg"
  }

  /** The four toolkit values, integer percentages. */
  datatype Adjustments = Adjustments(brightness: int, contrast: int, exposure: int, saturation: int)

  const Identity := Adjustments(DefaultAdjustment, DefaultAdjustment, DefaultAdjustment, DefaultAdjustment)

  predicate InRange(v: int) {
    MinAdjustment <= v <= MaxAdjustment
  }

  /** Every value inside the sliders' domain. */
  predicate InDomain(a: Adjustments) {
    InRange(a.brightness) && InRange(a.contrast) && InRange(a.exposure) && InRange(a.saturation)
  }

  datatype Slider = Brightness | Contrast | Exposure | Saturation

  /** What a range input with min 50 and max 150 can deliver: the browser clamps
      its value into that range. */
  type SliderValue = v: int | MinAdjustment <= v <= MaxAdjustment witness DefaultAdjustment

  function WithSlider(a: Adjustments, slider: Slider, v: int): Adjustments {
    match slider
    case Brightness => a.(brightness := v)
    case Contrast => a.(contrast := v)
    case Exposure => a.(exposure := v)
    case Saturation => a.(saturation := v)
  }

  /** The values `applyPreset` assigns, or None for a name it does not know. */
  function PresetValues(name: string): (r: Option<Adjustments>)
    ensures r.Some? <==> name in {"neutral", "studio", "highkey"}
    ensures r.Some? ==> InDomain(r.value)
  {
    match name
    case "neutral" => Some(Adjustments(100, 100, 100, 100))
    case "studio" => Some(Adjustments(110, 105, 105, 95))
    case "highkey" => Some(Adjustments(115, 95, 110, 90))
    case _ => None
  }

  /** The record `handleProcess` reads from the backend call. */
  datatype BackendResult = BackendResult(image: string, description: string, score: int, metrics: map<string, string>)

  datatype PipelineState = PipelineState(
    status: ProcessingStatus,
    tempImage: Option<string>,
    originalImage: Option<string>,
    processedImage: Option<string>,
    aiDescription: string,
    complianceScore: int,
    aiMetrics: map<string, string>,
    customPrompt: string,
    error: Option<string>,
    showGuidelines: bool,
    exportFormat: ExportFormat,
    adjustments: Adjustments)

  /** The state on first render: the toolkit sits at the neutral preset, and
      there is nothing to download and nothing that download would allow. */
  function Initial(): (r: PipelineState)
    ensures InDomain(r.adjustments)
    ensures PresetValues("neutral") == Some(r.adjustments)
    ensures !DownloadEnabled(r.complianceScore)
    ensures forall loaded, ctx :: ExportOf(r, loaded, ctx).None?
  {
    PipelineState(Idle, None, None, None, "", 0, map[], "", None, true, Jpeg, Identity)
  }

  datatype Event =
    | FileChosen(fileType: Option<string>)        // handleFileChange: MIME type of files[0], if any
    | FileLoaded(dataUrl: string)                  // the reader's onload
    | CropDone(cropped: string)                    // onCropDone
    | CropCancelled                                // the cropper's onCancel
    | ProcessStarted(specificRepair: Option<string>) // handleProcess up to the awaited call
    | ProcessSucceeded(result: BackendResult)      // the call resolved
    | ProcessFailed(message: string)               // the call threw; "" for a missing message
    | PresetApplied(name: string)                  // applyPreset
    | SliderMoved(slider: Slider, value: SliderValue)
    | PromptEdited(text: string)
    | FormatChosen(format: ExportFormat)
    | GuidelinesToggled
    | ResetPressed                                 // reset

  /** handleFileChange starts reading only an `image/...` file. */
  predicate StartsRead(fileType: Option<string>) {
    fileType.Some? && "image/" <= fileType.value
  }

  /** The effect of one event on the whole state. Each field has few writers:
      only a success or reset touches the result, only a confirmed crop or reset
      the original image, only the toolkit controls or reset the adjustments,
      only the format buttons the format and only the overlay switch the
      guidelines; the toolkit, the prompt box, the format, the overlay switch
      and choosing a file never move the stage. */
  function Step(s: PipelineState, e: Event): (r: PipelineState)
    ensures r.processedImage != s.processedImage || r.complianceScore != s.complianceScore
      ==> e.ProcessSucceeded? || e.ResetPressed?
    ensures r.originalImage != s.originalImage ==> e.CropDone? || e.ResetPressed?
    ensures r.adjustments != s.adjustments ==> e.PresetApplied? || e.SliderMoved? || e.ResetPressed?
    ensures r.exportFormat != s.exportFormat ==> e.FormatChosen?
    ensures r.showGuidelines != s.showGuidelines ==> e.GuidelinesToggled?
    ensures (|| e.FileChosen? || e.PresetApplied? || e.SliderMoved? || e.PromptEdited?
             || e.FormatChosen? || e.GuidelinesToggled?) ==> r.status == s.status
  {
    match e
    case FileChosen(fileType) =>
      if fileType.Some? && !("image/" <= fileType.value) then s.(error := Some(InvalidImage)) else s
    case FileLoaded(dataUrl) =>
      s.(tempImage := Some(dataUrl), status := Cropping, error := None)
    case CropDone(cropped) =>
      s.(originalImage := Some(cropped), status := Uploading)
    case CropCancelled =>
      s.(tempImage := None, status := Idle)
    case ProcessStarted(_) =>
      if !Truthy(s.originalImage) then s else s.(status := Processing, error := None)
    case ProcessSucceeded(r) =>
      s.(processedImage := Some(r.image), aiDescription := r.description,
         complianceScore := r.score, aiMetrics := r.metrics, status := Completed)
    case ProcessFailed(message) =>
      s.(error := Some(if message == "" then FallbackFailure else message), status := Failed)
    case PresetApplied(name) =>
      var preset := PresetValues(name);
      if preset.Some? then s.(adjustments := preset.value) else s
    case SliderMoved(slider, v) =>
      s.(adjustments := WithSlider(s.adjustments, slider, v))
    case PromptEdited(text) =>
      s.(customPrompt := text)
    case FormatChosen(format) =>
      s.(exportFormat := format)
    case GuidelinesToggled =>
      s.(showGuidelines := !s.showGuidelines)
    case ResetPressed =>
      s.(originalImage := None, processedImage := None, customPrompt := "", tempImage := None,
         aiDescription := "", adjustments := Identity,
         complianceScore := 0, aiMetrics := map[], status := Idle, error := None)
  }

  /** reset returns every pipeline field to its initial value and keeps only
      the export format and the guideline overlay switch. */
  lemma ResetRestoresDefaults(s: PipelineState)
    ensures Step(s, ResetPressed) == Initial().(showGuidelines := s.showGuidelines, exportFormat := s.exportFormat)
  {
  }

  /** The state after a sequence of events. */
  function Run(s: PipelineState, events: seq<Event>): PipelineState
    decreases |events|
  {
    if events == [] then s else Run(Step(s, events[0]), events[1..])
  }

  /** What handleProcess hands to the backend: the image to transform and the
      refinement prompt. */
  datatype ProcessRequest = ProcessRequest(baseImage: string, prompt: string)

  /** handleProcess sends nothing without an original image; otherwise the
      processed image if there is one, else the original, with the specific
      repair if given and non-empty, else the custom prompt. */
  function RequestOf(s: PipelineState, specificRepair: Option<string>): (r: Option<ProcessRequest>)
    ensures r.Some? <==> Truthy(s.originalImage)
    ensures r.Some? ==> r.value.baseImage != ""
    ensures r.Some? && Truthy(s.processedImage) ==> r.value.baseImage == s.processedImage.value
    ensures r.Some? && !Truthy(s.processedImage) ==> r.value.baseImage == s.originalImage.value
    ensures r.Some? ==> r.value.prompt == if Truthy(specificRepair) then specificRepair.value else s.customPrompt
  {
    if !Truthy(s.originalImage) then None
    else
      var prompt := OrElse(specificRepair, Some(s.customPrompt)).value;
      Some(ProcessRequest(OrElse(s.processedImage, s.originalImage).value, prompt))
  }

  /** The download button is enabled exactly from the pass threshold on. */
  predicate DownloadEnabled(score: int) {
    score >= PassThreshold
  }

  /** The badge over the result reads PASSED exactly when download is enabled. */
  function Badge(score: int): (r: string)
    ensures r == "PASSED" <==> DownloadEnabled(score)
    ensures r == "PASSED" || r == "REJECTED"
  {
    if score >= PassThreshold then "PASSED" else "REJECTED"
  }

  /** `UK-Passport-Pass-${complianceScore}.${png|jpg}`: the fixed prefix, the
      score's numeral (signed exactly for a negative score) and the extension
      of the chosen format. */
  function FileName(score: int, format: ExportFormat): (r: string)
    ensures FileNamePrefix <= r && |r| >= |FileNamePrefix| + 5
    ensures score < 0 <==> r[|FileNamePrefix|] == '-'
    ensures r[|r| - 4..] == if format == Png then ".png" else ".jpg"
  {
    FileNamePrefix + IntToString(score) + "." + Extension(format)
  }

  /** Reads a name of the shape `UK-Passport-Pass-<score>.<png|jpg>` back into
      its score and format. */
  function ParseFileName(name: string): Option<(int, ExportFormat)> {
    var n := |name|;
    if n < |FileNamePrefix| + 5 || name[..|FileNamePrefix|] != FileNamePrefix then None
    else
      var numeral := name[|FileNamePrefix|..n - 4];
      var ext := name[n - 4..];
      var format := if ext == ".png" then Some(Png) else if ext == ".jpg" then Some(Jpeg) else None;
      if format.None? then None
      else if numeral[0] == '-' && AllDigits(numeral[1..]) then Some((ParseInt(numeral), format.value))
      else if numeral[0] != '-' && AllDigits(numeral) then Some((ParseInt(numeral), format.value))
      else None
  }

  /** The file handleDownload produces: its name, the encoding, whether a white
      background is painted first, and the adjustments its filter applies. */
  datatype ExportFile = ExportFile(fileName: string, mimeType: string, whiteBackground: bool, filter: Adjustments)

  /** handleDownload: nothing without a processed image, nothing until the image
      loads, nothing without a 2D context; the score is not checked, only
      written into the file name. */
  function ExportOf(s: PipelineState, imageLoaded: bool, hasContext: bool): (r: Option<ExportFile>)
    ensures r.Some? <==> Truthy(s.processedImage) && imageLoaded && hasContext
    ensures r.Some? ==> (r.value.whiteBackground <==> s.exportFormat == Jpeg)
  {
    if !Truthy(s.processedImage) || !imageLoaded || !hasContext then None
    else Some(ExportFile(FileName(s.complianceScore, s.exportFormat), MimeType(s.exportFormat),
                         s.exportFormat == Jpeg, s.adjustments))
  }

  class PassportApp {
    var status: ProcessingStatus
    var tempImage: Option<string>
    var originalImage: Option<string>
    var processedImage: Option<string>
    var aiDescription: string
    var complianceScore: int
    var aiMetrics: map<string, string>
    var customPrompt: string
    var error: Option<string>
    var showGuidelines: bool
    var exportFormat: ExportFormat
    var brightness: int
    var contrast: int
    var exposure: int
    var saturation: int

    function Snapshot(): PipelineState
      reads this
    {
      PipelineState(status, tempImage, originalImage, processedImage, aiDescription,
                    complianceScore, aiMetrics, customPrompt, error, showGuidelines,
                    exportFormat, Adjustments(brightness, contrast, exposure, saturation))
    }

    /** The toolkit values stay within the sliders' domain. */
    predicate Valid()
      reads this
    {
      InDomain(Snapshot().adjustments)
    }

    constructor()
      ensures Valid() && Snapshot() == Initial()
    {
      status := Idle;
      tempImage, originalImage, processedImage := None, None, None;
      aiDescription := "";
      complianceScore := 0;
      aiMetrics := map[];
      customPrompt := "";
      error := None;
      showGuidelines := true;
      exportFormat := Jpeg;
      brightness, contrast, exposure, saturation := 100, 100, 100, 100;
    }

    /** handleFileChange: a non-image file only sets the error; an image file
        starts a read whose completion is `OnFileLoaded`. */
    method HandleFileChange(fileType: Option<string>) returns (readStarted: bool)
      requires Valid()
      modifies this
      ensures Valid() && Snapshot() == Step(old(Snapshot()), FileChosen(fileType))
      ensures readStarted <==> StartsRead(fileType)
    {
      readStarted := false;
      if fileType.Some? {
        if !("image/" <= fileType.value) {
          error := Some(InvalidImage);
          return;
        }
        readStarted := true;
      }
    }

    method OnFileLoaded(dataUrl: string)
      requires Valid()
      modifies this
      ensures Valid() && Snapshot() == Step(old(Snapshot()), FileLoaded(dataUrl))
    {
      tempImage := Some(dataUrl);
      status := Cropping;
      error := None;
    }

    method OnCropDone(cropped: string)
      requires Valid()
      modifies this
      ensures Valid() && Snapshot() == Step(old(Snapshot()), CropDone(cropped))
    {
      originalImage := Some(cropped);
      status := Uploading;
    }

    method OnCropCancel()
      requires Valid()
      modifies this
      ensures Valid() && Snapshot() == Step(old(Snapshot()), CropCancelled)
    {
      tempImage := None;
      status := Idle;
    }

    /** handleProcess up to the awaited call: returns what it sends. */
    method StartProcess(specificRepair: Option<string>) returns (request: Option<ProcessRequest>)
      requires Valid()
      modifies this
      ensures Valid() && Snapshot() == Step(old(Snapshot()), ProcessStarted(specificRepair))
      ensures request == RequestOf(old(Snapshot()), specificRepair)
    {
      if !Truthy(originalImage) {
        return None;
      }
      status := Processing;
      error := None;
      var prompt := if Truthy(specificRepair) then specificRepair.value else customPrompt;
      var base := if Truthy(processedImage) then processedImage.value else originalImage.value;
      request := Some(ProcessRequest(base, prompt));
    }

    /** The awaited call resolved: every part of the result replaces the old one. */
    method FinishSuccess(result: BackendResult)
      requires Valid()
      modifies this
      ensures Valid() && Snapshot() == Step(old(Snapshot()), ProcessSucceeded(result))
    {
      processedImage := Some(result.image);
      aiDescription := result.description;
      complianceScore := result.score;
      aiMetrics := result.metrics;
      status := Completed;
    }

    /** The awaited call threw with `message` ("" when it has none). */
    method FinishFailure(message: string)
      requires Valid()
      modifies this
      ensures Valid() && Snapshot() == Step(old(Snapshot()), ProcessFailed(message))
    {
      error := Some(if message == "" then FallbackFailure else message);
      status := Failed;
    }

    method ApplyPreset(preset: string)
      requires Valid()
      modifies this
      ensures Valid() && Snapshot() == Step(old(Snapshot()), PresetApplied(preset))
    {
      match preset
      case "neutral" =>
        brightness, contrast, exposure, saturation := 100, 100, 100, 100;
      case "studio" =>
        brightness, contrast, exposure, saturation := 110, 105, 105, 95;
      case "highkey" =>
        brightness, contrast, exposure, saturation := 115, 95, 110, 90;
      case _ =>
    }

    method SetSlider(slider: Slider, value: SliderValue)
      requires Valid()
      modifies this
      ensures Valid() && Snapshot() == Step(old(Snapshot()), SliderMoved(slider, value))
    {
      match slider
      case Brightness => brightness := value;
      case Contrast => contrast := value;
      case Exposure => exposure := value;
      case Saturation => saturation := value;
    }

    method SetCustomPrompt(text: string)
      requires Valid()
      modifies this
      ensures Valid() && Snapshot() == Step(old(Snapshot()), PromptEdited(text))
    {
      customPrompt := text;
    }

    method SetExportFormat(format: ExportFormat)
      requires Valid()
      modifies this
      ensures Valid() && Snapshot() == Step(old(Snapshot()), FormatChosen(format))
    {
      exportFormat := format;
    }

    method ToggleGuidelines()
      requires Valid()
      modifies this
      ensures Valid() && Snapshot() == Step(old(Snapshot()), GuidelinesToggled)
    {
      showGuidelines := !showGuidelines;
    }

    /** handleDownload, with the image load and the context lookup as inputs.
        It changes no state. */
    method HandleDownload(imageLoaded: bool, hasContext: bool) returns (file: Option<ExportFile>)
      ensures file == ExportOf(Snapshot(), imageLoaded, hasContext)
    {
      if !Truthy(processedImage) {
        return None;
      }
      if !imageLoaded || !hasContext {
        return None;
      }
      var name := FileNamePrefix + IntToString(complianceScore) + "." + (if exportFormat == Png then "png" else "jpg");
      file := Some(ExportFile(name, MimeType(exportFormat), exportFormat == Jpeg,
                              Adjustments(brightness, contrast, exposure, saturation)));
    }

    method Reset()
      requires Valid()
      modifies this
      ensures Valid() && Snapshot() == Step(old(Snapshot()), ResetPressed)
    {
      // React applies the thirteen setter calls together, on the next render
      originalImage, processedImage, customPrompt, tempImage := None, None, "", None;
      aiDescription, brightness, contrast, exposure, saturation := "", 100, 100, 100, 100;
      complianceScore, aiMetrics, status, error := 0, map[], Idle, None;
      ResetRestoresDefaults(old(Snapshot()));
      assert Snapshot() == PipelineState(Idle, None, None, None, "", 0, map[], "", None,
                                         showGuidelines, exportFormat, Identity);
    }
  }
}
