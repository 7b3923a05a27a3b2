/** Properties of the pipeline specification `App.Step`: what each handler
    promises, what every sequence of events preserves, and how the handlers
    chain. */
module AppProperties {
  import opened Wrappers
  import opened JsStrings
  import opened Types
  import opened App

  lemma RunCons(s: PipelineState, e: Event, rest: seq<Event>)
    ensures Run(s, [e] + rest) == Run(Step(s, e), rest)
  {
    assert ([e] + rest)[1..] == rest;
  }

  lemma RunPair(s: PipelineState, a: Event, b: Event)
    ensures Run(s, [a, b]) == Step(Step(s, a), b)
  {
    assert [a, b] == [a] + [b];
    RunCons(s, a, [b]);
    assert [b] == [b] + [];
    RunCons(Step(s, a), b, []);
  }

  // ---------------------------------------------------------------------------
  // Adjustments

  /** No event takes a toolkit value out of [50, 150]. */
  lemma StepKeepsDomain(s: PipelineState, e: Event)
    requires InDomain(s.adjustments)
    ensures InDomain(Step(s, e).adjustments)
  {
  }

  /** From any in-domain state, every sequence of events keeps the toolkit
      values in [50, 150]; in particular from the initial state. */
  lemma {:induction false} RunKeepsDomain(s: PipelineState, events: seq<Event>)
    requires InDomain(s.adjustments)
    ensures InDomain(Run(s, events).adjustments)
    decreases |events|
  {
    if events != [] {
      StepKeepsDomain(s, events[0]);
      RunKeepsDomain(Step(s, events[0]), events[1..]);
    }
  }

  /** A known preset sets all four values at once, whatever they were, and
      touches nothing else; an unknown name changes nothing. */
  lemma PresetOverwritesAll(s: PipelineState, t: PipelineState, name: string)
    ensures PresetValues(name).Some? ==>
      && Step(s, PresetApplied(name)).adjustments == Step(t, PresetApplied(name)).adjustments
      && Step(s, PresetApplied(name)) == s.(adjustments := Step(s, PresetApplied(name)).adjustments)
    ensures PresetValues(name).None? ==> Step(s, PresetApplied(name)) == s
  {
  }

  /** The "Revert" button (the neutral preset) restores the same values reset
      does. */
  lemma NeutralPresetIsReset(s: PipelineState)
    ensures Step(s, PresetApplied("neutral")).adjustments == Step(s, ResetPressed).adjustments
  {
  }

  // ---------------------------------------------------------------------------
  // Upload and crop

  /** The "nothing else changes" statement for a rejected file: a file whose
      type does not start with `image/` starts no read and only sets the error. */
  lemma NonImageFileOnlySetsError(s: PipelineState, fileType: string)
    requires !("image/" <= fileType)
    ensures !StartsRead(Some(fileType))
    ensures Step(s, FileChosen(Some(fileType))) == s.(error := Some(InvalidImage))
  {
  }

  /** Choosing a file changes nothing until the read completes; the completed
      read enters cropping with the new image and no error. */
  lemma ImageFileThenLoadEntersCropping(s: PipelineState, fileType: string, dataUrl: string)
    requires "image/" <= fileType
    ensures StartsRead(Some(fileType))
    ensures var s' := Run(s, [FileChosen(Some(fileType)), FileLoaded(dataUrl)]);
      s' == s.(tempImage := Some(dataUrl), status := Cropping, error := None)
  {
    RunPair(s, FileChosen(Some(fileType)), FileLoaded(dataUrl));
  }

  /** The "nothing else changes" statements for the two ways the crop ends:
      cancelling forgets the loaded image and returns to idle; confirming stores
      the crop and moves to the uploaded stage. */
  lemma CropEndsInCancelOrUpload(s: PipelineState, cropped: string)
    ensures Step(s, CropCancelled) == s.(tempImage := None, status := Idle)
    ensures Step(s, CropDone(cropped)) == s.(originalImage := Some(cropped), status := Uploading)
  {
  }

  // ---------------------------------------------------------------------------
  // Processing

  /** The "nothing else changes" statement for handleProcess without an original
      image: it sends nothing and changes nothing. */
  lemma ProcessWithoutOriginalIsNoop(s: PipelineState, specificRepair: Option<string>)
    requires !Truthy(s.originalImage)
    ensures RequestOf(s, specificRepair).None?
    ensures Step(s, ProcessStarted(specificRepair)) == s
  {
  }

  /** The "nothing else changes" statement for handleProcess with an original
      image: a request is sent, and only the stage and the error change. */
  lemma ProcessStartClearsError(s: PipelineState, specificRepair: Option<string>)
    requires Truthy(s.originalImage)
    ensures RequestOf(s, specificRepair).Some?
    ensures Step(s, ProcessStarted(specificRepair)) == s.(status := Processing, error := None)
  {
  }

  /** A success replaces the image, description, score and metrics outright (the
      old result leaves no trace) and completes. */
  lemma SuccessReplacesResult(s: PipelineState, t: PipelineState, r: BackendResult)
    ensures var s', t' := Step(s, ProcessSucceeded(r)), Step(t, ProcessSucceeded(r));
      && s'.processedImage == t'.processedImage == Some(r.image)
      && s'.aiDescription == t'.aiDescription == r.description
      && s'.complianceScore == t'.complianceScore == r.score
      && s'.aiMetrics == t'.aiMetrics == r.metrics
      && s'.status == Completed
  {
  }

  /** A failure keeps the previous image, description, score and metrics, and
      always leaves a non-empty error message. */
  lemma FailureKeepsPriorResult(s: PipelineState, message: string)
    ensures var s' := Step(s, ProcessFailed(message));
      && s'.status == Failed
      && s'.error.Some? && s'.error.value != ""
      && (message != "" ==> s'.error == Some(message))
      && s'.processedImage == s.processedImage
      && s'.aiDescription == s.aiDescription
      && s'.complianceScore == s.complianceScore
      && s'.aiMetrics == s.aiMetrics
      && s'.originalImage == s.originalImage
  {
  }

  /** Refinement chains: after a successful run, the next request transforms the
      image that run produced rather than the original crop. The result image is
      required to be non-empty: a successful `GeminiService.ProcessPassportPhoto`
      always returns a string beginning with `GeminiService.ImagePrefix`, but this
      module does not connect the two. With an empty result image,
      `processedImage || originalImage` would resend the original crop. */
  lemma ResubmissionChainsProcessedImage(s: PipelineState, first: Option<string>, r: BackendResult, second: Option<string>)
    requires Truthy(s.originalImage)
    requires r.image != ""
    ensures var s' := Run(s, [ProcessStarted(first), ProcessSucceeded(r)]);
      && s'.status == Completed
      && RequestOf(s', second).Some?
      && RequestOf(s', second).value.baseImage == r.image
  {
    RunPair(s, ProcessStarted(first), ProcessSucceeded(r));
  }

  /** The whole happy path from first render: an image file is read, cropped and
      submitted; the request carries the crop and the typed prompt. */
  lemma UploadCropSubmit(fileType: string, dataUrl: string, cropped: string, prompt: string)
    requires "image/" <= fileType
    requires cropped != ""
    ensures var s := Run(Initial(), [FileChosen(Some(fileType)), FileLoaded(dataUrl), CropDone(cropped), PromptEdited(prompt)]);
      && s.status == Uploading
      && s.tempImage == Some(dataUrl)
      && RequestOf(s, None) == Some(ProcessRequest(cropped, prompt))
      && Step(s, ProcessStarted(None)).status == Processing
  {
    var e1, e2, e3, e4 := FileChosen(Some(fileType)), FileLoaded(dataUrl), CropDone(cropped), PromptEdited(prompt);
    var s2 := Step(Step(Initial(), e1), e2);
    assert [e1, e2, e3, e4] == [e1] + ([e2] + [e3, e4]);
    RunCons(Initial(), e1, [e2] + [e3, e4]);
    RunCons(Step(Initial(), e1), e2, [e3, e4]);
    RunPair(s2, e3, e4);
  }

  /** The continuation of a call does not look at the stage: a reply that
      arrives after reset completes the pipeline with no original image. */
  lemma ReplyAfterResetStillCompletes(s: PipelineState, r: BackendResult)
    ensures var s' := Run(s, [ResetPressed, ProcessSucceeded(r)]);
      && s'.status == Completed
      && s'.originalImage == None
      && s'.processedImage == Some(r.image)
  {
    RunPair(s, ResetPressed, ProcessSucceeded(r));
  }

  /** Confirming a new crop does not clear an earlier processed image, so such a
      stale result is what the next request sends. */
  lemma NewCropKeepsProcessedImage(s: PipelineState, cropped: string, specificRepair: Option<string>)
    requires cropped != ""
    requires Truthy(s.processedImage)
    ensures RequestOf(Step(s, CropDone(cropped)), specificRepair).value.baseImage == s.processedImage.value
  {
  }

  // ---------------------------------------------------------------------------
  // Export

  /** The badge reads PASSED exactly when the download button is enabled. */
  lemma BadgeAgreesWithGate(score: int)
    ensures Badge(score) == "PASSED" <==> DownloadEnabled(score)
    ensures DownloadEnabled(score) <==> score >= 90
  {
  }

  /** The export file name carries the score and the format, and both can be
      read back from it. */
  lemma FileNameRoundTrip(score: int, format: ExportFormat)
    ensures FileNamePrefix <= FileName(score, format)
    ensures ParseFileName(FileName(score, format)) == Some((score, format))
  {
    var name := FileName(score, format);
    var numeral := IntToString(score);
    var ext := "." + Extension(format);
    ParseIntToString(score);
    assert name == FileNamePrefix + numeral + ext;
    assert |ext| == 4;
    assert name[..|FileNamePrefix|] == FileNamePrefix;
    assert name[|FileNamePrefix|..|name| - 4] == numeral;
    assert name[|name| - 4..] == ext;
    assert format == Png ==> ext == ".png";
    assert format == Jpeg ==> ext == ".jpg";
  }

  /** What download produces: a file named after the current score and format,
      painted white first only for JPEG, filtered by the current adjustments. */
  lemma DownloadNamesItsFile(s: PipelineState)
    requires Truthy(s.processedImage)
    ensures var f := ExportOf(s, true, true);
      && f.Some?
      && ParseFileName(f.value.fileName) == Some((s.complianceScore, s.exportFormat))
      && f.value.mimeType == MimeType(s.exportFormat)
      && (f.value.whiteBackground <==> s.exportFormat == Jpeg)
      && f.value.filter == s.adjustments
  {
    FileNameRoundTrip(s.complianceScore, s.exportFormat);
  }

  /** The download handler itself does not check the score: the gate is only
      the button's disabled state. */
  lemma DownloadHandlerIgnoresScore(s: PipelineState)
    requires Truthy(s.processedImage)
    ensures ExportOf(s, true, true).Some?
    ensures ExportOf(s.(complianceScore := 0), true, true).Some?
    ensures !DownloadEnabled(s.(complianceScore := 0).complianceScore)
  {
  }
}
