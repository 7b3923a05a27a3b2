/** The backend adapter `processPassportPhoto` (geminiService.ts:35-82) with the
    network abstracted: the request it builds, the scan of the reply for the first
    inline-image part, and the try/catch that turns every failure into one
    generic message. The generative backend is a parameter mapping the request
    to its reply (or to the error the client library throws). */
module GeminiService {
  import opened Wrappers
  import opened JsStrings

  /** The fixed compliance instruction sent with every request. Its wording is a
      concern of the backend, so the model leaves its contents unspecified. */
  const BasePrompt: string

  const ModelName := "gemini-2.5-flash-image"
  const RequestImageMimeType := "image/png"
  const OverrideHeader := "\n\nREFINEMENT OVERRIDE: "
  const IdentitySuffix := "\n\nIMPORTANT: Maintain facial identity and demographic-appropriate clothing regardless of these refinements."
  // written in two pieces so that the verifier can look at its first word
  const ExecuteSuffix := "\n\nExecute" + " the full demographic analysis, shadow neutralization, anatomical fulfillment, and transformation now."
  const ImagePrefix := "data:image/png;base64,"
  /** Thrown inside the try block when the reply holds no image. */
  const SynthesisFailed := "AI Synthesis failed. Please ensure the face is clearly visible."
  /** The only message a caller ever sees. */
  const TransformationFailed := "Transformation failed. Please try a photo with clearer lighting and a visible head for the AI to analyze."

  // ---------------------------------------------------------------------------
  // The request

  /** The request `generateContent` receives: one inline PNG part carrying the
      payload of the input data URL (absent when the split finds no second
      field) and one text part carrying the prompt. */
  datatype Request = Request(model: string, imageMimeType: string, imageData: Option<string>, prompt: string)

  /** The prompt: the base instruction, then either the user's refinement wrapped
      in the override header and the identity-preservation reminder, or, when the
      refinement is absent or empty, the default execution sentence. */
  function FinalPrompt(customPrompt: Option<string>): (r: string)
    ensures BasePrompt <= r
    ensures |r| > |BasePrompt|
  {
    if Truthy(customPrompt)
    then BasePrompt + OverrideHeader + customPrompt.value + IdentitySuffix
    else BasePrompt + ExecuteSuffix
  }

  /** What a reader of a prompt can recover of the refinement it carries: the
      text between the override header and the identity reminder, or "" for a
      prompt without an override. */
  function RefinementOf(prompt: string): string {
    var head := BasePrompt + OverrideHeader;
    if head <= prompt && |prompt| >= |head| + |IdentitySuffix|
       && prompt[|prompt| - |IdentitySuffix|..] == IdentitySuffix
    then prompt[|head|..|prompt| - |IdentitySuffix|]
    else ""
  }

  /** The refinement is carried into the prompt intact, and a prompt built without
      one carries none: the prompt determines the refinement. */
  lemma RefinementRoundTrip(customPrompt: Option<string>)
    ensures RefinementOf(FinalPrompt(customPrompt)) == if Truthy(customPrompt) then customPrompt.value else ""
  {
  }

  /** Two different non-empty refinements never produce the same prompt, and a
      non-empty one is always told apart from the default prompt. */
  lemma FinalPromptInjective(a: Option<string>, b: Option<string>)
    requires Truthy(a)
    requires FinalPrompt(a) == FinalPrompt(b)
    ensures Truthy(b) && a.value == b.value
  {
    RefinementRoundTrip(a);
    RefinementRoundTrip(b);
  }

  /** `dataUrl.split(',')[1]`: the second comma-separated field, if there is one. */
  function ImagePayload(dataUrl: string): (r: Option<string>)
    ensures r.Some? <==> ',' in dataUrl
    ensures r.Some? ==> ',' !in r.value
  {
    SplitHasSecondField(dataUrl, ',');
    SplitFieldsHaveNoSeparator(dataUrl, ',');
    var fields := Split(dataUrl, ',');
    if |fields| >= 2 then Some(fields[1]) else None
  }

  /** For a data URL `<header>,<data>` the payload is exactly the data, whatever
      follows it after a further comma. */
  lemma PayloadOfDataUrl(header: string, data: string, rest: string)
    requires ',' !in header && ',' !in data
    requires rest == [] || rest[0] == ','
    ensures ImagePayload(header + "," + data + rest) == Some(data)
  {
    assert header + "," + data + rest == header + [','] + (data + rest);
    SplitAfterField(header, data + rest, ',');
    SplitFirstField(data, rest, ',');
  }

  /** The request sent for an input data URL and an optional refinement: the
      fixed model, a PNG image part that is present exactly when the data URL has
      a comma, and a prompt from which the refinement can be read back. */
  function BuildRequest(base64Image: string, customPrompt: Option<string>): (r: Request)
    ensures r.model == ModelName && r.imageMimeType == RequestImageMimeType
    ensures r.imageData.Some? <==> ',' in base64Image
    ensures BasePrompt <= r.prompt
    ensures RefinementOf(r.prompt) == if Truthy(customPrompt) then customPrompt.value else ""
  {
    RefinementRoundTrip(customPrompt);
    Request(ModelName, RequestImageMimeType, ImagePayload(base64Image), FinalPrompt(customPrompt))
  }

  // ---------------------------------------------------------------------------
  // The reply

  datatype InlineData = InlineData(mimeType: string, data: string)
  /** A response part; a part "carries an image" when its `inlineData` is present. */
  datatype Part = Part(inlineData: Option<InlineData>, text: Option<string>)
  datatype Content = Content(parts: Option<seq<Part>>)
  datatype Candidate = Candidate(content: Option<Content>)
  /** What `generateContent` does: throw, or resolve to a response whose fields
      may each be missing. */
  datatype Reply = Thrown(message: string) | Response(candidates: Option<seq<Candidate>>)

  /** `response.candidates?.[0]?.content?.parts`. */
  function PartsOf(reply: Reply): (r: Option<seq<Part>>)
    requires reply.Response?
    ensures r.Some? ==> reply.candidates.Some? && |reply.candidates.value| >= 1
  {
    match reply.candidates
    case None => None
    case Some(cs) =>
      if |cs| == 0 then None
      else match cs[0].content
        case None => None
        case Some(content) => content.parts
  }

  predicate IsFirstImagePart(parts: seq<Part>, k: int) {
    && 0 <= k < |parts|
    && parts[k].inlineData.Some?
    && forall j :: 0 <= j < k ==> parts[j].inlineData.None?
  }

  /** The data of the first part that carries an image; text parts before it are
      skipped and everything after it is ignored. */
  function FirstImageData(parts: seq<Part>): (r: Option<string>)
    ensures r.None? <==> forall k :: 0 <= k < |parts| ==> parts[k].inlineData.None?
    ensures r.Some? ==> exists k :: IsFirstImagePart(parts, k) && parts[k].inlineData.value.data == r.value
  {
    if parts == [] then None
    else if parts[0].inlineData.Some? then
      assert IsFirstImagePart(parts, 0);
      Some(parts[0].inlineData.value.data)
    else
      var r := FirstImageData(parts[1..]);
      if r.Some? then
        var k :| IsFirstImagePart(parts[1..], k) && parts[1..][k].inlineData.value.data == r.value;
        assert IsFirstImagePart(parts, k + 1);
        r
      else
        assert forall k :: 1 <= k < |parts| ==> parts[k] == parts[1..][k - 1];
        r
  }

  /** The image a reply carries, as the scan sees it. */
  function ReplyImage(reply: Reply): Option<string> {
    if reply.Thrown? then None
    else match PartsOf(reply)
      case None => None
      case Some(parts) => FirstImageData(parts)
  }

  /** Whatever comes before and after, the first image part decides the result. */
  lemma {:induction false} LaterImagesIgnored(before: seq<Part>, p: Part, after: seq<Part>)
    requires forall k :: 0 <= k < |before| ==> before[k].inlineData.None?
    requires p.inlineData.Some?
    ensures FirstImageData(before + [p] + after) == Some(p.inlineData.value.data)
  {
    if before == [] {
      assert (before + [p] + after)[0] == p;
    } else {
      LaterImagesIgnored(before[1..], p, after);
      assert (before + [p] + after)[1..] == before[1..] + [p] + after;
    }
  }

  /** The loop of geminiService.ts:62-71: walk the parts, and at the first one
      carrying an image build its data URL and stop; "" when none does. */
  method ScanForImage(parts: seq<Part>) returns (processedImageBase64: string)
    ensures FirstImageData(parts).None? ==> processedImageBase64 == ""
    ensures FirstImageData(parts).Some? ==> processedImageBase64 == ImagePrefix + FirstImageData(parts).value
  {
    processedImageBase64 := "";
    var i := 0;
    while i < |parts|
      invariant 0 <= i <= |parts|
      invariant processedImageBase64 == ""
      invariant forall j :: 0 <= j < i ==> parts[j].inlineData.None?
    {
      if parts[i].inlineData.Some? {
        processedImageBase64 := ImagePrefix + parts[i].inlineData.value.data;
        LaterImagesIgnored(parts[..i], parts[i], parts[i + 1..]);
        assert parts == parts[..i] + [parts[i]] + parts[i + 1..];
        break;
      }
      i := i + 1;
    }
  }

  /** processPassportPhoto: build the request, hand it to the backend, scan the
      reply; inside the try block a thrown call or a reply without an image part
      is an error, and the catch replaces every error by TransformationFailed. */
  method ProcessPassportPhoto(base64Image: string, customPrompt: Option<string>, backend: Request -> Reply)
    returns (result: Result<string, string>)
    ensures var reply := backend(BuildRequest(base64Image, customPrompt));
      && (result.Success? <==> ReplyImage(reply).Some?)
      && (result.Success? ==> result.value == ImagePrefix + ReplyImage(reply).value)
    ensures result.Failure? ==> result.error == TransformationFailed
  {
    var finalPrompt := FinalPrompt(customPrompt);
    var request := Request(ModelName, RequestImageMimeType, ImagePayload(base64Image), finalPrompt);
    var reply := backend(request);
    // the try block
    var attempt: Result<string, string>;
    if reply.Thrown? {
      attempt := Failure(reply.message);
    } else {
      var processedImageBase64 := "";
      var parts := PartsOf(reply);
      if parts.Some? {
        processedImageBase64 := ScanForImage(parts.value);
      }
      if processedImageBase64 == "" {
        attempt := Failure(SynthesisFailed);
      } else {
        attempt := Success(processedImageBase64);
      }
    }
    // the catch block
    match attempt
    case Success(image) => result := Success(image);
    case Failure(_) => result := Failure(TransformationFailed);
  }
}
