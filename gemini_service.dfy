/**
 * `performVirtualTryOn`: the API-key guard, the parsing of both source
 * images, the request it sends, and the selection of a result from the parts
 * of the response. The client library call itself is the parameter
 * `generate`, a function from the request to what the service gives back.
 */
module GeminiService {
  import opened Wrappers
  import opened JsText
  import opened DataUrl

  /** One part of the response content: inline image data, text, both or neither. */
  datatype ResponsePart = ResponsePart(inlineData: Option<InlineData>, text: Option<string>)

  datatype RequestPart = InlinePart(inlineData: InlineData) | TextPart(text: string)

  datatype Modality = Image | Text

  datatype Request = Request(model: string, parts: seq<RequestPart>, responseModalities: seq<Modality>)

  /** A thrown value: an `Error` carrying a message, or anything else. */
  datatype Thrown = ErrorObject(message: string) | NonErrorValue

  /** What the library call gives back: the response's content parts, or a thrown value. */
  datatype Reply = Responded(parts: seq<ResponsePart>) | Threw(thrown: Thrown)

  const ModelName := "gemini-2.5-flash-image-preview"
  const MissingApiKey := "API_KEY environment variable not set. Please configure it to use the AI service."
  const TextResponsePrefix := "AI model returned a text response instead of an image: \""
  const TextResponseSuffix := "\""
  const NoImageFound := "No image data was found in the AI response. The model may have refused the request."

  /** The index of the first part that carries inline data, if any. */
  function FirstImageIndex(parts: seq<ResponsePart>): (r: Option<nat>)
    ensures r.Some? ==> r.value < |parts| && parts[r.value].inlineData.Some?
    ensures forall j :: 0 <= j < |parts| && (r.None? || j < r.value) ==> parts[j].inlineData.None?
  {
    if parts == [] then None
    else if parts[0].inlineData.Some? then Some(0)
    else match FirstImageIndex(parts[1..])
      case None => None
      case Some(k) => Some(k + 1)
  }

  /** The index of the first part whose text is truthy (present and non-empty), if any. */
  function FirstTextIndex(parts: seq<ResponsePart>): (r: Option<nat>)
    ensures r.Some? ==> r.value < |parts| && Truthy(parts[r.value].text)
    ensures forall j :: 0 <= j < |parts| && (r.None? || j < r.value) ==> !Truthy(parts[j].text)
  {
    if parts == [] then None
    else if Truthy(parts[0].text) then Some(0)
    else match FirstTextIndex(parts[1..])
      case None => None
      case Some(k) => Some(k + 1)
  }

  function TextResponseError(text: string): Thrown {
    ErrorObject(TextResponsePrefix + text + TextResponseSuffix)
  }

  /**
   * The decision rule over the response parts: first image, else first text
   * as an error, else a fixed error. It succeeds exactly when some part
   * carries inline data, and what it throws is always an `Error`.
   */
  function ExtractImage(parts: seq<ResponsePart>): (r: Result<string, Thrown>)
    ensures r.Success? <==> exists j :: 0 <= j < |parts| && parts[j].inlineData.Some?
    ensures r.Failure? ==> r.error.ErrorObject?
  {
    match FirstImageIndex(parts)
    case Some(k) =>
      var inline := parts[k].inlineData.value;
      Success(EncodeDataUrl(inline.mimeType, inline.data))
    case None =>
      match FirstTextIndex(parts)
      case Some(k) => Failure(TextResponseError(parts[k].text.value))
      case None => Failure(ErrorObject(NoImageFound))
  }

  /** The two scans of the response parts, each returning or throwing at its first match. */
  method ScanResponse(parts: seq<ResponsePart>) returns (r: Result<string, Thrown>)
    ensures r == ExtractImage(parts)
  {
    var i := 0;
    while i < |parts|
      invariant 0 <= i <= |parts|
      invariant forall j :: 0 <= j < i ==> parts[j].inlineData.None?
    {
      if parts[i].inlineData.Some? {
        var inline := parts[i].inlineData.value;
        return Success(EncodeDataUrl(inline.mimeType, inline.data));
      }
      i := i + 1;
    }
    i := 0;
    while i < |parts|
      invariant 0 <= i <= |parts|
      invariant forall j :: 0 <= j < i ==> !Truthy(parts[j].text)
    {
      if Truthy(parts[i].text) {
        return Failure(TextResponseError(parts[i].text.value));
      }
      i := i + 1;
    }
    return Failure(ErrorObject(NoImageFound));
  }

  /**
   * An image part wins: the result is the data URL of the first part with
   * inline data, whatever text parts come before or after it.
   */
  lemma FirstImageWins(parts: seq<ResponsePart>, k: nat)
    requires k < |parts| && parts[k].inlineData.Some?
    requires forall j :: 0 <= j < k ==> parts[j].inlineData.None?
    ensures ExtractImage(parts)
         == Success(EncodeDataUrl(parts[k].inlineData.value.mimeType, parts[k].inlineData.value.data))
  {
    var r := FirstImageIndex(parts);
    assert r.Some? && r.value == k;
  }

  /** Parts without inline data in front of, and any parts after, a response that has an image do not change the result. */
  lemma {:induction false} SurroundingPartsIgnored(front: seq<ResponsePart>, parts: seq<ResponsePart>, back: seq<ResponsePart>)
    requires forall j :: 0 <= j < |front| ==> front[j].inlineData.None?
    requires FirstImageIndex(parts).Some?
    ensures ExtractImage(front + parts + back) == ExtractImage(parts)
  {
    var k := FirstImageIndex(parts).value;
    var all := front + parts + back;
    assert all[|front| + k] == parts[k];
    forall j | 0 <= j < |front| + k ensures all[j].inlineData.None? {
      if j < |front| {
        assert all[j] == front[j];
      } else {
        assert all[j] == parts[j - |front|];
      }
    }
    FirstImageWins(all, |front| + k);
    FirstImageWins(parts, k);
  }

  /**
   * With no image part, the first part with non-empty text is reported; the
   * message wraps the text in a fixed sentence and quotes, so it is never the
   * text itself. Parts whose text is empty are skipped.
   */
  lemma TextPartBecomesError(parts: seq<ResponsePart>, k: nat)
    requires forall j :: 0 <= j < |parts| ==> parts[j].inlineData.None?
    requires k < |parts| && Truthy(parts[k].text)
    requires forall j :: 0 <= j < k ==> !Truthy(parts[j].text)
    ensures ExtractImage(parts) == Failure(ErrorObject(TextResponsePrefix + parts[k].text.value + TextResponseSuffix))
    ensures ExtractImage(parts).error.message != parts[k].text.value
  {
    var r := FirstTextIndex(parts);
    assert r.Some? && r.value == k;
    var m := TextResponsePrefix + parts[k].text.value + TextResponseSuffix;
    assert |m| > |parts[k].text.value|;
  }

  /** With neither an image part nor a non-empty text part, the fixed "no image" error is thrown. */
  lemma NothingUsable(parts: seq<ResponsePart>)
    requires forall j :: 0 <= j < |parts| ==> parts[j].inlineData.None? && !Truthy(parts[j].text)
    ensures ExtractImage(parts) == Failure(ErrorObject(NoImageFound))
  {
  }

  /** The request: model image, garment image, then the prompt, asking for image and text back. */
  function BuildRequest(model: InlineData, garment: InlineData, prompt: string): Request {
    Request(ModelName, [InlinePart(model), InlinePart(garment), TextPart(prompt)], [Image, Text])
  }

  /**
   * Everything before the network call: the key guard comes first, then the
   * model image is parsed, then the garment image, then the request is built.
   */
  function RequestFor(apiKey: Option<string>, modelImage: string, garmentImage: string, prompt: string): (r: Result<Request, Thrown>)
    ensures !Truthy(apiKey) ==> r == Failure(ErrorObject(MissingApiKey))
    ensures Truthy(apiKey) && !(Accepts(modelImage) && Accepts(garmentImage)) ==> r == Failure(ErrorObject(InvalidFormat))
    ensures r.Success? <==> Truthy(apiKey) && Accepts(modelImage) && Accepts(garmentImage)
    ensures r.Success? ==>
      && r.value.model == ModelName && r.value.responseModalities == [Image, Text]
      && |r.value.parts| == 3
      && r.value.parts[0] == InlinePart(ParseDataUrl(modelImage).value)
      && r.value.parts[1] == InlinePart(ParseDataUrl(garmentImage).value)
      && r.value.parts[2] == TextPart(prompt)
      && EncodeDataUrl(r.value.parts[0].inlineData.mimeType, r.value.parts[0].inlineData.data) == modelImage
      && EncodeDataUrl(r.value.parts[1].inlineData.mimeType, r.value.parts[1].inlineData.data) == garmentImage
  {
    if !Truthy(apiKey) then
      Failure(ErrorObject(MissingApiKey))
    else match ParseDataUrl(modelImage)
      case Failure(e) => Failure(ErrorObject(e))
      case Success(model) =>
        match ParseDataUrl(garmentImage)
        case Failure(e) => Failure(ErrorObject(e))
        case Success(garment) => Success(BuildRequest(model, garment, prompt))
  }

  /** What `performVirtualTryOn` resolves to or throws, given the key, the images, the prompt and the service. */
  function TryOnOutcome(apiKey: Option<string>, modelImage: string, garmentImage: string, prompt: string,
                        generate: Request -> Reply): (r: Result<string, Thrown>)
    ensures RequestFor(apiKey, modelImage, garmentImage, prompt).Failure? ==>
      r == Failure(RequestFor(apiKey, modelImage, garmentImage, prompt).error)
    ensures RequestFor(apiKey, modelImage, garmentImage, prompt).Success? ==>
      var reply := generate(RequestFor(apiKey, modelImage, garmentImage, prompt).value);
      && (reply.Threw? ==> r == Failure(reply.thrown))
      && (reply.Responded? ==> r == ExtractImage(reply.parts))
    ensures r.Success? ==>
      && Truthy(apiKey) && Accepts(modelImage) && Accepts(garmentImage)
      && generate(RequestFor(apiKey, modelImage, garmentImage, prompt).value).Responded?
  {
    match RequestFor(apiKey, modelImage, garmentImage, prompt)
    case Failure(e) => Failure(e)
    case Success(request) =>
      match generate(request)
      case Threw(thrown) => Failure(thrown)
      case Responded(parts) => ExtractImage(parts)
  }

  /** With no key configured the configuration error is thrown, whatever the images are and whatever the service would say. */
  lemma MissingKeyFailsFirst(apiKey: Option<string>, modelImage: string, garmentImage: string, prompt: string,
                             generate: Request -> Reply)
    requires !Truthy(apiKey)
    ensures TryOnOutcome(apiKey, modelImage, garmentImage, prompt, generate) == Failure(ErrorObject(MissingApiKey))
  {
  }

  /**
   * `performVirtualTryOn`. `sent` is the request handed to the service, or
   * `None` when an error is thrown before any request is built.
   */
  method PerformVirtualTryOn(apiKey: Option<string>, modelImage: string, garmentImage: string, prompt: string,
                             generate: Request -> Reply)
    returns (outcome: Result<string, Thrown>, sent: Option<Request>)
    ensures sent.None? <==> RequestFor(apiKey, modelImage, garmentImage, prompt).Failure?
    ensures sent.Some? ==> sent.value == RequestFor(apiKey, modelImage, garmentImage, prompt).value
    ensures outcome == TryOnOutcome(apiKey, modelImage, garmentImage, prompt, generate)
  {
    if !Truthy(apiKey) {
      return Failure(ErrorObject(MissingApiKey)), None;
    }
    var model := ParseDataUrl(modelImage);
    if model.Failure? {
      return Failure(ErrorObject(model.error)), None;
    }
    var garment := ParseDataUrl(garmentImage);
    if garment.Failure? {
      return Failure(ErrorObject(garment.error)), None;
    }
    var request := BuildRequest(model.value, garment.value, prompt);
    sent := Some(request);
    var reply := generate(request);
    match reply {
      case Threw(thrown) =>
        outcome := Failure(thrown);
      case Responded(parts) =>
        outcome := ScanResponse(parts);
    }
  }
}
