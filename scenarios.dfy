/**
 * End-to-end scenarios of the application against the adapter, stated and
 * proved: two uploads, a click on the try-on button, and a service that
 * answers with a fixed list of parts. The adapter's `generate` is the only
 * stand-in.
 */
module Scenarios {
  import opened Wrappers
  import opened DataUrl
  import opened GeminiService
  import opened App

  const ModelUpload := EncodeDataUrl("image/jpeg", "TU9ERUw=")
  const GarmentUpload := EncodeDataUrl("image/jpeg", "R0FSTUVOVA==")

  lemma UploadsAreDataUrls()
    ensures Accepts(ModelUpload) && Accepts(GarmentUpload)
  {
    RoundTrip("image/jpeg", "TU9ERUw=");
    RoundTrip("image/jpeg", "R0FSTUVOVA==");
  }

  lemma PngDataUrl()
    ensures EncodeDataUrl("image/png", "AAAA") == "data:image/png;base64,AAAA"
  {
  }

  /** A fresh application after both uploads succeeded. */
  method UploadBoth() returns (app: App)
    ensures fresh(app)
    ensures app.modelImage == Some(ModelUpload) && app.garmentImage == Some(GarmentUpload)
  {
    app := new App();
    app.HandleImageUpload(ModelSlot, Loaded(ModelUpload));
    app.HandleImageUpload(GarmentSlot, Loaded(GarmentUpload));
  }

  /** The service answers with one image part: the result is that image as a data URL. */
  method ImageAnswer() returns (result: Option<string>, error: Option<string>)
    ensures result == Some(EncodeDataUrl("image/png", "AAAA")) && error == None
    ensures result == Some("data:image/png;base64,AAAA")
  {
    var app := UploadBoth();
    var answer := [ResponsePart(Some(InlineData("image/png", "AAAA")), None)];
    var service := (c: ServiceCall) => TryOnOutcome(Some("key"), c.modelImage, c.garmentImage, c.prompt,
                                                    (request: Request) => Responded(answer));
    UploadsAreDataUrls();
    FirstImageWins(answer, 0);
    var expected := ServiceCall(ModelUpload, GarmentUpload, TryOnPrompt);
    assert RequestFor(Some("key"), ModelUpload, GarmentUpload, TryOnPrompt).Success?;
    assert service(expected) == Success(EncodeDataUrl("image/png", "AAAA"));
    var call := app.HandleTryOn(service);
    result, error := app.resultImage, app.error;
    PngDataUrl();
  }

  /** The service answers with text only: the error wraps that text, and there is no result. */
  method TextAnswer() returns (result: Option<string>, error: Option<string>)
    ensures result == None
    ensures error == Some(TryOnFailurePrefix + (TextResponsePrefix + "blocked by safety filters" + TextResponseSuffix))
  {
    var app := UploadBoth();
    var answer := [ResponsePart(None, Some("blocked by safety filters"))];
    var service := (c: ServiceCall) => TryOnOutcome(Some("key"), c.modelImage, c.garmentImage, c.prompt,
                                                    (request: Request) => Responded(answer));
    UploadsAreDataUrls();
    TextPartBecomesError(answer, 0);
    var expected := ServiceCall(ModelUpload, GarmentUpload, TryOnPrompt);
    assert RequestFor(Some("key"), ModelUpload, GarmentUpload, TryOnPrompt).Success?;
    assert service(expected) == Failure(TextResponseError("blocked by safety filters"));
    var call := app.HandleTryOn(service);
    result, error := app.resultImage, app.error;
  }

  /** No key configured: the configuration error reaches the user, with no result and loading over. */
  method MissingKey(answer: seq<ResponsePart>) returns (result: Option<string>, error: Option<string>, loading: bool)
    ensures result == None && !loading
    ensures error == Some(TryOnFailurePrefix + MissingApiKey)
  {
    var app := UploadBoth();
    var service := (c: ServiceCall) => TryOnOutcome(None, c.modelImage, c.garmentImage, c.prompt,
                                                    (request: Request) => Responded(answer));
    var call := app.HandleTryOn(service);
    result, error, loading := app.resultImage, app.error, app.isLoading;
  }
}
