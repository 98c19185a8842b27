/**
 * The application's state container: five state slots and the handlers that
 * update them. Each asynchronous handler is split at its `await`: a `Begin`
 * method runs the synchronous part and returns the call it hands to the
 * generation service (or `None` when a guard stops it), `FinishGeneration`
 * runs the continuation once the service has settled, and a `Handle` method
 * runs both back to back with the service given as a function.
 */
module App {
  import opened Wrappers
  import opened JsText
  import opened GeminiService

  datatype Slot = ModelSlot | GarmentSlot

  /** What reading the uploaded file gave: a data URL, or a failure. */
  datatype Upload = Loaded(dataUrl: string) | UploadFailed

  /** The arguments of one call to `performVirtualTryOn`. */
  datatype ServiceCall = ServiceCall(modelImage: string, garmentImage: string, prompt: string)

  const UploadFailedMessage := "Failed to load image. Please try another file."
  const MissingImagesMessage := "Please upload both a model and a garment image."
  const TryOnFailurePrefix := "Failed to generate try-on image. "
  const EditMissingImagesMessage := "Cannot edit without the original images. Please re-upload if necessary."
  const BlankEditMessage := "Please describe the changes you want to make."
  const EditFailurePrefix := "Failed to edit image. "
  const UnknownErrorMessage := "An unknown error occurred."

  /** The opening sentence both prompts share. */
  const TryOnInstruction := "From the two images provided, take the garment from one image and place it realistically on the person in the other image."

  const TryOnPrompt := TryOnInstruction + " Maintain the original background of the person. The output should only be the final image of the person wearing the new garment."

  const Quote := "\""
  const EditPromptHead := TryOnInstruction + " Then, apply the following changes: " + Quote
  const EditPromptTail := Quote + ". Maintain the original background of the person unless instructed otherwise. Maintain the person's identity. The output should only be the final edited image."

  /**
   * The edit prompt layers the user's text on the try-on instruction: it
   * opens with the instruction sentence the try-on prompt also opens with,
   * and carries the text verbatim, between double quotes.
   */
  function EditPrompt(editText: string): (prompt: string)
    ensures TryOnInstruction <= prompt
    ensures 0 < |EditPromptHead| && |EditPromptHead| + |editText| < |prompt|
    ensures prompt[|EditPromptHead| - 1] == '"' && prompt[|EditPromptHead| + |editText|] == '"'
    ensures prompt[|EditPromptHead|..|EditPromptHead| + |editText|] == editText
  {
    var prompt := EditPromptHead + editText + EditPromptTail;
    assert EditPromptHead[|EditPromptHead| - 1] == '"' && EditPromptTail[0] == '"';
    assert prompt[..|TryOnInstruction|] == EditPromptHead[..|TryOnInstruction|];
    prompt
  }

  /** The message of a thrown `Error`, or the fixed text for any other thrown value. */
  function ErrorText(thrown: Thrown): string {
    match thrown
    case ErrorObject(message) => message
    case NonErrorValue => UnknownErrorMessage
  }

  class App {
    var modelImage: Option<string>
    var garmentImage: Option<string>
    var resultImage: Option<string>
    var isLoading: bool
    var error: Option<string>

    constructor()
      ensures modelImage == None && garmentImage == None && resultImage == None
      ensures !isLoading && error == None
    {
      modelImage, garmentImage, resultImage := None, None, None;
      isLoading, error := false, None;
    }

    function Image(slot: Slot): Option<string>
      reads this
    {
      match slot
      case ModelSlot => modelImage
      case GarmentSlot => garmentImage
    }

    /**
     * Whether the try-on button is enabled: both slots non-null and nothing
     * loading. It agrees with the handler's guard except on an empty string:
     * the button tests for null, the handler for truthiness.
     */
    predicate CanTryOn()
      reads this
      ensures CanTryOn() ==> !isLoading && modelImage.Some? && garmentImage.Some?
      ensures HasBothImages() && !isLoading ==> CanTryOn()
      ensures CanTryOn() && modelImage != Some("") && garmentImage != Some("") ==> HasBothImages()
    {
      modelImage != None && garmentImage != None && !isLoading
    }

    /** The guard of both generation handlers: both images truthy, that is non-null and non-empty. */
    predicate HasBothImages()
      reads this
    {
      Truthy(modelImage) && Truthy(garmentImage)
    }

    /** `handleImageUpload`, after the file has been read (or has failed to be). */
    method HandleImageUpload(slot: Slot, upload: Upload)
      modifies this
      ensures upload.Loaded? ==> Image(slot) == Some(upload.dataUrl) && error == None && resultImage == None
      ensures upload.Loaded? && slot == ModelSlot ==> garmentImage == old(garmentImage)
      ensures upload.Loaded? && slot == GarmentSlot ==> modelImage == old(modelImage)
      ensures upload.UploadFailed? ==>
        && error == Some(UploadFailedMessage)
        && modelImage == old(modelImage) && garmentImage == old(garmentImage) && resultImage == old(resultImage)
      ensures isLoading == old(isLoading)
    {
      match upload {
        case Loaded(dataUrl) =>
          if slot == ModelSlot {
            modelImage := Some(dataUrl);
          } else {
            garmentImage := Some(dataUrl);
          }
          error := None;
          resultImage := None;
        case UploadFailed =>
          error := Some(UploadFailedMessage);
      }
    }

    /** The remove button of an uploader: that slot becomes null, nothing else changes. */
    method RemoveImage(slot: Slot)
      modifies this
      ensures Image(slot) == None
      ensures slot == ModelSlot ==> garmentImage == old(garmentImage)
      ensures slot == GarmentSlot ==> modelImage == old(modelImage)
      ensures resultImage == old(resultImage) && error == old(error) && isLoading == old(isLoading)
    {
      if slot == ModelSlot {
        modelImage := None;
      } else {
        garmentImage := None;
      }
    }

    /** `handleTryOn` up to its `await`. */
    method BeginTryOn() returns (call: Option<ServiceCall>)
      modifies this
      ensures call.Some? <==> old(HasBothImages())
      ensures call.None? ==>
        && error == Some(MissingImagesMessage)
        && resultImage == old(resultImage) && isLoading == old(isLoading)
      ensures call.Some? ==>
        && call.value == ServiceCall(old(modelImage).value, old(garmentImage).value, TryOnPrompt)
        && isLoading && error == None && resultImage == None
      ensures modelImage == old(modelImage) && garmentImage == old(garmentImage)
    {
      if !Truthy(modelImage) || !Truthy(garmentImage) {
        error := Some(MissingImagesMessage);
        return None;
      }
      isLoading := true;
      error := None;
      resultImage := None;
      call := Some(ServiceCall(modelImage.value, garmentImage.value, TryOnPrompt));
    }

    /**
     * The continuation after the service settles: a success becomes the
     * result; a failure becomes the error, prefixed; loading ends either way.
     */
    method FinishGeneration(failurePrefix: string, outcome: Result<string, Thrown>)
      modifies this
      ensures outcome.Success? ==> resultImage == Some(outcome.value) && error == old(error)
      ensures outcome.Failure? ==>
        error == Some(failurePrefix + ErrorText(outcome.error)) && resultImage == old(resultImage)
      ensures !isLoading
      ensures modelImage == old(modelImage) && garmentImage == old(garmentImage)
    {
      match outcome {
        case Success(generated) =>
          resultImage := Some(generated);
        case Failure(thrown) =>
          error := Some(failurePrefix + ErrorText(thrown));
      }
      isLoading := false;
    }

    /** `handleTryOn`, with the service the call goes to. */
    method HandleTryOn(service: ServiceCall -> Result<string, Thrown>) returns (call: Option<ServiceCall>)
      modifies this
      ensures call.Some? <==> old(HasBothImages())
      ensures call.None? ==>
        && error == Some(MissingImagesMessage)
        && resultImage == old(resultImage) && isLoading == old(isLoading)
      ensures call.Some? ==> call.value == ServiceCall(old(modelImage).value, old(garmentImage).value, TryOnPrompt) && !isLoading
      ensures call.Some? && service(call.value).Success? ==>
        resultImage == Some(service(call.value).value) && error == None
      ensures call.Some? && service(call.value).Failure? ==>
        resultImage == None && error == Some(TryOnFailurePrefix + ErrorText(service(call.value).error))
      ensures modelImage == old(modelImage) && garmentImage == old(garmentImage)
    {
      call := BeginTryOn();
      if call.Some? {
        FinishGeneration(TryOnFailurePrefix, service(call.value));
      }
    }

    /** `handleImageEdit` up to its `await`; the previous result is kept. */
    method BeginImageEdit(editText: string) returns (call: Option<ServiceCall>)
      modifies this
      ensures call.Some? <==> old(HasBothImages()) && !Blank(editText)
      ensures !old(HasBothImages()) ==> error == Some(EditMissingImagesMessage)
      ensures old(HasBothImages()) && Blank(editText) ==> error == Some(BlankEditMessage)
      ensures call.None? ==> isLoading == old(isLoading)
      ensures call.Some? ==>
        && call.value == ServiceCall(old(modelImage).value, old(garmentImage).value, EditPrompt(editText))
        && isLoading && error == None
      ensures resultImage == old(resultImage)
      ensures modelImage == old(modelImage) && garmentImage == old(garmentImage)
    {
      if !Truthy(modelImage) || !Truthy(garmentImage) {
        error := Some(EditMissingImagesMessage);
        return None;
      }
      TrimEmptyIffBlank(editText);
      if Trim(editText) == "" {
        error := Some(BlankEditMessage);
        return None;
      }
      isLoading := true;
      error := None;
      call := Some(ServiceCall(modelImage.value, garmentImage.value, EditPrompt(editText)));
    }

    /** `handleImageEdit`, with the service the call goes to. A failed edit keeps the previous result. */
    method HandleImageEdit(editText: string, service: ServiceCall -> Result<string, Thrown>) returns (call: Option<ServiceCall>)
      modifies this
      ensures call.Some? <==> old(HasBothImages()) && !Blank(editText)
      ensures !old(HasBothImages()) ==> error == Some(EditMissingImagesMessage)
      ensures old(HasBothImages()) && Blank(editText) ==> error == Some(BlankEditMessage)
      ensures call.None? ==> isLoading == old(isLoading) && resultImage == old(resultImage)
      ensures call.Some? ==>
        call.value == ServiceCall(old(modelImage).value, old(garmentImage).value, EditPrompt(editText)) && !isLoading
      ensures call.Some? && service(call.value).Success? ==>
        resultImage == Some(service(call.value).value) && error == None
      ensures call.Some? && service(call.value).Failure? ==>
        resultImage == old(resultImage) && error == Some(EditFailurePrefix + ErrorText(service(call.value).error))
      ensures modelImage == old(modelImage) && garmentImage == old(garmentImage)
    {
      call := BeginImageEdit(editText);
      if call.Some? {
        FinishGeneration(EditFailurePrefix, service(call.value));
      }
    }
  }

  /**
   * The disagreement is reachable: either image slot holding the empty
   * string enables the button, and the handler then rejects the click.
   */
  lemma EmptyImageEnablesRejectedButton(app: App)
    requires app.modelImage.Some? && app.garmentImage.Some? && !app.isLoading
    requires app.modelImage == Some("") || app.garmentImage == Some("")
    ensures app.CanTryOn() && !app.HasBothImages()
  {
  }
}
