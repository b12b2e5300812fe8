/**
 * The page component: its state fields and the handlers that change them. The awaited model
 * call splits generation in two: BeginGenerate runs up to the call and returns the request,
 * ResumeGenerate runs from the call's outcome to the end.
 */
module CharacterApp {
  import opened Wrappers
  import opened Text
  import opened Prompt
  import opened Generation
  import opened Upload

  const NoUploadMessage := "Please upload a character image first."
  const ReadErrorMessage := "Failed to read the file."

  /**
   * What the output panel shows. The spinner and the error text are rendered independently;
   * the image and the placeholder only when neither of those is.
   */
  datatype Panel = Panel(spinner: bool, message: Option<string>, image: Option<string>, placeholder: bool)

  /** Every state field of the component, as one value. */
  datatype AppState = AppState(
    uploadedImageForDisplay: Option<string>,
    uploadedImage: Option<string>,
    imageMimeType: string,
    environment: string,
    style: string,
    outfitType: OutfitType,
    predefinedOutfit: string,
    customOutfit: string,
    pose: string,
    generatedImage: Option<string>,
    isLoading: bool,
    error: Option<string>)

  /** The state the page starts in. */
  const Initial := AppState(None, None, "", "a beach", "photorealistic", Predefined, "casual wear", "", "sitting on a chair",
                            None, false, None)

  /** The three fields a file read writes. */
  function UploadOf(s: AppState): UploadState {
    UploadState(s.uploadedImageForDisplay, s.uploadedImage, s.imageMimeType)
  }

  /**
   * The invariant every handler keeps: the payload belongs to the preview, a shown error is
   * never empty (so it is always displayed), and a generated image is a data URL.
   */
  predicate ValidState(s: AppState) {
    Coherent(UploadOf(s)) &&
    (s.error.Some? ==> s.error.value != "") &&
    (s.generatedImage.Some? ==> |s.generatedImage.value| >= 5 && s.generatedImage.value[..5] == "data:")
  }

  /**
   * The output panel's rendering of a state: the spinner while loading, the error whenever it is
   * truthy (even beside the spinner), and otherwise exactly one of the image and the placeholder.
   */
  function View(s: AppState): (v: Panel)
    ensures v.spinner == s.isLoading
    ensures v.message.Some? <==> Truthy(s.error)
    ensures v.message.Some? ==> v.message == s.error
    ensures v.image.Some? ==> v.image == s.generatedImage && !v.spinner && v.message.None?
    ensures !v.spinner && v.message.None? ==> (v.image.Some? <==> !v.placeholder)
    ensures !v.spinner && v.message.None? ==> (v.image.Some? <==> Truthy(s.generatedImage))
    ensures v.placeholder ==> !v.spinner && v.message.None? && v.image.None?
  {
    var idle := !s.isLoading && !Truthy(s.error);
    Panel(s.isLoading,
          if Truthy(s.error) then s.error else None,
          if idle && Truthy(s.generatedImage) then s.generatedImage else None,
          idle && !Truthy(s.generatedImage))
  }

  /**
   * A completed read (the `onloadend` handler): preview, payload and MIME type are replaced
   * together and belong together, and the error is cleared; nothing else changes.
   */
  function AfterLoad(s: AppState, fileType: string, dataUrl: string): (t: AppState)
    ensures t.uploadedImageForDisplay == Some(dataUrl) && t.imageMimeType == fileType && t.error.None?
    ensures Coherent(UploadOf(t))
    ensures t.(uploadedImageForDisplay := s.uploadedImageForDisplay, uploadedImage := s.uploadedImage,
               imageMimeType := s.imageMimeType, error := s.error) == s
    ensures ValidState(s) ==> ValidState(t)
  {
    var result := dataUrl;
    s.(uploadedImageForDisplay := Some(result), uploadedImage := CommaSegment(result),
       imageMimeType := fileType, error := None)
  }

  /** A failed read as intended (the `onerror` handler alone): only the error is set. */
  function AfterReadFailure(s: AppState): (t: AppState)
    ensures t.error == Some(ReadErrorMessage) && t.(error := s.error) == s
    ensures ValidState(s) ==> ValidState(t)
  {
    s.(error := Some(ReadErrorMessage))
  }

  /**
   * A failed read as the handlers are written: the browser fires `loadend` after `error`, with
   * a null result, so after `onerror` sets the error, `onloadend` sets the preview to null and
   * then throws at `result.split`; the payload and MIME type of the previous file stay.
   */
  function AfterReadFailureAsWritten(s: AppState): (t: AppState)
    ensures t.error == Some(ReadErrorMessage) && t.uploadedImageForDisplay.None?
    ensures t.uploadedImage == s.uploadedImage && t.imageMimeType == s.imageMimeType
    ensures t.(error := s.error, uploadedImageForDisplay := s.uploadedImageForDisplay) == s
  {
    s.(error := Some(ReadErrorMessage), uploadedImageForDisplay := None)
  }

  /**
   * After a good upload, a failed read as written leaves the old payload sendable (the Generate
   * button enabled) with no preview shown, which breaks the invariant; the intended handling
   * keeps the preview and the invariant.
   */
  lemma ReadFailureAsWrittenDropsPreview(s: AppState, mimeType: string, data: string)
    requires ValidState(s) && !s.isLoading
    requires ',' !in mimeType && ',' !in data && data != ""
    ensures var loaded := AfterLoad(s, mimeType, DataUrl(mimeType, data));
      var t := AfterReadFailureAsWritten(loaded);
      t.uploadedImageForDisplay.None? && t.uploadedImage == Some(data) &&
      !t.isLoading && Truthy(t.uploadedImage) && !ValidState(t)
    ensures var loaded := AfterLoad(s, mimeType, DataUrl(mimeType, data));
      var u := AfterReadFailure(loaded);
      u.uploadedImageForDisplay == Some(DataUrl(mimeType, data)) && u.uploadedImage == Some(data) && ValidState(u)
  {
    DataUrlPayload(mimeType, data);
  }

  /** The choices the prompt is built from. */
  function ParamsOf(s: AppState): Params {
    Params(s.environment, s.style, s.outfitType, s.predefinedOutfit, s.customOutfit, s.pose)
  }

  /** The request sent for a state whose payload is present. */
  function RequestFor(s: AppState): Request
    requires s.uploadedImage.Some?
  {
    MakeRequest(s.uploadedImage.value, s.imageMimeType, FullPrompt(ParamsOf(s)))
  }

  /**
   * What a call's outcome leaves in the state once the call is over: the spinner stops, the
   * image or the error is recorded, and the choices and the upload stay as they were.
   */
  function Settled(s: AppState, outcome: CallOutcome): (t: AppState)
    ensures !t.isLoading && ParamsOf(t) == ParamsOf(s) && UploadOf(t) == UploadOf(s)
    ensures Settle(outcome).Image? ==> t.generatedImage == Some(Settle(outcome).url) && t.error == s.error
    ensures Settle(outcome).Failure? ==> t.error == Some(Settle(outcome).message) && t.generatedImage == s.generatedImage
  {
    match Settle(outcome)
    case Image(url) => s.(generatedImage := Some(url), isLoading := false)
    case Failure(message) => s.(error := Some(message), isLoading := false)
  }

  /**
   * Settling a call whose start cleared the result leaves exactly one of image and error,
   * stops the spinner, keeps the invariant, and the panel shows just that image or message.
   */
  lemma SettledShowsOneResult(s: AppState, outcome: CallOutcome)
    requires ValidState(s) && s.error.None? && s.generatedImage.None?
    ensures var t := Settled(s, outcome);
      ValidState(t) && !t.isLoading && (t.generatedImage.Some? <==> t.error.None?) &&
      View(t) == match Settle(outcome)
        case Image(url) => Panel(false, None, Some(url), false)
        case Failure(m) => Panel(false, Some(m), None, false)
  {
    var t := Settled(s, outcome);
    assert UploadOf(t) == UploadOf(s);
    match Settle(outcome)
    case Image(url) =>
      assert url[..5] == "data:";
    case Failure(_) =>
  }

  class App {
    var uploadedImageForDisplay: Option<string>
    var uploadedImage: Option<string>
    var imageMimeType: string
    var environment: string
    var style: string
    var outfitType: OutfitType
    var predefinedOutfit: string
    var customOutfit: string
    var pose: string
    var generatedImage: Option<string>
    var isLoading: bool
    var error: Option<string>

    function State(): AppState
      reads this
    {
      AppState(uploadedImageForDisplay, uploadedImage, imageMimeType, environment, style, outfitType,
               predefinedOutfit, customOutfit, pose, generatedImage, isLoading, error)
    }

    predicate Valid()
      reads this
    {
      ValidState(State())
    }

    constructor ()
      ensures Valid() && State() == Initial
    {
      uploadedImageForDisplay, uploadedImage, imageMimeType := None, None, "";
      environment, style := "a beach", "photorealistic";
      outfitType, predefinedOutfit, customOutfit := Predefined, "casual wear", "";
      pose := "sitting on a chair";
      generatedImage, isLoading, error := None, false, None;
    }

    method SetEnvironment(value: string)
      requires Valid()
      modifies this
      ensures Valid() && State() == old(State()).(environment := value)
    {
      environment := value;
    }

    method SetStyle(value: string)
      requires Valid()
      modifies this
      ensures Valid() && State() == old(State()).(style := value)
    {
      style := value;
    }

    method SetOutfitType(value: OutfitType)
      requires Valid()
      modifies this
      ensures Valid() && State() == old(State()).(outfitType := value)
    {
      outfitType := value;
    }

    method SetPredefinedOutfit(value: string)
      requires Valid()
      modifies this
      ensures Valid() && State() == old(State()).(predefinedOutfit := value)
    {
      predefinedOutfit := value;
    }

    method SetCustomOutfit(value: string)
      requires Valid()
      modifies this
      ensures Valid() && State() == old(State()).(customOutfit := value)
    {
      customOutfit := value;
    }

    method SetPose(value: string)
      requires Valid()
      modifies this
      ensures Valid() && State() == old(State()).(pose := value)
    {
      pose := value;
    }

    /** A completed read: preview, payload and MIME type are replaced together and the error is cleared. */
    method FileLoaded(fileType: string, dataUrl: string)
      requires Valid()
      modifies this
      ensures Valid() && State() == AfterLoad(old(State()), fileType, dataUrl)
    {
      var result := dataUrl;
      uploadedImageForDisplay := Some(result);
      uploadedImage := CommaSegment(result);
      imageMimeType := fileType;
      error := None;
    }

    /** A failed read: only the error changes (the intended behaviour, see AfterReadFailureAsWritten). */
    method ReadFailed()
      requires Valid()
      modifies this
      ensures Valid() && State() == AfterReadFailure(old(State()))
    {
      error := Some(ReadErrorMessage);
    }

    /**
     * A file choice: nothing happens without a file; otherwise the read's result (the data URL,
     * or a failure) goes to the matching handler.
     */
    method SelectFile(fileType: Option<string>, read: Option<string>)
      requires Valid()
      modifies this
      ensures Valid()
      ensures fileType.None? ==> State() == old(State())
      ensures fileType.Some? && read.Some? ==> State() == AfterLoad(old(State()), fileType.value, read.value)
      ensures fileType.Some? && read.None? ==> State() == AfterReadFailure(old(State()))
    {
      if fileType.None? {
        return;
      }
      if read.Some? {
        FileLoaded(fileType.value, read.value);
      } else {
        ReadFailed();
      }
    }

    /**
     * Generation up to the awaited call. Without a payload it only reports the missing image
     * and sends nothing; otherwise it starts the spinner, clears the previous result and error,
     * and returns the request built from the current choices.
     */
    method BeginGenerate() returns (request: Option<Request>)
      requires Valid()
      modifies this
      ensures Valid()
      ensures !Truthy(old(uploadedImage)) ==>
        request.None? && State() == old(State()).(error := Some(NoUploadMessage))
      ensures Truthy(old(uploadedImage)) ==>
        request == Some(RequestFor(old(State()))) &&
        State() == old(State()).(isLoading := true, error := None, generatedImage := None) &&
        View(State()) == Panel(true, None, None, false)
    {
      if !Truthy(uploadedImage) {
        error := Some(NoUploadMessage);
        return None;
      }
      isLoading := true;
      error := None;
      generatedImage := None;

      var fullPrompt := FullPrompt(ParamsOf(State()));
      request := Some(MakeRequest(uploadedImage.value, imageMimeType, fullPrompt));
    }

    /**
     * Generation from the call's outcome on: the first inline image of the response becomes
     * the generated image, or the error records why there is none; the spinner stops either way.
     */
    method ResumeGenerate(outcome: CallOutcome)
      requires Valid()
      modifies this
      ensures Valid()
      ensures State() == Settled(old(State()), outcome)
    {
      match outcome {
        case Threw(message) =>
          error := Some(if message.Some? && message.value != "" then message.value else UnexpectedMessage);
        case Returned(response) =>
          var foundImage := false;
          var parts := PartsOf(response);
          if parts.Some? {
            var imageUrl;
            foundImage, imageUrl := ScanForImage(parts.value);
            if foundImage {
              generatedImage := imageUrl;
            }
          }
          if !foundImage {
            error := Some(NoImageMessage);
          }
      }
      isLoading := false;
    }

    /**
     * The whole handler with the call's outcome given: without a payload, only the error is
     * set; with one, the request is sent and afterwards the spinner is off and exactly one of
     * image and error is shown.
     */
    method Generate(outcome: CallOutcome) returns (request: Option<Request>)
      requires Valid()
      modifies this
      ensures Valid()
      ensures !Truthy(old(uploadedImage)) ==>
        request.None? && State() == old(State()).(error := Some(NoUploadMessage))
      ensures Truthy(old(uploadedImage)) ==>
        request == Some(RequestFor(old(State()))) &&
        State() == Settled(old(State()).(error := None, generatedImage := None), outcome) &&
        !isLoading && (generatedImage.Some? <==> error.None?)
    {
      request := BeginGenerate();
      if request.Some? {
        ghost var started := State();
        ResumeGenerate(outcome);
        SettledShowsOneResult(started, outcome);
      }
    }

    /**
     * The Generate button: disabled, so a no-op, while a call is in flight or while there is no
     * payload; otherwise it starts generation.
     */
    method ClickGenerate() returns (request: Option<Request>)
      requires Valid()
      modifies this
      ensures Valid()
      ensures old(isLoading) || !Truthy(old(uploadedImage)) ==> request.None? && State() == old(State())
      ensures !old(isLoading) && Truthy(old(uploadedImage)) ==>
        request == Some(RequestFor(old(State()))) &&
        State() == old(State()).(isLoading := true, error := None, generatedImage := None)
    {
      if isLoading || !Truthy(uploadedImage) {
        return None;
      }
      request := BeginGenerate();
    }
  }

  /** One session: upload, choose the anime style, generate, try again while loading, settle on the first image. */
  method Session(text: Part, first: Blob, second: Blob)
    requires text.inlineData.None?
  {
    var app := new App();
    DataUrlPayload("image/jpeg", "QUJD");
    app.FileLoaded("image/jpeg", DataUrl("image/jpeg", "QUJD"));
    assert app.uploadedImage == Some("QUJD") && app.imageMimeType == "image/jpeg";
    app.SetStyle("anime");
    var request := app.ClickGenerate();
    assert request.Some? && request.value.parts[0].inlineData == Some(Blob(Some("image/jpeg"), Some("QUJD")));
    AnimeBeachPrompt();
    assert request.value.parts[1].text ==
      Some(FullPrompt(Params("a beach", "anime", Predefined, "casual wear", "", "sitting on a chair")));
    var again := app.ClickGenerate();
    assert again.None? && app.isLoading;
    SecondPartWins(text, first, second);
    ghost var started := app.State();
    app.ResumeGenerate(Returned(GenerateContentResponse(Some([Candidate(Some(Content(Some(
      [text, Part(None, Some(first)), Part(None, Some(second))]))))]))));
    SettledShowsOneResult(started, Returned(GenerateContentResponse(Some([Candidate(Some(Content(Some(
      [text, Part(None, Some(first)), Part(None, Some(second))]))))]))));
    assert View(app.State()) == Panel(false, None, Some(ImageUrl(first)), false);
  }
}
