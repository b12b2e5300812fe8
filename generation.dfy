/**
 * The exchange with the image model: the request the page sends, the shape of the
 * response it reads, the scan for the first inline image and what each outcome means
 * for the page.
 */
module Generation {
  import opened Wrappers
  import opened Text
  import opened Upload

  /** Inline binary data; the SDK leaves both fields optional. */
  datatype Blob = Blob(mimeType: Option<string>, data: Option<string>)

  /** One content part: text, inline data, or (in a response) either may be absent. */
  datatype Part = Part(text: Option<string>, inlineData: Option<Blob>)

  datatype Content = Content(parts: Option<seq<Part>>)
  datatype Candidate = Candidate(content: Option<Content>)
  datatype GenerateContentResponse = GenerateContentResponse(candidates: Option<seq<Candidate>>)

  /** How the awaited model call ended: a response, or an exception with its `message`, if any. */
  datatype CallOutcome = Returned(response: GenerateContentResponse) | Threw(message: Option<string>)

  datatype Modality = IMAGE | TEXT

  datatype Request = Request(model: string, parts: seq<Part>, responseModalities: seq<Modality>)

  const Model := "gemini-2.5-flash-image-preview"

  /** The request: the photo as inline data first, the prompt as text second, image and text accepted back. */
  function MakeRequest(data: string, mimeType: string, prompt: string): Request {
    Request(Model,
            [Part(None, Some(Blob(Some(mimeType), Some(data)))), Part(Some(prompt), None)],
            [IMAGE, TEXT])
  }

  /** A template literal's rendering of an optional string: an absent one prints as "undefined". */
  function Interpolate(s: Option<string>): string {
    if s.Some? then s.value else "undefined"
  }

  /**
   * The data URL shown for a returned image: `data:`, the blob's MIME type (or `undefined`),
   * `;base64,` and the blob's data (or `undefined`). When the MIME type and the base64 text
   * hold no comma, the text after the comma is the blob's data.
   */
  function ImageUrl(b: Blob): (r: string)
    ensures |r| >= 5 && r[..5] == "data:"
    ensures var m := Interpolate(b.mimeType);
      |r| >= 13 + |m| && r[5..5 + |m|] == m && r[5 + |m|..13 + |m|] == ";base64,"
    ensures b.mimeType.None? ==> r[5..14] == "undefined"
    ensures b.data.Some? ==> r[13 + |Interpolate(b.mimeType)|..] == b.data.value
    ensures b.data.Some? && ',' !in Interpolate(b.mimeType) && ',' !in b.data.value ==>
      CommaSegment(r) == b.data
  {
    var mimeType, data := Interpolate(b.mimeType), Interpolate(b.data);
    var r := DataUrl(mimeType, data);
    assert b.mimeType.None? ==> mimeType == "undefined" && |mimeType| == 9;
    if ',' !in mimeType && ',' !in data then DataUrlPayload(mimeType, data); r
    else r
  }

  /**
   * The parts of the first candidate's content: present exactly when the response has
   * candidates, a first one, content in it and parts in that.
   */
  function PartsOf(response: GenerateContentResponse): Option<seq<Part>> {
    match response.candidates
    case None => None
    case Some(candidates) =>
      if candidates == [] then None
      else match candidates[0].content
        case None => None
        case Some(content) => content.parts
  }

  /** The image URL of the first part that carries inline data (a data URL); none exactly when no part does. */
  function FirstImageUrl(parts: seq<Part>): (r: Option<string>)
    ensures r.None? <==> forall j :: 0 <= j < |parts| ==> parts[j].inlineData.None?
    ensures r.Some? ==> |r.value| >= 5 && r.value[..5] == "data:"
  {
    if parts == [] then None
    else if parts[0].inlineData.Some? then Some(ImageUrl(parts[0].inlineData.value))
    else FirstImageUrl(parts[1..])
  }

  /** The first inline part decides FirstImageUrl, wherever it stands. */
  lemma {:induction false} FirstImageUrlAt(parts: seq<Part>, k: nat)
    requires k < |parts| && parts[k].inlineData.Some?
    requires forall j :: 0 <= j < k ==> parts[j].inlineData.None?
    ensures FirstImageUrl(parts) == Some(ImageUrl(parts[k].inlineData.value))
  {
    if k > 0 {
      FirstImageUrlAt(parts[1..], k - 1);
    }
  }

  /** Parts after an inline image make no difference: later images are ignored. */
  lemma {:induction false} LaterPartsIgnored(parts: seq<Part>, later: seq<Part>)
    requires FirstImageUrl(parts).Some?
    ensures FirstImageUrl(parts + later) == FirstImageUrl(parts)
  {
    if parts[0].inlineData.None? {
      assert (parts + later)[1..] == parts[1..] + later;
      LaterPartsIgnored(parts[1..], later);
    }
  }

  /** Parts without inline data in front make no difference either. */
  lemma {:induction false} LeadingTextIgnored(texts: seq<Part>, parts: seq<Part>)
    requires forall j :: 0 <= j < |texts| ==> texts[j].inlineData.None?
    ensures FirstImageUrl(texts + parts) == FirstImageUrl(parts)
  {
    if texts != [] {
      assert (texts + parts)[1..] == texts[1..] + parts;
      LeadingTextIgnored(texts[1..], parts);
    } else {
      assert texts + parts == parts;
    }
  }

  /**
   * The scan of the response parts: stops at the first part with inline data and gives its
   * data URL; reports nothing found when no part carries inline data.
   */
  method ScanForImage(parts: seq<Part>) returns (foundImage: bool, imageUrl: Option<string>)
    ensures foundImage == imageUrl.Some?
    ensures foundImage <==> exists j :: 0 <= j < |parts| && parts[j].inlineData.Some?
    ensures foundImage ==>
      exists k :: 0 <= k < |parts| && parts[k].inlineData.Some? &&
        (forall j :: 0 <= j < k ==> parts[j].inlineData.None?) &&
        imageUrl == Some(ImageUrl(parts[k].inlineData.value))
    ensures imageUrl == FirstImageUrl(parts)
  {
    foundImage, imageUrl := false, None;
    var i := 0;
    while i < |parts|
      invariant 0 <= i <= |parts|
      invariant forall j :: 0 <= j < i ==> parts[j].inlineData.None?
    {
      if parts[i].inlineData.Some? {
        imageUrl := Some(ImageUrl(parts[i].inlineData.value));
        foundImage := true;
        FirstImageUrlAt(parts, i);
        break;
      }
      i := i + 1;
    }
  }

  const NoImageMessage := "The AI didn't return an image. Please try a different prompt or image."
  const UnexpectedMessage := "An unexpected error occurred. Please try again."

  /** What a finished call leaves for the page to show. */
  datatype Settlement = Image(url: string) | Failure(message: string)

  /**
   * The meaning of a call outcome: an image exactly when the call returned parts and one of
   * them carries inline data, and then the first such part's data URL; otherwise a non-empty
   * message, the exception's own when it has a non-empty one.
   */
  function Settle(outcome: CallOutcome): (s: Settlement)
    ensures s.Image? <==>
      (outcome.Returned? && PartsOf(outcome.response).Some? &&
       exists j :: 0 <= j < |PartsOf(outcome.response).value| && PartsOf(outcome.response).value[j].inlineData.Some?)
    ensures s.Image? ==> Some(s.url) == FirstImageUrl(PartsOf(outcome.response).value)
    ensures s.Failure? ==> s.message != ""
    ensures outcome.Returned? && s.Failure? ==> s.message == NoImageMessage
    ensures outcome.Threw? ==>
      s.Failure? &&
      (if outcome.message.Some? && outcome.message.value != "" then s.message == outcome.message.value
       else s.message == UnexpectedMessage)
  {
    match outcome
    case Threw(message) =>
      Failure(if message.Some? && message.value != "" then message.value else UnexpectedMessage)
    case Returned(response) =>
      var parts := PartsOf(response);
      if parts.Some? && FirstImageUrl(parts.value).Some? then Image(FirstImageUrl(parts.value).value)
      else Failure(NoImageMessage)
  }

  /** A reply of text, image, image settles on the first image. */
  lemma SecondPartWins(text: Part, first: Blob, second: Blob)
    requires text.inlineData.None?
    ensures Settle(Returned(GenerateContentResponse(Some([Candidate(Some(Content(Some(
      [text, Part(None, Some(first)), Part(None, Some(second))]))))]))))
      == Image(ImageUrl(first))
  {
    FirstImageUrlAt([text, Part(None, Some(first)), Part(None, Some(second))], 1);
  }
}
