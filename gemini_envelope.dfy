/**
 * The Gemini `GenerateContentResponse` envelope as far as image generation reads
 * it, and the reference definition of which image the service stores: every
 * level of the envelope is optional (a null reference and an empty `Optional`
 * are both `None`), only the first candidate is looked at, and the first part
 * that carries inline data with bytes wins.
 */
module GeminiEnvelope {
  import opened Wrappers
  import opened Strings
  import opened Entities

  datatype Blob = Blob(mimeType: Option<string>, data: Option<seq<byte>>)
  datatype Part = Part(text: Option<string>, inlineData: Option<Blob>)
  datatype Content = Content(parts: Option<seq<Part>>)
  datatype Candidate = Candidate(content: Option<Content>)
  datatype GenerateContentResponse = GenerateContentResponse(candidates: Option<seq<Candidate>>)

  /** The image the service stores: the file extension chosen from the MIME type, and the bytes. */
  datatype Payload = Payload(extension: string, data: seq<byte>)

  /** The file extension for a blob's MIME type: "jpeg" wins over "webp", anything else is PNG. */
  function ImageExtension(mimeType: Option<string>): string {
    if mimeType.Some? && Contains(mimeType.value, "jpeg") then ".jpg"
    else if mimeType.Some? && Contains(mimeType.value, "webp") then ".webp"
    else ".png"
  }

  /** The MIME types the provider sends for the three extensions. */
  function StandardMimeType(extension: string): string {
    if extension == ".jpg" then "image/jpeg"
    else if extension == ".webp" then "image/webp"
    else "image/png"
  }

  /** The standard MIME type of each of the three extensions maps back to that extension. */
  lemma StandardMimeTypeRoundTrip(extension: string)
    requires extension == ".jpg" || extension == ".webp" || extension == ".png"
    ensures ImageExtension(Some(StandardMimeType(extension))) == extension
  {
    if extension == ".jpg" {
      ContainsAt("image/jpeg", "jpeg", 6);
    } else if extension == ".webp" {
      NotContainsFirstChar("image/webp", "jpeg");
      ContainsAt("image/webp", "webp", 6);
    } else {
      NotContainsFirstChar("image/png", "jpeg");
      NotContainsFirstChar("image/png", "webp");
    }
  }

  /** The "jpeg" test comes first: a MIME type naming both formats gets ".jpg". */
  lemma JpegTakesPrecedence(mimeType: string)
    requires Contains(mimeType, "jpeg") && Contains(mimeType, "webp")
    ensures ImageExtension(Some(mimeType)) == ".jpg"
  {
  }

  /** A part with inline data whose bytes are present. */
  predicate CarriesImage(p: Part) {
    p.inlineData.Some? && p.inlineData.value.data.Some?
  }

  function PayloadOf(p: Part): Payload
    requires CarriesImage(p)
  {
    Payload(ImageExtension(p.inlineData.value.mimeType), p.inlineData.value.data.value)
  }

  /** The payload of the first part that carries an image, scanning in order. */
  function FirstImage(parts: seq<Part>): (r: Option<Payload>)
    ensures r.None? <==> forall k | 0 <= k < |parts| :: !CarriesImage(parts[k])
  {
    if parts == [] then None
    else if CarriesImage(parts[0]) then Some(PayloadOf(parts[0]))
    else FirstImage(parts[1..])
  }

  /**
   * The payload is that of the first carrying part: parts before it, including
   * parts with inline data but no bytes, are skipped, and parts after it are
   * never looked at.
   */
  lemma {:induction false} FirstImageIsFirstCarrier(parts: seq<Part>, k: nat)
    requires k < |parts| && CarriesImage(parts[k])
    requires forall j | 0 <= j < k :: !CarriesImage(parts[j])
    ensures FirstImage(parts) == Some(PayloadOf(parts[k]))
  {
    if k > 0 {
      FirstImageIsFirstCarrier(parts[1..], k - 1);
    }
  }

  /** The parts of the first candidate's content, when every level down to them is present. */
  function FirstCandidateParts(response: GenerateContentResponse): Option<seq<Part>> {
    match response.candidates
    case None => None
    case Some(candidates) =>
      if |candidates| == 0 then None
      else match candidates[0].content
        case None => None
        case Some(content) => content.parts
  }

  /** The image `processResponse` stores for `response`, if any. */
  function ImagePayload(response: GenerateContentResponse): (r: Option<Payload>)
    ensures response.candidates.None? ==> r.None?
    ensures response.candidates.Some? && |response.candidates.value| == 0 ==> r.None?
    ensures response.candidates.Some? && |response.candidates.value| > 0 ==>
              var first := response.candidates.value[0];
              (first.content.None? ==> r.None?) &&
              (first.content.Some? && first.content.value.parts.None? ==> r.None?)
  {
    match FirstCandidateParts(response)
    case None => None
    case Some(parts) => FirstImage(parts)
  }

  /** Candidates after the first never influence the stored image. */
  lemma OnlyFirstCandidateMatters(candidates: seq<Candidate>, others: seq<Candidate>)
    requires |candidates| > 0
    ensures ImagePayload(GenerateContentResponse(Some(candidates))) ==
            ImagePayload(GenerateContentResponse(Some([candidates[0]] + others)))
  {
  }

  /**
   * A response whose first candidate has a text part followed by a JPEG part
   * yields that part's bytes with the ".jpg" extension.
   */
  lemma JpegInSecondPart(text: string, bytes: seq<byte>)
    ensures ImagePayload(GenerateContentResponse(Some([Candidate(Some(Content(Some([
              Part(Some(text), None),
              Part(None, Some(Blob(Some("image/jpeg"), Some(bytes))))]))))])))
            == Some(Payload(".jpg", bytes))
  {
    StandardMimeTypeRoundTrip(".jpg");
    var parts := [Part(Some(text), None), Part(None, Some(Blob(Some("image/jpeg"), Some(bytes))))];
    FirstImageIsFirstCarrier(parts, 1);
  }
}
