/** The request building and response handling of `GeminiService`
    (src/services/gemini.service.ts). The two model endpoints are foreign: each
    is a parameter of type `ContentEndpoint` or `ImagesEndpoint`, a function from
    the request sent to the outcome of the awaited call. */
module GeminiService {

  import opened Wrappers
  import opened Text

  /** One entry of a multimodal request: inline image data tagged with a MIME
      type (`data` is None where JavaScript would hold `undefined`), or text. */
  datatype Part = InlineData(data: Option<string>, mimeType: string) | TextPart(text: string)

  datatype ImageConfig = ImageConfig(numberOfImages: nat, outputMimeType: string, aspectRatio: string)

  /** What the service sends: `generateContent` or `generateImages`. */
  datatype Request =
    | GenerateContent(model: string, parts: seq<Part>)
    | GenerateImages(model: string, prompt: string, config: ImageConfig)

  datatype GeneratedImage = GeneratedImage(imageBytes: string)

  /** The reply of `generateImages`; its image list may be missing. */
  datatype ImagesResponse = ImagesResponse(generatedImages: Option<seq<GeneratedImage>>)

  /** Why a call rejected: the endpoint itself failed, or the image reply held no image. */
  datatype Failure = EndpointError | NoImageProduced

  type ContentEndpoint = Request -> Result<string, Failure>
  type ImagesEndpoint = Request -> Result<ImagesResponse, Failure>

  const TextModel := "gemini-2.5-flash"
  const ImageModel := "imagen-3.0-generate-002"
  const PngDataUriHeader := "data:image/png;base64"

  /** The characters of base64 text: letters, digits, '+', '/' and the '=' padding. */
  predicate IsBase64Char(c: char) {
    ('A' <= c <= 'Z') || ('a' <= c <= 'z') || ('0' <= c <= '9') || c == '+' || c == '/' || c == '='
  }

  predicate IsBase64(s: string) {
    forall i :: 0 <= i < |s| ==> IsBase64Char(s[i])
  }

  /** The text between the first and the second comma of `s` (up to the end when
      there is one comma only), or None when `s` has no comma. */
  function PayloadField(s: string): (r: Option<string>)
    ensures r.None? <==> ',' !in s
    ensures r.Some? ==> ',' !in r.value
  {
    match IndexOf(s, ',')
    case None => None
    case Some(i) =>
      var rest := s[i + 1..];
      match IndexOf(rest, ',')
      case None => Some(rest)
      case Some(j) => Some(rest[..j])
  }

  /** `base64ToGenerativePart`: keeps field 1 of `data.split(',')` and tags it with
      the given MIME type, whatever the header of `data` says. */
  function Base64ToGenerativePart(data: string, mimeType: string): (r: Part)
    ensures r.InlineData? && r.mimeType == mimeType
    ensures r.data.Some? ==> ',' !in r.data.value
  {
    var fields := Split(data, ',');
    InlineData(if |fields| >= 2 then Some(fields[1]) else None, mimeType)
  }

  /** The data of a part, field 1 of `s.split(',')`, is the text between the
      first two commas of `s`, and is absent exactly when `s` has no comma. */
  lemma {:induction false} PartDataIsPayload(s: string, mimeType: string)
    ensures Base64ToGenerativePart(s, mimeType).data == PayloadField(s)
  {
    SplitFirstPiece(s, ',');
    if IndexOf(s, ',').Some? {
      SplitFirstPiece(s[IndexOf(s, ',').value + 1..], ',');
    }
  }

  /** The data URI `generateImage` builds around the returned bytes. */
  function PngDataUri(imageBytes: string): (r: string)
    ensures StartsWith(r, PngDataUriHeader + ",")
    ensures r[|PngDataUriHeader| + 1..] == imageBytes
  {
    PngDataUriHeader + "," + imageBytes
  }

  /** Round trip: the payload of a PNG data URI is the bytes it was built from,
      whenever they hold no comma. */
  lemma {:induction false} PngDataUriRoundTrip(imageBytes: string, mimeType: string)
    requires ',' !in imageBytes
    ensures Base64ToGenerativePart(PngDataUri(imageBytes), mimeType).data == Some(imageBytes)
  {
    assert ',' !in PngDataUriHeader;
    var pieces := [PngDataUriHeader, imageBytes];
    assert Join(pieces, ',') == PngDataUri(imageBytes);
    SplitJoin(pieces, ',');
  }

  /** The round trip for the base64 text the image model returns. */
  lemma {:induction false} Base64PngDataUriRoundTrip(imageBytes: string, mimeType: string)
    requires IsBase64(imageBytes)
    ensures Base64ToGenerativePart(PngDataUri(imageBytes), mimeType).data == Some(imageBytes)
  {
    PngDataUriRoundTrip(imageBytes, mimeType);
  }

  /** `s` occurs in `text` at position `i`. */
  predicate OccursAt(text: string, s: string, i: nat) {
    i + |s| <= |text| && text[i..i + |s|] == s
  }

  /** `s` occurs in `text`. */
  predicate Contains(text: string, s: string) {
    exists i: nat | i <= |text| :: OccursAt(text, s, i)
  }

  /** The two instruction templates, cut down to the sentence that carries the
      slot: the style id in one, the user's edit request in the other. */
  const ReunifyInstructionHead := "The desired style is \""
  const ReunifyInstructionTail := "\"."
  const EditInstructionHead := "The modification is: \""
  const EditInstructionTail := "\"."

  /** The template `head`, then `s` verbatim, then `tail`. */
  function Fill(head: string, s: string, tail: string): (r: string)
    ensures OccursAt(r, s, |head|)
    ensures StartsWith(r, head) && OccursAt(r, tail, |head| + |s|) && |r| == |head| + |s| + |tail|
  {
    var r := head + s + tail;
    assert OccursAt(r, s, |head|);
    assert OccursAt(r, tail, |head| + |s|);
    r
  }

  /** The request of `generateReunifyPrompt`: both photos, in that order and
      tagged `image/jpeg`, then the instruction naming the style. */
  function ReunifyPromptRequest(childhoodImg: string, currentImg: string, style: string): (r: Request)
    ensures r.GenerateContent? && r.model == TextModel && |r.parts| == 3
    ensures r.parts[0] == Base64ToGenerativePart(childhoodImg, "image/jpeg")
    ensures r.parts[1] == Base64ToGenerativePart(currentImg, "image/jpeg")
    ensures r.parts[2].TextPart? && Contains(r.parts[2].text, style)
  {
    GenerateContent(TextModel, [
      Base64ToGenerativePart(childhoodImg, "image/jpeg"),
      Base64ToGenerativePart(currentImg, "image/jpeg"),
      TextPart(Fill(ReunifyInstructionHead, style, ReunifyInstructionTail))])
  }

  /** The request of `generateEditPrompt`: the image tagged `image/png`, then
      the instruction quoting the requested change. */
  function EditPromptRequest(baseImage: string, editPrompt: string): (r: Request)
    ensures r.GenerateContent? && r.model == TextModel && |r.parts| == 2
    ensures r.parts[0] == Base64ToGenerativePart(baseImage, "image/png")
    ensures r.parts[1].TextPart? && Contains(r.parts[1].text, editPrompt)
  {
    GenerateContent(TextModel, [
      Base64ToGenerativePart(baseImage, "image/png"),
      TextPart(Fill(EditInstructionHead, editPrompt, EditInstructionTail))])
  }

  /** The request of `generateImage`: one square PNG from the prompt as given. */
  function ImageRequest(prompt: string): (r: Request)
    ensures r.GenerateImages? && r.model == ImageModel && r.prompt == prompt
    ensures r.config.numberOfImages == 1 && r.config.outputMimeType == "image/png"
    ensures r.config.aspectRatio == "1:1"
  {
    GenerateImages(ImageModel, prompt, ImageConfig(1, "image/png", "1:1"))
  }

  /** `generateReunifyPrompt`: the text model's answer to one request holding
      both photos as `image/jpeg` parts, then an instruction that quotes the
      style after the template head; a rejection is passed on. */
  function GenerateReunifyPrompt(content: ContentEndpoint, childhoodImg: string, currentImg: string, style: string): (r: Result<string, Failure>)
    ensures exists instruction ::
      && StartsWith(instruction, ReunifyInstructionHead)
      && OccursAt(instruction, style, |ReunifyInstructionHead|)
      && r == content(GenerateContent(TextModel, [
           Base64ToGenerativePart(childhoodImg, "image/jpeg"),
           Base64ToGenerativePart(currentImg, "image/jpeg"),
           TextPart(instruction)]))
  {
    content(ReunifyPromptRequest(childhoodImg, currentImg, style))
  }

  /** `generateEditPrompt`: the text model's answer to one request holding the
      image as an `image/png` part, then an instruction that quotes the
      requested change after the template head; a rejection is passed on. */
  function GenerateEditPrompt(content: ContentEndpoint, baseImage: string, editPrompt: string): (r: Result<string, Failure>)
    ensures exists instruction ::
      && StartsWith(instruction, EditInstructionHead)
      && OccursAt(instruction, editPrompt, |EditInstructionHead|)
      && r == content(GenerateContent(TextModel, [
           Base64ToGenerativePart(baseImage, "image/png"),
           TextPart(instruction)]))
  {
    content(EditPromptRequest(baseImage, editPrompt))
  }

  /** The result handling of `generateImage`: the first image wrapped as a PNG
      data URI; a missing or empty image list is a failure. */
  function ImageFromResponse(response: ImagesResponse): (r: Result<string, Failure>)
    ensures r.Failure? <==> response.generatedImages.None? || response.generatedImages.value == []
    ensures r.Failure? ==> r.error == NoImageProduced
    ensures r.Success? ==> r.value == PngDataUri(response.generatedImages.value[0].imageBytes)
  {
    if response.generatedImages.Some? && |response.generatedImages.value| > 0 then
      Success(PngDataUri(response.generatedImages.value[0].imageBytes))
    else
      Failure(NoImageProduced)
  }

  /** `generateImage`: rejects when the call rejects or the reply holds no
      image; otherwise resolves to the first image as a PNG data URI. */
  function GenerateImage(images: ImagesEndpoint, prompt: string): (r: Result<string, Failure>)
    ensures var reply := images(ImageRequest(prompt));
      r.Failure? <==> reply.Failure? || reply.value.generatedImages.None? || reply.value.generatedImages.value == []
    ensures var reply := images(ImageRequest(prompt));
      reply.Failure? ==> r == Failure(reply.error)
    ensures var reply := images(ImageRequest(prompt));
      r.Success? ==> r.value == PngDataUri(reply.value.generatedImages.value[0].imageBytes)
  {
    match images(ImageRequest(prompt))
    case Failure(e) => Failure(e)
    case Success(response) => ImageFromResponse(response)
  }

  /** Only the first returned image matters: images after it are ignored. */
  lemma {:induction false} LaterImagesIgnored(first: GeneratedImage, later: seq<GeneratedImage>)
    ensures ImageFromResponse(ImagesResponse(Some([first] + later)))
         == ImageFromResponse(ImagesResponse(Some([first])))
         == Success(PngDataUri(first.imageBytes))
  {
  }

  /** A generated image sent back for editing carries exactly the bytes the
      image model returned. */
  lemma {:induction false} GeneratedImageFeedsEdit(response: ImagesResponse, editPrompt: string)
    requires ImageFromResponse(response).Success?
    requires IsBase64(response.generatedImages.value[0].imageBytes)
    ensures EditPromptRequest(ImageFromResponse(response).value, editPrompt).parts[0]
         == InlineData(Some(response.generatedImages.value[0].imageBytes), "image/png")
  {
    PngDataUriRoundTrip(response.generatedImages.value[0].imageBytes, "image/png");
  }
}
