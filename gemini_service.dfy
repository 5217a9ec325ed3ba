/**
 * The gateway to the generative service (services/geminiService.ts).
 *
 * Each exported function of the service builds one request, awaits the SDK call and
 * decodes its response. The SDK call itself is not modelled: its outcome is a
 * `CallOutcome` given as a parameter, so a gateway function is split into the request
 * it sends (`...Request`) and the decoding of the outcome it receives.
 */
module GeminiService {
  import opened Wrappers

  // ---------------------------------------------------------------------------
  // Data URLs and cleanBase64
  // ---------------------------------------------------------------------------

  /** The data-URL prefix that announces a base64 payload of image subtype `subtype`. */
  function DataUrlPrefix(subtype: string): string {
    "data:image/" + subtype + ";base64,"
  }

  /** The image subtypes whose prefix cleanBase64 removes, in the order of its alternation. */
  const StrippedSubtypes: seq<string> := ["png", "jpeg", "jpg", "webp"]

  /** `data` begins with the data-URL prefix of one of the stripped subtypes. */
  predicate HasStrippedPrefix(data: string) {
    exists t | t in StrippedSubtypes :: DataUrlPrefix(t) <= data
  }

  /**
   * Removes one data-URL prefix anchored at the start of `data`, and only for the four
   * stripped subtypes; any other input is returned as it is.
   */
  function CleanBase64(data: string): (r: string)
    ensures |r| <= |data| && r == data[|data| - |r|..]
    ensures HasStrippedPrefix(data) <==> |r| < |data|
    ensures HasStrippedPrefix(data) ==> exists t | t in StrippedSubtypes :: data == DataUrlPrefix(t) + r
    ensures !HasStrippedPrefix(data) ==> r == data
  {
    if DataUrlPrefix("png") <= data then data[|DataUrlPrefix("png")|..]
    else if DataUrlPrefix("jpeg") <= data then data[|DataUrlPrefix("jpeg")|..]
    else if DataUrlPrefix("jpg") <= data then data[|DataUrlPrefix("jpg")|..]
    else if DataUrlPrefix("webp") <= data then data[|DataUrlPrefix("webp")|..]
    else data
  }

  /** Wrapping a payload in one of the four stripped prefixes and cleaning it gives the payload back. */
  lemma CleanBase64Unwraps(t: string, payload: string)
    requires t in StrippedSubtypes
    ensures CleanBase64(DataUrlPrefix(t) + payload) == payload
  {
    var data := DataUrlPrefix(t) + payload;
    assert DataUrlPrefix(t) <= data;
    // The four prefixes differ at position 11 ('p', 'j', 'w'), and the two 'j' ones at 14.
    assert data[11] == t[0];
    if t == "jpg" {
      assert data[14] == ';';
      assert DataUrlPrefix("jpeg")[14] == 'g';
    }
    if t == "webp" {
      assert DataUrlPrefix("png")[11] == 'p';
      assert DataUrlPrefix("jpeg")[11] == 'j';
      assert DataUrlPrefix("jpg")[11] == 'j';
    }
    if t == "jpeg" || t == "jpg" {
      assert DataUrlPrefix("png")[11] == 'p';
    }
  }

  /** A data URL of any other image subtype, such as gif, is left unchanged. */
  lemma CleanBase64KeepsGif(payload: string)
    ensures CleanBase64(DataUrlPrefix("gif") + payload) == DataUrlPrefix("gif") + payload
  {
    var data := DataUrlPrefix("gif") + payload;
    assert data[11] == 'g';
    forall t | t in StrippedSubtypes
      ensures !(DataUrlPrefix(t) <= data)
    {
      assert DataUrlPrefix(t)[11] != 'g';
    }
  }

  /** The prefix is anchored: input that does not begin with 'd' (so a prefix can only occur later) is unchanged. */
  lemma CleanBase64IsAnchored(data: string)
    requires |data| > 0 && data[0] != 'd'
    ensures CleanBase64(data) == data
  {
    forall t | t in StrippedSubtypes
      ensures !(DataUrlPrefix(t) <= data)
    {
      assert DataUrlPrefix(t)[0] == 'd';
    }
  }

  /** Only one prefix is removed: a doubly wrapped payload keeps its inner prefix. */
  lemma CleanBase64StripsOnce(t: string, payload: string)
    requires t in StrippedSubtypes
    ensures CleanBase64(DataUrlPrefix(t) + DataUrlPrefix(t) + payload) == DataUrlPrefix(t) + payload
    ensures CleanBase64(CleanBase64(DataUrlPrefix(t) + DataUrlPrefix(t) + payload)) == payload
  {
    CleanBase64Unwraps(t, DataUrlPrefix(t) + payload);
    assert DataUrlPrefix(t) + DataUrlPrefix(t) + payload == DataUrlPrefix(t) + (DataUrlPrefix(t) + payload);
    CleanBase64Unwraps(t, payload);
  }

  // ---------------------------------------------------------------------------
  // Requests
  // ---------------------------------------------------------------------------

  /** One inline image part of a request: a declared MIME type and a base64 payload. */
  datatype InlineImage = InlineImage(mimeType: string, data: string)

  /** The fixed instruction sent with the images; only the text prompt carries user input. */
  datatype Instruction =
    | CritiqueOutfit
    | CritiqueMatch
    | RestyleAs(description: string)
    | WearGarment

  /** One call to the service: the image parts, the instruction, and whether only an image is asked for. */
  datatype Request = Request(images: seq<InlineImage>, instruction: Instruction, imageOnly: bool)

  /** How every image crosses into a request: declared as JPEG, with its data-URL prefix cleaned. */
  function JpegPart(image: string): InlineImage {
    InlineImage("image/jpeg", CleanBase64(image))
  }

  /** A PNG upload is sent with its bare payload but declared as JPEG. */
  lemma PngUploadIsDeclaredJpeg(payload: string)
    ensures JpegPart(DataUrlPrefix("png") + payload) == InlineImage("image/jpeg", payload)
  {
    CleanBase64Unwraps("png", payload);
  }

  function AnalyzeOutfitRequest(base64Image: string): Request {
    Request([JpegPart(base64Image)], CritiqueOutfit, false)
  }

  function AnalyzeMatchRequest(personImage: string, garmentImage: string): Request {
    Request([JpegPart(personImage), JpegPart(garmentImage)], CritiqueMatch, false)
  }

  function GenerateVirtualTryOnRequest(base64Image: string, prompt: string): Request {
    Request([JpegPart(base64Image)], RestyleAs(prompt), true)
  }

  function GenerateVirtualTryOnWithItemRequest(personImage: string, garmentImage: string): Request {
    Request([JpegPart(personImage), JpegPart(garmentImage)], WearGarment, true)
  }

  /**
   * An image uploaded as a png, jpeg, jpg or webp data URL reaches every request as its bare
   * payload, declared image/jpeg, in argument order; the text try-on also carries the prompt.
   */
  lemma RequestsCarryBarePayloads(t: string, person: string, u: string, garment: string, prompt: string)
    requires t in StrippedSubtypes && u in StrippedSubtypes
    ensures AnalyzeOutfitRequest(DataUrlPrefix(t) + person).images == [InlineImage("image/jpeg", person)]
    ensures GenerateVirtualTryOnRequest(DataUrlPrefix(t) + person, prompt).images == [InlineImage("image/jpeg", person)]
    ensures GenerateVirtualTryOnRequest(DataUrlPrefix(t) + person, prompt).instruction == RestyleAs(prompt)
    ensures AnalyzeMatchRequest(DataUrlPrefix(t) + person, DataUrlPrefix(u) + garment).images
         == [InlineImage("image/jpeg", person), InlineImage("image/jpeg", garment)]
    ensures GenerateVirtualTryOnWithItemRequest(DataUrlPrefix(t) + person, DataUrlPrefix(u) + garment).images
         == [InlineImage("image/jpeg", person), InlineImage("image/jpeg", garment)]
  {
    CleanBase64Unwraps(t, person);
    CleanBase64Unwraps(u, garment);
  }

  /** An image without one of the four prefixes (a gif data URL, say) is sent whole, declared image/jpeg. */
  lemma RequestsSendOtherImagesWhole(person: string, garment: string, prompt: string)
    requires !HasStrippedPrefix(person) && !HasStrippedPrefix(garment)
    ensures AnalyzeOutfitRequest(person).images == [InlineImage("image/jpeg", person)]
    ensures GenerateVirtualTryOnRequest(person, prompt).images == [InlineImage("image/jpeg", person)]
    ensures AnalyzeMatchRequest(person, garment).images
         == [InlineImage("image/jpeg", person), InlineImage("image/jpeg", garment)]
    ensures GenerateVirtualTryOnWithItemRequest(person, garment).images
         == [InlineImage("image/jpeg", person), InlineImage("image/jpeg", garment)]
  {
  }

  // ---------------------------------------------------------------------------
  // Responses
  // ---------------------------------------------------------------------------

  /** Inline data of a response part; the SDK declares both fields optional. */
  datatype InlineData = InlineData(mimeType: Option<string>, data: Option<string>)

  datatype Part = Part(text: Option<string>, inlineData: Option<InlineData>)

  datatype Content = Content(parts: Option<seq<Part>>)

  datatype Candidate = Candidate(content: Option<Content>)

  /**
   * A response of the SDK. `text` is the value of the SDK's `text` accessor, which the
   * SDK derives from the candidates; how it does so is not part of this model.
   */
  datatype GenerateContentResponse = GenerateContentResponse(candidates: Option<seq<Candidate>>, text: Option<string>)

  /** What awaiting the SDK call yields: a response, or a thrown error. */
  datatype CallOutcome = Returned(response: GenerateContentResponse) | Threw

  const NoImageGenerated := "No image generated."

  /** `response.candidates?.[0]?.content?.parts`: the parts of the first candidate, if there are any. */
  function FirstCandidateParts(response: GenerateContentResponse): (parts: Option<seq<Part>>)
    ensures parts.Some? <==>
      response.candidates.Some? && |response.candidates.value| > 0
      && response.candidates.value[0].content.Some?
      && response.candidates.value[0].content.value.parts.Some?
    ensures parts.Some? ==> parts.value == response.candidates.value[0].content.value.parts.value
  {
    match response.candidates
    case None => None
    case Some(cs) =>
      if |cs| == 0 then None
      else match cs[0].content
        case None => None
        case Some(c) => c.parts
  }

  /** `i` is the position of the first part that carries inline data. */
  predicate IsFirstImagePart(parts: seq<Part>, i: int) {
    0 <= i < |parts| && parts[i].inlineData.Some?
    && forall j | 0 <= j < i :: parts[j].inlineData.None?
  }

  /** `parts.find(p => p.inlineData)`: the first part that carries inline data. */
  function FindImagePart(parts: seq<Part>): (r: Option<Part>)
    ensures r.None? <==> forall i | 0 <= i < |parts| :: parts[i].inlineData.None?
    ensures r.Some? ==> exists i :: IsFirstImagePart(parts, i) && parts[i] == r.value
  {
    if parts == [] then None
    else if parts[0].inlineData.Some? then Some(parts[0])
    else
      FindImagePart(parts[1..])
  }

  /** Whatever follows the first image part, the search finds that part. */
  lemma {:induction false} FindImagePartIsFirst(parts: seq<Part>, i: int)
    requires IsFirstImagePart(parts, i)
    ensures FindImagePart(parts) == Some(parts[i])
  {
    if i > 0 {
      assert IsFirstImagePart(parts[1..], i - 1);
      FindImagePartIsFirst(parts[1..], i - 1);
    }
  }

  /** How a template string renders an optional string: a missing value prints as "undefined". */
  function TemplateText(s: Option<string>): string {
    match s
    case Some(v) => v
    case None => "undefined"
  }

  /** The image data URL the service hands back: the payload re-labelled as PNG. */
  function PngDataUrl(payload: string): string {
    DataUrlPrefix("png") + payload
  }

  /**
   * extractImageFromResponse: the data of the first image part of the first candidate,
   * wrapped as a PNG data URL; "No image generated." when there is none.
   */
  function ExtractImageFromResponse(response: GenerateContentResponse): (r: Result<string, string>)
    ensures r.Err? ==> r.error == NoImageGenerated
    ensures r.Ok? <==>
      var parts := FirstCandidateParts(response);
      parts.Some? && exists i | 0 <= i < |parts.value| :: parts.value[i].inlineData.Some?
    ensures r.Ok? ==>
      var parts := FirstCandidateParts(response).value;
      exists i :: IsFirstImagePart(parts, i) && r.value == PngDataUrl(TemplateText(parts[i].inlineData.value.data))
  {
    var parts := FirstCandidateParts(response);
    if parts.Some? && |parts.value| > 0 then
      var imagePart := FindImagePart(parts.value);
      if imagePart.Some? && imagePart.value.inlineData.Some? then
        Ok(PngDataUrl(TemplateText(imagePart.value.inlineData.value.data)))
      else
        Err(NoImageGenerated)
    else
      Err(NoImageGenerated)
  }

  /** The image comes from the first image part of the first candidate; later parts do not matter. */
  lemma ExtractImageUsesFirstImagePart(response: GenerateContentResponse, i: int)
    requires FirstCandidateParts(response).Some?
    requires IsFirstImagePart(FirstCandidateParts(response).value, i)
    ensures ExtractImageFromResponse(response)
         == Ok(PngDataUrl(TemplateText(FirstCandidateParts(response).value[i].inlineData.value.data)))
  {
    FindImagePartIsFirst(FirstCandidateParts(response).value, i);
  }

  /** Only the first candidate is read: candidates after it and the text accessor do not matter. */
  lemma ExtractImageIgnoresLaterCandidates(first: Candidate, rest1: seq<Candidate>, rest2: seq<Candidate>,
                                           text1: Option<string>, text2: Option<string>)
    ensures ExtractImageFromResponse(GenerateContentResponse(Some([first] + rest1), text1))
         == ExtractImageFromResponse(GenerateContentResponse(Some([first] + rest2), text2))
  {
  }

  /** Cleaning an extracted image URL gives back exactly the payload of the image part. */
  lemma ExtractThenCleanRoundTrip(response: GenerateContentResponse, i: int)
    requires FirstCandidateParts(response).Some?
    requires IsFirstImagePart(FirstCandidateParts(response).value, i)
    ensures ExtractImageFromResponse(response).Ok?
    ensures CleanBase64(ExtractImageFromResponse(response).value)
         == TemplateText(FirstCandidateParts(response).value[i].inlineData.value.data)
  {
    ExtractImageUsesFirstImagePart(response, i);
    CleanBase64Unwraps("png", TemplateText(FirstCandidateParts(response).value[i].inlineData.value.data));
  }

  // ---------------------------------------------------------------------------
  // The four gateway functions: decoding a call outcome
  // ---------------------------------------------------------------------------

  const FashionAnalysisFailed := "Fashion analysis failed."
  const MatchAnalysisFailed := "Match analysis failed."
  const VirtualTryOnFailed := "Virtual try-on failed."
  const VirtualTryOnWithItemFailed := "Virtual try-on with item failed."

  const OutfitFallback := "無法分析圖片，請稍後再試。"
  const MatchFallback := "無法分析搭配，請稍後再試。"

  /** `response.text || fallback`: the text when it is a non-empty string, the fallback otherwise. */
  function TextOr(response: GenerateContentResponse, fallback: string): (r: string)
    ensures fallback != "" ==> r != ""
    ensures response.text.Some? && response.text.value != "" ==> r == response.text.value
    ensures response.text.None? || response.text.value == "" ==> r == fallback
  {
    if response.text.Some? && response.text.value != "" then response.text.value else fallback
  }

  /** analyzeOutfit: the critique text, never empty; any failure of the call becomes one fixed error. */
  function AnalyzeOutfit(outcome: CallOutcome): (r: Result<string, string>)
    ensures r.Err? <==> outcome.Threw?
    ensures r.Err? ==> r.error == FashionAnalysisFailed
    ensures r.Ok? ==> r.value != "" && r.value == TextOr(outcome.response, OutfitFallback)
  {
    match outcome
    case Threw => Err(FashionAnalysisFailed)
    case Returned(response) => Ok(TextOr(response, OutfitFallback))
  }

  /** analyzeMatch: the compatibility advice, never empty; any failure becomes one fixed error. */
  function AnalyzeMatch(outcome: CallOutcome): (r: Result<string, string>)
    ensures r.Err? <==> outcome.Threw?
    ensures r.Err? ==> r.error == MatchAnalysisFailed
    ensures r.Ok? ==> r.value != "" && r.value == TextOr(outcome.response, MatchFallback)
  {
    match outcome
    case Threw => Err(MatchAnalysisFailed)
    case Returned(response) => Ok(TextOr(response, MatchFallback))
  }

  /**
   * generateVirtualTryOn: the extracted image URL; a thrown call and a response without an
   * image both become the one fixed error, so "No image generated." never reaches the caller.
   */
  function GenerateVirtualTryOn(outcome: CallOutcome): (r: Result<string, string>)
    ensures r.Ok? <==> outcome.Returned? && ExtractImageFromResponse(outcome.response).Ok?
    ensures r.Ok? ==> r.value == ExtractImageFromResponse(outcome.response).value
    ensures r.Err? ==> r.error == VirtualTryOnFailed
  {
    match outcome
    case Threw => Err(VirtualTryOnFailed)
    case Returned(response) =>
      match ExtractImageFromResponse(response)
      case Ok(url) => Ok(url)
      case Err(_) => Err(VirtualTryOnFailed)
  }

  /** generateVirtualTryOnWithItem: as generateVirtualTryOn, with its own fixed error. */
  function GenerateVirtualTryOnWithItem(outcome: CallOutcome): (r: Result<string, string>)
    ensures r.Ok? <==> outcome.Returned? && ExtractImageFromResponse(outcome.response).Ok?
    ensures r.Ok? ==> r.value == ExtractImageFromResponse(outcome.response).value
    ensures r.Err? ==> r.error == VirtualTryOnWithItemFailed
  {
    match outcome
    case Threw => Err(VirtualTryOnWithItemFailed)
    case Returned(response) =>
      match ExtractImageFromResponse(response)
      case Ok(url) => Ok(url)
      case Err(_) => Err(VirtualTryOnWithItemFailed)
  }

  /** A generated image, from either try-on, always arrives as a PNG data URL, which cleanBase64 strips again. */
  lemma GeneratedImagesAreCleanablePng(outcome: CallOutcome)
    requires GenerateVirtualTryOn(outcome).Ok?
    ensures DataUrlPrefix("png") <= GenerateVirtualTryOn(outcome).value
    ensures DataUrlPrefix("png") + CleanBase64(GenerateVirtualTryOn(outcome).value) == GenerateVirtualTryOn(outcome).value
    ensures DataUrlPrefix("png") <= GenerateVirtualTryOnWithItem(outcome).value
    ensures DataUrlPrefix("png") + CleanBase64(GenerateVirtualTryOnWithItem(outcome).value) == GenerateVirtualTryOnWithItem(outcome).value
  {
    var parts := FirstCandidateParts(outcome.response).value;
    var i :| IsFirstImagePart(parts, i)
      && ExtractImageFromResponse(outcome.response).value == PngDataUrl(TemplateText(parts[i].inlineData.value.data));
    CleanBase64Unwraps("png", TemplateText(parts[i].inlineData.value.data));
  }
}
