/** The banner generator service: the API-key check, the request it assembles from
    the options, the decoding of the model's response into an image data URI, and the
    reclassification of every failure into the message the page shows. The model call
    itself is a parameter: a total function from the request to its settled outcome. */
module GeminiService {
  import opened Wrappers
  import opened JsStrings
  import opened JsErrors
  import opened Types
  import opened DataUri
  import opened ServiceMessages
  import PromptBuilder

  /** The image model the request names. */
  const MODEL := "gemini-2.5-flash-image"

  /** The only response modality requested. */
  const IMAGE_MODALITY := "IMAGE"

  /** The refusal message: the model's text quoted after a fixed sentence. */
  function RefusalMessage(text: string): string {
    REFUSAL_PREFIX + text + "\""
  }

  // ---------------------------------------------------------------------------
  // Request and response shapes (only the fields the service reads or writes)

  /** Inline data: a media type and a base64 payload, each possibly absent in a response. */
  datatype Blob = Blob(mimeType: Option<string>, data: Option<string>)

  /** A content part: inline data or text. */
  datatype Part = Part(inlineData: Option<Blob>, text: Option<string>)

  datatype Content = Content(parts: Option<seq<Part>>)

  datatype Candidate = Candidate(content: Option<Content>)

  /** A response: optional candidates, and the optional text the SDK gathers from them. */
  datatype Response = Response(candidates: Option<seq<Candidate>>, text: Option<string>)

  /** The request sent to the model: its name, the parts, the requested modalities. */
  datatype Request = Request(model: string, parts: seq<Part>, responseModalities: seq<string>)

  /** A part carrying an image. */
  function InlinePart(mimeType: string, data: string): Part {
    Part(Some(Blob(Some(mimeType), Some(data))), None)
  }

  /** A part carrying text. */
  function TextPart(text: string): Part {
    Part(None, Some(text))
  }

  /** How a template literal writes a possibly undefined value. */
  function Interpolate(v: Option<string>): string {
    v.GetOr("undefined")
  }

  // ---------------------------------------------------------------------------
  // The request

  /** The options can be sent: with no truthy image, or with one that matches the
      data-URI pattern. */
  predicate ImageAccepted(o: BannerOptions) {
    TruthyOpt(o.productImage) ==> ParseDataUri(o.productImage.value).Some?
  }

  /** The request for `o` with the prompt text `prompt`: the image part when there is an
      image, then the prompt. */
  function RequestFor(o: BannerOptions, prompt: string): Request
    requires ImageAccepted(o)
  {
    var imageParts :=
      if TruthyOpt(o.productImage) then
        var m := ParseDataUri(o.productImage.value).value;
        [InlinePart(m.0, m.1)]
      else [];
    Request(MODEL, imageParts + [TextPart(prompt)], [IMAGE_MODALITY])
  }

  /** The request names the image model and only the image modality; the prompt is the
      one text part and comes last; an image part comes first exactly when there is an
      image, and its media type and payload form the supplied data URI again. */
  lemma RequestShape(o: BannerOptions, prompt: string)
    requires ImageAccepted(o)
    ensures RequestFor(o, prompt).model == MODEL && RequestFor(o, prompt).responseModalities == [IMAGE_MODALITY]
    ensures var ps := RequestFor(o, prompt).parts;
      |ps| == (if TruthyOpt(o.productImage) then 2 else 1)
      && ps[|ps| - 1] == TextPart(prompt)
      && (forall i | 0 <= i < |ps| - 1 :: ps[i].text.None? && ps[i].inlineData.Some?)
    ensures TruthyOpt(o.productImage) ==>
      exists m, d :: RequestFor(o, prompt).parts[0] == InlinePart(m, d)
        && IsImageMimeType(m) && FormatDataUri(m, d) == o.productImage.value
  {
    if TruthyOpt(o.productImage) {
      var m := ParseDataUri(o.productImage.value).value;
      assert RequestFor(o, prompt).parts[0] == InlinePart(m.0, m.1);
    }
  }

  // ---------------------------------------------------------------------------
  // The response

  /** The index of the first part with inline data, or the number of parts when none has any. */
  function FirstInlineIndex(parts: seq<Part>): (k: nat)
    ensures k <= |parts|
    ensures forall j | 0 <= j < k :: parts[j].inlineData.None?
    ensures k < |parts| ==> parts[k].inlineData.Some?
  {
    if parts == [] || parts[0].inlineData.Some? then 0 else 1 + FirstInlineIndex(parts[1..])
  }

  /** The inline data of the first part that has some (`parts.find(part => part.inlineData)`). */
  function FirstInlineData(parts: seq<Part>): Option<Blob> {
    var k := FirstInlineIndex(parts);
    if k < |parts| then parts[k].inlineData else None
  }

  /** The image of a response: the first inline data among the parts of the FIRST
      candidate; later candidates are never looked at. */
  function ImageOf(resp: Response): Option<Blob> {
    match resp.candidates
    case Some(cs) =>
      if |cs| > 0 && cs[0].content.Some? && cs[0].content.value.parts.Some? then
        FirstInlineData(cs[0].content.value.parts.value)
      else None
    case None => None
  }

  /** `response.text?.trim()`, with an absent text as the empty (falsy) string. */
  function ResponseText(resp: Response): string {
    match resp.text
    case Some(t) => Trim(t)
    case None => ""
  }

  /** The outcome of reading the response: the image as a data URI; otherwise a refusal
      quoting the model's trimmed text; otherwise the no-image error. */
  function DecodeResponse(resp: Response): (r: Settled<string>)
    ensures r.Fulfilled? <==> ImageOf(resp).Some?
    ensures r.Rejected? ==> r.reason.ErrorObject?
  {
    match ImageOf(resp)
    case Some(blob) => Fulfilled(FormatDataUri(Interpolate(blob.mimeType), Interpolate(blob.data)))
    case None =>
      if Truthy(ResponseText(resp)) then Rejected(ErrorObject(RefusalMessage(ResponseText(resp))))
      else Rejected(ErrorObject(NO_IMAGE))
  }

  // ---------------------------------------------------------------------------
  // Reclassification of failures

  /** The catch block: an `Error` whose message mentions a safety block or a 400 becomes
      the blocked message, any other `Error` is rethrown as is, and anything else becomes
      the communication-failure message. The result is always an `Error`. */
  function Reclassify(t: Thrown): (r: Thrown)
    ensures r.ErrorObject?
    ensures r == t || r == ErrorObject(BLOCKED) || r == ErrorObject(COMM_FAILURE)
  {
    match t
    case ErrorObject(m) =>
      if Includes(m, SAFETY_TOKEN) || Includes(m, BAD_REQUEST_TOKEN) then ErrorObject(BLOCKED) else t
    case NonError => ErrorObject(COMM_FAILURE)
  }

  /** What the `try` block settles to, passed through the catch block. */
  function Catch(attempt: Settled<string>): Settled<string> {
    match attempt
    case Fulfilled(_) => attempt
    case Rejected(t) => Rejected(Reclassify(t))
  }

  /** The result of the service once the model call has settled with `called`. */
  function Outcome(called: Settled<Response>): (r: Settled<string>)
    ensures r.Rejected? ==> r.reason.ErrorObject?
  {
    match called
    case Fulfilled(resp) => Catch(DecodeResponse(resp))
    case Rejected(t) => Catch(Rejected(t))
  }

  /** A message without `Y` and without `4` mentions neither token, so it passes
      through the catch block unchanged. */
  lemma PassesThrough(m: string)
    requires NoTokenChars(m)
    ensures Reclassify(ErrorObject(m)) == ErrorObject(m)
  {
    NoTokenCharsExcludes(m);
  }

  /** The invalid-image message survives the catch block. */
  lemma InvalidUriPassesThrough()
    ensures Reclassify(ErrorObject(INVALID_URI)) == ErrorObject(INVALID_URI)
  {
    InvalidUriNoTokenChars();
    PassesThrough(INVALID_URI);
  }

  /** The no-image message survives the catch block. */
  lemma NoImagePassesThrough()
    ensures Reclassify(ErrorObject(NO_IMAGE)) == ErrorObject(NO_IMAGE)
  {
    NoImageNoTokenChars();
    PassesThrough(NO_IMAGE);
  }

  /** The blocked message survives the catch block. */
  lemma BlockedPassesThrough()
    ensures Reclassify(ErrorObject(BLOCKED)) == ErrorObject(BLOCKED)
  {
    BlockedNoTokenChars();
    PassesThrough(BLOCKED);
  }

  /** The communication-failure message survives the catch block. */
  lemma CommFailurePassesThrough()
    ensures Reclassify(ErrorObject(COMM_FAILURE)) == ErrorObject(COMM_FAILURE)
  {
    CommFailureNoTokenChars();
    PassesThrough(COMM_FAILURE);
  }

  /** A thrown value that is not an `Error` becomes the communication-failure message. */
  lemma NonErrorIsCommFailure()
    ensures Reclassify(NonError) == ErrorObject(COMM_FAILURE)
  {
  }

  /** Any `Error` whose message mentions `SAFETY` or `400`, wherever it occurs, becomes
      the blocked message. */
  lemma TokenIsBlocked(p: string, tok: string, q: string)
    requires tok == SAFETY_TOKEN || tok == BAD_REQUEST_TOKEN
    ensures Reclassify(ErrorObject(p + tok + q)) == ErrorObject(BLOCKED)
  {
    IncludesPiece(p, tok, q);
  }

  /** An `Error` leaves the catch block unchanged exactly when its message mentions
      neither token, or is already the blocked message. */
  lemma RethrownIff(m: string)
    ensures Reclassify(ErrorObject(m)) == ErrorObject(m) <==>
      (!Includes(m, SAFETY_TOKEN) && !Includes(m, BAD_REQUEST_TOKEN)) || m == BLOCKED
  {
    BlockedPassesThrough();
  }

  /** Reclassifying twice changes nothing more. */
  lemma ReclassifyIdempotent(t: Thrown)
    ensures Reclassify(Reclassify(t)) == Reclassify(t)
  {
    BlockedPassesThrough();
    CommFailurePassesThrough();
  }

  /** The service's refusal is itself reclassified exactly when the model's text mentions
      a token: the fixed sentence around the text mentions neither, and no occurrence can
      straddle the quotes. */
  lemma RefusalReclassified(text: string)
    ensures Reclassify(ErrorObject(RefusalMessage(text))) ==
      if Includes(text, SAFETY_TOKEN) || Includes(text, BAD_REQUEST_TOKEN) then ErrorObject(BLOCKED)
      else ErrorObject(RefusalMessage(text))
  {
    RefusalPrefixNoTokenChars();
    NoTokenCharsExcludes(REFUSAL_PREFIX);
    IncludesQuoted(REFUSAL_PREFIX, text, '"', SAFETY_TOKEN);
    IncludesQuoted(REFUSAL_PREFIX, text, '"', BAD_REQUEST_TOKEN);
  }

  // ---------------------------------------------------------------------------
  // Decoding properties

  /** An image response yields `data:<mimeType>;base64,<data>` for any media type; a
      field the response leaves out is written as `undefined`, as a template literal does. */
  lemma DecodedImageUri(resp: Response, m: string, d: string)
    ensures ImageOf(resp) == Some(Blob(Some(m), Some(d))) ==>
      Outcome(Fulfilled(resp)) == Fulfilled("data:" + m + ";base64," + d)
    ensures ImageOf(resp) == Some(Blob(None, Some(d))) ==>
      Outcome(Fulfilled(resp)) == Fulfilled("data:" + "undefined" + ";base64," + d)
    ensures ImageOf(resp) == Some(Blob(Some(m), None)) ==>
      Outcome(Fulfilled(resp)) == Fulfilled("data:" + m + ";base64," + "undefined")
  {
  }

  /** An image response whose media type is an image type yields a data URI that the
      product-image pattern parses back into the same media type and payload. */
  lemma ImageRoundTrip(resp: Response, m: string, d: string)
    requires ImageOf(resp) == Some(Blob(Some(m), Some(d))) && IsImageMimeType(m)
    ensures Outcome(Fulfilled(resp)) == Fulfilled(FormatDataUri(m, d))
    ensures ParseDataUri(Outcome(Fulfilled(resp)).value) == Some((m, d))
  {
    ParseFormat(m, d);
  }

  /** Without an image, a response with truthy trimmed text is a refusal quoting that
      text (or the blocked message when it mentions a token), and one without is the
      no-image error. */
  lemma NoImageOutcome(resp: Response)
    requires ImageOf(resp).None?
    ensures Truthy(ResponseText(resp)) ==>
      Outcome(Fulfilled(resp)) == Rejected(Reclassify(ErrorObject(RefusalMessage(ResponseText(resp)))))
    ensures !Truthy(ResponseText(resp)) ==> Outcome(Fulfilled(resp)) == Rejected(ErrorObject(NO_IMAGE))
  {
    NoImagePassesThrough();
  }

  /** Only the first candidate is read: the candidates after it never change the outcome. */
  lemma FirstCandidateFirstPart(c: Candidate, rest1: seq<Candidate>, rest2: seq<Candidate>, text: Option<string>)
    ensures Outcome(Fulfilled(Response(Some([c] + rest1), text))) ==
            Outcome(Fulfilled(Response(Some([c] + rest2), text)))
  {
    assert ([c] + rest1)[0] == c && ([c] + rest2)[0] == c;
  }

  /** An empty response is the no-image error. */
  lemma EmptyResponse()
    ensures Outcome(Fulfilled(Response(None, None))) == Rejected(ErrorObject(NO_IMAGE))
  {
    NoImagePassesThrough();
  }

  // ---------------------------------------------------------------------------
  // The service

  /** What `generateBanner` settles to with the key `apiKey`, the options `o` and a model
      that answers a request as `sdk` does. */
  function ServiceResult(apiKey: Option<string>, o: BannerOptions, sentences: PromptBuilder.Template,
                         sdk: Request -> Settled<Response>): (r: Settled<string>)
    ensures r.Rejected? ==> r.reason.ErrorObject?
  {
    if !TruthyOpt(apiKey) then Rejected(ErrorObject(KEY_MISSING))
    else if !ImageAccepted(o) then Rejected(ErrorObject(INVALID_URI))
    else Outcome(sdk(RequestFor(o, PromptBuilder.Prompt(o, sentences))))
  }

  /** `generateBanner`: the result, and the requests sent to the model (none when the
      service fails before calling it). */
  method GenerateBanner(apiKey: Option<string>, o: BannerOptions, sentences: PromptBuilder.Template,
                        sdk: Request -> Settled<Response>)
    returns (result: Settled<string>, sent: seq<Request>)
    ensures !TruthyOpt(apiKey) ==> result == Rejected(ErrorObject(KEY_MISSING)) && sent == []
    ensures TruthyOpt(apiKey) && !ImageAccepted(o) ==>
      result == Rejected(ErrorObject(INVALID_URI)) && sent == []
    ensures TruthyOpt(apiKey) && ImageAccepted(o) ==>
      sent == [RequestFor(o, PromptBuilder.Prompt(o, sentences))]
      && result == Outcome(sdk(RequestFor(o, PromptBuilder.Prompt(o, sentences))))
    ensures result == ServiceResult(apiKey, o, sentences, sdk)
  {
    sent := [];
    if !TruthyOpt(apiKey) {
      return Rejected(ErrorObject(KEY_MISSING)), sent;
    }
    var prompt := PromptBuilder.BuildPromptWith(o, sentences);
    var parts: seq<Part> := [];
    if TruthyOpt(o.productImage) {
      var imageMatch := ParseDataUri(o.productImage.value);
      if imageMatch.None? {
        InvalidUriPassesThrough();
        return Catch(Rejected(ErrorObject(INVALID_URI))), sent;
      }
      var mimeType := imageMatch.value.0;
      var data := imageMatch.value.1;
      parts := parts + [InlinePart(mimeType, data)];
      assert parts == [InlinePart(mimeType, data)];
    }
    parts := parts + [TextPart(prompt)];
    var request := Request(MODEL, parts, [IMAGE_MODALITY]);
    assert request == RequestFor(o, prompt);
    sent := sent + [request];
    var called := sdk(request);
    var attempt := match called
      case Fulfilled(resp) => DecodeResponse(resp)
      case Rejected(t) => Rejected(t);
    result := Catch(attempt);
  }
}
