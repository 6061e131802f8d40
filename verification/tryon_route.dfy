/** The try-on request handler (app/api/tryon/route.ts, `POST`).

    The handler validates the multipart form and then runs its pipeline:
    normalise the user photo, download and normalise the product image,
    check the API key, ask the generative model for an image, and extract
    the first inline image of the first candidate. It wraps that image as a
    `data:` URL (section 3 of RFC 2397). Anything thrown on the way becomes
    a 500 reply.

    The image library, `fetch` and the model call are foreign code. Here they
    are fields of `Env`, and each may throw. The handler's network calls are
    recorded in a trace, so "no network call" can be stated about it. */
module TryOnRoute {
  import opened Common
  import Utils

  type Bytes = seq<bv8>

  /** The `userPhoto` file part: its declared MIME type and its bytes
      (`File.size` is the byte count). */
  datatype Upload = Upload(mimeType: string, content: Bytes)

  function Size(photo: Upload): nat
  {
    |photo.content|
  }

  /** The form fields the handler reads; an absent field is `None`. */
  datatype TryOnForm = TryOnForm(
    userPhoto: Option<Upload>,
    productImageUrl: Option<string>,
    productType: Option<string>,
    productTitle: Option<string>)

  // ---------------------------------------------------------------------------
  // Validation (route.ts lines 6, 16-39)
  // ---------------------------------------------------------------------------

  /** Five mebibytes. */
  const MaxFileSize := 5 * 1024 * 1024

  const AllowedMimeTypes: seq<string> := ["image/jpeg", "image/jpg", "image/png", "image/webp"]

  datatype Rejection = MissingParameters | FileTooLarge | InvalidFileType

  function RejectionMessage(r: Rejection): string
  {
    match r
    case MissingParameters => "Missing required parameters"
    case FileTooLarge => "File size too large. Maximum 5MB allowed."
    case InvalidFileType => "Invalid file type. Only JPEG, PNG and WebP are allowed."
  }

  /** The checks in the order the handler makes them: both required fields
      present, then the size ceiling, then the MIME allow-list. */
  function Validate(form: TryOnForm): (r: Option<Rejection>)
    ensures r == Some(MissingParameters) <==>
              form.userPhoto.None? || !Truthy(form.productImageUrl)
    ensures r == Some(FileTooLarge) <==>
              && form.userPhoto.Some? && Truthy(form.productImageUrl)
              && Size(form.userPhoto.value) > MaxFileSize
    ensures r == Some(InvalidFileType) <==>
              && form.userPhoto.Some? && Truthy(form.productImageUrl)
              && Size(form.userPhoto.value) <= MaxFileSize
              && form.userPhoto.value.mimeType !in AllowedMimeTypes
    ensures r.None? <==>
              && form.userPhoto.Some? && Truthy(form.productImageUrl)
              && Size(form.userPhoto.value) <= MaxFileSize
              && form.userPhoto.value.mimeType in AllowedMimeTypes
  {
    if form.userPhoto.None? || !Truthy(form.productImageUrl) then Some(MissingParameters)
    else if Size(form.userPhoto.value) > MaxFileSize then Some(FileTooLarge)
    else if form.userPhoto.value.mimeType !in AllowedMimeTypes then Some(InvalidFileType)
    else None
  }

  /** A photo of exactly five mebibytes passes the size check. */
  lemma ExactlyMaxSizePasses(photo: Upload, url: string, productType: Option<string>, productTitle: Option<string>)
    requires Size(photo) == MaxFileSize && photo.mimeType == "image/png" && url != ""
    ensures Validate(TryOnForm(Some(photo), Some(url), productType, productTitle)) == None
  {
  }

  /** Size is checked before type: an oversized file of a wrong type reports
      the size error. */
  lemma SizeCheckedBeforeType(photo: Upload, url: string, productType: Option<string>, productTitle: Option<string>)
    requires Size(photo) > MaxFileSize && photo.mimeType == "image/gif" && url != ""
    ensures Validate(TryOnForm(Some(photo), Some(url), productType, productTitle)) == Some(FileTooLarge)
  {
  }

  // ---------------------------------------------------------------------------
  // The generative model's request and response
  // ---------------------------------------------------------------------------

  /** The parts of the prompt that depend on the request: the focus area
      (inserted twice), the product title, and the raw product type. */
  datatype Prompt = Prompt(focusArea: string, productTitle: string, productType: Option<string>)

  /** An inline image part of the request (the source sends it base64-encoded). */
  datatype InlineImage = InlineImage(mimeType: string, data: Bytes)

  /** The three parts of `generateContent`: prompt, user photo, product image. */
  datatype GenerationRequest = GenerationRequest(prompt: Prompt, userPhoto: InlineImage, productImage: InlineImage)

  /** A response part's `inlineData`; `data` is base64 text and may be absent. */
  datatype InlineData = InlineData(mimeType: string, data: Option<string>)

  datatype Part = Part(text: Option<string>, inlineData: Option<InlineData>)

  datatype Content = Content(parts: Option<seq<Part>>)

  datatype Candidate = Candidate(content: Option<Content>)

  datatype GenerationResponse = GenerationResponse(candidates: Option<seq<Candidate>>)

  /** What `fetch(productImageUrl)` resolves to: `response.ok` and the body. */
  datatype FetchReply = FetchReply(ok: bool, body: Bytes)

  /** The handler's environment. `normalize` is the sharp pipeline (resize to
      fit 1024x1024, JPEG at quality 85); `apiKey` is GEMINI_API_KEY. */
  datatype Env = Env(
    normalize: Bytes -> Thrown<Bytes>,
    fetch: string -> Thrown<FetchReply>,
    apiKey: Option<string>,
    generate: GenerationRequest -> Thrown<GenerationResponse>)

  /** A network call the handler makes. */
  datatype Call = FetchProduct(url: string) | GenerateContent(request: GenerationRequest)

  // ---------------------------------------------------------------------------
  // Extraction (route.ts lines 130-146)
  // ---------------------------------------------------------------------------

  /** `part.inlineData && part.inlineData.data` is truthy. */
  predicate HasImage(p: Part)
  {
    p.inlineData.Some? && Truthy(p.inlineData.value.data)
  }

  function ImageData(p: Part): string
    requires HasImage(p)
  {
    p.inlineData.value.data.value
  }

  /** The data of the first part carrying an image, or "" when none does. */
  function FirstImagePayload(parts: seq<Part>): (r: string)
    ensures r == "" <==> forall i :: 0 <= i < |parts| ==> !HasImage(parts[i])
    ensures r != "" ==>
              exists i :: 0 <= i < |parts| && HasImage(parts[i]) && r == ImageData(parts[i])
                && forall j :: 0 <= j < i ==> !HasImage(parts[j])
  {
    if parts == [] then ""
    else if HasImage(parts[0]) then ImageData(parts[0])
    else
      var r := FirstImagePayload(parts[1..]);
      assert forall i :: 1 <= i < |parts| ==> parts[i] == parts[1..][i - 1];
      if r == "" then r
      else
        var k :| 0 <= k < |parts[1..]| && HasImage(parts[1..][k]) && r == ImageData(parts[1..][k])
                 && forall j :: 0 <= j < k ==> !HasImage(parts[1..][j]);
        assert HasImage(parts[k + 1]) && r == ImageData(parts[k + 1]);
        r
  }

  /** The parts of the first candidate, when the response has them. */
  function FirstCandidateParts(response: GenerationResponse): Option<seq<Part>>
  {
    if response.candidates.Some? && |response.candidates.value| > 0 then
      var candidate := response.candidates.value[0];
      if candidate.content.Some? then candidate.content.value.parts else None
    else None
  }

  /** The image the handler takes from a response: the first image part of
      the first candidate, or "" when there is none. */
  function ImagePayload(response: GenerationResponse): (r: string)
    ensures FirstCandidateParts(response).None? ==> r == ""
    ensures FirstCandidateParts(response).Some? ==> r == FirstImagePayload(FirstCandidateParts(response).value)
  {
    match FirstCandidateParts(response)
    case None => ""
    case Some(parts) => FirstImagePayload(parts)
  }

  /** Only the first candidate is ever inspected. */
  lemma OnlyFirstCandidateCounts(first: Candidate, others: seq<Candidate>)
    ensures ImagePayload(GenerationResponse(Some([first] + others)))
         == ImagePayload(GenerationResponse(Some([first])))
  {
  }

  /** The extraction loop as the handler writes it: scan the first
      candidate's parts and stop at the first one carrying image data. */
  method ExtractGeneratedImage(response: GenerationResponse) returns (b64: string)
    ensures b64 == ImagePayload(response)
  {
    b64 := "";
    if response.candidates.Some? && |response.candidates.value| > 0 {
      var candidate := response.candidates.value[0];
      if candidate.content.Some? && candidate.content.value.parts.Some? {
        var parts := candidate.content.value.parts.value;
        var i := 0;
        while i < |parts|
          invariant 0 <= i <= |parts|
          invariant b64 == ""
          invariant forall j :: 0 <= j < i ==> !HasImage(parts[j])
        {
          if HasImage(parts[i]) {
            b64 := ImageData(parts[i]);
            break;
          }
          i := i + 1;
        }
      }
    }
  }

  // ---------------------------------------------------------------------------
  // data: URLs (section 3 of RFC 2397)
  // ---------------------------------------------------------------------------

  const JpegMediaType := "image/jpeg"

  const DataScheme := "data:"

  const Base64Marker := ";base64"

  /** `data:image/jpeg;base64,<b64>` */
  function JpegDataUrl(b64: string): string
  {
    DataScheme + JpegMediaType + Base64Marker + "," + b64
  }

  /** A parsed `data:` URL: media type, whether `;base64` was given, and data. */
  datatype DataUrl = DataUrl(mediaType: string, isBase64: bool, data: string)

  /** Index of the first occurrence of `c` in `s`. */
  function IndexOf(s: string, c: char): (r: Option<nat>)
    ensures r.Some? ==> r.value < |s| && s[r.value] == c && forall j :: 0 <= j < r.value ==> s[j] != c
    ensures r.None? ==> forall j :: 0 <= j < |s| ==> s[j] != c
  {
    if s == [] then None
    else if s[0] == c then Some(0)
    else match IndexOf(s[1..], c)
      case None => None
      case Some(k) => Some(k + 1)
  }

  predicate EndsWith(s: string, suffix: string)
  {
    |suffix| <= |s| && s[|s| - |suffix|..] == suffix
  }

  /** Reads `data:[<mediatype>][;base64],<data>`: the header runs up to the
      first comma, everything after it is the data. */
  function ParseDataUrl(s: string): (r: Option<DataUrl>)
    ensures r.Some? ==> StartsWith(s, DataScheme)
  {
    if !StartsWith(s, DataScheme) then None
    else match IndexOf(s, ',')
      case None => None
      case Some(k) =>
        if k < |DataScheme| then None
        else
          var header := s[|DataScheme|..k];
          if EndsWith(header, Base64Marker) then
            Some(DataUrl(header[..|header| - |Base64Marker|], true, s[k + 1..]))
          else Some(DataUrl(header, false, s[k + 1..]))
  }

  /** The result URL reads back as base64 JPEG data holding exactly the
      generated payload, whatever characters the payload contains. */
  lemma {:induction false} JpegDataUrlRoundTrip(b64: string)
    ensures ParseDataUrl(JpegDataUrl(b64)) == Some(DataUrl(JpegMediaType, true, b64))
  {
    var s := JpegDataUrl(b64);
    var head := DataScheme + JpegMediaType + Base64Marker;
    assert s == head + "," + b64;
    assert |head| == 22;
    assert forall j :: 0 <= j < 22 ==> s[j] == head[j];
    assert forall j :: 0 <= j < 22 ==> head[j] != ',';
    assert s[22] == ',';
    assert IndexOf(s, ',') == Some(22);
    assert s[..|DataScheme|] == DataScheme;
    var header := s[|DataScheme|..22];
    assert header == JpegMediaType + Base64Marker;
    assert header[|header| - |Base64Marker|..] == Base64Marker;
    assert header[..|header| - |Base64Marker|] == JpegMediaType;
    assert s[23..] == b64;
  }

  // ---------------------------------------------------------------------------
  // The pipeline and the reply (route.ts lines 41-170)
  // ---------------------------------------------------------------------------

  // The longer messages are written as concatenations of short literals: the
  // verifier sees the characters of a short literal, which lets it prove
  // facts such as `FetchFailed != ""`.

  const FetchFailed := "Failed to download " + "product image"

  const KeyMissing := "GEMINI_API_KEY " + "not configured"

  const NoImage := "No image generated by AI"

  const Unexpected := "An unexpected error " + "occurred during processing"

  const DefaultTitle := "clothing item"

  const SuccessMessage := "Virtual try-on " + "completed successfully!"

  /** The outcome of the steps after validation: the generated base64 payload
      or the message of what was thrown, and the network calls made. */
  datatype Run = Run(result: Thrown<string>, calls: seq<Call>)

  /** What the prompt says about this request. */
  function PromptFor(productType: Option<string>, productTitle: Option<string>): (p: Prompt)
    ensures p.focusArea == Utils.MapProductType(productType) && p.focusArea != ""
    ensures p.productTitle != ""
    ensures Truthy(productTitle) ==> p.productTitle == productTitle.value
    ensures !Truthy(productTitle) ==> p.productTitle == DefaultTitle
    ensures p.productType == productType
  {
    var title := if productTitle.Some? then productTitle.value else "";
    Prompt(Utils.MapProductType(productType), OrElse(title, DefaultTitle), productType)
  }

  /** Both images are ready for the model: the photo normalises, the
      download answers with an ok status, and the product image normalises. */
  predicate ImagesReady(photo: Upload, url: string, env: Env)
  {
    && env.normalize(photo.content).Returned?
    && env.fetch(url).Returned? && env.fetch(url).value.ok
    && env.normalize(env.fetch(url).value.body).Returned?
  }

  /** The request sent to the model once both images are ready: the prompt,
      then the normalised photo, then the normalised product image, both as
      JPEG. */
  function RequestOf(photo: Upload, url: string, productType: Option<string>, productTitle: Option<string>,
                     env: Env): GenerationRequest
    requires ImagesReady(photo, url, env)
  {
    GenerationRequest(
      PromptFor(productType, productTitle),
      InlineImage(JpegMediaType, env.normalize(photo.content).value),
      InlineImage(JpegMediaType, env.normalize(env.fetch(url).value.body).value))
  }

  /** Lines 41-146: everything the handler does once the form is valid, step by
      step. The first step that throws ends the run with its message. */
  function Process(photo: Upload, url: string, productType: Option<string>, productTitle: Option<string>, env: Env): (r: Run)
    ensures env.normalize(photo.content).Threw? ==>
              r == Run(Threw(env.normalize(photo.content).message), [])
    ensures env.normalize(photo.content).Returned? && env.fetch(url).Threw? ==>
              r == Run(Threw(env.fetch(url).message), [FetchProduct(url)])
    ensures env.normalize(photo.content).Returned? && env.fetch(url).Returned? && !env.fetch(url).value.ok ==>
              r == Run(Threw(FetchFailed), [FetchProduct(url)])
    ensures env.normalize(photo.content).Returned? && env.fetch(url).Returned? && env.fetch(url).value.ok
              && env.normalize(env.fetch(url).value.body).Threw? ==>
              r == Run(Threw(env.normalize(env.fetch(url).value.body).message), [FetchProduct(url)])
    ensures ImagesReady(photo, url, env) && !Truthy(env.apiKey) ==>
              r == Run(Threw(KeyMissing), [FetchProduct(url)])
    ensures ImagesReady(photo, url, env) && Truthy(env.apiKey) ==>
              && r.calls == [FetchProduct(url), GenerateContent(RequestOf(photo, url, productType, productTitle, env))]
              && (env.generate(r.calls[1].request).Threw? ==>
                    r.result == Threw(env.generate(r.calls[1].request).message))
              && (env.generate(r.calls[1].request).Returned? && ImagePayload(env.generate(r.calls[1].request).value) == "" ==>
                    r.result == Threw(NoImage))
    ensures r.result.Returned? <==>
              && ImagesReady(photo, url, env) && Truthy(env.apiKey)
              && env.generate(RequestOf(photo, url, productType, productTitle, env)).Returned?
              && ImagePayload(env.generate(RequestOf(photo, url, productType, productTitle, env)).value) != ""
    ensures r.result.Returned? ==>
              r.result.value == ImagePayload(env.generate(RequestOf(photo, url, productType, productTitle, env)).value)
  {
    match env.normalize(photo.content)
    case Threw(m) => Run(Threw(m), [])
    case Returned(photoJpeg) =>
      match env.fetch(url)
      case Threw(m) => Run(Threw(m), [FetchProduct(url)])
      case Returned(reply) =>
        if !reply.ok then Run(Threw(FetchFailed), [FetchProduct(url)])
        else match env.normalize(reply.body)
          case Threw(m) => Run(Threw(m), [FetchProduct(url)])
          case Returned(productJpeg) =>
            if !Truthy(env.apiKey) then Run(Threw(KeyMissing), [FetchProduct(url)])
            else
              var request := GenerationRequest(
                PromptFor(productType, productTitle),
                InlineImage(JpegMediaType, photoJpeg),
                InlineImage(JpegMediaType, productJpeg));
              var calls := [FetchProduct(url), GenerateContent(request)];
              match env.generate(request)
              case Threw(m) => Run(Threw(m), calls)
              case Returned(response) =>
                var b64 := ImagePayload(response);
                if b64 == "" then Run(Threw(NoImage), calls) else Run(Returned(b64), calls)
  }

  /** The JSON body of the reply (`processingTime` is not modelled). */
  datatype ReplyBody = Succeeded(resultImageUrl: string, message: string) | Failed(error: string)

  datatype Reply = Reply(status: int, body: ReplyBody)

  datatype Outcome = Outcome(reply: Reply, calls: seq<Call>)

  /** The catch block: a 500 carrying the error's message, or the generic one. */
  function Caught(message: string): (r: Reply)
    ensures r.status == 500 && r.body.Failed? && r.body.error != ""
    ensures message != "" ==> r.body.error == message
    ensures message == "" ==> r.body.error == Unexpected
  {
    Reply(500, Failed(OrElse(message, Unexpected)))
  }

  /** `POST`: `request` is the result of `request.formData()`, which may throw. */
  function Post(request: Thrown<TryOnForm>, env: Env): (out: Outcome)
    ensures out.reply.status == 200 || out.reply.status == 400 || out.reply.status == 500
    ensures out.reply.status == 200 <==> out.reply.body.Succeeded?
    ensures out.reply.body.Failed? ==> out.reply.body.error != ""
    ensures request.Threw? ==> out == Outcome(Caught(request.message), [])
    ensures request.Returned? && Validate(request.value).Some? ==>
              out == Outcome(Reply(400, Failed(RejectionMessage(Validate(request.value).value))), [])
    ensures out.reply.status == 400 <==> request.Returned? && Validate(request.value).Some?
    ensures out.calls != [] ==> request.Returned? && Validate(request.value).None?
    ensures out.reply.status == 200 ==>
              && |out.calls| == 2
              && out.calls[1].GenerateContent?
              && var generated := env.generate(out.calls[1].request);
                 generated.Returned? && ImagePayload(generated.value) != ""
                 && out.reply.body == Succeeded(JpegDataUrl(ImagePayload(generated.value)), SuccessMessage)
    ensures request.Returned? && Validate(request.value).None? ==>
              var form := request.value;
              var run := Process(form.userPhoto.value, form.productImageUrl.value, form.productType, form.productTitle, env);
              && out.calls == run.calls
              && (run.result.Threw? ==> out.reply == Caught(run.result.message))
              && (run.result.Returned? ==> out.reply == Reply(200, Succeeded(JpegDataUrl(run.result.value), SuccessMessage)))
  {
    match request
    case Threw(m) => Outcome(Caught(m), [])
    case Returned(form) =>
      match Validate(form)
      case Some(rejection) => Outcome(Reply(400, Failed(RejectionMessage(rejection))), [])
      case None =>
        var run := Process(form.userPhoto.value, form.productImageUrl.value, form.productType, form.productTitle, env);
        match run.result
        case Threw(m) => Outcome(Caught(m), run.calls)
        case Returned(b64) => Outcome(Reply(200, Succeeded(JpegDataUrl(b64), SuccessMessage)), run.calls)
  }

  /** The normal path: a valid form, both images ready, a key, and a response
      whose first candidate carries an image give a 200 whose URL wraps that
      image, after one download and one generation call. */
  lemma NormalPathSucceeds(form: TryOnForm, env: Env)
    requires Validate(form).None?
    requires ImagesReady(form.userPhoto.value, form.productImageUrl.value, env) && Truthy(env.apiKey)
    requires var request := RequestOf(form.userPhoto.value, form.productImageUrl.value, form.productType, form.productTitle, env);
             env.generate(request).Returned? && ImagePayload(env.generate(request).value) != ""
    ensures var request := RequestOf(form.userPhoto.value, form.productImageUrl.value, form.productType, form.productTitle, env);
            Post(Returned(form), env)
            == Outcome(Reply(200, Succeeded(JpegDataUrl(ImagePayload(env.generate(request).value)), SuccessMessage)),
                       [FetchProduct(form.productImageUrl.value), GenerateContent(request)])
  {
  }

  /** A response without an image part is a 500 "No image generated by AI",
      after both network calls. */
  lemma EmptyPayloadFails(form: TryOnForm, env: Env)
    requires Validate(form).None?
    requires ImagesReady(form.userPhoto.value, form.productImageUrl.value, env) && Truthy(env.apiKey)
    requires var request := RequestOf(form.userPhoto.value, form.productImageUrl.value, form.productType, form.productTitle, env);
             env.generate(request).Returned? && ImagePayload(env.generate(request).value) == ""
    ensures var request := RequestOf(form.userPhoto.value, form.productImageUrl.value, form.productType, form.productTitle, env);
            Post(Returned(form), env)
            == Outcome(Reply(500, Failed(NoImage)), [FetchProduct(form.productImageUrl.value), GenerateContent(request)])
  {
  }

  /** A product image that does not download fails the request with a 500
      after exactly one network call, whether or not the API key is set. */
  lemma FetchFailureStopsEarly(form: TryOnForm, env: Env, reply: FetchReply)
    requires Validate(form).None?
    requires env.normalize(form.userPhoto.value.content).Returned?
    requires env.fetch(form.productImageUrl.value) == Returned(reply) && !reply.ok
    ensures Post(Returned(form), env)
         == Outcome(Reply(500, Failed(FetchFailed)), [FetchProduct(form.productImageUrl.value)])
  {
    assert FetchFailed != "" by { assert |FetchFailed| == 32; }
  }

  /** Without an API key the model is never called. */
  lemma MissingKeyMakesNoGeneration(form: TryOnForm, env: Env)
    requires Validate(form).None? && !Truthy(env.apiKey)
    ensures forall i :: 0 <= i < |Post(Returned(form), env).calls| ==>
              !Post(Returned(form), env).calls[i].GenerateContent?
    ensures Post(Returned(form), env).reply.status == 500
  {
  }

  /** A successful reply's URL parses back to the payload of the first image
      part of the model's first candidate, and the prompt carried the focus
      area of the product type. */
  lemma SuccessCarriesGeneratedImage(form: TryOnForm, env: Env)
    ensures var out := Post(Returned(form), env);
            out.reply.status == 200 ==>
            && out.calls[0] == FetchProduct(form.productImageUrl.value)
            && out.calls[1].request.prompt.focusArea == Utils.MapProductType(form.productType)
            && ParseDataUrl(out.reply.body.resultImageUrl)
               == Some(DataUrl(JpegMediaType, true, ImagePayload(env.generate(out.calls[1].request).value)))
  {
    var out := Post(Returned(form), env);
    if out.reply.status == 200 {
      JpegDataUrlRoundTrip(ImagePayload(env.generate(out.calls[1].request).value));
    }
  }
}
