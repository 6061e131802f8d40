/** The three-step try-on wizard (components/try-on-modal.tsx).

    Step 1 takes the user's photo, step 2 the product variant, and step 3
    shows the generation in progress and then its result. The React state
    hooks are one immutable `Wizard` record, and each handler is a function
    from the old record to the new one. The asynchronous `generateTryOn`
    is split at its `await`. `StartGeneration` is the synchronous head.
    `CompleteGeneration` takes the variant captured when the generation
    started, what the server replied, the browser storage, the clock reading
    at the time the reply arrives, and whether the storage write throws. */
module TryOnModal {
  import opened Common
  import opened Types
  import CacheStorage
  import TryOnRoute

  type Upload = TryOnRoute.Upload

  /** The number of rotating loading messages. */
  const LoadingMessageCount := 9

  /** The largest photo the modal accepts: eight mebibytes. */
  const MaxUploadSize := 8 * 1024 * 1024

  const ValidTypes: seq<string> := ["image/jpeg", "image/jpg", "image/png", "image/webp"]

  // The longer messages are written as concatenations of short literals: the
  // verifier sees the characters of a short literal, which lets it prove
  // facts such as `SomethingWentWrong != ""`.

  const InvalidTypeError := "Please upload a valid image " + "file (JPEG, PNG, or WebP)"

  const TooLargeError := "Image size must " + "be less than 8MB"

  const GenerationFailed := "Generation failed"

  const SomethingWentWrong := "Something went wrong. " + "Please try again."

  /** The modal's state hooks; `loadingMessage` indexes the message list. The
      fullscreen viewer is not modelled. */
  datatype Wizard = Wizard(
    step: int,
    uploadedFile: Option<Upload>,
    previewUrl: string,
    selectedVariant: Option<ProductVariant>,
    isProcessing: bool,
    resultImageUrl: string,
    error: string,
    loadingMessage: nat)

  const Initial := Wizard(1, None, "", None, false, "", "", 0)

  /** What the wizard keeps true between events: the step is 1, 2 or 3, a photo
      is present from step 2 on, a variant at step 3, and work happens only
      at step 3. */
  predicate WizardInvariant(w: Wizard)
  {
    && 1 <= w.step <= 3
    && (w.step >= 2 ==> w.uploadedFile.Some?)
    && (w.step == 3 ==> w.selectedVariant.Some?)
    && (w.isProcessing ==> w.step == 3)
    && w.loadingMessage < LoadingMessageCount
  }

  lemma InitialSatisfiesInvariant()
    ensures WizardInvariant(Initial) && Initial.step == 1
  {
  }

  // ---------------------------------------------------------------------------
  // Step 1: the photo
  // ---------------------------------------------------------------------------

  /** `handleFileChange`: `picked` is `e.target.files?.[0]`. The type is
      checked before the size; a rejection only sets the error. */
  function HandleFileChange(w: Wizard, picked: Option<Upload>): (r: Wizard)
    ensures picked.None? ==> r == w
    ensures picked.Some? && picked.value.mimeType !in ValidTypes ==>
              r == w.(error := InvalidTypeError)
    ensures picked.Some? && picked.value.mimeType in ValidTypes
              && TryOnRoute.Size(picked.value) > MaxUploadSize ==>
              r == w.(error := TooLargeError)
    ensures picked.Some? && picked.value.mimeType in ValidTypes
              && TryOnRoute.Size(picked.value) <= MaxUploadSize ==>
              r == w.(error := "", uploadedFile := picked)
    ensures r.uploadedFile != w.uploadedFile ==>
              && r.uploadedFile == picked
              && picked.value.mimeType in ValidTypes
              && TryOnRoute.Size(picked.value) <= MaxUploadSize
    ensures picked.Some? ==>
              (r.error == "" <==>
                 picked.value.mimeType in ValidTypes && TryOnRoute.Size(picked.value) <= MaxUploadSize)
  {
    match picked
    case None => w
    case Some(file) =>
      if file.mimeType !in ValidTypes then w.(error := InvalidTypeError)
      else if TryOnRoute.Size(file) > MaxUploadSize then w.(error := TooLargeError)
      else w.(error := "", uploadedFile := Some(file))
  }

  /** The `FileReader` callback delivering the photo's preview. */
  function PreviewLoaded(w: Wizard, dataUrl: string): (r: Wizard)
    ensures r.previewUrl == dataUrl && r.(previewUrl := w.previewUrl) == w
  {
    w.(previewUrl := dataUrl)
  }

  /** The "Change Photo" button, shown over the preview on step 1: it drops
      the photo and its preview. Where the button is not shown nothing happens. */
  function ChangePhoto(w: Wizard): (r: Wizard)
    ensures w.step == 1 && w.previewUrl != "" ==>
              r.uploadedFile.None? && r.previewUrl == "" && r.(uploadedFile := w.uploadedFile, previewUrl := w.previewUrl) == w
    ensures !(w.step == 1 && w.previewUrl != "") ==> r == w
  {
    if w.step == 1 && w.previewUrl != "" then w.(uploadedFile := None, previewUrl := "") else w
  }

  /** After "Change Photo" the Next button is disabled until a new photo is taken. */
  lemma ChangePhotoDisablesNext(w: Wizard)
    requires w.step == 1 && w.previewUrl != ""
    ensures !NextEnabled(ChangePhoto(w))
    ensures HandleNext(ChangePhoto(w)) == ChangePhoto(w)
  {
  }

  // ---------------------------------------------------------------------------
  // Step 2: the variant
  // ---------------------------------------------------------------------------

  /** Clicking a variant card. */
  function SelectVariant(w: Wizard, v: ProductVariant): (r: Wizard)
    ensures r.selectedVariant == Some(v) && r.(selectedVariant := w.selectedVariant) == w
  {
    w.(selectedVariant := Some(v))
  }

  // ---------------------------------------------------------------------------
  // Navigation
  // ---------------------------------------------------------------------------

  /** The synchronous head of `generateTryOn`: without a photo and a variant
      it does nothing; otherwise processing starts and the error is cleared. */
  function StartGeneration(w: Wizard): (r: Wizard)
    ensures w.uploadedFile.None? || w.selectedVariant.None? ==> r == w
    ensures w.uploadedFile.Some? && w.selectedVariant.Some? ==>
              r == w.(isProcessing := true, error := "")
  {
    if w.uploadedFile.None? || w.selectedVariant.None? then w
    else w.(isProcessing := true, error := "")
  }

  /** `handleNext`: 1 -> 2 with a photo; 2 -> 3 with a variant, which also
      starts the generation. */
  function HandleNext(w: Wizard): (r: Wizard)
    ensures w.step == 1 && w.uploadedFile.Some? ==> r == w.(step := 2)
    ensures w.step == 2 && w.selectedVariant.Some? ==> r == StartGeneration(w.(step := 3))
    ensures !(w.step == 1 && w.uploadedFile.Some?) && !(w.step == 2 && w.selectedVariant.Some?) ==>
              r == w
  {
    if w.step == 1 && w.uploadedFile.Some? then w.(step := 2)
    else if w.step == 2 && w.selectedVariant.Some? then StartGeneration(w.(step := 3))
    else w
  }

  /** `handleBack`: one step back, never below 1. */
  function HandleBack(w: Wizard): (r: Wizard)
    ensures w.step > 1 ==> r == w.(step := w.step - 1)
    ensures w.step <= 1 ==> r == w
  {
    if w.step > 1 then w.(step := w.step - 1) else w
  }

  /** The Next button is shown before step 3 and is disabled at step 1 without
      a photo and at step 2 without a variant. */
  predicate NextEnabled(w: Wizard)
  {
    w.step < 3 && !((w.step == 1 && w.uploadedFile.None?) || (w.step == 2 && w.selectedVariant.None?))
  }

  /** In a consistent wizard the Next button is enabled exactly when pressing
      it moves forward one step. */
  lemma NextEnabledIffAdvances(w: Wizard)
    requires WizardInvariant(w)
    ensures NextEnabled(w) <==> HandleNext(w).step == w.step + 1
  {
  }

  /** The Back button is disabled at step 1 and while processing. */
  predicate BackEnabled(w: Wizard)
  {
    !(w.step == 1 || w.isProcessing)
  }

  /** Pressing the left footer button: at step 3 with a result it closes (and
      resets) the modal; otherwise it goes back. A disabled button does nothing. */
  function PressBack(w: Wizard): (r: Wizard)
    ensures !BackEnabled(w) ==> r == w
    ensures BackEnabled(w) && w.step == 3 && w.resultImageUrl != "" ==> r == ResetModal(w)
    ensures BackEnabled(w) && !(w.step == 3 && w.resultImageUrl != "") ==> r == HandleBack(w)
  {
    if !BackEnabled(w) then w
    else if w.step == 3 && w.resultImageUrl != "" then ResetModal(w)
    else HandleBack(w)
  }

  /** `resetModal`: back to the initial state; the last loading message shown
      is kept. */
  function ResetModal(w: Wizard): (r: Wizard)
    ensures r == Initial.(loadingMessage := w.loadingMessage)
    ensures r.step == 1 && r.uploadedFile.None? && r.selectedVariant.None? && !r.isProcessing
    ensures r.previewUrl == "" && r.resultImageUrl == "" && r.error == ""
  {
    Wizard(1, None, "", None, false, "", "", w.loadingMessage)
  }

  // ---------------------------------------------------------------------------
  // Step 3: the generation
  // ---------------------------------------------------------------------------

  /** The form `generateTryOn` posts (the extra `variantTitle` field is
      ignored by the handler). */
  function RequestFor(w: Wizard, productType: string, productTitle: string): (form: TryOnRoute.TryOnForm)
    requires w.uploadedFile.Some? && w.selectedVariant.Some?
    ensures form.userPhoto == w.uploadedFile
    ensures form.productImageUrl == Some(w.selectedVariant.value.image)
    ensures form.productType == Some(productType) && form.productTitle == Some(productTitle)
  {
    TryOnRoute.TryOnForm(w.uploadedFile, Some(w.selectedVariant.value.image), Some(productType), Some(productTitle))
  }

  /** What `response.json()` gives the client: the HTTP `ok` flag and the
      body's `success`, `error` and `resultImageUrl` ("" when absent). */
  datatype ClientReply = ClientReply(ok: bool, success: bool, error: string, resultImageUrl: string)

  /** The state and the storage after the awaited part of `generateTryOn`. */
  datatype Completion = Completion(wizard: Wizard, host: CacheStorage.Host)

  /** The awaited part of `generateTryOn`. `variant` is the selection the
      generation started with: the handler's closure captured it, so a reset of
      the modal before the reply arrives does not change it. `reply` is `Threw`
      when the fetch or the JSON decoding throws. `writeFailure` is the message
      `localStorage.setItem` throws with while caching the result (a used-up
      quota, say), or `None` when the write succeeds. */
  function CompleteGeneration(w: Wizard, variant: ProductVariant, reply: Thrown<ClientReply>,
                              host: CacheStorage.Host, now: int, productTitle: string,
                              writeFailure: Option<string>): (r: Completion)
    ensures r.wizard == w.(isProcessing := false, resultImageUrl := r.wizard.resultImageUrl, error := r.wizard.error)
    ensures reply.Returned? && reply.value.ok && reply.value.success ==>
              r.wizard.resultImageUrl == reply.value.resultImageUrl
    ensures reply.Returned? && reply.value.ok && reply.value.success
              && (host.Server? || writeFailure.None?) ==>
              && r.wizard == w.(isProcessing := false, resultImageUrl := reply.value.resultImageUrl)
              && r.host == CacheStorage.SaveCachedResult(host, now,
                   CacheStorage.NewResult(reply.value.resultImageUrl, variant.title, productTitle))
    ensures reply.Returned? && reply.value.ok && reply.value.success
              && host.Browser? && writeFailure.Some? ==>
              && r.host == host
              && r.wizard.error == OrElse(writeFailure.value, SomethingWentWrong)
              && r.wizard.error != ""
    ensures reply.Returned? && !(reply.value.ok && reply.value.success) ==>
              && r == Completion(w.(isProcessing := false, error := OrElse(reply.value.error, GenerationFailed)), host)
              && r.wizard.error != ""
    ensures reply.Threw? ==>
              && r == Completion(w.(isProcessing := false, error := OrElse(reply.message, SomethingWentWrong)), host)
              && r.wizard.error != ""
  {
    match reply
    case Threw(m) =>
      Completion(w.(isProcessing := false, error := OrElse(m, SomethingWentWrong)), host)
    case Returned(data) =>
      if !data.ok || !data.success then
        // The thrown Error's message is `data.error || 'Generation failed'`, never empty.
        Completion(w.(isProcessing := false, error := OrElse(data.error, GenerationFailed)), host)
      else
        var shown := w.(isProcessing := false, resultImageUrl := data.resultImageUrl);
        var result := CacheStorage.NewResult(data.resultImageUrl, variant.title, productTitle);
        match CacheStorage.TrySaveCachedResult(host, now, result, writeFailure)
        case Returned(saved) => Completion(shown, saved)
        case Threw(m) => Completion(shown.(error := OrElse(m, SomethingWentWrong)), host)
  }

  /** A successful generation adds exactly one cache entry, first in the
      list, holding the result URL and the variant and product titles. */
  lemma SuccessCachesOneResult(w: Wizard, variant: ProductVariant, reply: ClientReply,
                               storage: CacheStorage.Storage, now: int, productTitle: string)
    requires reply.ok && reply.success
    ensures var c := CompleteGeneration(w, variant, Returned(reply), CacheStorage.Browser(storage), now, productTitle, None);
            var cached := CacheStorage.GetCachedResults(c.host, now);
            && |cached| == CacheStorage.Min(CacheStorage.MaxCachedResults,
                                            |CacheStorage.GetCachedResults(CacheStorage.Browser(storage), now)| + 1)
            && cached[0] == CacheStorage.CachedResult(reply.resultImageUrl, variant.title, productTitle, now)
            && cached[1..] == CacheStorage.GetCachedResults(CacheStorage.Browser(storage), now)[..|cached| - 1]
  {
    var result := CacheStorage.NewResult(reply.resultImageUrl, variant.title, productTitle);
    CacheStorage.SaveThenRead(storage, now, result);
  }

  /** Closing the modal while the generation runs clears the selection, yet
      the result that arrives afterwards is still cached under the variant
      the generation started with. */
  lemma CloseDuringGenerationKeepsVariant(w: Wizard, reply: ClientReply, storage: CacheStorage.Storage,
                                          now: int, productTitle: string)
    requires WizardInvariant(w) && w.step == 2 && w.selectedVariant.Some? && reply.ok && reply.success
    ensures var started := HandleNext(w);
            var closed := ResetModal(started);
            var c := CompleteGeneration(closed, started.selectedVariant.value, Returned(reply),
                                        CacheStorage.Browser(storage), now, productTitle, None);
            && started.isProcessing
            && closed.selectedVariant.None?
            && CacheStorage.GetCachedResults(c.host, now)[0].variantTitle == w.selectedVariant.value.title
  {
    var started := HandleNext(w);
    SuccessCachesOneResult(ResetModal(started), started.selectedVariant.value, reply, storage, now, productTitle);
  }

  /** When the browser refuses the cache write, the result is still shown,
      the write's error is reported, and the cache keeps what it held. */
  lemma FailedCacheWriteKeepsResult(w: Wizard, variant: ProductVariant, reply: ClientReply,
                                    storage: CacheStorage.Storage, now: int, productTitle: string, failure: string)
    requires reply.ok && reply.success
    ensures var c := CompleteGeneration(w, variant, Returned(reply), CacheStorage.Browser(storage), now,
                                        productTitle, Some(failure));
            && c.wizard.resultImageUrl == reply.resultImageUrl
            && c.wizard.error != ""
            && CacheStorage.GetCachedResults(c.host, now) == CacheStorage.GetCachedResults(CacheStorage.Browser(storage), now)
  {
  }

  // ---------------------------------------------------------------------------
  // Loading messages
  // ---------------------------------------------------------------------------

  /** One tick of the message rotation: `(index + 1) % loadingMessages.length`. */
  function NextLoadingIndex(i: nat): (r: nat)
    ensures r < LoadingMessageCount
    ensures i < LoadingMessageCount - 1 ==> r == i + 1
    ensures i == LoadingMessageCount - 1 ==> r == 0
  {
    (i + 1) % LoadingMessageCount
  }

  /** The index after `ticks` ticks of an interval whose counter starts at 0. */
  function IndexAfter(ticks: nat): nat
  {
    if ticks == 0 then 0 else NextLoadingIndex(IndexAfter(ticks - 1))
  }

  /** The rotation cycles through the nine messages in order. */
  lemma {:induction false} IndexAfterCycles(ticks: nat)
    ensures IndexAfter(ticks) == ticks % LoadingMessageCount
  {
    if ticks > 0 {
      IndexAfterCycles(ticks - 1);
    }
  }

  /** The message shown after `ticks` ticks of the interval that runs while
      processing; a wizard that is not processing runs no interval. */
  function RotateMessages(w: Wizard, ticks: nat): (r: Wizard)
    ensures r.loadingMessage < LoadingMessageCount || r == w
    ensures w.isProcessing && ticks > 0 ==> r == w.(loadingMessage := ticks % LoadingMessageCount)
    ensures !w.isProcessing || ticks == 0 ==> r == w
  {
    if !w.isProcessing || ticks == 0 then w
    else
      IndexAfterCycles(ticks);
      w.(loadingMessage := IndexAfter(ticks))
  }

  // ---------------------------------------------------------------------------
  // The invariant holds through every event
  // ---------------------------------------------------------------------------

  /** Picking a photo, its preview arriving and picking a variant keep the
      wizard consistent. */
  lemma InputsPreserveInvariant(w: Wizard, picked: Option<Upload>, dataUrl: string, v: ProductVariant)
    requires WizardInvariant(w)
    ensures WizardInvariant(HandleFileChange(w, picked))
    ensures WizardInvariant(PreviewLoaded(w, dataUrl))
    ensures WizardInvariant(SelectVariant(w, v))
    ensures WizardInvariant(ChangePhoto(w))
  {
  }

  /** Next, Back/Close and reset keep the wizard consistent. */
  lemma NavigationPreservesInvariant(w: Wizard)
    requires WizardInvariant(w)
    ensures WizardInvariant(HandleNext(w))
    ensures WizardInvariant(PressBack(w))
    ensures WizardInvariant(ResetModal(w))
  {
  }

  /** The end of a generation and the message rotation keep the wizard
      consistent. */
  lemma GenerationPreservesInvariant(w: Wizard, variant: ProductVariant, reply: Thrown<ClientReply>,
                                     host: CacheStorage.Host, now: int, productTitle: string,
                                     writeFailure: Option<string>, ticks: nat)
    requires WizardInvariant(w)
    ensures WizardInvariant(CompleteGeneration(w, variant, reply, host, now, productTitle, writeFailure).wizard)
    ensures WizardInvariant(RotateMessages(w, ticks))
  {
  }

  /** The modal accepts photos up to 8 MiB but the handler only up to 5 MiB:
      a 6 MiB JPEG passes the modal and is then rejected by the handler. */
  lemma ClientAcceptsWhatServerRejects(w: Wizard, photo: Upload, url: string, productType: Option<string>,
                                       productTitle: Option<string>)
    requires photo.mimeType == "image/jpeg" && TryOnRoute.Size(photo) == 6 * 1024 * 1024 && url != ""
    ensures HandleFileChange(w, Some(photo)).uploadedFile == Some(photo)
    ensures HandleFileChange(w, Some(photo)).error == ""
    ensures TryOnRoute.Validate(TryOnRoute.TryOnForm(Some(photo), Some(url), productType, productTitle))
            == Some(TryOnRoute.FileTooLarge)
  {
  }
}
