# TryItOn prototype — a Dafny model

TryItOn is a prototype virtual try-on widget for online stores. A shopper
opens a three-step modal on a product page. They upload a photo, pick a
product variant, and the browser posts both to `/api/tryon`. That route
validates the upload, normalises both images, asks a generative model for a
composite picture, and answers with a JPEG data URL. A merchant configures
the widget on a settings page. Settings, products and the recent results are
kept in the browser's `localStorage`. A dashboard shows mock analytics.

This project models that core as pure Dafny functions over immutable
records, and proves what each operation promises:

- `common.dfy` (`Common`): the JavaScript string helpers the core relies on
  (`toLowerCase`, `trim`, decimal rendering of integers).
- `types.dfy` (`Types`), `mock_data.dfy` (`MockData`): the records of
  `lib/types.ts` and the mock products, default settings and analytics.
- `utils.dfy` (`Utils`): `mapProductType` and `formatTimeAgo`.
- `widget_styles.dfy` (`WidgetStyles`): `getButtonStyleClasses`.
- `cache_storage.dfy` (`CacheStorage`): the `localStorage` wrapper. A host is
  either the server (no `window`) or a browser whose storage has three slots.
  Each slot is empty, holds text that does not parse, or holds a value.
- `tryon_route.dfy` (`TryOnRoute`): the `POST /api/tryon` handler. Image
  resizing, the product-image download, the API key and the generative model
  are fields of an environment record, so the handler is a function of the
  form and that environment. It also records the network calls it makes.
- `tryon_modal.dfy` (`TryOnModal`): the modal's state as one `Wizard` record,
  each handler a function on it, and the invariant they all keep.
- `settings_page.dfy` (`SettingsPage`), `store_page.dfy` (`StorePage`),
  `dashboard.dfy` (`Dashboard`): what those pages compute and render.

`lib/utils.ts` gives jacket, coat, sweater and hoodie each a phrase of its
own. The modal accepts uploads up to 8 MiB while the route rejects anything
over 5 MiB.
`TryOnModal.ClientAcceptsWhatServerRejects` exhibits a 6 MiB JPEG that gets
through the first check and is refused by the second.

## Model

| member | source | states |
|---|---|---|
| Common.ToLower | lib/utils.ts:48 | lower-cases each ASCII capital, keeps every other character, keeps the length |
| Common.Trim | lib/utils.ts:48 | the result is a slice of the input with only whitespace cut from each end, and it neither starts nor ends with whitespace |
| Common.TrimPadded | lib/utils.ts:48 | trimming whitespace + core + whitespace gives back the core, when the core has no whitespace at either end |
| Common.NatToDecimal | lib/utils.ts:17-19 | renders a count as decimal digits with no leading zero |
| Common.DecimalRoundTrip | lib/utils.ts:17-19 | reading the rendered digits back gives the count |
| Common.IntToDecimal | app/settings/page.tsx:64 | renders an integer, with a minus sign exactly when it is negative |
| Utils.Lookup | lib/utils.ts:24-42 | a key found in the table maps to the word spelled by that key; a key not found is not spelled by any word |
| Utils.LookupFindsEachWord | lib/utils.ts:24-42 | each of the 17 table words is found under its own spelling |
| Utils.KeysAreTrimmed | lib/utils.ts:24-42 | every table key is non-empty and has no whitespace at its ends, so trimmed input can hit it |
| Utils.MapProductType | lib/utils.ts:23-50 | an absent or empty type gets the generic phrase; a type whose lower-cased, trimmed form is a key gets that key's phrase; any other type gets a phrase quoting the original string |
| Utils.MapProductTypeIgnoresCaseAndPadding | lib/utils.ts:48-49 | a table word written in any letter case and padded with any whitespace maps to the word's phrase |
| Utils.LookupKeyOfPadded | lib/utils.ts:48 | the key of a whitespace-padded type is its lower-cased core |
| Utils.ShirtSynonymsShareAPhrase | lib/utils.ts:25-28 | shirt, blouse, t-shirt and top all map to the shirt phrase |
| Utils.TimeAgoOf | lib/utils.ts:11-19 | picks the bucket by the elapsed time (under a minute, under an hour, under a day, else days), each count being the whole number of units elapsed |
| Utils.FormatTimeAgo | lib/utils.ts:9-20 | the label is "Just now" exactly when less than a minute has passed, future instants included; otherwise it is the whole count of minutes, hours or days elapsed followed by "m ago" under an hour, "h ago" under a day, and "d ago" from a day on |
| Utils.RenderRoundTrip | lib/utils.ts:16-19 | every label parses back to the bucket and count it came from, so no two buckets share a label |
| Utils.CountedLabelRoundTrip | lib/utils.ts:17-19 | a label "<n>m ago", "<n>h ago" or "<n>d ago" reads back as n in that unit |
| Utils.BucketBoundaries | lib/utils.ts:12-19 | 59.999 s is "Just now"; exactly one minute, hour and day read "1m ago", "1h ago" and "1d ago" |
| WidgetStyles.PresetOf | lib/widget-styles.ts:6-15 | a name found in the map is that preset's name; a name not found is no preset's name |
| WidgetStyles.PresetNameRoundTrip | lib/widget-styles.ts:6-15 | each of the eight presets is found under its own name |
| WidgetStyles.ButtonStyleClasses | lib/widget-styles.ts:3-18 | the classes are the base classes, a space, then the named preset's classes or, for an unknown name, the elegant-minimal classes |
| WidgetStyles.UnknownStyleFallsBack | lib/widget-styles.ts:17 | an unknown style name is styled exactly as elegant-minimal |
| WidgetStyles.PresetPartRoundTrip | lib/widget-styles.ts:3-18 | removing the base-class prefix from a preset's class string gives back that preset's own classes |
| CacheStorage.GetSettings | lib/cache-storage.ts:15-26 | the stored settings in a browser that holds parsable settings; the defaults on the server, when nothing is stored, or when the text does not parse |
| CacheStorage.SaveSettings | lib/cache-storage.ts:28-31 | writes only the settings slot in a browser; changes nothing on the server |
| CacheStorage.SettingsRoundTrip | lib/cache-storage.ts:15-31 | in a browser, reading after saving returns what was saved, and products and results are untouched |
| CacheStorage.GetProducts | lib/cache-storage.ts:34-49 | returns the stored list when it parses, else the mock products; only the first read in a browser with nothing stored writes the mocks to the store |
| CacheStorage.SaveProducts | lib/cache-storage.ts:51-54 | writes only the products slot in a browser; changes nothing on the server |
| CacheStorage.ProductsRoundTrip | lib/cache-storage.ts:34-54 | in a browser, reading after saving returns the saved list and writes nothing, and settings and results are untouched |
| CacheStorage.GetProductsSettles | lib/cache-storage.ts:34-49 | a second read returns the same list and changes nothing further |
| CacheStorage.FindIndex | lib/cache-storage.ts:58 | the first position holding the id, or none when no product has it |
| CacheStorage.Merge | lib/cache-storage.ts:61 | each field present in the update replaces the product's field, and each absent one keeps it |
| CacheStorage.MergeNothing | lib/cache-storage.ts:61 | an update with no fields leaves the product as it was |
| CacheStorage.MergeIdempotent | lib/cache-storage.ts:61 | applying the same update twice is applying it once |
| CacheStorage.UpdateProduct | lib/cache-storage.ts:56-64 | in a browser, merges the updates into the first product with the id and saves the list, other products unchanged and the other slots untouched; an absent id saves nothing; on the server nothing changes |
| CacheStorage.UpdateAbsentIdChangesNothing | lib/cache-storage.ts:60-63 | with products stored, updating an id nobody has leaves the host as it was |
| CacheStorage.Unexpired | lib/cache-storage.ts:76-77 | keeps, in order, exactly the results newer than the cutoff |
| CacheStorage.UnexpiredKeepsMultiplicity | lib/cache-storage.ts:76-77 | each result newer than the cutoff occurs as often as in the input, and older ones not at all |
| CacheStorage.UnexpiredKeepsFreshList | lib/cache-storage.ts:76-77 | a list whose every entry is newer than the cutoff passes the filter whole |
| CacheStorage.ExpiryComposes | lib/cache-storage.ts:76-77 | filtering at one cutoff and then another is filtering once at the later cutoff |
| CacheStorage.GetCachedResults | lib/cache-storage.ts:67-81 | the stored results from the last ten hours, in stored order; none on the server, when nothing is stored, or when the text does not parse |
| CacheStorage.CachedResultsKeepMultiplicity | lib/cache-storage.ts:67-81 | with parsable results stored, every fresh result is read as often as it is stored and every expired one is dropped |
| CacheStorage.SaveCachedResult | lib/cache-storage.ts:83-95 | the stamped result goes first, followed by the unexpired results, cut to twenty; settings and products are untouched; a no-op on the server |
| CacheStorage.TrySaveCachedResult | lib/cache-storage.ts:83-95 | on the server nothing is written; in a browser either the write succeeds and gives the save's host, or `setItem` throws and its message is the outcome; after a successful write in a browser the cache is not empty |
| CacheStorage.SaveThenRead | lib/cache-storage.ts:67-95 | a read right after a save returns exactly what was stored: one to twenty results, the new one first |
| CacheStorage.ClearCache | lib/cache-storage.ts:97-100 | afterwards no clock reading finds any result, and settings and products stay |
| TryOnRoute.Validate | app/api/tryon/route.ts:16-39 | rejects a missing photo or URL first, then a photo over 5 MiB, then a type outside JPEG/JPG/PNG/WebP, and accepts exactly the rest |
| TryOnRoute.ExactlyMaxSizePasses | app/api/tryon/route.ts:25-30 | a photo of exactly 5 MiB is not too large |
| TryOnRoute.SizeCheckedBeforeType | app/api/tryon/route.ts:24-39 | an oversized GIF is reported as too large, not as the wrong type |
| TryOnRoute.FirstImagePayload | app/api/tryon/route.ts:135-140 | empty exactly when no part carries image data; otherwise the data of the first part that does |
| TryOnRoute.ImagePayload | app/api/tryon/route.ts:130-142 | the first image payload among the parts of the first candidate; empty when there is no first candidate or it has no parts |
| TryOnRoute.OnlyFirstCandidateCounts | app/api/tryon/route.ts:132-133 | later candidates never contribute the image |
| TryOnRoute.ExtractGeneratedImage | app/api/tryon/route.ts:130-142 | the loop that stops at the first image part returns the image payload |
| TryOnRoute.JpegDataUrlRoundTrip | app/api/tryon/route.ts:152 | the reply's URL parses as a base64 `image/jpeg` data URL whose data is the payload |
| TryOnRoute.PromptFor | app/api/tryon/route.ts:78-100 | the prompt's focus area is the product type's phrase and it names the given product type; the title is the given one, or "clothing item" when it is absent or empty |
| TryOnRoute.Process | app/api/tryon/route.ts:41-146 | each way out: a photo that does not normalise throws before any network call; a failed or not-ok download, a product image that does not normalise, or a missing key throws after exactly the download; otherwise one generation request carrying the prompt and both normalised images as JPEG follows, and its error, an empty payload ("No image generated by AI") or the payload is the result; it succeeds exactly on the last |
| TryOnRoute.Caught | app/api/tryon/route.ts:161-170 | a 500 with the thrown message, or the generic message exactly when it is empty |
| TryOnRoute.Post | app/api/tryon/route.ts:8-172 | the status is 200, 400 or 500; 400 exactly for a failed validation, with no network call; for a valid form the calls are those of the processing, a thrown error becomes the caught 500, and a payload becomes a 200 carrying it as a JPEG data URL with the success message; every failure has a non-empty error |
| TryOnRoute.NormalPathSucceeds | app/api/tryon/route.ts:41-159 | a valid form whose images download and normalise, with a key and a non-empty payload, gets a 200 carrying that payload after exactly the download and one generation request with the normalised images |
| TryOnRoute.EmptyPayloadFails | app/api/tryon/route.ts:144-146 | the same path with an empty payload gets a 500 "No image generated by AI" after the same two calls |
| TryOnRoute.FetchFailureStopsEarly | app/api/tryon/route.ts:54-57 | a product image that does not download gives a 500 after exactly one network call |
| TryOnRoute.MissingKeyMakesNoGeneration | app/api/tryon/route.ts:69-72 | without an API key the model is never called and the reply is a 500 |
| TryOnRoute.SuccessCarriesGeneratedImage | app/api/tryon/route.ts:111-159 | a 200's URL parses back to the model's image payload, and the prompt carried the product type's phrase |
| TryOnModal.InitialSatisfiesInvariant | components/try-on-modal.tsx:33-40 | the fresh modal is on step 1 and satisfies the wizard invariant |
| TryOnModal.HandleFileChange | components/try-on-modal.tsx:56-79 | no file changes nothing; the type is checked before the size; a file of a valid type and at most 8 MiB is taken with the error cleared and nothing else changed; otherwise the error is set and the file kept |
| TryOnModal.PreviewLoaded | components/try-on-modal.tsx:74-78 | the reader's result becomes the preview and nothing else changes |
| TryOnModal.ChangePhoto | components/try-on-modal.tsx:283-286 | on step 1 with a preview shown it clears the file and the preview and nothing else; otherwise nothing changes |
| TryOnModal.ChangePhotoDisablesNext | components/try-on-modal.tsx:283-286 | after Change Photo the Next button is disabled and pressing it does nothing |
| TryOnModal.SelectVariant | components/try-on-modal.tsx:304 | the clicked variant becomes the selection and nothing else changes |
| TryOnModal.StartGeneration | components/try-on-modal.tsx:96-100 | without a file or variant nothing happens; otherwise processing starts with the error cleared |
| TryOnModal.HandleNext | components/try-on-modal.tsx:81-88 | step 1 with a file goes to step 2; step 2 with a variant goes to step 3 and starts generation; anything else changes nothing |
| TryOnModal.HandleBack | components/try-on-modal.tsx:90-94 | goes back one step above step 1 and does nothing on step 1 |
| TryOnModal.NextEnabledIffAdvances | components/try-on-modal.tsx:386-392 | the Next button is enabled exactly when pressing it advances a step |
| TryOnModal.PressBack | components/try-on-modal.tsx:377-384 | a disabled button does nothing; on step 3 with a result it closes and resets the modal; otherwise it goes back |
| TryOnModal.ResetModal | components/try-on-modal.tsx:145-153 | back to the initial state, except that the loading message is kept |
| TryOnModal.RequestFor | components/try-on-modal.tsx:103-108 | the form carries the uploaded photo, the selected variant's image, and the product's type and title |
| TryOnModal.CompleteGeneration | components/try-on-modal.tsx:110-133 | processing always stops and only the result URL and error can change; success shows the result URL and caches it with the variant captured when generation started and the product title, unless the cache write throws, when the cache is unchanged and the error is the write's message; a failed reply or a thrown error sets a non-empty error |
| TryOnModal.SuccessCachesOneResult | components/try-on-modal.tsx:121-127 | after a success the cache's newest entry is this result with the variant's and product's titles, stamped with the clock |
| TryOnModal.CloseDuringGenerationKeepsVariant | components/try-on-modal.tsx:96-158 | closing the modal while a generation runs clears the selection, yet the result that arrives is cached with the variant chosen when it started |
| TryOnModal.FailedCacheWriteKeepsResult | components/try-on-modal.tsx:121-131 | when the cache write throws after a success, the result is still shown, the error is set and non-empty, and the cache is unchanged |
| TryOnModal.NextLoadingIndex | components/try-on-modal.tsx:49 | the next of the nine messages, wrapping to the first after the last |
| TryOnModal.IndexAfterCycles | components/try-on-modal.tsx:47-51 | after n ticks the message shown is number n mod 9 |
| TryOnModal.RotateMessages | components/try-on-modal.tsx:43-54 | while processing, n > 0 ticks show message n mod 9; otherwise nothing changes |
| TryOnModal.InputsPreserveInvariant | components/try-on-modal.tsx:56-79 | picking a file, loading its preview and choosing a variant keep the wizard invariant |
| TryOnModal.NavigationPreservesInvariant | components/try-on-modal.tsx:81-94 | Next, Back/Close and reset keep the wizard invariant |
| TryOnModal.GenerationPreservesInvariant | components/try-on-modal.tsx:96-134 | finishing a generation and rotating messages keep the wizard invariant |
| TryOnModal.ClientAcceptsWhatServerRejects | components/try-on-modal.tsx:66-72 | a 6 MiB JPEG is accepted by the modal and rejected as too large by the route |
| SettingsPage.SettingsAreTheirValues | lib/types.ts:3-16 | two settings records that agree on all twelve keys are equal |
| SettingsPage.HandleSettingChange | app/settings/page.tsx:49-51 | the changed key reads the new value and every other key keeps its value |
| SettingsPage.SettingChangesCompose | app/settings/page.tsx:49-51 | writing back a current value changes nothing; of two writes to one key the last wins |
| SettingsPage.HandleProductToggle | app/settings/page.tsx:53-57 | flips the switch of every product with the id and leaves the others as they were |
| SettingsPage.ToggleTwiceRestores | app/settings/page.tsx:53-57 | toggling the same id twice gives back the original list |
| SettingsPage.ToggleKeepsIds | app/settings/page.tsx:53-57 | toggling changes nothing but the switches |
| SettingsPage.OfferedStylesAreKnown | app/settings/page.tsx:20-29 | the picker offers exactly the presets of the style map, so no choice falls back to the default |
| SettingsPage.PreviewWidthClass | app/settings/page.tsx:351-358 | every width class starts with `w-` |
| SettingsPage.PreviewAlignmentClass | app/settings/page.tsx:342-348 | every alignment class starts with `items-` |
| SettingsPage.PreviewLayoutClassesDistinct | app/settings/page.tsx:342-358 | different widths get different classes, and so do different alignments |
| SettingsPage.PreviewButtonStyle | app/settings/page.tsx:60-66 | the radius always applies; the colours apply exactly when custom colours are on |
| SettingsPage.WidgetButton | app/settings/page.tsx:350-368 | the button's classes start with the base classes and are the style's classes, a space and the width class; container, inline style and text are the given ones |
| SettingsPage.RenderPreview | app/settings/page.tsx:340-382 | the button shows exactly when the widget is on, the disabled notice exactly when it is off, the description exactly when both the widget and the description are on; the button is the widget button with the style's classes, the preview width class, the preview alignment container, the inline style and the button text |
| StorePage.FirstEnabled | app/store/page.tsx:25 | the first enabled product's position, or none when no product is enabled |
| StorePage.SelectProduct | app/store/page.tsx:24-25 | the first enabled product, else the first product, and nothing only for an empty list |
| StorePage.MockStoreShowsDenimJacket | app/store/page.tsx:24-25 | with the mock products the store shows the denim jacket |
| StorePage.StoreWidthClass | app/store/page.tsx:43-54 | every width class starts with `w-` |
| StorePage.StoreAlignmentClass | app/store/page.tsx:56-65 | every alignment class starts with `items-` |
| StorePage.StoreLayoutClassesDistinct | app/store/page.tsx:43-65 | different widths get different classes, and so do different alignments |
| StorePage.StoreMatchesPreviewLayout | app/store/page.tsx:43-65 | the store aligns the button as the preview does, and sizes it alike except that only the preview centres a full-width button |
| StorePage.StoreButtonStyle | app/store/page.tsx:35-41 | the radius always applies; the colours apply exactly when custom colours are on |
| StorePage.StoreStyleMatchesPreview | app/store/page.tsx:134 | the store's button style equals the preview's for every settings record |
| StorePage.ModalProductType | app/store/page.tsx:179 | the product's type when it is non-empty, else "clothing" |
| StorePage.RenderStore | app/store/page.tsx:24-147 | loading exactly when there is no product or no settings yet; otherwise the selected product, the button exactly when the widget is on (the widget button with the store width class, alignment class, inline style and text), the description exactly when it is also enabled, coloured exactly with custom colours and then with the text colour |
| StorePage.StoreRendersThePreview | app/store/page.tsx:129-147 | for any non-empty product list the store shows the button and description exactly when the preview does, with the same alignment class, style, text and description text, and the same classes except the preview's extra centring of a full-width button; the store's description alone is coloured, exactly with custom colours |
| StorePage.StoreButtonMatchesPreview | app/store/page.tsx:129-147 | the store's widget button equals the preview's in alignment class, style and text, and in classes up to the preview's ` justify-center` on a full-width button |
| Dashboard.SuccessRate | app/dashboard/page.tsx:25 | 0 with no try-ons; otherwise the whole percentage nearest to successful/total, halves rounding up, between 0 and 100 |
| Dashboard.SuccessRateIsNearest | app/dashboard/page.tsx:25 | no other integer lies within half a percent below or above the ratio |
| Dashboard.MockSuccessRate | app/dashboard/page.tsx:25 | the mock figures, 1189 of 1247, give 95 |
| Dashboard.BadgeFor | app/dashboard/page.tsx:141-148 | `default` exactly above 90, `secondary` exactly from 81 to 90, `outline` exactly at 80 or below |
| Dashboard.BadgeBoundaries | app/dashboard/page.tsx:143-147 | 90 is secondary and 80 is outline, so the thresholds are strict |
| Dashboard.BadgeMonotone | app/dashboard/page.tsx:141-148 | a higher rate never gets a lesser badge |

## Left out

- Image processing: resizing to fit 1024x1024 and JPEG quality 85 are one opaque `normalize` function of the environment. The model records only whether it succeeds and what bytes it yields.
- The product-image download, `GEMINI_API_KEY` and the generative model are also environment fields. The base64 encoding of the request images is not modelled, because the request carries the bytes themselves.
- The prompt's fixed prose is left out. The prompt keeps only what varies: the focus area, the product title and the product type.
- `TryOnRoute.Post`: the reply's `processingTime` is not modelled (it comes from `Date.now()`), nor is the `success` flag, which is implied by the body's shape.
- Clocks: every `Date.now()` is a `now` parameter.
- `CacheStorage.SaveCachedResult`: the source reads the clock twice, once for the expiry cutoff and once for the stamp. The model uses one `now` for both.
- `CacheStorage.SaveSettings`: a `setItem` that throws (a full or disabled store) is not modelled. The settings page does not catch it.
- `CacheStorage.SaveProducts`: likewise, a throwing `setItem` is not modelled. Only the cache write after a generation is, because the modal catches it.
- `CacheStorage.GetProducts`: when nothing parsable is stored, the source returns the shared `mockProducts` array itself. `updateProduct` then mutates that array in place, so later fallbacks within the same page see the change. The model returns fresh mock products each time.
- `Utils.MapProductType`: the table is a plain object, so a lower-cased key that names an `Object.prototype` member (`constructor`, `__proto__`) finds the inherited value. The source then puts that value's text into the prompt, and that text depends on the engine. The model gives such a type the quoting phrase of any unknown type.
- `WidgetStyles.ButtonStyleClasses`: likewise, a style name such as `toString`, `constructor` or `valueOf` finds an inherited function, whose text would become the class string. The model falls back to the elegant-minimal classes for every name that is not a preset.
- Logging: the route's `console.error` of a caught error is left out.
- `StorePage.RenderStore`: the button's container is modelled by its alignment class only. Its fixed spacing and flex classes are left out, and they differ from the preview's: `space-y-3` on the store page, `space-y-2` in the preview.
- `SettingsPage.RenderPreview`: likewise, only the container's alignment class is kept, so the spacing difference from the store page is not stated.
- `localStorage` and JSON: each key is a slot that is empty, holds text that does not parse, or holds a typed value. JSON text that parses to a value of another shape is not modelled.
- `CacheStorage.UpdateProduct`: on the server the source mutates the shared mock array in place. The model treats the server as stateless, so there the update is not visible to later reads.
- `SettingsPage.HandleSettingChange`: the source types the value as `any`. The model requires a value of the setting's declared type, as every control on the page passes.
- `Common.ToLower`: only ASCII letters are folded. JavaScript's `toLowerCase` also folds other Unicode letters.
- `Dashboard.SuccessRate`: uses exact rational arithmetic where the source uses floating point. The two can differ only when the ratio lands within rounding error of a half.
- The React rendering, timers, `FileReader`, the fullscreen view, the download link, dialogs, charts and class-name merging are left out. The outcomes of those effects are modelled as inputs (`PreviewLoaded`, `RotateMessages`' tick count, the client's reply).
- The `variantTitle` form field is sent by the modal and ignored by the route, so it is left out of the form. The dashboard's chart data and recent-activity list are shown without computation and are left out.
- The `TryOnResult` interface of `lib/types.ts` is not used by the core and is left out.
