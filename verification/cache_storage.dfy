/** The browser-local persistence layer (lib/cache-storage.ts): widget
    settings, the product list, and a rolling window of recent try-on results.

    localStorage is modelled as three typed slots, one per key the source uses
    ('tryiton_widget_settings', 'tryiton_products', 'tryiton_results_cache').
    A slot is empty (key absent or holding ""), holds text that JSON.parse
    rejects, or holds a parsed value. Server-side rendering, where
    `typeof window === 'undefined'`, is the `Server` host. The clock reading
    `Date.now()` is the parameter `now`. */
module CacheStorage {
  import opened Common
  import opened Types
  import MockData

  datatype Slot<T> = Empty | Unparsable | Holds(value: T)

  datatype Storage = Storage(
    settings: Slot<WidgetSettings>,
    products: Slot<seq<Product>>,
    results: Slot<seq<CachedResult>>)

  datatype Host = Server | Browser(storage: Storage)

  /** A try-on result as the modal hands it over for caching. */
  datatype NewResult = NewResult(resultImageUrl: string, variantTitle: string, productTitle: string)

  /** A cached try-on result, stamped with the time it was saved (ms). */
  datatype CachedResult = CachedResult(resultImageUrl: string, variantTitle: string, productTitle: string, timestamp: int)

  /** `{ ...result, timestamp: now }` */
  function Stamp(result: NewResult, now: int): CachedResult
  {
    CachedResult(result.resultImageUrl, result.variantTitle, result.productTitle, now)
  }

  // ---------------------------------------------------------------------------
  // Widget settings
  // ---------------------------------------------------------------------------

  /** `getSettings()`: the stored settings, or the defaults when there is no
      browser, nothing stored, or the stored text does not parse. */
  function GetSettings(h: Host): (s: WidgetSettings)
    ensures h.Browser? && h.storage.settings.Holds? ==> s == h.storage.settings.value
    ensures !(h.Browser? && h.storage.settings.Holds?) ==> s == MockData.DefaultWidgetSettings
  {
    if h.Server? then MockData.DefaultWidgetSettings
    else match h.storage.settings
      case Empty => MockData.DefaultWidgetSettings
      case Unparsable => MockData.DefaultWidgetSettings
      case Holds(s) => s
  }

  /** `saveSettings(settings)`: writes the settings slot only; a no-op on the server. */
  function SaveSettings(h: Host, settings: WidgetSettings): (r: Host)
    ensures h.Server? ==> r == h
    ensures h.Browser? ==> r == Browser(h.storage.(settings := Holds(settings)))
  {
    if h.Server? then h else Browser(h.storage.(settings := Holds(settings)))
  }

  /** In a browser, what was saved is what is read back. */
  lemma SettingsRoundTrip(storage: Storage, settings: WidgetSettings)
    ensures GetSettings(SaveSettings(Browser(storage), settings)) == settings
    ensures SaveSettings(Browser(storage), settings).storage.products == storage.products
    ensures SaveSettings(Browser(storage), settings).storage.results == storage.results
  {
  }

  // ---------------------------------------------------------------------------
  // Products
  // ---------------------------------------------------------------------------

  /** The outcome of `getProducts()`: the list it returns and the host after
      the call (the first read in a browser seeds the store). */
  datatype ProductsRead = ProductsRead(host: Host, products: seq<Product>)

  /** `getProducts()`: the stored list; otherwise the mock products, which the
      first read in a browser also writes to the store. */
  function GetProducts(h: Host): (r: ProductsRead)
    ensures h.Browser? && h.storage.products.Holds? ==>
              r == ProductsRead(h, h.storage.products.value)
    ensures !(h.Browser? && h.storage.products.Holds?) ==> r.products == MockData.MockProducts
    ensures h.Browser? && h.storage.products.Empty? ==>
              r.host == Browser(h.storage.(products := Holds(MockData.MockProducts)))
    ensures !(h.Browser? && h.storage.products.Empty?) ==> r.host == h
  {
    if h.Server? then ProductsRead(h, MockData.MockProducts)
    else match h.storage.products
      case Empty => ProductsRead(SaveProducts(h, MockData.MockProducts), MockData.MockProducts)
      case Unparsable => ProductsRead(h, MockData.MockProducts)
      case Holds(ps) => ProductsRead(h, ps)
  }

  /** `saveProducts(products)`: writes the products slot only; a no-op on the server. */
  function SaveProducts(h: Host, products: seq<Product>): (r: Host)
    ensures h.Server? ==> r == h
    ensures h.Browser? ==> r == Browser(h.storage.(products := Holds(products)))
  {
    if h.Server? then h else Browser(h.storage.(products := Holds(products)))
  }

  /** In a browser, the saved list is what the next read returns, the read
      writes nothing, and settings and results are untouched. */
  lemma ProductsRoundTrip(storage: Storage, products: seq<Product>)
    ensures GetProducts(SaveProducts(Browser(storage), products))
            == ProductsRead(SaveProducts(Browser(storage), products), products)
    ensures SaveProducts(Browser(storage), products).storage.settings == storage.settings
    ensures SaveProducts(Browser(storage), products).storage.results == storage.results
  {
  }

  /** Reading the products settles the store: a second read returns the same
      list and changes nothing more. */
  lemma GetProductsSettles(h: Host)
    ensures GetProducts(GetProducts(h).host).products == GetProducts(h).products
    ensures GetProducts(GetProducts(h).host).host == GetProducts(h).host
  {
  }

  /** `Partial<Product>`: each present field replaces the product's own. */
  datatype ProductUpdate = ProductUpdate(
    id: Option<string>,
    title: Option<string>,
    price: Option<real>,
    image: Option<string>,
    variants: Option<seq<ProductVariant>>,
    productType: Option<Option<string>>,
    enabled: Option<bool>)

  function Pick<T>(update: Option<T>, current: T): (r: T)
    ensures update.Some? ==> r == update.value
    ensures update.None? ==> r == current
  {
    match update
    case Some(v) => v
    case None => current
  }

  /** `{ ...p, ...updates }`: each field the update carries replaces the
      product's, and every other field is the product's own. */
  function Merge(p: Product, u: ProductUpdate): (r: Product)
    ensures u.id.Some? ==> r.id == u.id.value
    ensures u.id.None? ==> r.id == p.id
    ensures u.title.Some? ==> r.title == u.title.value
    ensures u.title.None? ==> r.title == p.title
    ensures u.price.Some? ==> r.price == u.price.value
    ensures u.price.None? ==> r.price == p.price
    ensures u.image.Some? ==> r.image == u.image.value
    ensures u.image.None? ==> r.image == p.image
    ensures u.variants.Some? ==> r.variants == u.variants.value
    ensures u.variants.None? ==> r.variants == p.variants
    ensures u.productType.Some? ==> r.productType == u.productType.value
    ensures u.productType.None? ==> r.productType == p.productType
    ensures u.enabled.Some? ==> r.enabled == u.enabled.value
    ensures u.enabled.None? ==> r.enabled == p.enabled
  {
    Product(
      Pick(u.id, p.id), Pick(u.title, p.title), Pick(u.price, p.price), Pick(u.image, p.image),
      Pick(u.variants, p.variants), Pick(u.productType, p.productType), Pick(u.enabled, p.enabled))
  }

  /** The empty update `{}`. */
  const NoUpdates := ProductUpdate(None, None, None, None, None, None, None)

  /** Spreading an empty update changes nothing. */
  lemma MergeNothing(p: Product)
    ensures Merge(p, NoUpdates) == p
  {
  }

  /** Applying the same update twice is applying it once. */
  lemma MergeIdempotent(p: Product, u: ProductUpdate)
    ensures Merge(Merge(p, u), u) == Merge(p, u)
  {
  }

  /** `products.findIndex(p => p.id === productId)`, with `None` for -1. */
  function FindIndex(products: seq<Product>, productId: string): (r: Option<nat>)
    ensures r.Some? ==> r.value < |products| && products[r.value].id == productId
    ensures r.Some? ==> forall j :: 0 <= j < r.value ==> products[j].id != productId
    ensures r.None? ==> forall j :: 0 <= j < |products| ==> products[j].id != productId
  {
    if products == [] then None
    else if products[0].id == productId then Some(0)
    else match FindIndex(products[1..], productId)
      case None => None
      case Some(i) => Some(i + 1)
  }

  /** `updateProduct(productId, updates)`: merges the updates into the first
      product with that id and saves the list; when no product has that id
      nothing is saved (but the read itself may have seeded the store). */
  function UpdateProduct(h: Host, productId: string, updates: ProductUpdate): (r: Host)
    ensures h.Server? ==> r == h
    ensures var read := GetProducts(h);
            FindIndex(read.products, productId).None? ==> r == read.host
    ensures var read := GetProducts(h);
            h.Browser? && FindIndex(read.products, productId).Some? ==>
              var i := FindIndex(read.products, productId).value;
              && r.Browser?
              && r.storage.settings == h.storage.settings
              && r.storage.results == h.storage.results
              && r.storage.products.Holds?
              && |r.storage.products.value| == |read.products|
              && r.storage.products.value[i] == Merge(read.products[i], updates)
              && (forall j :: 0 <= j < |read.products| && j != i ==>
                    r.storage.products.value[j] == read.products[j])
  {
    var read := GetProducts(h);
    match FindIndex(read.products, productId)
    case None => read.host
    case Some(i) => SaveProducts(read.host, read.products[i := Merge(read.products[i], updates)])
  }

  /** With products stored, updating an id that no product has leaves the host
      exactly as it was. */
  lemma UpdateAbsentIdChangesNothing(storage: Storage, productId: string, updates: ProductUpdate)
    requires storage.products.Holds?
    requires forall j :: 0 <= j < |storage.products.value| ==> storage.products.value[j].id != productId
    ensures UpdateProduct(Browser(storage), productId, updates) == Browser(storage)
  {
  }

  // ---------------------------------------------------------------------------
  // Recent try-on results
  // ---------------------------------------------------------------------------

  /** Ten hours in milliseconds: older results are dropped. */
  const ResultTtlMs := 10 * 60 * 60 * 1000

  /** The window keeps this many results at most. */
  const MaxCachedResults := 20

  /** `a` can be obtained from `b` by deleting elements. */
  ghost predicate IsSubsequence<T>(a: seq<T>, b: seq<T>)
    decreases |b|
  {
    if a == [] then true
    else if b == [] then false
    else if a[0] == b[0] then IsSubsequence(a[1..], b[1..])
    else IsSubsequence(a, b[1..])
  }

  /** `results.filter(r => r.timestamp > cutoff)`: the results newer than the
      cutoff, in their original order. */
  function Unexpired(results: seq<CachedResult>, cutoff: int): (r: seq<CachedResult>)
    ensures |r| <= |results|
    ensures forall i :: 0 <= i < |r| ==> r[i].timestamp > cutoff
    ensures forall x :: x in r <==> x in results && x.timestamp > cutoff
    ensures IsSubsequence(r, results)
  {
    if results == [] then []
    else if results[0].timestamp > cutoff then [results[0]] + Unexpired(results[1..], cutoff)
    else Unexpired(results[1..], cutoff)
  }

  /** The filter keeps every fresh result as often as it occurs and drops
      every expired one. */
  lemma {:induction false} UnexpiredKeepsMultiplicity(results: seq<CachedResult>, cutoff: int)
    ensures forall x :: multiset(Unexpired(results, cutoff))[x]
                        == if x.timestamp > cutoff then multiset(results)[x] else 0
  {
    if results != [] {
      UnexpiredKeepsMultiplicity(results[1..], cutoff);
      assert results == [results[0]] + results[1..];
    }
  }

  /** A list whose every entry is newer than the cutoff is kept whole. */
  lemma {:induction false} UnexpiredKeepsFreshList(results: seq<CachedResult>, cutoff: int)
    requires forall i :: 0 <= i < |results| ==> results[i].timestamp > cutoff
    ensures Unexpired(results, cutoff) == results
  {
    if results != [] {
      UnexpiredKeepsFreshList(results[1..], cutoff);
    }
  }

  /** Expiring twice is expiring once at the later cutoff. */
  lemma {:induction false} ExpiryComposes(results: seq<CachedResult>, a: int, b: int)
    ensures Unexpired(Unexpired(results, a), b) == Unexpired(results, if a < b then b else a)
  {
    if results != [] {
      ExpiryComposes(results[1..], a, b);
      if results[0].timestamp > a {
        assert Unexpired(results, a) == [results[0]] + Unexpired(results[1..], a);
        assert ([results[0]] + Unexpired(results[1..], a))[1..] == Unexpired(results[1..], a);
      }
    }
  }

  /** `getCachedResults()` at clock reading `now`: the stored results saved
      within the last ten hours, in their stored order; [] on the server, when
      nothing is stored, or when the stored text does not parse. */
  function GetCachedResults(h: Host, now: int): (r: seq<CachedResult>)
    ensures !(h.Browser? && h.storage.results.Holds?) ==> r == []
    ensures h.Browser? && h.storage.results.Holds? ==>
              && IsSubsequence(r, h.storage.results.value)
              && (forall x :: x in r <==> x in h.storage.results.value && x.timestamp > now - ResultTtlMs)
    ensures forall i :: 0 <= i < |r| ==> r[i].timestamp > now - ResultTtlMs
  {
    if h.Server? then []
    else match h.storage.results
      case Empty => []
      case Unparsable => []
      case Holds(results) => Unexpired(results, now - ResultTtlMs)
  }

  /** Reading the cache keeps each result from the last ten hours as often
      as it is stored, and no older one. */
  lemma CachedResultsKeepMultiplicity(storage: Storage, now: int)
    requires storage.results.Holds?
    ensures forall x :: multiset(GetCachedResults(Browser(storage), now))[x]
                        == if x.timestamp > now - ResultTtlMs then multiset(storage.results.value)[x] else 0
  {
    UnexpiredKeepsMultiplicity(storage.results.value, now - ResultTtlMs);
  }

  function Min(a: int, b: int): int
  {
    if a < b then a else b
  }

  /** `saveCachedResult(result)`: puts the result, stamped with `now`, in
      front of the unexpired cached results and keeps the first twenty. */
  function SaveCachedResult(h: Host, now: int, result: NewResult): (r: Host)
    ensures h.Server? ==> r == h
    ensures h.Browser? ==>
              && r.Browser?
              && r.storage.settings == h.storage.settings
              && r.storage.products == h.storage.products
              && r.storage.results.Holds?
    ensures h.Browser? ==>
              var stored := r.storage.results.value;
              var kept := GetCachedResults(h, now);
              && |stored| == Min(MaxCachedResults, |kept| + 1)
              && stored[0] == Stamp(result, now)
              && stored[1..] == kept[..|stored| - 1]
    ensures h.Browser? ==>
              forall i :: 0 <= i < |r.storage.results.value| ==>
                r.storage.results.value[i].timestamp > now - ResultTtlMs
  {
    if h.Server? then h
    else
      var cached := [Stamp(result, now)] + GetCachedResults(h, now);
      var trimmed := cached[..Min(MaxCachedResults, |cached|)];
      assert trimmed[1..] == cached[1..][..|trimmed| - 1];
      Browser(h.storage.(results := Holds(trimmed)))
  }

  /** `saveCachedResult` when `localStorage.setItem` may throw (for example
      when the storage quota is used up): `failure` is the message it throws
      with, or `None` when the write succeeds. A refused write leaves the
      storage as it was; on the server nothing is written at all. */
  function TrySaveCachedResult(h: Host, now: int, result: NewResult, failure: Option<string>): (r: Thrown<Host>)
    ensures h.Server? ==> r == Returned(h)
    ensures failure.None? ==> r == Returned(SaveCachedResult(h, now, result))
    ensures h.Browser? && failure.Some? ==> r == Threw(failure.value)
    ensures r.Returned? ==> GetCachedResults(r.value, now) != [] || h.Server?
  {
    if h.Server? then Returned(h)
    else match failure
      case None =>
        var saved := SaveCachedResult(h, now, result);
        UnexpiredKeepsFreshList(saved.storage.results.value, now - ResultTtlMs);
        Returned(saved)
      case Some(m) => Threw(m)
  }

  /** Right after a save, reading the cache returns everything stored: the new
      result first, then the older unexpired ones, never more than twenty. */
  lemma SaveThenRead(storage: Storage, now: int, result: NewResult)
    ensures var after := SaveCachedResult(Browser(storage), now, result);
            var read := GetCachedResults(after, now);
            && read == after.storage.results.value
            && 1 <= |read| <= MaxCachedResults
            && read[0] == Stamp(result, now)
  {
    var after := SaveCachedResult(Browser(storage), now, result);
    UnexpiredKeepsFreshList(after.storage.results.value, now - ResultTtlMs);
  }

  /** `clearCache()`: removes the results entry; settings and products stay. */
  function ClearCache(h: Host): (r: Host)
    ensures h.Server? ==> r == h
    ensures forall now :: GetCachedResults(r, now) == []
    ensures h.Browser? ==>
              && r.Browser?
              && r.storage.settings == h.storage.settings
              && r.storage.products == h.storage.products
  {
    if h.Server? then h else Browser(h.storage.(results := Empty))
  }
}
