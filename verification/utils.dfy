/** The helper library (lib/utils.ts): the product-type lookup that picks the
    body area the generation prompt focuses on, and the "time ago" labels of the
    dashboard's activity feed. */
module Utils {
  import opened Common

  // ---------------------------------------------------------------------------
  // mapProductType
  // ---------------------------------------------------------------------------

  /** The phrase used when no product type is given. It is written as two
      literals so that the verifier sees the characters of the short one. */
  const GenericFocus := "clothing item (" + "analyze the garment and apply it to the appropriate body area)"

  /** The words of the product-type vocabulary (the keys of the source's
      `typeMapping` record). */
  datatype Word =
    | Shirt | Blouse | TShirt | Top | Jacket | Coat | Sweater | Hoodie | Dress
    | Pants | Jeans | Shorts | Bag | Purse | Handbag | Shoes | Sneakers

  /** The key a word is stored under. */
  function WordText(w: Word): string
  {
    match w
    case Shirt => "shirt"
    case Blouse => "blouse"
    case TShirt => "t-shirt"
    case Top => "top"
    case Jacket => "jacket"
    case Coat => "coat"
    case Sweater => "sweater"
    case Hoodie => "hoodie"
    case Dress => "dress"
    case Pants => "pants"
    case Jeans => "jeans"
    case Shorts => "shorts"
    case Bag => "bag"
    case Purse => "purse"
    case Handbag => "handbag"
    case Shoes => "shoes"
    case Sneakers => "sneakers"
  }

  /** The body area a vocabulary word belongs to; every phrase of the table
      opens with the area's name. */
  datatype BodyArea = UpperBody | FullBody | LowerBody | Accessory | Footwear

  function AreaOf(w: Word): BodyArea
  {
    match w
    case Shirt | Blouse | TShirt | Top | Jacket | Coat | Sweater | Hoodie => UpperBody
    case Dress => FullBody
    case Pants | Jeans | Shorts => LowerBody
    case Bag | Purse | Handbag => Accessory
    case Shoes | Sneakers => Footwear
  }

  function AreaName(area: BodyArea): string
  {
    match area
    case UpperBody => "upper body clothing"
    case FullBody => "full body clothing"
    case LowerBody => "lower body clothing"
    case Accessory => "accessory"
    case Footwear => "footwear"
  }

  /** The parenthesised detail that follows the area name in a word's phrase. */
  function Detail(w: Word): string
  {
    match w
    case Shirt | Blouse | TShirt | Top => "shirt/top area"
    case Jacket => "jacket/outer layer - wear over existing clothing"
    case Coat => "coat/outerwear - wear over all existing layers"
    case Sweater => "sweater/outer layer - wear over existing top"
    case Hoodie => "hoodie/outer layer - wear over existing clothing"
    case Dress => "dress/full outfit"
    case Pants => "pants/trousers area"
    case Jeans => "jeans/pants area"
    case Shorts => "shorts/lower body area"
    case Bag => "handbag/purse - position OVER existing clothing, maintain strap and bag shape"
    case Purse => "purse/handbag - position OVER existing clothing, keep original proportions"
    case Handbag => "handbag - wear OVER existing outfit, maintain handle/strap positioning"
    case Shoes => "shoes - position on feet, maintain existing pant/dress length"
    case Sneakers => "sneakers - position on feet, keep existing lower clothing visible"
  }

  /** The focus phrase stored under a word, e.g. "upper body clothing (shirt/top area)". */
  function Focus(w: Word): string
  {
    AreaName(AreaOf(w)) + " (" + Detail(w) + ")"
  }

  /** The record lookup `typeMapping[key]`: the word stored under `key`, or
      `None` when `key` is not in the vocabulary. */
  function Lookup(key: string): (r: Option<Word>)
    ensures r.Some? ==> WordText(r.value) == key
    ensures r.None? ==> forall w :: WordText(w) != key
  {
    match key
    case "shirt" => Some(Shirt)
    case "blouse" => Some(Blouse)
    case "t-shirt" => Some(TShirt)
    case "top" => Some(Top)
    case "jacket" => Some(Jacket)
    case "coat" => Some(Coat)
    case "sweater" => Some(Sweater)
    case "hoodie" => Some(Hoodie)
    case "dress" => Some(Dress)
    case "pants" => Some(Pants)
    case "jeans" => Some(Jeans)
    case "shorts" => Some(Shorts)
    case "bag" => Some(Bag)
    case "purse" => Some(Purse)
    case "handbag" => Some(Handbag)
    case "shoes" => Some(Shoes)
    case "sneakers" => Some(Sneakers)
    case _ => None
  }

  const LabelPrefix := "clothing item labeled as \""

  /** The fallback phrase for a type outside the vocabulary; it quotes the
      type exactly as the caller gave it. */
  function LabeledAs(productType: string): string
  {
    LabelPrefix + productType + "\""
  }

  /** The table key a product type is looked up under: lower-cased, then trimmed. */
  function LookupKey(productType: string): string
  {
    Trim(ToLower(productType))
  }

  /** `mapProductType`: the focus phrase for a product type. An absent or empty
      type gets the generic phrase; a type whose lookup key is in the table gets
      that entry; any other type gets a phrase naming the original string. */
  function MapProductType(productType: Option<string>): (r: string)
    ensures r != ""
    ensures !Truthy(productType) ==> r == GenericFocus
    ensures Truthy(productType) && Lookup(LookupKey(productType.value)).Some? ==>
              r == Focus(Lookup(LookupKey(productType.value)).value)
    ensures Truthy(productType) && Lookup(LookupKey(productType.value)).None? ==>
              r == LabeledAs(productType.value) && Contains(r, productType.value)
  {
    if !Truthy(productType) then
      GenericFocus
    else
      var key := LookupKey(productType.value);
      match Lookup(key)
      case Some(w) => Focus(w)
      case None =>
        ContainsMiddle(LabelPrefix, productType.value, "\"");
        LabeledAs(productType.value)
  }

  /** Every word of the vocabulary is found under its own key. */
  lemma LookupFindsEachWord(w: Word)
    ensures Lookup(WordText(w)) == Some(w)
  {
  }

  /** A vocabulary word keeps its phrase whatever its letter case and however
      much whitespace surrounds it: " Jacket " reads as "jacket". */
  lemma MapProductTypeIgnoresCaseAndPadding(w: Word, spelled: string, left: string, right: string)
    requires ToLower(spelled) == WordText(w)
    requires AllWhitespace(left) && AllWhitespace(right)
    ensures MapProductType(Some(left + spelled + right)) == Focus(w)
  {
    KeysAreTrimmed(w);
    LookupKeyOfPadded(left, spelled, right);
    LookupFindsEachWord(w);
  }

  /** The lookup key of a padded type is its lower-cased core. */
  lemma LookupKeyOfPadded(left: string, core: string, right: string)
    requires AllWhitespace(left) && AllWhitespace(right) && Trimmed(ToLower(core))
    ensures LookupKey(left + core + right) == ToLower(core)
  {
    assert ToLower(left + core + right) == ToLower(left) + ToLower(core) + ToLower(right);
    LowerKeepsAllWhitespace(left);
    LowerKeepsAllWhitespace(right);
    TrimPadded(ToLower(left), ToLower(core), ToLower(right));
  }

  lemma KeysAreTrimmed(w: Word)
    ensures WordText(w) != [] && Trimmed(WordText(w))
  {
  }

  /** shirt, blouse, t-shirt and top share one phrase. */
  lemma ShirtSynonymsShareAPhrase(w: Word)
    requires w in {Shirt, Blouse, TShirt, Top}
    ensures MapProductType(Some(WordText(w))) == Focus(Shirt)
  {
    assert ToLower(WordText(w)) == WordText(w);
    assert WordText(w) == "" + WordText(w) + "";
    MapProductTypeIgnoresCaseAndPadding(w, WordText(w), "", "");
  }

  // ---------------------------------------------------------------------------
  // formatTimeAgo
  // ---------------------------------------------------------------------------

  const MinuteMs := 60000
  const HourMs := 3600000
  const DayMs := 86400000

  /** The bucket a time difference falls into, with its whole count. */
  datatype TimeAgo = JustNow | MinutesAgo(minutes: nat) | HoursAgo(hours: nat) | DaysAgo(days: nat)

  /** The bucket `formatTimeAgo` picks for an instant `instant` seen at `now`
      (both in milliseconds). Every count is the floor of the difference over
      the bucket's unit; a difference under a minute, future instants included,
      is "just now". */
  function TimeAgoOf(now: int, instant: int): (r: TimeAgo)
    ensures r.JustNow? <==> now - instant < MinuteMs
    ensures r.MinutesAgo? <==> MinuteMs <= now - instant < HourMs
    ensures r.HoursAgo? <==> HourMs <= now - instant < DayMs
    ensures r.DaysAgo? <==> DayMs <= now - instant
    ensures r.MinutesAgo? ==>
              1 <= r.minutes <= 59 && r.minutes * MinuteMs <= now - instant < (r.minutes + 1) * MinuteMs
    ensures r.HoursAgo? ==>
              1 <= r.hours <= 23 && r.hours * HourMs <= now - instant < (r.hours + 1) * HourMs
    ensures r.DaysAgo? ==>
              1 <= r.days && r.days * DayMs <= now - instant < (r.days + 1) * DayMs
  {
    var diff := now - instant;
    // Dafny's division by a positive constant is floor division, as Math.floor(diff / d).
    var minutes := diff / MinuteMs;
    var hours := diff / HourMs;
    var days := diff / DayMs;
    if minutes < 1 then JustNow
    else if minutes < 60 then MinutesAgo(minutes)
    else if hours < 24 then HoursAgo(hours)
    else DaysAgo(days)
  }

  /** The label shown for a bucket. */
  function Render(t: TimeAgo): string
  {
    match t
    case JustNow => "Just now"
    case MinutesAgo(n) => NatToDecimal(n) + "m ago"
    case HoursAgo(n) => NatToDecimal(n) + "h ago"
    case DaysAgo(n) => NatToDecimal(n) + "d ago"
  }

  /** `formatTimeAgo(date)` at clock reading `now`. */
  function FormatTimeAgo(now: int, instant: int): (r: string)
    ensures r == "Just now" <==> now - instant < MinuteMs
    ensures MinuteMs <= now - instant < HourMs ==> r == NatToDecimal((now - instant) / MinuteMs) + "m ago"
    ensures HourMs <= now - instant < DayMs ==> r == NatToDecimal((now - instant) / HourMs) + "h ago"
    ensures DayMs <= now - instant ==> r == NatToDecimal((now - instant) / DayMs) + "d ago"
  {
    var t := TimeAgoOf(now, instant);
    if !t.JustNow? then
      var r := Render(t);
      assert r[|r| - 1] == 'o';
      r
    else
      Render(t)
  }

  /** Reads a label back into its bucket. */
  function ParseTimeAgo(s: string): Option<TimeAgo>
  {
    if s == "Just now" then Some(JustNow)
    else if |s| < 6 || s[|s| - 4..] != " ago" then None
    else
      var digits := s[..|s| - 5];
      var unit := s[|s| - 5];
      if !AllDigits(digits) then None
      else if unit == 'm' then Some(MinutesAgo(DecimalValue(digits)))
      else if unit == 'h' then Some(HoursAgo(DecimalValue(digits)))
      else if unit == 'd' then Some(DaysAgo(DecimalValue(digits)))
      else None
  }

  /** Every label names its bucket unambiguously: parsing it back gives the
      bucket and the count it was rendered from. */
  lemma RenderRoundTrip(t: TimeAgo)
    ensures ParseTimeAgo(Render(t)) == Some(t)
  {
    match t
    case JustNow =>
    case MinutesAgo(n) =>
      assert Render(t) == NatToDecimal(n) + ['m'] + " ago";
      CountedLabelRoundTrip(n, 'm');
    case HoursAgo(n) =>
      assert Render(t) == NatToDecimal(n) + ['h'] + " ago";
      CountedLabelRoundTrip(n, 'h');
    case DaysAgo(n) =>
      assert Render(t) == NatToDecimal(n) + ['d'] + " ago";
      CountedLabelRoundTrip(n, 'd');
  }

  /** A label "<n><unit> ago" parses back to the count `n` in that unit. */
  lemma CountedLabelRoundTrip(n: nat, unit: char)
    requires unit == 'm' || unit == 'h' || unit == 'd'
    ensures ParseTimeAgo(NatToDecimal(n) + [unit] + " ago")
         == Some(if unit == 'm' then MinutesAgo(n) else if unit == 'h' then HoursAgo(n) else DaysAgo(n))
  {
    var s := NatToDecimal(n) + [unit] + " ago";
    SuffixRoundTrip(n, unit);
    DecimalRoundTrip(n);
    assert s != "Just now" && |s| >= 6 && s[|s| - 4..] == " ago";
    assert s[..|s| - 5] == NatToDecimal(n) && AllDigits(s[..|s| - 5]);
    assert DecimalValue(s[..|s| - 5]) == n;
  }

  lemma SuffixRoundTrip(n: nat, unit: char)
    ensures var s := NatToDecimal(n) + [unit] + " ago";
            s != "Just now" && |s| >= 6 && s[|s| - 4..] == " ago"
            && s[..|s| - 5] == NatToDecimal(n) && s[|s| - 5] == unit
  {
    var s := NatToDecimal(n) + [unit] + " ago";
    assert IsDigit(s[0]) && !IsDigit("Just now"[0]);
  }

  /** The boundaries of the buckets: one minute, one hour and one day exactly
      read "1m ago", "1h ago" and "1d ago"; a future instant reads "Just now". */
  lemma BucketBoundaries(now: int)
    ensures FormatTimeAgo(now, now - 59999) == "Just now"
    ensures FormatTimeAgo(now, now + 5000) == "Just now"
    ensures FormatTimeAgo(now, now - MinuteMs) == "1m ago"
    ensures FormatTimeAgo(now, now - HourMs) == "1h ago"
    ensures FormatTimeAgo(now, now - DayMs) == "1d ago"
  {
  }
}
