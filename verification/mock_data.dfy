/** The fixtures the prototype ships with (lib/mock-data.ts). */
module MockData {
  import opened Common
  import opened Types

  const DenimJacket := Product(
    "1", "Classic Denim Jacket", 89.99, "https://i.imgur.com/4YXbGFa.jpeg",
    [ ProductVariant("1-1", "Blue / S", 89.99, "https://i.imgur.com/4YXbGFa.jpeg"),
      ProductVariant("1-2", "Blue / M", 89.99, "https://i.imgur.com/GVKWHE1.jpeg"),
      ProductVariant("1-3", "Black / M", 94.99, "https://i.imgur.com/qrPir0t.jpeg") ],
    Some("jacket"), true)

  const CottonTShirt := Product(
    "2", "Cotton T-Shirt", 29.99,
    "https://images.unsplash.com/photo-1521572163474-6864f9cf17ab?w=800&q=80",
    [ ProductVariant("2-1", "White / M", 29.99,
        "https://images.unsplash.com/photo-1521572163474-6864f9cf17ab?w=800&q=80"),
      ProductVariant("2-2", "White / L", 29.99,
        "https://images.unsplash.com/photo-1521572163474-6864f9cf17ab?w=800&q=80") ],
    Some("shirt"), true)

  const LeatherHandbag := Product(
    "3", "Leather Handbag", 149.99,
    "https://images.unsplash.com/photo-1590874103328-eac38a683ce7?w=800&q=80",
    [ ProductVariant("3-1", "Brown", 149.99,
        "https://images.unsplash.com/photo-1590874103328-eac38a683ce7?w=800&q=80"),
      ProductVariant("3-2", "Black", 149.99,
        "https://images.unsplash.com/photo-1548036328-c9fa89d128fa?w=800&q=80") ],
    Some("bag"), false)

  const MockProducts: seq<Product> := [DenimJacket, CottonTShirt, LeatherHandbag]

  const DefaultWidgetSettings := WidgetSettings(
    "Try It On Virtually", "elegant-minimal", true, "See how this looks on you with AI",
    "#6366f1", "#ffffff", "#1f2937", 12, true, Auto, Center, false)

  const MinuteMillis := 60000

  /** `mockAnalytics`; its activity timestamps are taken relative to `loadedAt`,
      the clock reading when the module was loaded. */
  function MockAnalytics(loadedAt: int): AnalyticsData
  {
    AnalyticsData(
      1247, 1189, 423,
      [ TopProduct("1", "WhiteFox Tshirt", 456, 96),
        TopProduct("2", "Cotton T-Shirt", 398, 94),
        TopProduct("3", "Leather Handbag", 234, 92),
        TopProduct("4", "Summer Dress", 159, 97) ],
      [ Activity("1", "completed virtual try-on", "Classic Denim Jacket", loadedAt - 5 * MinuteMillis, true),
        Activity("2", "completed virtual try-on", "Cotton T-Shirt", loadedAt - 15 * MinuteMillis, true),
        Activity("3", "attempted try-on (failed)", "Leather Handbag", loadedAt - 23 * MinuteMillis, false),
        Activity("4", "completed virtual try-on", "Classic Denim Jacket", loadedAt - 45 * MinuteMillis, true),
        Activity("5", "completed virtual try-on", "Summer Dress", loadedAt - 60 * MinuteMillis, true) ])
  }
}
