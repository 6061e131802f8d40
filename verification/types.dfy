/** The records the widget passes around (lib/types.ts). The string-literal
    unions of the source become enumerations; an optional property becomes an
    `Option`. */
module Types {
  import opened Common

  /** `WidgetSettings.buttonWidth`: 'auto' | 'full' | 'medium' | 'large'. */
  datatype ButtonWidth = Auto | Full | Medium | Large

  /** `WidgetSettings.buttonAlignment`: 'left' | 'center' | 'right'. */
  datatype ButtonAlignment = Left | Center | Right

  /** The merchant's widget configuration. `borderRadius` is a pixel count. */
  datatype WidgetSettings = WidgetSettings(
    buttonText: string,
    widgetStyle: string,
    showDescription: bool,
    customDescription: string,
    primaryColor: string,
    backgroundColor: string,
    textColor: string,
    borderRadius: int,
    widgetEnabled: bool,
    buttonWidth: ButtonWidth,
    buttonAlignment: ButtonAlignment,
    useCustomColors: bool)

  datatype ProductVariant = ProductVariant(id: string, title: string, price: real, image: string)

  /** A store product; `productType` is the optional `type` property. */
  datatype Product = Product(
    id: string,
    title: string,
    price: real,
    image: string,
    variants: seq<ProductVariant>,
    productType: Option<string>,
    enabled: bool)

  /** One row of the dashboard's "Top Products" card. */
  datatype TopProduct = TopProduct(id: string, name: string, tryOns: int, successRate: int)

  /** One row of the dashboard's activity feed; `timestamp` is in milliseconds. */
  datatype Activity = Activity(id: string, action: string, product: string, timestamp: int, success: bool)

  /** The analytics figures the dashboard reads (the chart series is left out). */
  datatype AnalyticsData = AnalyticsData(
    totalTryOns: int,
    successfulTryOns: int,
    uniqueUsers: int,
    topProducts: seq<TopProduct>,
    recentActivity: seq<Activity>)
}
