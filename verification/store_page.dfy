/** The demo store page (app/store/page.tsx): which product it shows, the
    loading guard, and the try-on widget under the product. */
module StorePage {
  import opened Common
  import opened Types
  import WidgetStyles
  import SettingsPage
  import MockData

  /** Index of the first enabled product. */
  function FirstEnabled(products: seq<Product>): (r: Option<nat>)
    ensures r.Some? ==> r.value < |products| && products[r.value].enabled
    ensures r.Some? ==> forall j :: 0 <= j < r.value ==> !products[j].enabled
    ensures r.None? ==> forall j :: 0 <= j < |products| ==> !products[j].enabled
  {
    if products == [] then None
    else if products[0].enabled then Some(0)
    else match FirstEnabled(products[1..])
      case None => None
      case Some(k) => Some(k + 1)
  }

  /** `products.find(p => p.enabled) || products[0]`: the first enabled
      product, else the first product, else nothing. */
  function SelectProduct(products: seq<Product>): (r: Option<Product>)
    ensures r.None? <==> products == []
    ensures r.Some? && r.value.enabled ==>
              exists i :: 0 <= i < |products| && products[i] == r.value
                && forall j :: 0 <= j < i ==> !products[j].enabled
    ensures r.Some? && !r.value.enabled ==>
              r.value == products[0] && forall j :: 0 <= j < |products| ==> !products[j].enabled
  {
    match FirstEnabled(products)
    case Some(i) => Some(products[i])
    case None => if products == [] then None else Some(products[0])
  }

  /** With the mock products the store shows the denim jacket. */
  lemma MockStoreShowsDenimJacket()
    ensures SelectProduct(MockData.MockProducts) == Some(MockData.DenimJacket)
  {
    assert MockData.MockProducts[0].enabled;
  }

  /** `getButtonWidth()`: a `w-` class; any width not listed is `w-auto`. */
  function StoreWidthClass(width: ButtonWidth): (r: string)
    ensures StartsWith(r, "w-")
  {
    match width
    case Full => "w-full"
    case Medium => "w-[200px]"
    case Large => "w-[300px]"
    case Auto => "w-auto"
  }

  /** `getAlignment()`: an `items-` flex class; any alignment not listed is centred. */
  function StoreAlignmentClass(alignment: ButtonAlignment): (r: string)
    ensures StartsWith(r, "items-")
  {
    match alignment
    case Left => "items-start"
    case Right => "items-end"
    case Center => "items-center"
  }

  /** Different widths get different classes, and so do different alignments. */
  lemma StoreLayoutClassesDistinct(a: ButtonWidth, b: ButtonWidth, x: ButtonAlignment, y: ButtonAlignment)
    ensures a != b ==> StoreWidthClass(a) != StoreWidthClass(b)
    ensures x != y ==> StoreAlignmentClass(x) != StoreAlignmentClass(y)
  {
  }

  /** The store and the settings preview lay the button out alike, except
      that a full-width button is centred only in the preview. */
  lemma StoreMatchesPreviewLayout(width: ButtonWidth, alignment: ButtonAlignment)
    ensures StoreAlignmentClass(alignment) == SettingsPage.PreviewAlignmentClass(alignment)
    ensures width != Full ==> StoreWidthClass(width) == SettingsPage.PreviewWidthClass(width)
    ensures width == Full ==>
              SettingsPage.PreviewWidthClass(width) == StoreWidthClass(width) + " justify-center"
  {
  }

  /** The button's `style` on the store page. */
  function StoreButtonStyle(s: WidgetSettings): (r: SettingsPage.InlineStyle)
    ensures r.borderRadius == Some(SettingsPage.Pixels(s.borderRadius))
    ensures s.useCustomColors ==> r.backgroundColor == Some(s.primaryColor) && r.color == Some(s.textColor)
    ensures !s.useCustomColors ==> r.backgroundColor.None? && r.color.None?
  {
    if s.useCustomColors then
      SettingsPage.InlineStyle(Some(s.primaryColor), Some(s.textColor), Some(SettingsPage.Pixels(s.borderRadius)))
    else SettingsPage.InlineStyle(None, None, Some(SettingsPage.Pixels(s.borderRadius)))
  }

  /** The store styles the button exactly as the preview does. */
  lemma StoreStyleMatchesPreview(s: WidgetSettings)
    ensures StoreButtonStyle(s) == SettingsPage.PreviewButtonStyle(s)
  {
  }

  /** `product.type || 'clothing'`: the product type handed to the modal. */
  function ModalProductType(p: Product): (r: string)
    ensures r != ""
    ensures Truthy(p.productType) ==> r == p.productType.value
    ensures !Truthy(p.productType) ==> r == "clothing"
  {
    OrElse(if p.productType.Some? then p.productType.value else "", "clothing")
  }

  /** The description under the button, coloured with the text colour only
      when custom colours are on. */
  datatype Description = Description(text: string, color: Option<string>)

  /** What the page renders. */
  datatype StoreView =
    | Loading
    | Shown(product: Product, button: Option<SettingsPage.ButtonView>,
            description: Option<Description>, modalProductType: string)

  /** The page for the stored products and the settings state (`None` before
      the mount effect has loaded them). */
  function RenderStore(products: seq<Product>, settings: Option<WidgetSettings>): (r: StoreView)
    ensures r.Loading? <==> products == [] || settings.None?
    ensures r.Shown? ==> Some(r.product) == SelectProduct(products)
    ensures r.Shown? ==> r.modalProductType == ModalProductType(r.product) && r.modalProductType != ""
    ensures r.Shown? ==> (r.button.Some? <==> settings.value.widgetEnabled)
    ensures r.Shown? && r.button.Some? ==>
              var s := settings.value;
              r.button.value == SettingsPage.WidgetButton(s.widgetStyle, StoreWidthClass(s.buttonWidth),
                                                         StoreAlignmentClass(s.buttonAlignment), StoreButtonStyle(s), s.buttonText)
    ensures r.Shown? ==>
              (r.description.Some? <==> settings.value.widgetEnabled && settings.value.showDescription)
    ensures r.Shown? && r.description.Some? ==>
              && r.description.value.text == settings.value.customDescription
              && (r.description.value.color.Some? <==> settings.value.useCustomColors)
    ensures r.Shown? && r.description.Some? && r.description.value.color.Some? ==>
              r.description.value.color.value == settings.value.textColor
  {
    match SelectProduct(products)
    case None => Loading
    case Some(product) =>
      match settings
      case None => Loading
      case Some(s) =>
        var button :=
          if s.widgetEnabled then
            Some(SettingsPage.WidgetButton(s.widgetStyle, StoreWidthClass(s.buttonWidth),
                                           StoreAlignmentClass(s.buttonAlignment), StoreButtonStyle(s), s.buttonText))
          else None;
        var description :=
          if s.widgetEnabled && s.showDescription then
            Some(Description(s.customDescription, if s.useCustomColors then Some(s.textColor) else None))
          else None;
        Shown(product, button, description, ModalProductType(product))
  }

  /** What the merchant previews is what shoppers get: with settings loaded,
      the store shows the button and the description exactly when the preview
      does, with the same alignment class, style, text and description text,
      and the same classes except that only the preview centres a full-width
      button. The one difference in the description is that only the store
      colours it, and only with custom colours. */
  lemma StoreRendersThePreview(products: seq<Product>, s: WidgetSettings)
    requires products != []
    ensures var store := RenderStore(products, Some(s));
            var preview := SettingsPage.RenderPreview(s);
            && store.Shown?
            && (store.button.Some? <==> preview.button.Some?)
            && (store.button.Some? ==>
                  && store.button.value.containerClass == preview.button.value.containerClass
                  && store.button.value.style == preview.button.value.style
                  && store.button.value.text == preview.button.value.text
                  && (s.buttonWidth != Full ==> store.button.value.classes == preview.button.value.classes)
                  && (s.buttonWidth == Full ==>
                        preview.button.value.classes == store.button.value.classes + " justify-center"))
            && (store.description.Some? <==> preview.description.Some?)
            && (store.description.Some? ==> store.description.value.text == preview.description.value)
            && (store.description.Some? ==> (store.description.value.color.Some? <==> s.useCustomColors))
  {
    StoreButtonMatchesPreview(s);
  }

  /** The button the store draws against the one the preview draws: the same
      alignment class, style and text, and the same classes except that the
      preview's full-width class carries an extra `justify-center`. */
  lemma StoreButtonMatchesPreview(s: WidgetSettings)
    ensures var store := SettingsPage.WidgetButton(s.widgetStyle, StoreWidthClass(s.buttonWidth),
                                                   StoreAlignmentClass(s.buttonAlignment), StoreButtonStyle(s), s.buttonText);
            var preview := SettingsPage.WidgetButton(s.widgetStyle, SettingsPage.PreviewWidthClass(s.buttonWidth),
                                                     SettingsPage.PreviewAlignmentClass(s.buttonAlignment),
                                                     SettingsPage.PreviewButtonStyle(s), s.buttonText);
            && store.containerClass == preview.containerClass
            && store.style == preview.style
            && store.text == preview.text
            && (s.buttonWidth != Full ==> store.classes == preview.classes)
            && (s.buttonWidth == Full ==> preview.classes == store.classes + " justify-center")
  {
    StoreMatchesPreviewLayout(s.buttonWidth, s.buttonAlignment);
    StoreStyleMatchesPreview(s);
    if s.buttonWidth == Full {
      var base := WidgetStyles.ButtonStyleClasses(s.widgetStyle);
      assert base + " " + ("w-full" + " justify-center") == (base + " " + "w-full") + " justify-center";
    }
  }
}
