/** The merchant settings page (app/settings/page.tsx): editing one setting
    at a time, switching products on and off, and the live preview of the
    widget button. */
module SettingsPage {
  import opened Common
  import opened Types
  import WidgetStyles

  // ---------------------------------------------------------------------------
  // Editing one setting (`handleSettingChange`)
  // ---------------------------------------------------------------------------

  /** `keyof WidgetSettings`. */
  datatype SettingKey =
    | ButtonText | WidgetStyle | ShowDescription | CustomDescription
    | PrimaryColor | BackgroundColor | TextColor | BorderRadius
    | WidgetEnabled | ButtonWidthKey | ButtonAlignmentKey | UseCustomColors

  /** A value a setting can take. */
  datatype SettingValue =
    | Text(text: string)
    | Flag(flag: bool)
    | Number(number: int)
    | Width(width: ButtonWidth)
    | Alignment(alignment: ButtonAlignment)

  /** The current value of one setting. */
  function Get(s: WidgetSettings, key: SettingKey): SettingValue
  {
    match key
    case ButtonText => Text(s.buttonText)
    case WidgetStyle => Text(s.widgetStyle)
    case ShowDescription => Flag(s.showDescription)
    case CustomDescription => Text(s.customDescription)
    case PrimaryColor => Text(s.primaryColor)
    case BackgroundColor => Text(s.backgroundColor)
    case TextColor => Text(s.textColor)
    case BorderRadius => Number(s.borderRadius)
    case WidgetEnabled => Flag(s.widgetEnabled)
    case ButtonWidthKey => Width(s.buttonWidth)
    case ButtonAlignmentKey => Alignment(s.buttonAlignment)
    case UseCustomColors => Flag(s.useCustomColors)
  }

  /** The value has the kind the setting stores (every caller on the page
      passes a value of the field's declared type). */
  predicate Fits(key: SettingKey, value: SettingValue)
  {
    match key
    case ShowDescription => value.Flag?
    case WidgetEnabled => value.Flag?
    case UseCustomColors => value.Flag?
    case BorderRadius => value.Number?
    case ButtonWidthKey => value.Width?
    case ButtonAlignmentKey => value.Alignment?
    case _ => value.Text?
  }

  /** Two settings records that agree on every key are the same record. */
  lemma SettingsAreTheirValues(a: WidgetSettings, b: WidgetSettings)
    requires forall k :: Get(a, k) == Get(b, k)
    ensures a == b
  {
    assert Get(a, ButtonText) == Get(b, ButtonText);
    assert Get(a, WidgetStyle) == Get(b, WidgetStyle);
    assert Get(a, ShowDescription) == Get(b, ShowDescription);
    assert Get(a, CustomDescription) == Get(b, CustomDescription);
    assert Get(a, PrimaryColor) == Get(b, PrimaryColor);
    assert Get(a, BackgroundColor) == Get(b, BackgroundColor);
    assert Get(a, TextColor) == Get(b, TextColor);
    assert Get(a, BorderRadius) == Get(b, BorderRadius);
    assert Get(a, WidgetEnabled) == Get(b, WidgetEnabled);
    assert Get(a, ButtonWidthKey) == Get(b, ButtonWidthKey);
    assert Get(a, ButtonAlignmentKey) == Get(b, ButtonAlignmentKey);
    assert Get(a, UseCustomColors) == Get(b, UseCustomColors);
  }

  /** `handleSettingChange(key, value)`: `{ ...prev, [key]: value }`. */
  function HandleSettingChange(s: WidgetSettings, key: SettingKey, value: SettingValue): (r: WidgetSettings)
    requires Fits(key, value)
    ensures Get(r, key) == value
    ensures forall k :: k != key ==> Get(r, k) == Get(s, k)
  {
    match key
    case ButtonText => s.(buttonText := value.text)
    case WidgetStyle => s.(widgetStyle := value.text)
    case ShowDescription => s.(showDescription := value.flag)
    case CustomDescription => s.(customDescription := value.text)
    case PrimaryColor => s.(primaryColor := value.text)
    case BackgroundColor => s.(backgroundColor := value.text)
    case TextColor => s.(textColor := value.text)
    case BorderRadius => s.(borderRadius := value.number)
    case WidgetEnabled => s.(widgetEnabled := value.flag)
    case ButtonWidthKey => s.(buttonWidth := value.width)
    case ButtonAlignmentKey => s.(buttonAlignment := value.alignment)
    case UseCustomColors => s.(useCustomColors := value.flag)
  }

  /** Writing a setting's current value back changes nothing, and the last of
      two writes to one setting wins. */
  lemma SettingChangesCompose(s: WidgetSettings, key: SettingKey, v1: SettingValue, v2: SettingValue)
    requires Fits(key, v1) && Fits(key, v2)
    ensures HandleSettingChange(s, key, Get(s, key)) == s
    ensures HandleSettingChange(HandleSettingChange(s, key, v1), key, v2) == HandleSettingChange(s, key, v2)
  {
    var a := HandleSettingChange(s, key, Get(s, key));
    SettingsAreTheirValues(a, s);
    var b := HandleSettingChange(HandleSettingChange(s, key, v1), key, v2);
    var c := HandleSettingChange(s, key, v2);
    SettingsAreTheirValues(b, c);
  }

  // ---------------------------------------------------------------------------
  // Switching products on and off (`handleProductToggle`)
  // ---------------------------------------------------------------------------

  /** `prev.map(p => p.id === productId ? { ...p, enabled: !p.enabled } : p)` */
  function HandleProductToggle(products: seq<Product>, productId: string): (r: seq<Product>)
    ensures |r| == |products|
    ensures forall i :: 0 <= i < |products| && products[i].id == productId ==>
              r[i] == products[i].(enabled := !products[i].enabled)
    ensures forall i :: 0 <= i < |products| && products[i].id != productId ==> r[i] == products[i]
  {
    if products == [] then []
    else
      var head := if products[0].id == productId then products[0].(enabled := !products[0].enabled) else products[0];
      [head] + HandleProductToggle(products[1..], productId)
  }

  /** Toggling the same product twice gives back the original list. */
  lemma {:induction false} ToggleTwiceRestores(products: seq<Product>, productId: string)
    ensures HandleProductToggle(HandleProductToggle(products, productId), productId) == products
  {
    var r := HandleProductToggle(HandleProductToggle(products, productId), productId);
    assert |r| == |products|;
    forall i | 0 <= i < |products|
      ensures r[i] == products[i]
    {
      var once := HandleProductToggle(products, productId);
      assert once[i].id == products[i].id;
    }
  }

  /** Toggling never changes which products there are, only their switches. */
  lemma ToggleKeepsIds(products: seq<Product>, productId: string)
    ensures forall i :: 0 <= i < |products| ==>
              HandleProductToggle(products, productId)[i].(enabled := products[i].enabled) == products[i]
  {
  }

  // ---------------------------------------------------------------------------
  // The preview
  // ---------------------------------------------------------------------------

  /** The presets the style picker offers (`buttonStyles`). */
  const OfferedStyles: seq<string> := [
    "elegant-minimal", "modern-outline", "ghost-hover", "subtle-gradient",
    "soft-rounded", "luxury-gold", "beauty-glow", "tech-neon"]

  /** Every offered preset is a key of the style map, so no choice on the page
      falls back to the default. */
  lemma OfferedStylesAreKnown()
    ensures forall i :: 0 <= i < |OfferedStyles| ==> WidgetStyles.PresetOf(OfferedStyles[i]).Some?
    ensures forall p: WidgetStyles.Preset :: WidgetStyles.PresetName(p) in OfferedStyles
  {
    assert WidgetStyles.PresetOf(OfferedStyles[0]).Some? by { WidgetStyles.PresetNameRoundTrip(WidgetStyles.ElegantMinimal); }
    assert WidgetStyles.PresetOf(OfferedStyles[1]).Some? by { WidgetStyles.PresetNameRoundTrip(WidgetStyles.ModernOutline); }
    assert WidgetStyles.PresetOf(OfferedStyles[2]).Some? by { WidgetStyles.PresetNameRoundTrip(WidgetStyles.GhostHover); }
    assert WidgetStyles.PresetOf(OfferedStyles[3]).Some? by { WidgetStyles.PresetNameRoundTrip(WidgetStyles.SubtleGradient); }
    assert WidgetStyles.PresetOf(OfferedStyles[4]).Some? by { WidgetStyles.PresetNameRoundTrip(WidgetStyles.SoftRounded); }
    assert WidgetStyles.PresetOf(OfferedStyles[5]).Some? by { WidgetStyles.PresetNameRoundTrip(WidgetStyles.LuxuryGold); }
    assert WidgetStyles.PresetOf(OfferedStyles[6]).Some? by { WidgetStyles.PresetNameRoundTrip(WidgetStyles.BeautyGlow); }
    assert WidgetStyles.PresetOf(OfferedStyles[7]).Some? by { WidgetStyles.PresetNameRoundTrip(WidgetStyles.TechNeon); }
  }

  /** The preview button's width class: a `w-` class, and a full-width
      button is also centred. */
  function PreviewWidthClass(width: ButtonWidth): (r: string)
    ensures StartsWith(r, "w-")
  {
    match width
    case Full => "w-full justify-center"
    case Large => "w-[300px]"
    case Medium => "w-[200px]"
    case Auto => "w-auto"
  }

  /** The preview container's alignment class: an `items-` flex class. */
  function PreviewAlignmentClass(alignment: ButtonAlignment): (r: string)
    ensures StartsWith(r, "items-")
  {
    match alignment
    case Left => "items-start"
    case Right => "items-end"
    case Center => "items-center"
  }

  /** Different widths get different classes, and so do different alignments. */
  lemma PreviewLayoutClassesDistinct(a: ButtonWidth, b: ButtonWidth, x: ButtonAlignment, y: ButtonAlignment)
    ensures a != b ==> PreviewWidthClass(a) != PreviewWidthClass(b)
    ensures x != y ==> PreviewAlignmentClass(x) != PreviewAlignmentClass(y)
  {
  }

  /** An inline `style` object; an absent property is `None`. */
  datatype InlineStyle = InlineStyle(backgroundColor: Option<string>, color: Option<string>, borderRadius: Option<string>)

  /** `${n}px` */
  function Pixels(n: int): string
  {
    IntToDecimal(n) + "px"
  }

  /** The preview button's `style`: the custom colours and the radius when
      custom colours are on, otherwise the radius alone. */
  function PreviewButtonStyle(s: WidgetSettings): (r: InlineStyle)
    ensures r.borderRadius == Some(Pixels(s.borderRadius))
    ensures s.useCustomColors ==> r.backgroundColor == Some(s.primaryColor) && r.color == Some(s.textColor)
    ensures !s.useCustomColors ==> r.backgroundColor.None? && r.color.None?
  {
    if s.useCustomColors then InlineStyle(Some(s.primaryColor), Some(s.textColor), Some(Pixels(s.borderRadius)))
    else InlineStyle(None, None, Some(Pixels(s.borderRadius)))
  }

  /** The rendered widget button: its classes, style and text, inside a
      container. `containerClass` is only the container's alignment class;
      the fixed spacing and flex classes around it are not kept. */
  datatype ButtonView = ButtonView(containerClass: string, classes: string, style: InlineStyle, text: string)

  /** The widget button as both pages render it: the classes of the chosen
      style, a space and the width class, inside a container carrying the
      alignment class. */
  function WidgetButton(widgetStyle: string, widthClass: string, containerClass: string,
                        style: InlineStyle, text: string): (b: ButtonView)
    ensures StartsWith(b.classes, WidgetStyles.BaseClasses + " ")
    ensures b.classes == WidgetStyles.ButtonStyleClasses(widgetStyle) + " " + widthClass
    ensures b.containerClass == containerClass && b.style == style && b.text == text
  {
    var classes := WidgetStyles.ButtonStyleClasses(widgetStyle) + " " + widthClass;
    assert classes[..|WidgetStyles.BaseClasses| + 1]
        == WidgetStyles.ButtonStyleClasses(widgetStyle)[..|WidgetStyles.BaseClasses| + 1];
    ButtonView(containerClass, classes, style, text)
  }

  /** The preview card below the sample product. */
  datatype Preview = Preview(button: Option<ButtonView>, description: Option<string>, disabledNotice: bool)

  /** The preview card for the settings being edited. */
  function RenderPreview(s: WidgetSettings): (r: Preview)
    ensures r.button.Some? <==> s.widgetEnabled
    ensures r.disabledNotice <==> !s.widgetEnabled
    ensures r.description.Some? <==> s.widgetEnabled && s.showDescription
    ensures r.description.Some? ==> r.description.value == s.customDescription
    ensures r.button.Some? ==>
              r.button.value == WidgetButton(s.widgetStyle, PreviewWidthClass(s.buttonWidth),
                                             PreviewAlignmentClass(s.buttonAlignment), PreviewButtonStyle(s), s.buttonText)
  {
    if !s.widgetEnabled then Preview(None, None, true)
    else
      Preview(
        Some(WidgetButton(s.widgetStyle, PreviewWidthClass(s.buttonWidth),
                          PreviewAlignmentClass(s.buttonAlignment), PreviewButtonStyle(s), s.buttonText)),
        if s.showDescription then Some(s.customDescription) else None,
        false)
  }
}
