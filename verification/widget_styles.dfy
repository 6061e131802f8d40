/** The widget button's CSS classes (lib/widget-styles.ts): a fixed base
    class list followed by the classes of one of eight style presets. */
module WidgetStyles {
  import opened Common

  const BaseClasses := "inline-flex items-center justify-center gap-2 px-6 py-3 font-medium transition cursor-pointer"

  /** The named presets of the source's `styleMap`. */
  datatype Preset =
    | ElegantMinimal | ModernOutline | GhostHover | SubtleGradient
    | SoftRounded | LuxuryGold | BeautyGlow | TechNeon

  /** The key a preset is stored under. */
  function PresetName(p: Preset): string
  {
    match p
    case ElegantMinimal => "elegant-minimal"
    case ModernOutline => "modern-outline"
    case GhostHover => "ghost-hover"
    case SubtleGradient => "subtle-gradient"
    case SoftRounded => "soft-rounded"
    case LuxuryGold => "luxury-gold"
    case BeautyGlow => "beauty-glow"
    case TechNeon => "tech-neon"
  }

  /** The classes a preset adds to the base list. */
  function PresetClasses(p: Preset): string
  {
    match p
    case ElegantMinimal => "bg-indigo-500 text-white shadow-md hover:shadow-lg hover:-translate-y-0.5"
    case ModernOutline => "bg-transparent text-indigo-500 border-2 border-indigo-500 hover:bg-indigo-500 hover:text-white hover:-translate-y-0.5"
    case GhostHover => "bg-transparent text-gray-700 border border-gray-300 hover:bg-indigo-50 hover:border-indigo-500 hover:text-indigo-500"
    case SubtleGradient => "bg-gradient-to-r from-indigo-500 to-purple-600 text-white shadow-md hover:shadow-lg hover:-translate-y-0.5"
    case SoftRounded => "bg-indigo-500 text-white shadow-md hover:shadow-lg hover:-translate-y-0.5 rounded-3xl"
    case LuxuryGold => "bg-gradient-to-r from-yellow-600 to-amber-500 text-white shadow-lg hover:shadow-xl hover:-translate-y-0.5"
    case BeautyGlow => "bg-gradient-to-r from-pink-400 to-rose-500 text-white shadow-lg hover:shadow-xl hover:-translate-y-0.5"
    case TechNeon => "bg-black text-cyan-400 border-2 border-cyan-400 shadow-lg hover:bg-cyan-400 hover:text-black"
  }

  /** The record lookup `styleMap[style]`: the preset stored under `style`. */
  function PresetOf(style: string): (r: Option<Preset>)
    ensures r.Some? ==> PresetName(r.value) == style
    ensures r.None? ==> forall p :: PresetName(p) != style
  {
    match style
    case "elegant-minimal" => Some(ElegantMinimal)
    case "modern-outline" => Some(ModernOutline)
    case "ghost-hover" => Some(GhostHover)
    case "subtle-gradient" => Some(SubtleGradient)
    case "soft-rounded" => Some(SoftRounded)
    case "luxury-gold" => Some(LuxuryGold)
    case "beauty-glow" => Some(BeautyGlow)
    case "tech-neon" => Some(TechNeon)
    case _ => None
  }

  /** Every preset is found under its own name. */
  lemma PresetNameRoundTrip(p: Preset)
    ensures PresetOf(PresetName(p)) == Some(p)
  {
  }

  /** `getButtonStyleClasses(style)`: the base list, one space, then the
      preset's classes; a name outside the map falls back to 'elegant-minimal'. */
  function ButtonStyleClasses(style: string): (r: string)
    ensures StartsWith(r, BaseClasses + " ")
    ensures PresetOf(style).Some? ==> r[|BaseClasses| + 1..] == PresetClasses(PresetOf(style).value)
    ensures PresetOf(style).None? ==> r[|BaseClasses| + 1..] == PresetClasses(ElegantMinimal)
  {
    var preset := match PresetOf(style) case Some(p) => p case None => ElegantMinimal;
    var r := BaseClasses + " " + PresetClasses(preset);
    assert r[..|BaseClasses| + 1] == BaseClasses + " ";
    assert r[|BaseClasses| + 1..] == PresetClasses(preset);
    r
  }

  /** An unknown style name renders exactly as 'elegant-minimal' does. */
  lemma UnknownStyleFallsBack(style: string)
    requires PresetOf(style).None?
    ensures ButtonStyleClasses(style) == ButtonStyleClasses(PresetName(ElegantMinimal))
  {
    var a := ButtonStyleClasses(style);
    var b := ButtonStyleClasses(PresetName(ElegantMinimal));
    PresetNameRoundTrip(ElegantMinimal);
    assert a == a[..|BaseClasses| + 1] + a[|BaseClasses| + 1..];
    assert b == b[..|BaseClasses| + 1] + b[|BaseClasses| + 1..];
  }

  /** The preset can be read back from the class string: the part after the
      base list and its space is the preset's own class list. */
  function PresetPart(classes: string): string
    requires StartsWith(classes, BaseClasses + " ")
  {
    classes[|BaseClasses| + 1..]
  }

  lemma PresetPartRoundTrip(p: Preset)
    ensures PresetPart(ButtonStyleClasses(PresetName(p))) == PresetClasses(p)
  {
    PresetNameRoundTrip(p);
  }
}
