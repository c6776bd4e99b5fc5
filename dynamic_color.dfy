/**
 * The colour helpers of NSColor+Extensions.swift: the dynamic colour that picks one
 * of eight optional slots from the rendering traits (style, then level, then
 * contrast, each step falling back when a slot is nil), its two-colour and
 * `DynamicColor` convenience initialisers, and the 24-bit hex channel split.
 * Colours themselves are opaque values of a type parameter `C`.
 */
module ColorExtensions {
  import opened Wrappers

  datatype UserInterfaceStyle = StyleUnspecified | Light | Dark
  datatype UserInterfaceLevel = LevelUnspecified | Base | Elevated
  datatype AccessibilityContrast = ContrastUnspecified | Normal | High

  /** The traits of the rendering context the dynamic colour is resolved against. */
  datatype Traits = Traits(userInterfaceStyle: UserInterfaceStyle, userInterfaceLevel: UserInterfaceLevel,
                           accessibilityContrast: AccessibilityContrast)

  /** The eight slots of the dynamic colour; only `light` is required. */
  datatype ColorSlots<C> = ColorSlots(
    light: C,
    lightHighContrast: Option<C>,
    lightElevated: Option<C>,
    lightElevatedHighContrast: Option<C>,
    dark: Option<C>,
    darkHighContrast: Option<C>,
    darkElevated: Option<C>,
    darkElevatedHighContrast: Option<C>)

  /** `getColorForContrast`: the high-contrast colour when contrast is high and it is set, else the default. */
  function ColorForContrast<C>(traits: Traits, default: Option<C>, highContrast: Option<C>): (r: Option<C>)
    ensures r == default || r == highContrast
    ensures r != default ==> traits.accessibilityContrast == High && highContrast.Some?
    ensures default.Some? ==> r.Some?
  {
    if traits.accessibilityContrast == High && highContrast.Some? then highContrast else default
  }

  /** `getColor`: at elevated level the elevated pair first, falling back to the base pair. */
  function GetColor<C>(traits: Traits, default: Option<C>, highContrast: Option<C>,
                       elevated: Option<C>, elevatedHighContrast: Option<C>): (r: Option<C>)
    ensures traits.userInterfaceLevel != Elevated ==> r == ColorForContrast(traits, default, highContrast)
    ensures ColorForContrast(traits, elevated, elevatedHighContrast).None? ==> r == ColorForContrast(traits, default, highContrast)
    ensures default.Some? ==> r.Some?
  {
    var elevatedColor := ColorForContrast(traits, elevated, elevatedHighContrast);
    if traits.userInterfaceLevel == Elevated && elevatedColor.Some? then elevatedColor
    else ColorForContrast(traits, default, highContrast)
  }

  /** The colour of the dark family for these traits, if any of its slots applies. */
  function DarkColor<C>(slots: ColorSlots<C>, traits: Traits): Option<C>
  {
    GetColor(traits, slots.dark, slots.darkHighContrast, slots.darkElevated, slots.darkElevatedHighContrast)
  }

  /** The colour of the light family for these traits; never nil, because `light` is required. */
  function LightColor<C>(slots: ColorSlots<C>, traits: Traits): (r: Option<C>)
    ensures r.Some?
  {
    GetColor(traits, Some(slots.light), slots.lightHighContrast, slots.lightElevated, slots.lightElevatedHighContrast)
  }

  /**
   * The dynamic colour's resolution: in dark style the dark family first, falling
   * back to the light family. The `preconditionFailure` branch is unreachable,
   * because the light family always yields a colour.
   */
  function Resolve<C>(slots: ColorSlots<C>, traits: Traits): (c: C)
    ensures traits.userInterfaceStyle != Dark ==> Some(c) == LightColor(slots, traits)
    ensures traits.userInterfaceStyle == Dark && DarkColor(slots, traits).None? ==> Some(c) == LightColor(slots, traits)
    ensures traits.userInterfaceStyle == Dark && DarkColor(slots, traits).Some? ==> Some(c) == DarkColor(slots, traits)
  {
    var darkColor := DarkColor(slots, traits);
    if traits.userInterfaceStyle == Dark && darkColor.Some? then darkColor.value
    else
      var lightColor := LightColor(slots, traits);
      if lightColor.Some? then lightColor.value
      else assert false; slots.light
  }

  // ----- The decision order as a priority list -----

  /** The names of the eight slots. */
  datatype Slot =
    | LightSlot | LightHighContrastSlot | LightElevatedSlot | LightElevatedHighContrastSlot
    | DarkSlot | DarkHighContrastSlot | DarkElevatedSlot | DarkElevatedHighContrastSlot

  function SlotValue<C>(slots: ColorSlots<C>, slot: Slot): Option<C>
  {
    match slot
    case LightSlot => Some(slots.light)
    case LightHighContrastSlot => slots.lightHighContrast
    case LightElevatedSlot => slots.lightElevated
    case LightElevatedHighContrastSlot => slots.lightElevatedHighContrast
    case DarkSlot => slots.dark
    case DarkHighContrastSlot => slots.darkHighContrast
    case DarkElevatedSlot => slots.darkElevated
    case DarkElevatedHighContrastSlot => slots.darkElevatedHighContrast
  }

  /** The first slot in `order` that is set. */
  function FirstSet<C>(slots: ColorSlots<C>, order: seq<Slot>): Option<C>
  {
    if order == [] then None
    else if SlotValue(slots, order[0]).Some? then SlotValue(slots, order[0])
    else FirstSet(slots, order[1..])
  }

  /**
   * The slots of one family in the order they are tried: at elevated level the
   * elevated pair, then the base pair; within a pair the high-contrast slot first,
   * but only when contrast is high.
   */
  function FamilyOrder(traits: Traits, base: Slot, highContrast: Slot, elevated: Slot, elevatedHighContrast: Slot): seq<Slot>
  {
    var high := traits.accessibilityContrast == High;
    (if traits.userInterfaceLevel == Elevated
     then (if high then [elevatedHighContrast] else []) + [elevated]
     else [])
    + (if high then [highContrast] else []) + [base]
  }

  /** The full priority list: the dark family (in dark style only), then the light family. */
  function DecisionOrder(traits: Traits): seq<Slot>
  {
    var lightFamily := FamilyOrder(traits, LightSlot, LightHighContrastSlot, LightElevatedSlot, LightElevatedHighContrastSlot);
    var darkFamily := FamilyOrder(traits, DarkSlot, DarkHighContrastSlot, DarkElevatedSlot, DarkElevatedHighContrastSlot);
    (if traits.userInterfaceStyle == Dark then darkFamily else []) + lightFamily
  }

  lemma {:induction false} FirstSetAppend<C>(slots: ColorSlots<C>, a: seq<Slot>, b: seq<Slot>)
    ensures FirstSet(slots, a + b) == if FirstSet(slots, a).Some? then FirstSet(slots, a) else FirstSet(slots, b)
  {
    if a != [] {
      assert (a + b)[0] == a[0];
      assert (a + b)[1..] == a[1..] + b;
      FirstSetAppend(slots, a[1..], b);
    } else {
      assert a + b == b;
    }
  }

  lemma FirstSetPair<C>(slots: ColorSlots<C>, traits: Traits, highContrast: Slot, base: Slot)
    ensures FirstSet(slots, (if traits.accessibilityContrast == High then [highContrast] else []) + [base])
            == ColorForContrast(traits, SlotValue(slots, base), SlotValue(slots, highContrast))
  {
    var high := if traits.accessibilityContrast == High then [highContrast] else [];
    FirstSetAppend(slots, high, [base]);
    assert FirstSet(slots, [base]) == SlotValue(slots, base) by {
      assert [base][1..] == [];
    }
    if traits.accessibilityContrast == High {
      assert FirstSet(slots, [highContrast]) == SlotValue(slots, highContrast) by {
        assert [highContrast][1..] == [];
      }
    }
  }

  /** One family's priority list picks exactly what `getColor` picks. */
  lemma FamilyOrderIsGetColor<C>(slots: ColorSlots<C>, traits: Traits, base: Slot, highContrast: Slot,
                                 elevated: Slot, elevatedHighContrast: Slot)
    ensures FirstSet(slots, FamilyOrder(traits, base, highContrast, elevated, elevatedHighContrast))
            == GetColor(traits, SlotValue(slots, base), SlotValue(slots, highContrast),
                        SlotValue(slots, elevated), SlotValue(slots, elevatedHighContrast))
  {
    var high := traits.accessibilityContrast == High;
    var elevatedPart := if high then [elevatedHighContrast] else [];
    var basePart := (if high then [highContrast] else []) + [base];
    FirstSetPair(slots, traits, highContrast, base);
    if traits.userInterfaceLevel == Elevated {
      FirstSetPair(slots, traits, elevatedHighContrast, elevated);
      assert FamilyOrder(traits, base, highContrast, elevated, elevatedHighContrast) == (elevatedPart + [elevated]) + basePart;
      FirstSetAppend(slots, elevatedPart + [elevated], basePart);
    } else {
      assert FamilyOrder(traits, base, highContrast, elevated, elevatedHighContrast) == basePart;
    }
  }

  /**
   * The documented decision order: the dynamic colour is the first set slot of the
   * priority list for the traits (dark family only in dark style, elevated slots
   * only at elevated level, high-contrast slots only at high contrast).
   */
  lemma ResolveFollowsDecisionOrder<C>(slots: ColorSlots<C>, traits: Traits)
    ensures Some(Resolve(slots, traits)) == FirstSet(slots, DecisionOrder(traits))
  {
    var lightFamily := FamilyOrder(traits, LightSlot, LightHighContrastSlot, LightElevatedSlot, LightElevatedHighContrastSlot);
    var darkFamily := FamilyOrder(traits, DarkSlot, DarkHighContrastSlot, DarkElevatedSlot, DarkElevatedHighContrastSlot);
    FamilyOrderIsGetColor(slots, traits, LightSlot, LightHighContrastSlot, LightElevatedSlot, LightElevatedHighContrastSlot);
    FamilyOrderIsGetColor(slots, traits, DarkSlot, DarkHighContrastSlot, DarkElevatedSlot, DarkElevatedHighContrastSlot);
    if traits.userInterfaceStyle == Dark {
      FirstSetAppend(slots, darkFamily, lightFamily);
    } else {
      assert DecisionOrder(traits) == lightFamily;
    }
  }

  /** Outside dark style no slot of the dark family is ever used. */
  lemma NonDarkIgnoresDarkFamily<C>(slots: ColorSlots<C>, traits: Traits, dark: Option<C>, darkHighContrast: Option<C>,
                                    darkElevated: Option<C>, darkElevatedHighContrast: Option<C>)
    requires traits.userInterfaceStyle != Dark
    ensures Resolve(slots, traits) ==
            Resolve(slots.(dark := dark, darkHighContrast := darkHighContrast, darkElevated := darkElevated,
                           darkElevatedHighContrast := darkElevatedHighContrast), traits)
  {
  }

  // ----- Convenience initialisers -----

  /** `init(light:dark:)`: only `light` and `dark` are set. */
  function TwoColor<C>(light: C, dark: C): ColorSlots<C>
  {
    ColorSlots(light, None, None, None, Some(dark), None, None, None)
  }

  /** The two-colour dynamic colour is `dark` in dark style and `light` otherwise, whatever the level or contrast. */
  lemma TwoColorResolve<C>(light: C, dark: C, traits: Traits)
    ensures Resolve(TwoColor(light, dark), traits) == if traits.userInterfaceStyle == Dark then dark else light
  {
  }

  /** A `DynamicColor`: a required light colour and optional dark and dark-elevated colours. */
  datatype DynamicColor<C> = DynamicColor(light: C, dark: Option<C>, darkElevated: Option<C>)

  /** `init(dynamicColor:)`: fills `light`, `dark` and `darkElevated` only. */
  function FromDynamicColor<C>(dynamicColor: DynamicColor<C>): ColorSlots<C>
  {
    ColorSlots(dynamicColor.light, None, None, None, dynamicColor.dark, None, dynamicColor.darkElevated, None)
  }

  /**
   * A colour built from a `DynamicColor` resolves, in dark elevated contexts, to
   * `darkElevated`, then `dark`, then `light`; in other dark contexts to `dark`, then
   * `light`; and otherwise to `light`. Contrast never matters.
   */
  lemma FromDynamicColorResolve<C>(dynamicColor: DynamicColor<C>, traits: Traits)
    ensures Resolve(FromDynamicColor(dynamicColor), traits) ==
            if traits.userInterfaceStyle != Dark then dynamicColor.light
            else if traits.userInterfaceLevel == Elevated && dynamicColor.darkElevated.Some? then dynamicColor.darkElevated.value
            else dynamicColor.dark.GetOr(dynamicColor.light)
  {
  }

  // ----- Hex colours -----

  /** Red, green and blue channels of `init(hexValue:)`, each in 0..255 before scaling. */
  function RedChannel(hexValue: bv32): (red: bv32)
    ensures red < 256
  {
    (hexValue & 0x00FF_0000) >> 16
  }

  function GreenChannel(hexValue: bv32): (green: bv32)
    ensures green < 256
  {
    (hexValue & 0x0000_FF00) >> 8
  }

  function BlueChannel(hexValue: bv32): (blue: bv32)
    ensures blue < 256
  {
    hexValue & 0x0000_00FF
  }

  /** The three channels put back together give the low 24 bits of the hex value: nothing else is read. */
  lemma HexChannelsRoundTrip(hexValue: bv32)
    ensures (RedChannel(hexValue) << 16) | (GreenChannel(hexValue) << 8) | BlueChannel(hexValue) == hexValue & 0x00FF_FFFF
  {
  }

  /** The top byte is ignored. */
  lemma HexTopByteIgnored(hexValue: bv32)
    ensures RedChannel(hexValue) == RedChannel(hexValue & 0x00FF_FFFF)
    ensures GreenChannel(hexValue) == GreenChannel(hexValue & 0x00FF_FFFF)
    ensures BlueChannel(hexValue) == BlueChannel(hexValue & 0x00FF_FFFF)
  {
  }

  /** An RGBA colour with components in 0..1. */
  datatype Rgba = Rgba(red: real, green: real, blue: real, alpha: real)

  /** `init(hexValue:)`: each channel divided by 255, alpha 1. */
  function HexColor(hexValue: bv32): (c: Rgba)
    ensures 0.0 <= c.red <= 1.0 && 0.0 <= c.green <= 1.0 && 0.0 <= c.blue <= 1.0
    ensures c.alpha == 1.0
    ensures c.red * 255.0 == RedChannel(hexValue) as int as real
    ensures c.green * 255.0 == GreenChannel(hexValue) as int as real
    ensures c.blue * 255.0 == BlueChannel(hexValue) as int as real
  {
    Rgba(RedChannel(hexValue) as int as real / 255.0, GreenChannel(hexValue) as int as real / 255.0,
         BlueChannel(hexValue) as int as real / 255.0, 1.0)
  }
}
