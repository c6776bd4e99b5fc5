/**
 * The button token tables of ButtonTokens.swift. Each token reads
 * `override?(style, size) ?? default(style, size)`, where the default is an
 * exhaustive table over the five styles and three sizes. The global and alias
 * tokens the tables name are kept as names: their numeric and colour values are
 * not part of this model.
 */
module Button {
  import opened Wrappers

  datatype ButtonStyle = Primary | Secondary | Ghost | AccentFloating | SubtleFloating
  {
    /** `isFloatingStyle`. */
    predicate IsFloatingStyle() {
      this == AccentFloating || this == SubtleFloating
    }
  }

  datatype ButtonSize = Small | Medium | Large

  /** Global tokens used by the tables, by name. */
  datatype BorderRadiusToken = LargeRadius | XLargeRadius
  datatype BorderSizeToken = NoBorder | ThinBorder
  datatype IconSizeToken = XSmallIcon | SmallIcon | MediumIcon
  datatype SpacingToken = XXSmallSpacing | XSmallSpacing | SmallSpacing | MediumSpacing | LargeSpacing

  /** A `CGFloat` token: a named global token, or any value an override supplies. */
  datatype Dimension =
    | BorderRadius(radius: BorderRadiusToken)
    | BorderSize(border: BorderSizeToken)
    | IconSize(icon: IconSizeToken)
    | Spacing(spacing: SpacingToken)
    | Points(points: real)

  /** Alias typography tokens used by the tables. */
  datatype TypographyToken = Caption1Strong | Body1Strong | Body2Strong

  /** A `FontInfo`: a named alias typography token, or a custom font from an override. */
  datatype FontInfo = Typography(typography: TypographyToken) | CustomFont(fontName: string)

  /** Alias foreground and background colour tokens used by the tables. */
  datatype ForegroundColorToken =
    | NeutralInverted | Neutral3 | NeutralDisabled
    | BrandRestFg | BrandHoverFg | BrandPressedFg | BrandSelectedFg | BrandDisabledFg
  datatype BackgroundColorToken =
    | Neutral1 | Neutral5
    | BrandRestBg | BrandHoverBg | BrandPressedBg | BrandSelectedBg | BrandDisabledBg

  /** A `DynamicColor`: an alias colour, `ColorValue.clear`, or a custom colour from an override. */
  datatype DynamicColor =
    | Foreground(foreground: ForegroundColorToken)
    | Background(background: BackgroundColorToken)
    | Clear
    | CustomColor(colorName: string)

  /** `ButtonDynamicColors`: one colour per interaction state. */
  datatype ButtonDynamicColors = ButtonDynamicColors(rest: DynamicColor, hover: DynamicColor, pressed: DynamicColor,
                                                     selected: DynamicColor, disabled: DynamicColor)

  /** Alias elevation tokens used by the tables. */
  datatype ElevationToken = InteractiveElevation1Rest | InteractiveElevation1Pressed

  /** A `ShadowInfo`: a named alias elevation, or a custom shadow from an override. */
  datatype ShadowInfo = Elevation(elevation: ElevationToken) | CustomShadow(shadowName: string)

  /** The same colour in all five states. */
  function Uniform(c: DynamicColor): ButtonDynamicColors
  {
    ButtonDynamicColors(c, c, c, c, c)
  }

  const BrandForeground := ButtonDynamicColors(Foreground(BrandRestFg), Foreground(BrandHoverFg), Foreground(BrandPressedFg),
                                               Foreground(BrandSelectedFg), Foreground(BrandDisabledFg))
  const BrandBackground := ButtonDynamicColors(Background(BrandRestBg), Background(BrandHoverBg), Background(BrandPressedBg),
                                               Background(BrandSelectedBg), Background(BrandDisabledBg))
  const SubtleForeground := ButtonDynamicColors(Foreground(Neutral3), Foreground(Neutral3), Foreground(Neutral3),
                                                Foreground(BrandRestFg), Foreground(NeutralDisabled))

  // ----- Default tables -----

  function DefaultBorderRadius(style: ButtonStyle, size: ButtonSize): Dimension
  {
    match size
    case Small | Medium => BorderRadius(LargeRadius)
    case Large => BorderRadius(XLargeRadius)
  }

  function DefaultBorderSize(style: ButtonStyle, size: ButtonSize): Dimension
  {
    match style
    case Primary | Ghost | AccentFloating | SubtleFloating => BorderSize(NoBorder)
    case Secondary => BorderSize(ThinBorder)
  }

  function DefaultIconSize(style: ButtonStyle, size: ButtonSize): Dimension
  {
    match style
    case Primary | Secondary | Ghost =>
      (match size
       case Small => IconSize(XSmallIcon)
       case Medium | Large => IconSize(SmallIcon))
    case AccentFloating | SubtleFloating => IconSize(MediumIcon)
  }

  function DefaultInterspace(style: ButtonStyle, size: ButtonSize): Dimension
  {
    match style
    case Primary | Secondary | Ghost =>
      (match size
       case Small => Spacing(XXSmallSpacing)
       case Medium | Large => Spacing(XSmallSpacing))
    case AccentFloating | SubtleFloating => Spacing(XSmallSpacing)
  }

  function DefaultPadding(style: ButtonStyle, size: ButtonSize): Dimension
  {
    match style
    case Primary | Secondary | Ghost =>
      (match size
       case Small => Spacing(XSmallSpacing)
       case Medium => Spacing(SmallSpacing)
       case Large => Spacing(LargeSpacing))
    case AccentFloating =>
      (match size
       case Small | Medium => Spacing(SmallSpacing)
       case Large => Spacing(MediumSpacing))
    case SubtleFloating =>
      (match size
       case Small | Medium => Spacing(SmallSpacing)
       case Large => Spacing(MediumSpacing))
  }

  function DefaultTextFont(style: ButtonStyle, size: ButtonSize): FontInfo
  {
    match style
    case Primary | Secondary | Ghost =>
      (match size
       case Small | Medium => Typography(Caption1Strong)
       case Large => Typography(Body1Strong))
    case AccentFloating =>
      (match size
       case Small | Medium => Typography(Body2Strong)
       case Large => Typography(Body1Strong))
    case SubtleFloating =>
      (match size
       case Small | Medium => Typography(Body2Strong)
       case Large => Typography(Body1Strong))
  }

  function DefaultTextMinimumHeight(style: ButtonStyle, size: ButtonSize): Dimension
  {
    IconSize(MediumIcon)
  }

  function DefaultTextAdditionalHorizontalPadding(style: ButtonStyle, size: ButtonSize): Dimension
  {
    match size
    case Small | Medium => Spacing(XSmallSpacing)
    case Large => Spacing(XXSmallSpacing)
  }

  function DefaultTextColor(style: ButtonStyle, size: ButtonSize): ButtonDynamicColors
  {
    match style
    case Primary | AccentFloating => Uniform(Foreground(NeutralInverted))
    case SubtleFloating => SubtleForeground
    case Secondary | Ghost => BrandForeground
  }

  function DefaultBorderColor(style: ButtonStyle, size: ButtonSize): ButtonDynamicColors
  {
    match style
    case Primary => BrandBackground
    case Secondary | AccentFloating | SubtleFloating => BrandBackground
    case Ghost => Uniform(Clear)
  }

  function DefaultBackgroundColor(style: ButtonStyle, size: ButtonSize): ButtonDynamicColors
  {
    match style
    case Primary | AccentFloating => BrandBackground
    case Secondary | Ghost => Uniform(Clear)
    case SubtleFloating =>
      ButtonDynamicColors(Background(Neutral1), Background(Neutral1), Background(Neutral5),
                          Background(Neutral1), Background(Neutral1))
  }

  function DefaultIconColor(style: ButtonStyle, size: ButtonSize): ButtonDynamicColors
  {
    match style
    case Primary | AccentFloating => Uniform(Foreground(NeutralInverted))
    case Secondary | Ghost => BrandForeground
    case SubtleFloating => SubtleForeground
  }

  function DefaultRestShadow(style: ButtonStyle, size: ButtonSize): ShadowInfo
  {
    Elevation(InteractiveElevation1Rest)
  }

  function DefaultPressedShadow(style: ButtonStyle, size: ButtonSize): ShadowInfo
  {
    Elevation(InteractiveElevation1Pressed)
  }

  // ----- Properties of the tables -----

  /** `isFloatingStyle` holds exactly for the two floating styles. */
  lemma FloatingStyles(style: ButtonStyle)
    ensures style.IsFloatingStyle() <==> style in {AccentFloating, SubtleFloating}
  {
  }

  /** The default border radius depends only on the size: `large` for small and medium, `xLarge` for large. */
  lemma BorderRadiusBySizeOnly(a: ButtonStyle, b: ButtonStyle, size: ButtonSize)
    ensures DefaultBorderRadius(a, size) == DefaultBorderRadius(b, size)
    ensures DefaultBorderRadius(a, size) == BorderRadius(if size == Large then XLargeRadius else LargeRadius)
  {
  }

  /** The default border is `thin` exactly for the secondary style and `none` otherwise. */
  lemma BorderOnlyForSecondary(style: ButtonStyle, size: ButtonSize)
    ensures DefaultBorderSize(style, size) == BorderSize(ThinBorder) <==> style == Secondary
    ensures style != Secondary ==> DefaultBorderSize(style, size) == BorderSize(NoBorder)
  {
  }

  /** Floating buttons use the medium icon at every size; the others `xSmall` when small and `small` otherwise. */
  lemma IconSizeRule(style: ButtonStyle, size: ButtonSize)
    ensures style.IsFloatingStyle() ==> DefaultIconSize(style, size) == IconSize(MediumIcon)
    ensures !style.IsFloatingStyle() ==>
              DefaultIconSize(style, size) == IconSize(if size == Small then XSmallIcon else SmallIcon)
  {
  }

  /** The two floating styles share their default padding and text font at every size. */
  lemma FloatingStylesShareLayout(size: ButtonSize)
    ensures DefaultPadding(AccentFloating, size) == DefaultPadding(SubtleFloating, size)
    ensures DefaultTextFont(AccentFloating, size) == DefaultTextFont(SubtleFloating, size)
  {
  }

  /** The default text and icon colours agree for every style and size. */
  lemma TextColorIsIconColor(style: ButtonStyle, size: ButtonSize)
    ensures DefaultTextColor(style, size) == DefaultIconColor(style, size)
  {
  }

  /** The border colour of every style but ghost is the brand background; ghost has a clear border. */
  lemma BorderColorRule(style: ButtonStyle, size: ButtonSize)
    ensures style != Ghost ==> DefaultBorderColor(style, size) == BrandBackground
    ensures style == Ghost ==> DefaultBorderColor(style, size) == Uniform(Clear)
  {
  }

  /** The default minimum text height and the two shadows ignore style and size. */
  lemma StyleAndSizeIndependentDefaults(a: ButtonStyle, b: ButtonStyle, sa: ButtonSize, sb: ButtonSize)
    ensures DefaultTextMinimumHeight(a, sa) == DefaultTextMinimumHeight(b, sb)
    ensures DefaultRestShadow(a, sa) == DefaultRestShadow(b, sb)
    ensures DefaultPressedShadow(a, sa) == DefaultPressedShadow(b, sb)
  {
  }

  /** `override?(style, size) ?? default`. */
  function OverrideOr<T>(override: Option<(ButtonStyle, ButtonSize) -> T>, style: ButtonStyle, size: ButtonSize,
                         default: T): T
  {
    match override
    case Some(f) => f(style, size)
    case None => default
  }

  /** `ButtonTokens`: the style and size are fixed; each token's override closure is a mutable field. */
  class ButtonTokens {
    const style: ButtonStyle
    const size: ButtonSize

    var borderRadiusOverride: Option<(ButtonStyle, ButtonSize) -> Dimension>
    var borderSizeOverride: Option<(ButtonStyle, ButtonSize) -> Dimension>
    var iconSizeOverride: Option<(ButtonStyle, ButtonSize) -> Dimension>
    var interspaceOverride: Option<(ButtonStyle, ButtonSize) -> Dimension>
    var paddingOverride: Option<(ButtonStyle, ButtonSize) -> Dimension>
    var textFontOverride: Option<(ButtonStyle, ButtonSize) -> FontInfo>
    var textMinimumHeightOverride: Option<(ButtonStyle, ButtonSize) -> Dimension>
    var textAdditionalHorizontalPaddingOverride: Option<(ButtonStyle, ButtonSize) -> Dimension>
    var textColorOverride: Option<(ButtonStyle, ButtonSize) -> ButtonDynamicColors>
    var borderColorOverride: Option<(ButtonStyle, ButtonSize) -> ButtonDynamicColors>
    var backgroundColorOverride: Option<(ButtonStyle, ButtonSize) -> ButtonDynamicColors>
    var iconColorOverride: Option<(ButtonStyle, ButtonSize) -> ButtonDynamicColors>
    var restShadowOverride: Option<(ButtonStyle, ButtonSize) -> ShadowInfo>
    var pressedShadowOverride: Option<(ButtonStyle, ButtonSize) -> ShadowInfo>

    /** No token is overridden. */
    ghost predicate NoOverrides()
      reads this
    {
      && borderRadiusOverride.None? && borderSizeOverride.None? && iconSizeOverride.None?
      && interspaceOverride.None? && paddingOverride.None? && textFontOverride.None?
      && textMinimumHeightOverride.None? && textAdditionalHorizontalPaddingOverride.None?
      && textColorOverride.None? && borderColorOverride.None? && backgroundColorOverride.None?
      && iconColorOverride.None? && restShadowOverride.None? && pressedShadowOverride.None?
    }

    /** `init(style:size:)`: no overrides. */
    constructor Init(style: ButtonStyle, size: ButtonSize)
      ensures this.style == style && this.size == size
      ensures NoOverrides()
    {
      this.style := style;
      this.size := size;
      borderRadiusOverride, borderSizeOverride, iconSizeOverride := None, None, None;
      interspaceOverride, paddingOverride, textFontOverride := None, None, None;
      textMinimumHeightOverride, textAdditionalHorizontalPaddingOverride := None, None;
      textColorOverride, borderColorOverride, backgroundColorOverride, iconColorOverride := None, None, None, None;
      restShadowOverride, pressedShadowOverride := None, None;
    }

    /** The convenience initialiser: exactly the overrides passed as non-nil are set. */
    constructor (style: ButtonStyle, size: ButtonSize,
                 borderRadius: Option<(ButtonStyle, ButtonSize) -> Dimension>,
                 borderSize: Option<(ButtonStyle, ButtonSize) -> Dimension>,
                 iconSize: Option<(ButtonStyle, ButtonSize) -> Dimension>,
                 interspace: Option<(ButtonStyle, ButtonSize) -> Dimension>,
                 padding: Option<(ButtonStyle, ButtonSize) -> Dimension>,
                 textFont: Option<(ButtonStyle, ButtonSize) -> FontInfo>,
                 textMinimumHeight: Option<(ButtonStyle, ButtonSize) -> Dimension>,
                 textAdditionalHorizontalPadding: Option<(ButtonStyle, ButtonSize) -> Dimension>,
                 textColor: Option<(ButtonStyle, ButtonSize) -> ButtonDynamicColors>,
                 borderColor: Option<(ButtonStyle, ButtonSize) -> ButtonDynamicColors>,
                 backgroundColor: Option<(ButtonStyle, ButtonSize) -> ButtonDynamicColors>,
                 iconColor: Option<(ButtonStyle, ButtonSize) -> ButtonDynamicColors>,
                 restShadow: Option<(ButtonStyle, ButtonSize) -> ShadowInfo>,
                 pressedShadow: Option<(ButtonStyle, ButtonSize) -> ShadowInfo>)
      ensures this.style == style && this.size == size
      ensures borderRadiusOverride == borderRadius && borderSizeOverride == borderSize
      ensures iconSizeOverride == iconSize && interspaceOverride == interspace
      ensures paddingOverride == padding && textFontOverride == textFont
      ensures textMinimumHeightOverride == textMinimumHeight
      ensures textAdditionalHorizontalPaddingOverride == textAdditionalHorizontalPadding
      ensures textColorOverride == textColor && borderColorOverride == borderColor
      ensures backgroundColorOverride == backgroundColor && iconColorOverride == iconColor
      ensures restShadowOverride == restShadow && pressedShadowOverride == pressedShadow
    {
      this.style := style;
      this.size := size;
      // The designated initialiser leaves every override nil, and each non-nil argument then
      // replaces its nil (`if let x = x { xOverride = x }`): the override becomes `x.OrElse(None)`.
      borderRadiusOverride := borderRadius.OrElse(None);
      borderSizeOverride := borderSize.OrElse(None);
      iconSizeOverride := iconSize.OrElse(None);
      interspaceOverride := interspace.OrElse(None);
      paddingOverride := padding.OrElse(None);
      textFontOverride := textFont.OrElse(None);
      textMinimumHeightOverride := textMinimumHeight.OrElse(None);
      textAdditionalHorizontalPaddingOverride := textAdditionalHorizontalPadding.OrElse(None);
      textColorOverride := textColor.OrElse(None);
      borderColorOverride := borderColor.OrElse(None);
      backgroundColorOverride := backgroundColor.OrElse(None);
      iconColorOverride := iconColor.OrElse(None);
      restShadowOverride := restShadow.OrElse(None);
      pressedShadowOverride := pressedShadow.OrElse(None);
    }

    // ----- Token getters -----

    function BorderRadius(): (r: Dimension)
      reads this
    {
      OverrideOr(borderRadiusOverride, style, size, DefaultBorderRadius(style, size))
    }

    function BorderSize(): (r: Dimension)
      reads this
    {
      OverrideOr(borderSizeOverride, style, size, DefaultBorderSize(style, size))
    }

    function IconSize(): (r: Dimension)
      reads this
    {
      OverrideOr(iconSizeOverride, style, size, DefaultIconSize(style, size))
    }

    function Interspace(): (r: Dimension)
      reads this
    {
      OverrideOr(interspaceOverride, style, size, DefaultInterspace(style, size))
    }

    function Padding(): (r: Dimension)
      reads this
    {
      OverrideOr(paddingOverride, style, size, DefaultPadding(style, size))
    }

    function TextFont(): (r: FontInfo)
      reads this
    {
      OverrideOr(textFontOverride, style, size, DefaultTextFont(style, size))
    }

    function TextMinimumHeight(): (r: Dimension)
      reads this
    {
      OverrideOr(textMinimumHeightOverride, style, size, DefaultTextMinimumHeight(style, size))
    }

    function TextAdditionalHorizontalPadding(): (r: Dimension)
      reads this
    {
      OverrideOr(textAdditionalHorizontalPaddingOverride, style, size, DefaultTextAdditionalHorizontalPadding(style, size))
    }

    function TextColor(): (r: ButtonDynamicColors)
      reads this
    {
      OverrideOr(textColorOverride, style, size, DefaultTextColor(style, size))
    }

    function BorderColor(): (r: ButtonDynamicColors)
      reads this
    {
      OverrideOr(borderColorOverride, style, size, DefaultBorderColor(style, size))
    }

    function BackgroundColor(): (r: ButtonDynamicColors)
      reads this
    {
      OverrideOr(backgroundColorOverride, style, size, DefaultBackgroundColor(style, size))
    }

    function IconColor(): (r: ButtonDynamicColors)
      reads this
    {
      OverrideOr(iconColorOverride, style, size, DefaultIconColor(style, size))
    }

    function RestShadow(): (r: ShadowInfo)
      reads this
    {
      OverrideOr(restShadowOverride, style, size, DefaultRestShadow(style, size))
    }

    function PressedShadow(): (r: ShadowInfo)
      reads this
    {
      OverrideOr(pressedShadowOverride, style, size, DefaultPressedShadow(style, size))
    }

    /**
     * Every token getter reads the override closure applied to this style and size
     * when the override is set, and its default table entry otherwise.
     */
    lemma GettersReadOverrideOrDefault()
      ensures BorderRadius() == if borderRadiusOverride.Some? then borderRadiusOverride.value(style, size)
                                else DefaultBorderRadius(style, size)
      ensures BorderSize() == if borderSizeOverride.Some? then borderSizeOverride.value(style, size)
                              else DefaultBorderSize(style, size)
      ensures IconSize() == if iconSizeOverride.Some? then iconSizeOverride.value(style, size)
                            else DefaultIconSize(style, size)
      ensures Interspace() == if interspaceOverride.Some? then interspaceOverride.value(style, size)
                              else DefaultInterspace(style, size)
      ensures Padding() == if paddingOverride.Some? then paddingOverride.value(style, size)
                           else DefaultPadding(style, size)
      ensures TextFont() == if textFontOverride.Some? then textFontOverride.value(style, size)
                            else DefaultTextFont(style, size)
      ensures TextMinimumHeight() == if textMinimumHeightOverride.Some? then textMinimumHeightOverride.value(style, size)
                                     else DefaultTextMinimumHeight(style, size)
      ensures TextAdditionalHorizontalPadding() ==
              if textAdditionalHorizontalPaddingOverride.Some? then textAdditionalHorizontalPaddingOverride.value(style, size)
              else DefaultTextAdditionalHorizontalPadding(style, size)
      ensures TextColor() == if textColorOverride.Some? then textColorOverride.value(style, size)
                             else DefaultTextColor(style, size)
      ensures BorderColor() == if borderColorOverride.Some? then borderColorOverride.value(style, size)
                               else DefaultBorderColor(style, size)
      ensures BackgroundColor() == if backgroundColorOverride.Some? then backgroundColorOverride.value(style, size)
                                   else DefaultBackgroundColor(style, size)
      ensures IconColor() == if iconColorOverride.Some? then iconColorOverride.value(style, size)
                             else DefaultIconColor(style, size)
      ensures RestShadow() == if restShadowOverride.Some? then restShadowOverride.value(style, size)
                              else DefaultRestShadow(style, size)
      ensures PressedShadow() == if pressedShadowOverride.Some? then pressedShadowOverride.value(style, size)
                                 else DefaultPressedShadow(style, size)
    {
    }

    /** A token set built without overrides reads its default table entry for every token. */
    lemma DefaultsWithoutOverrides()
      requires NoOverrides()
      ensures BorderRadius() == DefaultBorderRadius(style, size) && BorderSize() == DefaultBorderSize(style, size)
      ensures IconSize() == DefaultIconSize(style, size) && Interspace() == DefaultInterspace(style, size)
      ensures Padding() == DefaultPadding(style, size) && TextFont() == DefaultTextFont(style, size)
      ensures TextMinimumHeight() == DefaultTextMinimumHeight(style, size)
      ensures TextAdditionalHorizontalPadding() == DefaultTextAdditionalHorizontalPadding(style, size)
      ensures TextColor() == DefaultTextColor(style, size) && BorderColor() == DefaultBorderColor(style, size)
      ensures BackgroundColor() == DefaultBackgroundColor(style, size) && IconColor() == DefaultIconColor(style, size)
      ensures RestShadow() == DefaultRestShadow(style, size) && PressedShadow() == DefaultPressedShadow(style, size)
    {
    }
  }
}
