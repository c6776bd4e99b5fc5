/**
 * The shimmer modifier of ShimmerView.swift. When shimmering, the content is masked
 * by a three-stop gradient band whose position is `phase`; optionally a tinted
 * rounded cover is laid over it. On appear, `phase` jumps to its end value (the
 * animation in between is not modelled) unless reduce motion is on. Views are
 * modelled as a datatype describing what is drawn; geometry is `real` arithmetic.
 */
module ShimmerView {

  datatype ShimmerStyle = Concealing | Revealing

  /** The shimmer tokens the modifier reads. */
  datatype ShimmerTokens = ShimmerTokens(
    shimmerWidth: real,
    cornerRadius: real,
    labelCornerRadius: real,
    labelHeight: real)

  datatype Size = Size(width: real, height: real)

  /** The two gradient colours: `light` is white at the shimmer alpha, `dark` the dark gradient colour. */
  datatype StopColor = LightStop | DarkStop

  datatype GradientStop = GradientStop(color: StopColor, location: real)

  /** The tinted rounded rectangle laid over the content, masked by the gradient. */
  datatype Cover = Cover(cornerRadius: real, width: real, height: real, mask: seq<GradientStop>)

  /** What the modifier draws around its content. */
  datatype Rendered<V> =
    | Plain(content: V)
    | Masked(content: V, mask: seq<GradientStop>)
    | Covered(content: V, cover: Cover)

  /** The gradient band's width as a fraction of the content width. */
  function WidthFraction(shimmerWidth: real, contentWidth: real): real
    requires contentWidth != 0.0
  {
    shimmerWidth / contentWidth
  }

  /**
   * `GradientMask.body`: three stops at `phase - w`, `phase - w/2` and `phase`;
   * concealing is light, dark, light and revealing dark, light, dark.
   */
  function GradientStops(style: ShimmerStyle, tokens: ShimmerTokens, contentWidth: real, phase: real): (stops: seq<GradientStop>)
    requires contentWidth != 0.0
    ensures |stops| == 3
    ensures stops[2].location == phase
    ensures stops[2].location - stops[0].location == WidthFraction(tokens.shimmerWidth, contentWidth)
    ensures stops[1].location * 2.0 == stops[0].location + stops[2].location
    ensures stops[0].color == stops[2].color != stops[1].color
    ensures stops[1].color == DarkStop <==> style == Concealing
    ensures WidthFraction(tokens.shimmerWidth, contentWidth) >= 0.0 ==>
              stops[0].location <= stops[1].location <= stops[2].location
  {
    var widthPercentage := WidthFraction(tokens.shimmerWidth, contentWidth);
    var outer := if style == Concealing then LightStop else DarkStop;
    var middle := if style == Concealing then DarkStop else LightStop;
    [GradientStop(outer, phase - widthPercentage),
     GradientStop(middle, phase - widthPercentage / 2.0),
     GradientStop(outer, phase)]
  }

  /** The two styles draw the same band with the colours swapped. */
  lemma StylesAreComplementary(tokens: ShimmerTokens, contentWidth: real, phase: real, i: nat)
    requires contentWidth != 0.0 && i < 3
    ensures GradientStops(Concealing, tokens, contentWidth, phase)[i].location
            == GradientStops(Revealing, tokens, contentWidth, phase)[i].location
    ensures GradientStops(Concealing, tokens, contentWidth, phase)[i].color
            != GradientStops(Revealing, tokens, contentWidth, phase)[i].color
  {
  }

  /** The cover's corner radius: the label radius for labels when it is not negative, else the general radius. */
  function CoverCornerRadius(tokens: ShimmerTokens, isLabel: bool): (radius: real)
    ensures radius == tokens.labelCornerRadius <== isLabel && tokens.labelCornerRadius >= 0.0
    ensures radius == tokens.cornerRadius <== !(isLabel && tokens.labelCornerRadius >= 0.0)
    ensures tokens.cornerRadius >= 0.0 ==> radius >= 0.0
  {
    if isLabel && tokens.labelCornerRadius >= 0.0 then tokens.labelCornerRadius else tokens.cornerRadius
  }

  /** The cover's height: the label height only for labels that do not use the text height. */
  function CoverHeight(tokens: ShimmerTokens, isLabel: bool, usesTextHeightForLabels: bool, contentSize: Size): (height: real)
    ensures height == tokens.labelHeight <== isLabel && !usesTextHeightForLabels
    ensures height == contentSize.height <== !isLabel || usesTextHeightForLabels
  {
    if !isLabel || usesTextHeightForLabels then contentSize.height else tokens.labelHeight
  }

  /** The animatable modifier's parameters. */
  datatype AnimatedMask = AnimatedMask(
    tokens: ShimmerTokens,
    style: ShimmerStyle,
    shouldAddShimmeringCover: bool,
    usesTextHeightForLabels: bool,
    isLabel: bool,
    phase: real,
    contentSize: Size)

  /** `animatableData`'s getter. */
  function AnimatableData(mask: AnimatedMask): real
  {
    mask.phase
  }

  /** `animatableData`'s setter: writes `phase` and nothing else. */
  function SetAnimatableData(mask: AnimatedMask, value: real): (r: AnimatedMask)
    ensures AnimatableData(r) == value
    ensures r.(phase := mask.phase) == mask
  {
    mask.(phase := value)
  }

  /** Setting the animatable data to what it reads changes nothing. */
  lemma AnimatableDataRoundTrip(mask: AnimatedMask, value: real)
    ensures SetAnimatableData(mask, AnimatableData(mask)) == mask
    ensures SetAnimatableData(SetAnimatableData(mask, value), AnimatableData(mask)) == mask
  {
  }

  /**
   * `AnimatedMask.body`: with the cover, a rounded rectangle as wide as the content
   * is laid over it and masked by the gradient; without it, the content itself is
   * masked.
   */
  function AnimatedMaskBody<V>(mask: AnimatedMask, content: V): (r: Rendered<V>)
    requires mask.contentSize.width != 0.0
    ensures r.Covered? <==> mask.shouldAddShimmeringCover
    ensures r.Masked? <==> !mask.shouldAddShimmeringCover
    ensures r.content == content
    ensures r.Covered? ==>
              && r.cover.width == mask.contentSize.width
              && r.cover.cornerRadius == CoverCornerRadius(mask.tokens, mask.isLabel)
              && r.cover.height == CoverHeight(mask.tokens, mask.isLabel, mask.usesTextHeightForLabels, mask.contentSize)
              && r.cover.mask == GradientStops(mask.style, mask.tokens, mask.contentSize.width, mask.phase)
    ensures r.Masked? ==> r.mask == GradientStops(mask.style, mask.tokens, mask.contentSize.width, mask.phase)
  {
    var gradientMask := GradientStops(mask.style, mask.tokens, mask.contentSize.width, mask.phase);
    if mask.shouldAddShimmeringCover then
      Covered(content, Cover(CoverCornerRadius(mask.tokens, mask.isLabel), mask.contentSize.width,
                             CoverHeight(mask.tokens, mask.isLabel, mask.usesTextHeightForLabels, mask.contentSize),
                             gradientMask))
    else
      Masked(content, gradientMask)
  }

  /** The phase `onAppear` animates to: one full gradient length plus the band width. */
  function PhaseTarget(tokens: ShimmerTokens, contentWidth: real): real
    requires contentWidth != 0.0
  {
    1.0 + tokens.shimmerWidth / contentWidth
  }

  /**
   * The sweep runs the band across the whole gradient: at the initial phase 0 its
   * leading stop is at location 0, and at the target phase its trailing stop is at
   * location 1.
   */
  lemma SweepCrossesGradient(style: ShimmerStyle, tokens: ShimmerTokens, contentWidth: real)
    requires contentWidth != 0.0
    ensures GradientStops(style, tokens, contentWidth, 0.0)[2].location == 0.0
    ensures GradientStops(style, tokens, contentWidth, PhaseTarget(tokens, contentWidth))[0].location == 1.0
  {
  }

  /** The `Shimmer` view modifier and its `@State` fields. */
  class Shimmer {
    const tokens: ShimmerTokens
    const style: ShimmerStyle
    const shouldAddShimmeringCover: bool
    const usesTextHeightForLabels: bool
    /** Whether the content to shimmer is a label. */
    const isLabel: bool
    /** Whether the shimmering effect is active. */
    const isShimmering: bool

    var phase: real
    var contentSize: Size

    /** Memberwise initialisation: `phase` starts at 0 and `contentSize` at zero. */
    constructor (tokens: ShimmerTokens, style: ShimmerStyle, shouldAddShimmeringCover: bool,
                 usesTextHeightForLabels: bool, isLabel: bool, isShimmering: bool)
      ensures this.tokens == tokens && this.style == style
      ensures this.shouldAddShimmeringCover == shouldAddShimmeringCover
      ensures this.usesTextHeightForLabels == usesTextHeightForLabels
      ensures this.isLabel == isLabel && this.isShimmering == isShimmering
      ensures phase == 0.0 && contentSize == Size(0.0, 0.0)
    {
      this.tokens := tokens;
      this.style := style;
      this.shouldAddShimmeringCover := shouldAddShimmeringCover;
      this.usesTextHeightForLabels := usesTextHeightForLabels;
      this.isLabel := isLabel;
      this.isShimmering := isShimmering;
      phase := 0.0;
      contentSize := Size(0.0, 0.0);
    }

    /** Initialisation with the declared defaults: a cover is added and labels do not use the text height. */
    constructor WithDefaults(tokens: ShimmerTokens, style: ShimmerStyle, isLabel: bool, isShimmering: bool)
      ensures this.tokens == tokens && this.style == style
      ensures shouldAddShimmeringCover && !usesTextHeightForLabels
      ensures this.isLabel == isLabel && this.isShimmering == isShimmering
      ensures phase == 0.0 && contentSize == Size(0.0, 0.0)
    {
      this.tokens := tokens;
      this.style := style;
      this.shouldAddShimmeringCover := true;
      this.usesTextHeightForLabels := false;
      this.isLabel := isLabel;
      this.isShimmering := isShimmering;
      phase := 0.0;
      contentSize := Size(0.0, 0.0);
    }

    /** The animated mask built from the current state. */
    function CurrentMask(): AnimatedMask
      reads this
    {
      AnimatedMask(tokens, style, shouldAddShimmeringCover, usesTextHeightForLabels, isLabel, phase, contentSize)
    }

    /** `body(content:)`: the content unmodified when not shimmering, else the animated mask of the current state. */
    function Body<V>(content: V): (r: Rendered<V>)
      reads this
      requires isShimmering ==> contentSize.width != 0.0
      ensures !isShimmering ==> r == Plain(content)
      ensures isShimmering ==> r == AnimatedMaskBody(CurrentMask(), content) && !r.Plain?
      ensures r.content == content
    {
      if isShimmering then AnimatedMaskBody(CurrentMask(), content) else Plain(content)
    }

    /** The `onSizeChange` closure: records the content's new size. */
    method OnSizeChange(newSize: Size)
      modifies this`contentSize
      ensures contentSize == newSize
    {
      contentSize := newSize;
    }

    /** The `onAppear` closure: moves `phase` to its target unless reduce motion is enabled. */
    method OnAppear(isReduceMotionEnabled: bool)
      requires !isReduceMotionEnabled ==> contentSize.width != 0.0
      modifies this`phase
      ensures isReduceMotionEnabled ==> phase == old(phase)
      ensures !isReduceMotionEnabled ==> phase == PhaseTarget(tokens, contentSize.width)
    {
      if !isReduceMotionEnabled {
        phase := 1.0 + (tokens.shimmerWidth / contentSize.width);
      }
    }
  }
}
