/**
 * The pill button of SegmentPillButton.swift. Property observers keep the unread
 * dot layer attached exactly while `isUnreadDotVisible` is true; selecting the
 * button marks its item read; `updateUnreadDot` syncs the dot with the item and
 * places it beside the title, mirrored for right-to-left layout. Geometry is
 * `real` arithmetic.
 */
module SegmentedControl {
  import opened Wrappers

  datatype LayoutDirection = LeftToRight | RightToLeft

  /** A `CGRect`; `MinX`/`MaxX`/`MinY` follow CGRect, which standardises negative sizes. */
  datatype Rect = Rect(x: real, y: real, width: real, height: real)
  {
    function MinX(): real { if width >= 0.0 then x else x + width }
    function MaxX(): real { if width >= 0.0 then x + width else x }
    function MinY(): real { if height >= 0.0 then y else y + height }
  }

  const ZeroRect := Rect(0.0, 0.0, 0.0, 0.0)

  datatype Point = Point(x: real, y: real)

  datatype EdgeInsets = EdgeInsets(top: real, left: real, bottom: real, right: real)

  /** The colour tokens of the dot, by name. */
  datatype DotColor = EnabledUnreadDotColor | DisabledUnreadDotColor

  /** The values the segmented control's `tokenValue` yields for the tokens the button reads. */
  datatype PillTokens = PillTokens(
    font: string,
    verticalInset: real,
    horizontalInset: real,
    unreadDotSize: real,
    unreadDotOffsetX: real,
    unreadDotOffsetY: real)

  /** The `unreadDotLayer` shape: its bounds size and corner radius. */
  datatype LayerShape = LayerShape(width: real, height: real, cornerRadius: real)

  /** The dot layer is a circle: a `dotSize` square whose corner radius is half its side. */
  function UnreadDotShape(dotSize: real): (shape: LayerShape)
    ensures shape.width == shape.height == dotSize
    ensures shape.cornerRadius * 2.0 == shape.width
  {
    LayerShape(dotSize, dotSize, dotSize / 2.0)
  }

  /**
   * The dot's x position: past the title's trailing edge by `offsetX`. Left to right
   * the dot's left edge is `offsetX` right of the title's maxX; right to left the
   * dot's right edge is `offsetX` left of the title's minX.
   */
  function UnreadDotX(anchor: Rect, direction: LayoutDirection, offsetX: real, dotSize: real): (x: real)
    ensures direction == LeftToRight ==> x - anchor.MaxX() == offsetX
    ensures direction == RightToLeft ==> anchor.MinX() - (x + dotSize) == offsetX
  {
    if direction == LeftToRight then anchor.MaxX() + offsetX
    else anchor.MinX() - offsetX - dotSize
  }

  /** Mirroring: the gap to the title is the same in both layout directions. */
  lemma UnreadDotMirrored(anchor: Rect, offsetX: real, dotSize: real)
    ensures UnreadDotX(anchor, LeftToRight, offsetX, dotSize) - anchor.MaxX()
            == anchor.MinX() - (UnreadDotX(anchor, RightToLeft, offsetX, dotSize) + dotSize)
  {
  }

  /** The content insets: symmetric, vertical inset at top and bottom, horizontal inset at left and right. */
  function ContentInsets(tokens: PillTokens): (insets: EdgeInsets)
    ensures insets.top == insets.bottom == tokens.verticalInset
    ensures insets.left == insets.right == tokens.horizontalInset
  {
    EdgeInsets(tokens.verticalInset, tokens.horizontalInset, tokens.verticalInset, tokens.horizontalInset)
  }

  /** A `SegmentItem`: only its unread flag is modelled. */
  class SegmentItem {
    var isUnread: bool

    constructor (isUnread: bool)
      ensures this.isUnread == isUnread
    {
      this.isUnread := isUnread;
    }
  }

  class SegmentPillButton {
    const item: SegmentItem
    /** Token values read through the segmented control, fixed for the button's lifetime. */
    const tokens: PillTokens

    var isUnreadDotVisible: bool
    var isSelected: bool
    var isEnabled: bool
    var layoutDirection: LayoutDirection
    /** The title label's frame; nil when there is no title label. */
    var titleFrame: Option<Rect>

    /** Whether `unreadDotLayer` is a sublayer of the button's layer. */
    var unreadDotAttached: bool
    var unreadDotOrigin: Point
    var unreadDotColor: DotColor

    var titleFont: string
    var contentEdgeInsets: EdgeInsets
    var needsLayout: bool

    /** The dot layer is attached exactly while the dot is visible. */
    ghost predicate Valid()
      reads this
    {
      unreadDotAttached == isUnreadDotVisible
    }

    /** `init(withItem:segmentedControl:)`: the dot starts hidden and detached, then the tokenized values are applied. */
    constructor (item: SegmentItem, tokens: PillTokens, layoutDirection: LayoutDirection, titleFrame: Option<Rect>)
      ensures Valid()
      ensures this.item == item && this.tokens == tokens
      ensures !isUnreadDotVisible && !isSelected && isEnabled && !needsLayout
      ensures this.layoutDirection == layoutDirection && this.titleFrame == titleFrame
      ensures contentEdgeInsets == ContentInsets(tokens) && titleFont == tokens.font
    {
      this.item := item;
      this.tokens := tokens;
      isUnreadDotVisible := false;
      isSelected := false;
      isEnabled := true;
      this.layoutDirection := layoutDirection;
      this.titleFrame := titleFrame;
      unreadDotAttached := false;
      unreadDotOrigin := Point(0.0, 0.0);
      unreadDotColor := EnabledUnreadDotColor;
      titleFont := "";
      contentEdgeInsets := EdgeInsets(0.0, 0.0, 0.0, 0.0);
      needsLayout := false;
      new;
      UpdateTokenizedValues();
    }

    /** The size and corner radius `unreadDotLayer` is created with. */
    function UnreadDotLayerShape(): (shape: LayerShape)
      ensures shape.width == shape.height == tokens.unreadDotSize
      ensures shape.cornerRadius * 2.0 == tokens.unreadDotSize
    {
      UnreadDotShape(tokens.unreadDotSize)
    }

    /** `updateTokenizedValues`: the title font and symmetric content insets. */
    method UpdateTokenizedValues()
      modifies this`titleFont, this`contentEdgeInsets
      ensures titleFont == tokens.font
      ensures contentEdgeInsets == ContentInsets(tokens)
    {
      titleFont := tokens.font;
      contentEdgeInsets := EdgeInsets(tokens.verticalInset, tokens.horizontalInset,
                                      tokens.verticalInset, tokens.horizontalInset);
    }

    /**
     * Assigning `isUnreadDotVisible`: its observer attaches the layer on false to
     * true, detaches it on true to false, and does nothing when the value is unchanged.
     */
    method SetUnreadDotVisible(visible: bool)
      modifies this`isUnreadDotVisible, this`unreadDotAttached
      ensures isUnreadDotVisible == visible
      ensures unreadDotAttached == if old(isUnreadDotVisible) != visible then visible else old(unreadDotAttached)
      ensures old(Valid()) ==> Valid()
    {
      var oldValue := isUnreadDotVisible;
      isUnreadDotVisible := visible;
      if oldValue != isUnreadDotVisible {
        if isUnreadDotVisible {
          unreadDotAttached := true;
        } else {
          unreadDotAttached := false;
        }
      }
    }

    /**
     * Where `updateUnreadDot` puts a visible dot: beside the title (the zero rect when
     * there is no title label), mirrored by layout direction, offset Y below its minY.
     */
    function PlacedDotOrigin(): (origin: Point)
      reads this
      ensures var anchor := titleFrame.GetOr(ZeroRect);
              && origin.x == UnreadDotX(anchor, layoutDirection, tokens.unreadDotOffsetX, tokens.unreadDotSize)
              && origin.y - anchor.MinY() == tokens.unreadDotOffsetY
    {
      var anchor := titleFrame.GetOr(ZeroRect);
      Point(UnreadDotX(anchor, layoutDirection, tokens.unreadDotOffsetX, tokens.unreadDotSize),
            anchor.MinY() + tokens.unreadDotOffsetY)
    }

    /** The colour `updateUnreadDot` gives a visible dot: the enabled token exactly when the button is enabled. */
    function PlacedDotColor(): (color: DotColor)
      reads this
      ensures color == EnabledUnreadDotColor <==> isEnabled
    {
      if isEnabled then EnabledUnreadDotColor else DisabledUnreadDotColor
    }

    /**
     * `updateUnreadDot`: the dot's visibility follows the item; while visible, the
     * dot is placed beside the title (the zero rect when there is no title label)
     * and coloured by the enabled state.
     */
    method UpdateUnreadDot()
      requires Valid()
      modifies this`isUnreadDotVisible, this`unreadDotAttached, this`unreadDotOrigin, this`unreadDotColor
      ensures Valid()
      ensures isUnreadDotVisible == item.isUnread
      ensures item.isUnread ==> unreadDotOrigin == PlacedDotOrigin() && unreadDotColor == PlacedDotColor()
      ensures !item.isUnread ==> unreadDotOrigin == old(unreadDotOrigin) && unreadDotColor == old(unreadDotColor)
    {
      SetUnreadDotVisible(item.isUnread);
      if isUnreadDotVisible {
        var anchor := if titleFrame.Some? then titleFrame.value else ZeroRect;
        var xPos: real;
        if layoutDirection == LeftToRight {
          xPos := anchor.MaxX() + tokens.unreadDotOffsetX;
        } else {
          xPos := anchor.MinX() - tokens.unreadDotOffsetX - tokens.unreadDotSize;
        }
        unreadDotOrigin := Point(xPos, anchor.MinY() + tokens.unreadDotOffsetY);
        unreadDotColor := if isEnabled then EnabledUnreadDotColor else DisabledUnreadDotColor;
      }
    }

    /**
     * Assigning `isSelected`: a change from false to true marks the item read and
     * hides the dot; deselecting, or assigning the current value, leaves the item alone.
     */
    method SetSelected(selected: bool)
      requires Valid()
      modifies this`isSelected, this`isUnreadDotVisible, this`unreadDotAttached, this`unreadDotOrigin, this`unreadDotColor, item
      ensures Valid()
      ensures isSelected == selected
      ensures !old(isSelected) && selected ==> !item.isUnread && !isUnreadDotVisible && !unreadDotAttached
      ensures !(!old(isSelected) && selected) ==>
                item.isUnread == old(item.isUnread) && isUnreadDotVisible == old(isUnreadDotVisible)
      ensures unreadDotOrigin == old(unreadDotOrigin) && unreadDotColor == old(unreadDotColor)
    {
      var oldValue := isSelected;
      isSelected := selected;
      if oldValue != isSelected && isSelected {
        item.isUnread := false;
        UpdateUnreadDot();
      }
    }

    /** `isUnreadValueDidChange`: the dot follows the item and a layout pass is requested. */
    method IsUnreadValueDidChange()
      requires Valid()
      modifies this`isUnreadDotVisible, this`unreadDotAttached, this`needsLayout
      ensures Valid()
      ensures isUnreadDotVisible == item.isUnread
      ensures needsLayout
    {
      SetUnreadDotVisible(item.isUnread);
      needsLayout := true;
    }

    /** `layoutSubviews`: re-runs `updateUnreadDot`, which places and colours a visible dot. */
    method LayoutSubviews()
      requires Valid()
      modifies this`isUnreadDotVisible, this`unreadDotAttached, this`unreadDotOrigin, this`unreadDotColor
      ensures Valid()
      ensures isUnreadDotVisible == item.isUnread
      ensures item.isUnread ==> unreadDotOrigin == PlacedDotOrigin() && unreadDotColor == PlacedDotColor()
      ensures !item.isUnread ==> unreadDotOrigin == old(unreadDotOrigin) && unreadDotColor == old(unreadDotColor)
    {
      UpdateUnreadDot();
    }
  }
}
