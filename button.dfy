/** The button: its style tables, its colour decisions, and the `Button` view
    object whose property observers recompute those decisions.

    Colours are the alias or shared colour token chosen (`Tokens.Paint`);
    sizes in the style tables are the literal points of the source. */
module ButtonModel {
  import opened Tokens

  datatype ButtonStyle =
    | primaryFilled | primaryOutline | dangerFilled | dangerOutline
    | secondaryOutline | tertiaryOutline | borderless

  datatype EdgeInsets = EdgeInsets(top: int, leading: int, bottom: int, trailing: int)

  datatype Font = button1 | button2

  // ---------------------------------------------------------------------------
  // Style tables
  // ---------------------------------------------------------------------------

  /** Default content insets of a style: symmetric top/bottom and leading/trailing,
      wider than tall. */
  function ContentEdgeInsets(s: ButtonStyle): (r: EdgeInsets)
    ensures r.top == r.bottom && r.leading == r.trailing
    ensures 0 < r.top < r.leading
  {
    match s
    case dangerFilled | dangerOutline | primaryFilled | primaryOutline => EdgeInsets(16, 20, 16, 20)
    case secondaryOutline => EdgeInsets(10, 14, 10, 14)
    case borderless => EdgeInsets(7, 12, 7, 12)
    case tertiaryOutline => EdgeInsets(5, 8, 5, 8)
  }

  /** Corner radius: 5 for the tertiary outline, 8 for every other style. */
  function CornerRadius(s: ButtonStyle): (r: int)
    ensures r == 5 <==> s == tertiaryOutline
    ensures r == 5 || r == 8
  {
    match s
    case borderless | dangerFilled | dangerOutline | primaryFilled | primaryOutline | secondaryOutline => 8
    case tertiaryOutline => 5
  }

  predicate IsOutlineStyle(s: ButtonStyle) {
    s == primaryOutline || s == dangerOutline || s == secondaryOutline || s == tertiaryOutline
  }

  /** Exactly the four outline styles draw a border. */
  predicate HasBorders(s: ButtonStyle)
    ensures HasBorders(s) <==> IsOutlineStyle(s)
  {
    match s
    case dangerOutline | primaryOutline | secondaryOutline | tertiaryOutline => true
    case borderless | dangerFilled | primaryFilled => false
  }

  predicate IsDangerStyle(s: ButtonStyle)
    ensures IsDangerStyle(s) <==> s == dangerFilled || s == dangerOutline
  {
    match s
    case dangerFilled | dangerOutline => true
    case borderless | primaryFilled | primaryOutline | secondaryOutline | tertiaryOutline => false
  }

  /** The two filled styles; no filled style draws a border. */
  predicate IsFilledStyle(s: ButtonStyle)
    ensures IsFilledStyle(s) <==> s == dangerFilled || s == primaryFilled
    ensures IsFilledStyle(s) ==> !HasBorders(s)
  {
    match s
    case dangerFilled | primaryFilled => true
    case borderless | dangerOutline | primaryOutline | secondaryOutline | tertiaryOutline => false
  }

  function MinTitleLabelHeight(s: ButtonStyle): (r: int)
    ensures r == 18 <==> s == secondaryOutline || s == tertiaryOutline
    ensures r == 18 || r == 20
  {
    match s
    case borderless | dangerFilled | dangerOutline | primaryFilled | primaryOutline => 20
    case secondaryOutline | tertiaryOutline => 18
  }

  function TitleFont(s: ButtonStyle): (f: Font)
    ensures f == button2 <==> s == secondaryOutline || s == tertiaryOutline
  {
    match s
    case borderless | dangerFilled | dangerOutline | primaryFilled | primaryOutline => button1
    case secondaryOutline | tertiaryOutline => button2
  }

  /** Padding between title and image; zero only for the tertiary outline,
      the one style that never shows an image. */
  function TitleImagePadding(s: ButtonStyle): (r: int)
    ensures r == 0 <==> s == tertiaryOutline
    ensures r == 0 || r == 8 || r == 10
  {
    match s
    case dangerFilled | dangerOutline | primaryFilled | primaryOutline => 10
    case secondaryOutline | borderless => 8
    case tertiaryOutline => 0
  }

  /** The two tables that size the title agree: the smaller font goes with the
      smaller minimum label height, and only the four large-content styles get
      the widest insets and padding. */
  lemma TitleMetricsAgree(s: ButtonStyle)
    ensures TitleFont(s) == button2 <==> MinTitleLabelHeight(s) == 18
    ensures ContentEdgeInsets(s).top == 16 <==> TitleImagePadding(s) == 10
  {
  }

  /** Whether an image is shown: never for the tertiary outline, whose
      title–image padding is zero; otherwise whenever the button has one. */
  predicate IsDisplayingImage(s: ButtonStyle, hasImage: bool)
    ensures IsDisplayingImage(s, hasImage) ==> hasImage && TitleImagePadding(s) > 0
    ensures hasImage && TitleImagePadding(s) > 0 ==> IsDisplayingImage(s, hasImage)
  {
    s != tertiaryOutline && hasImage
  }

  // ---------------------------------------------------------------------------
  // Colour decisions
  // ---------------------------------------------------------------------------

  /** Title/image colour of the normal state. */
  function NormalTitleAndImageColor(s: ButtonStyle): Paint {
    if IsFilledStyle(s) then
      (if IsDangerStyle(s) then Alias(foregroundLightStatic) else Alias(foregroundOnColor))
    else
      (if IsDangerStyle(s) then Shared(dangerForeground2) else Alias(brandForeground1))
  }

  /** Title/image colour of the highlighted state. */
  function HighlightedTitleAndImageColor(s: ButtonStyle): Paint {
    if IsFilledStyle(s) then
      (if IsDangerStyle(s) then Alias(foregroundLightStatic) else Alias(foregroundOnColor))
    else
      (if IsDangerStyle(s) then Shared(dangerForeground2) else Alias(brandStroke1Pressed))
  }

  /** Title/image colour of the disabled state. */
  function DisabledTitleAndImageColor(s: ButtonStyle): Paint {
    if IsFilledStyle(s) then Alias(foregroundOnColor) else Alias(foregroundDisabled1)
  }

  /** The title/image colours of the three control states. */
  datatype StateColors = StateColors(normal: Paint, highlighted: Paint, disabled: Paint)

  /** The three title colours of a style.  Filled and danger styles do not
      react to highlighting; the disabled colour only depends on whether the
      style is filled; and the normal colour alone determines the other two. */
  function TitleAndImageColors(s: ButtonStyle): (c: StateColors)
    ensures c.normal == NormalTitleAndImageColor(s)
    ensures c.highlighted == HighlightedTitleAndImageColor(s)
    ensures c.disabled == DisabledTitleAndImageColor(s)
    ensures IsFilledStyle(s) || IsDangerStyle(s) ==> c.normal == c.highlighted
    ensures !IsFilledStyle(s) && !IsDangerStyle(s) ==> c.normal != c.highlighted
    ensures c.disabled == if IsFilledStyle(s) then Alias(foregroundOnColor) else Alias(foregroundDisabled1)
    ensures c.normal != Clear && c.highlighted != Clear
  {
    StateColors(NormalTitleAndImageColor(s), HighlightedTitleAndImageColor(s), DisabledTitleAndImageColor(s))
  }

  /** Two styles with the same normal title colour have the same colours in
      every state. */
  lemma TitleColorsDeterminedByNormal(s1: ButtonStyle, s2: ButtonStyle)
    requires NormalTitleAndImageColor(s1) == NormalTitleAndImageColor(s2)
    ensures TitleAndImageColors(s1) == TitleAndImageColors(s2)
  {
  }

  /** Background of an enabled primary filled button: pressed wins over focus. */
  function PrimaryFilledBackgroundColor(highlighted: bool, focused: bool): (p: Paint)
    ensures highlighted ==> p == Alias(brandBackground1Pressed)
    ensures !highlighted && focused ==> p == Alias(brandBackground1Selected)
    ensures !highlighted && !focused ==> p == Alias(brandBackground1)
  {
    if highlighted then Alias(brandBackground1Pressed)
    else if focused then Alias(brandBackground1Selected)
    else Alias(brandBackground1)
  }

  /** The background chosen by `updateBackgroundColor`. */
  function BackgroundColor(s: ButtonStyle, enabled: bool, highlighted: bool, focused: bool): (p: Paint)
    ensures !enabled ==> p == if IsFilledStyle(s) then Alias(background5) else Clear
    ensures enabled && s == primaryFilled ==> p == PrimaryFilledBackgroundColor(highlighted, focused)
    ensures enabled && s == dangerFilled ==> p == Shared(dangerBackground2)
    ensures p != Clear <==> IsFilledStyle(s)
  {
    if !enabled then
      (if IsFilledStyle(s) then Alias(background5) else Clear)
    else
      match s
      case primaryFilled => PrimaryFilledBackgroundColor(highlighted, focused)
      case dangerFilled => Shared(dangerBackground2)
      case primaryOutline | dangerOutline | secondaryOutline | tertiaryOutline | borderless => Clear
  }

  /** Highlight and focus change the background of an enabled primary filled
      button and of nothing else. */
  lemma BackgroundReactsOnlyForEnabledPrimaryFilled(s: ButtonStyle, enabled: bool, h1: bool, f1: bool, h2: bool, f2: bool)
    ensures BackgroundColor(s, enabled, h1, f1) != BackgroundColor(s, enabled, h2, f2)
        ==> enabled && s == primaryFilled
    ensures enabled && s == primaryFilled && h1 != h2
        ==> BackgroundColor(s, enabled, h1, f1) != BackgroundColor(s, enabled, h2, f2)
  {
  }

  /** The border chosen by `updateBorderColor`; `None` when the style has no
      border, in which case the layer's border colour is left as it was. */
  function BorderColor(s: ButtonStyle, enabled: bool, highlighted: bool): (r: Option<Paint>)
    ensures r.Some? <==> HasBorders(s)
    ensures r.Some? && !enabled ==> r.value == Alias(strokeFocus1)
    ensures r.Some? && enabled && IsDangerStyle(s) ==> r.value == Shared(dangerForeground2)
    ensures r.Some? && enabled && !IsDangerStyle(s) && highlighted ==> r.value == Alias(brandStroke1Pressed)
    ensures r.Some? && enabled && !IsDangerStyle(s) && !highlighted ==> r.value == Alias(brandForeground1)
  {
    if !HasBorders(s) then None
    else if !enabled then Some(Alias(strokeFocus1))
    else if IsDangerStyle(s) then Some(Shared(dangerForeground2))
    else if highlighted then Some(Alias(brandStroke1Pressed))
    else Some(Alias(brandForeground1))
  }

  /** An enabled bordered button draws its border in its title colour of the
      same state; a disabled one uses the focus stroke, not the disabled title
      colour. */
  lemma BorderMatchesTitle(s: ButtonStyle, highlighted: bool)
    requires HasBorders(s)
    ensures BorderColor(s, true, highlighted)
         == Some(if highlighted then HighlightedTitleAndImageColor(s) else NormalTitleAndImageColor(s))
    ensures BorderColor(s, false, highlighted) != Some(DisabledTitleAndImageColor(s))
  {
  }

  // ---------------------------------------------------------------------------
  // The content-inset latch
  // ---------------------------------------------------------------------------

  /** The part of a button's state that decides its content insets. */
  datatype InsetState = InsetState(style: ButtonStyle, insets: EdgeInsets, custom: bool)

  /** What happens to a button, as far as its insets are concerned: its style
      is assigned, its `edgeInsets` are assigned by a client, or something else
      (image, highlight, enabled) runs `update`. */
  datatype InsetEvent = StyleAssigned(style: ButtonStyle) | InsetsAssigned(insets: EdgeInsets) | Updated

  /** The inset step of `update` as written: the default is assigned through the
      `edgeInsets` property, whose observer latches the custom flag. */
  function UpdateInsetsAsWritten(st: InsetState): (r: InsetState)
    ensures r.custom && r.style == st.style
  {
    if st.custom then st else InsetState(st.style, ContentEdgeInsets(st.style), true)
  }

  /** The inset step of `update` as intended: the default is applied without
      marking the insets as custom. */
  function UpdateInsets(st: InsetState): (r: InsetState)
    ensures r.custom == st.custom && r.style == st.style
    ensures !r.custom ==> r.insets == ContentEdgeInsets(r.style)
    ensures r.custom ==> r.insets == st.insets
  {
    if st.custom then st else InsetState(st.style, ContentEdgeInsets(st.style), false)
  }

  /** One event, with `update` standing for the inset step used. */
  function Step(st: InsetState, ev: InsetEvent, update: InsetState -> InsetState): InsetState {
    match ev
    case StyleAssigned(s) => if s == st.style then st else update(InsetState(s, st.insets, st.custom))
    case InsetsAssigned(e) => InsetState(st.style, e, true)
    case Updated => update(st)
  }

  /** A fresh button of style `s`: the lazy insets start at the style default,
      and the initializer runs `update` once. */
  function Created(s: ButtonStyle, update: InsetState -> InsetState): InsetState {
    update(InsetState(s, ContentEdgeInsets(s), false))
  }

  function Replay(st: InsetState, evs: seq<InsetEvent>, update: InsetState -> InsetState): InsetState
    decreases |evs|
  {
    if evs == [] then st else Step(Replay(st, evs[..|evs| - 1], update), evs[|evs| - 1], update)
  }

  /** The style in effect after a sequence of events. */
  function LastStyle(s: ButtonStyle, evs: seq<InsetEvent>): ButtonStyle
    decreases |evs|
  {
    if evs == [] then s
    else if evs[|evs| - 1].StyleAssigned? then evs[|evs| - 1].style
    else LastStyle(s, evs[..|evs| - 1])
  }

  predicate NoClientInsets(evs: seq<InsetEvent>) {
    forall i :: 0 <= i < |evs| ==> !evs[i].InsetsAssigned?
  }

  /** With the intended inset step, a button whose insets were never assigned
      by a client always has the default insets of its current style. */
  lemma {:induction false} DefaultInsetsFollowStyle(s: ButtonStyle, evs: seq<InsetEvent>)
    requires NoClientInsets(evs)
    ensures Replay(Created(s, UpdateInsets), evs, UpdateInsets)
         == InsetState(LastStyle(s, evs), ContentEdgeInsets(LastStyle(s, evs)), false)
    decreases |evs|
  {
    if evs != [] {
      var init := evs[..|evs| - 1];
      assert NoClientInsets(init) by {
        forall i | 0 <= i < |init| ensures !init[i].InsetsAssigned? {
          assert init[i] == evs[i];
        }
      }
      DefaultInsetsFollowStyle(s, init);
      assert !evs[|evs| - 1].InsetsAssigned?;
    }
  }

  /** With the intended inset step and with the one as written alike, once a
      client assigned insets they stay exactly as assigned, whatever the style
      does afterwards. */
  lemma {:induction false} ClientInsetsPersist(st: InsetState, e: EdgeInsets, evs: seq<InsetEvent>)
    requires NoClientInsets(evs)
    ensures Replay(Step(st, InsetsAssigned(e), UpdateInsets), evs, UpdateInsets).insets == e
    ensures Replay(Step(st, InsetsAssigned(e), UpdateInsets), evs, UpdateInsets).custom
    ensures Replay(Step(st, InsetsAssigned(e), UpdateInsetsAsWritten), evs, UpdateInsetsAsWritten).insets == e
    ensures Replay(Step(st, InsetsAssigned(e), UpdateInsetsAsWritten), evs, UpdateInsetsAsWritten).custom
    decreases |evs|
  {
    if evs != [] {
      var init := evs[..|evs| - 1];
      assert NoClientInsets(init) by {
        forall i | 0 <= i < |init| ensures !init[i].InsetsAssigned? {
          assert init[i] == evs[i];
        }
      }
      ClientInsetsPersist(st, e, init);
      assert !evs[|evs| - 1].InsetsAssigned?;
    }
  }

  /** As written, the update run by the initializer already latches the flag,
      so a button whose insets were never assigned by a client keeps the
      insets of the style it was created with, whatever style it gets later. */
  lemma {:induction false} InsetsFrozenAsWritten(s: ButtonStyle, evs: seq<InsetEvent>)
    requires NoClientInsets(evs)
    ensures Replay(Created(s, UpdateInsetsAsWritten), evs, UpdateInsetsAsWritten)
         == InsetState(LastStyle(s, evs), ContentEdgeInsets(s), true)
    decreases |evs|
  {
    if evs != [] {
      var init := evs[..|evs| - 1];
      assert NoClientInsets(init) by {
        forall i | 0 <= i < |init| ensures !init[i].InsetsAssigned? {
          assert init[i] == evs[i];
        }
      }
      InsetsFrozenAsWritten(s, init);
      assert !evs[|evs| - 1].InsetsAssigned?;
    }
  }

  /** A concrete case: a button created with the default secondary outline
      style and then given the primary filled style keeps the secondary
      outline's 10/14 insets instead of the primary filled 16/20. */
  lemma InsetLatchCounterexample()
    ensures Replay(Created(secondaryOutline, UpdateInsetsAsWritten), [StyleAssigned(primaryFilled)], UpdateInsetsAsWritten).insets
         == EdgeInsets(10, 14, 10, 14)
    ensures Replay(Created(secondaryOutline, UpdateInsets), [StyleAssigned(primaryFilled)], UpdateInsets).insets
         == EdgeInsets(16, 20, 16, 20)
  {
    InsetsFrozenAsWritten(secondaryOutline, [StyleAssigned(primaryFilled)]);
    DefaultInsetsFollowStyle(secondaryOutline, [StyleAssigned(primaryFilled)]);
  }

  // ---------------------------------------------------------------------------
  // The button object
  // ---------------------------------------------------------------------------

  /** The layer's border width: the global `strokeWidth10` or none. */
  datatype BorderWidth = NoBorder | StrokeWidth10

  /** Something a button keeps per control state (normal, highlighted,
      disabled): the images it was given, or the tints it cached for them. */
  datatype PerState = PerState(normal: Option<Paint>, highlighted: Option<Paint>, disabled: Option<Paint>)

  const Unset := PerState(None, None, None)

  /** One entry per state, in the title colour of that state. */
  function Tinted(c: StateColors): (r: PerState)
    ensures r.normal == Some(c.normal) && r.highlighted == Some(c.highlighted) && r.disabled == Some(c.disabled)
    ensures r != Unset
  {
    PerState(Some(c.normal), Some(c.highlighted), Some(c.disabled))
  }

  // ---------------------------------------------------------------------------
  // The image adjustment of custom insets
  // ---------------------------------------------------------------------------

  /** Insets with `d` added to the trailing edge. */
  function Shifted(e: EdgeInsets, d: int): EdgeInsets {
    e.(trailing := e.trailing + d)
  }

  /** What assigning `edgeInsets` adds to the trailing edge: the style's
      title–image padding while an image is set for the normal state. */
  function AssignedShift(s: ButtonStyle, shown: bool): (d: int)
    ensures d != 0 <==> shown && s != tertiaryOutline
    ensures d >= 0
  {
    if shown then TitleImagePadding(s) else 0
  }

  /** The shift `updateImage` applies to the trailing inset through
      `adjustCustomContentEdgeInsetsForImage` (pre-iOS 15 form): when the
      normal-state image appears or goes while the insets count as custom,
      the padding of the style in effect at that moment is added or
      subtracted. */
  function ImageShift(s: ButtonStyle, custom: bool, wasShown: bool, isShown: bool): (d: int)
    ensures d != 0 <==> custom && wasShown != isShown && s != tertiaryOutline
    ensures isShown ==> d >= 0
    ensures !isShown ==> d <= 0
  {
    if !custom || wasShown == isShown then 0
    else if isShown then TitleImagePadding(s)
    else -TitleImagePadding(s)
  }

  /** Showing the image and hiding it again under one style leaves the
      trailing inset where it was. */
  lemma ImageShiftRoundTrip(s: ButtonStyle, custom: bool)
    ensures ImageShift(s, custom, false, true) + ImageShift(s, custom, true, false) == 0
  {
  }

  /** The padding taken away when the image goes is that of the style of the
      moment, not the one added when it appeared: a primary filled button
      whose image is hidden by switching to the tertiary outline (padding 0)
      and shown again by switching back gains 10 points of trailing inset
      per round. */
  lemma TrailingInsetDriftsThroughTertiary()
    ensures ImageShift(tertiaryOutline, true, true, false) + ImageShift(primaryFilled, true, false, true) == 10
  {
  }

  /** A `Button`: the inputs its observers react to (style, image, highlight,
      enabled, focus, window) and the view and layer properties that `update`
      and its helpers write.  An image set for a control state is recorded as
      the colour it was tinted with.  The title insets are those of a
      left-to-right layout. */
  class Button {
    var style: ButtonStyle
    var hasImage: bool
    var isHighlighted: bool
    var isEnabled: bool
    var isFocused: bool
    var inWindow: bool

    var edgeInsets: EdgeInsets
    var isUsingCustomContentEdgeInsets: bool
    /** `titleEdgeInsets.left` and `titleEdgeInsets.right`. */
    var titleLeftInset: int
    var titleRightInset: int

    var cornerRadius: int
    var titleFont: Font
    var backgroundColor: Option<Paint>
    var borderColor: Option<Paint>
    var borderWidth: BorderWidth
    var titleColors: Option<StateColors>

    /** The image set for each control state, as the colour it was tinted with. */
    var images: PerState
    /** `normalImageTintColor`, `highlightedImageTintColor`, `disabledImageTintColor`. */
    var imageTintColors: PerState
    /** The style whose title colours the cached tints are, if any. */
    ghost var tintStyle: Option<ButtonStyle>

    /** The cached tints are all absent, or are the three title colours of one
        style; the images are all absent, or are those tints. */
    ghost predicate ImageCache()
      reads this`images, this`imageTintColors, this`tintStyle
    {
      && imageTintColors == (if tintStyle.Some? then Tinted(TitleAndImageColors(tintStyle.value)) else Unset)
      && (images == Unset || images == imageTintColors)
    }

    /** The images are cached tints, set only while the style displays an
        image and, in a window, tinted for the current style. */
    ghost predicate ImagesRendered()
      reads this`style, this`hasImage, this`inWindow, this`images, this`imageTintColors, this`tintStyle
    {
      && ImageCache()
      && (images.normal.Some? ==> IsDisplayingImage(style, hasImage))
      && (inWindow ==> tintStyle == Some(style) || (tintStyle.None? && images == Unset))
      && (inWindow && IsDisplayingImage(style, hasImage) ==> images == Tinted(TitleAndImageColors(style)))
    }

    /** In a window, the title colours are those of the style. */
    ghost predicate TitlesRendered()
      reads this`style, this`inWindow, this`titleColors
    {
      inWindow ==> titleColors == Some(TitleAndImageColors(style))
    }

    /** Background, border colour and border width match the inputs. */
    ghost predicate LayerRendered()
      reads this`style, this`isEnabled, this`isHighlighted, this`isFocused,
        this`backgroundColor, this`borderColor, this`borderWidth
    {
      && backgroundColor == Some(BackgroundColor(style, isEnabled, isHighlighted, isFocused))
      && (HasBorders(style) ==> borderColor == BorderColor(style, isEnabled, isHighlighted))
      && borderWidth == (if HasBorders(style) then StrokeWidth10 else NoBorder)
    }

    /** Everything `update` derives from the inputs is up to date, and the
        insets count as custom: the first `update` assigned them through the
        `edgeInsets` observer. */
    ghost predicate Rendered()
      reads this
    {
      LayerRendered() && TitlesRendered() && ImagesRendered() && isUsingCustomContentEdgeInsets
    }

    /** The content insets are `e` with `d` added at the trailing edge, and
        `d` has moved from the title's right inset (was `right`) to its left
        (was `left`). */
    ghost predicate InsetsShifted(e: EdgeInsets, left: int, right: int, d: int)
      reads this`edgeInsets, this`titleLeftInset, this`titleRightInset
    {
      edgeInsets == Shifted(e, d) && titleLeftInset == left + d && titleRightInset == right - d
    }

    /** `init(style:)` followed by `initialize()`: the style's insets, already
        marked as custom by the first `update`. */
    constructor (s: ButtonStyle)
      ensures style == s && !hasImage && !isHighlighted && isEnabled && !isFocused && !inWindow
      ensures isUsingCustomContentEdgeInsets && edgeInsets == ContentEdgeInsets(s)
      ensures titleLeftInset == 0 && titleRightInset == 0
      ensures cornerRadius == CornerRadius(s) && titleFont == TitleFont(s)
      ensures titleColors.None? && images == Unset
      ensures Rendered()
    {
      style := s;
      hasImage := false;
      isHighlighted := false;
      isEnabled := true;
      isFocused := false;
      inWindow := false;
      edgeInsets := ContentEdgeInsets(s);
      isUsingCustomContentEdgeInsets := false;
      titleLeftInset, titleRightInset := 0, 0;
      backgroundColor := None;
      borderColor := None;
      borderWidth := NoBorder;
      titleColors := None;
      images, imageTintColors := Unset, Unset;
      tintStyle := None;
      cornerRadius := CornerRadius(s);
      titleFont := TitleFont(s);
      new;
      Update();
    }

    /** `adjustCustomContentEdgeInsetsForImage` in its pre-iOS 15, left-to-right
        form: the style's padding, negated when no image is set, is added to
        the trailing inset and moved from the title's right inset to its left.
        Its own assignment to `edgeInsets` runs the observer, which sets the
        custom flag; the observer's nested adjustment is suppressed. */
    method AdjustCustomContentEdgeInsetsForImage()
      modifies this`edgeInsets, this`isUsingCustomContentEdgeInsets, this`titleLeftInset, this`titleRightInset
      ensures InsetsShifted(old(edgeInsets), old(titleLeftInset), old(titleRightInset),
        if images.normal.Some? then TitleImagePadding(style) else -TitleImagePadding(style))
      ensures isUsingCustomContentEdgeInsets
    {
      var spacing := TitleImagePadding(style);
      if images.normal.None? {
        spacing := -spacing;
      }
      edgeInsets := edgeInsets.(trailing := edgeInsets.trailing + spacing);
      isUsingCustomContentEdgeInsets := true;
      titleLeftInset := titleLeftInset + spacing;
      titleRightInset := titleRightInset - spacing;
    }

    /** An assignment to `edgeInsets` with its observer: the flag is latched,
        and while an image is set the insets are adjusted for it. */
    method AssignEdgeInsets(e: EdgeInsets)
      modifies this`edgeInsets, this`isUsingCustomContentEdgeInsets, this`titleLeftInset, this`titleRightInset
      ensures isUsingCustomContentEdgeInsets
      ensures edgeInsets == Shifted(e, AssignedShift(style, images.normal.Some?))
      ensures titleLeftInset == old(titleLeftInset) + AssignedShift(style, images.normal.Some?)
      ensures titleRightInset == old(titleRightInset) - AssignedShift(style, images.normal.Some?)
    {
      edgeInsets := e;
      isUsingCustomContentEdgeInsets := true;
      if images.normal.Some? {
        AdjustCustomContentEdgeInsetsForImage();
      }
    }

    /** Title colours are only written while the button is in a window. */
    method UpdateTitleColors()
      modifies this`titleColors
      ensures titleColors == if inWindow then Some(TitleAndImageColors(style)) else old(titleColors)
    {
      if inWindow {
        titleColors := Some(TitleAndImageColors(style));
      }
    }

    /** The re-tinting half of `updateImage`, run only in a window: re-tint the
        image of each state whose colour changed, or of all three when a
        displayed image is missing. */
    method RetintImages()
      requires ImageCache()
      requires !hasImage && images != Unset ==> tintStyle == Some(style)
      modifies this`images, this`imageTintColors, this`tintStyle
      ensures imageTintColors == Tinted(TitleAndImageColors(style)) && tintStyle == Some(style)
      ensures IsDisplayingImage(style, hasImage) ==> images == Tinted(TitleAndImageColors(style))
      ensures images.normal.None? ==> images == Unset
      ensures !hasImage ==> images == old(images)
      ensures hasImage && old(images.normal).Some? ==> images.normal.Some?
    {
      var colors := TitleAndImageColors(style);
      var needsSetImage := IsDisplayingImage(style, hasImage) && images.normal.None?;
      if tintStyle.Some? && imageTintColors.normal == Some(colors.normal) {
        TitleColorsDeterminedByNormal(tintStyle.value, style);
      }
      if needsSetImage || imageTintColors.normal != Some(colors.normal) {
        imageTintColors := imageTintColors.(normal := Some(colors.normal));
        images := images.(normal := if hasImage then Some(colors.normal) else None);
      }
      if needsSetImage || imageTintColors.highlighted != Some(colors.highlighted) {
        imageTintColors := imageTintColors.(highlighted := Some(colors.highlighted));
        images := images.(highlighted := if hasImage then Some(colors.highlighted) else None);
      }
      if needsSetImage || imageTintColors.disabled != Some(colors.disabled) {
        imageTintColors := imageTintColors.(disabled := Some(colors.disabled));
        images := images.(disabled := if hasImage then Some(colors.disabled) else None);
      }
      tintStyle := Some(style);
    }

    /** `updateImage`: re-tint in a window, adjusting custom insets when the
        image is set for the first time; then, wherever the button is, clear
        all images and tints if none should show, adjusting custom insets back. */
    method UpdateImage()
      requires ImageCache()
      requires inWindow && !hasImage && images != Unset ==> tintStyle == Some(style)
      modifies this`images, this`imageTintColors, this`tintStyle
      modifies this`edgeInsets, this`isUsingCustomContentEdgeInsets, this`titleLeftInset, this`titleRightInset
      ensures ImagesRendered()
      ensures images != Unset <==> IsDisplayingImage(style, hasImage) && (inWindow || old(images) != Unset)
      ensures !inWindow && images != Unset ==> images == old(images) && tintStyle == old(tintStyle)
      ensures !inWindow && old(images) == Unset ==> unchanged(this`imageTintColors, this`tintStyle)
      ensures isUsingCustomContentEdgeInsets == old(isUsingCustomContentEdgeInsets)
      ensures InsetsShifted(old(edgeInsets), old(titleLeftInset), old(titleRightInset),
        ImageShift(style, isUsingCustomContentEdgeInsets, old(images.normal).Some?, images.normal.Some?))
    {
      if inWindow {
        var needsSetImage := IsDisplayingImage(style, hasImage) && images.normal.None?;
        RetintImages();
        if needsSetImage && isUsingCustomContentEdgeInsets {
          AdjustCustomContentEdgeInsetsForImage();
        }
      }
      if (!hasImage || !IsDisplayingImage(style, hasImage)) && images.normal.Some? {
        images, imageTintColors := Unset, Unset;
        tintStyle := None;
        if isUsingCustomContentEdgeInsets {
          AdjustCustomContentEdgeInsetsForImage();
        }
      }
    }

    method UpdateBackgroundColor()
      modifies this`backgroundColor
      ensures backgroundColor == Some(BackgroundColor(style, isEnabled, isHighlighted, isFocused))
    {
      backgroundColor := Some(BackgroundColor(style, isEnabled, isHighlighted, isFocused));
    }

    /** Borderless styles leave the layer's border colour untouched. */
    method UpdateBorderColor()
      modifies this`borderColor
      ensures borderColor == if HasBorders(style) then BorderColor(style, isEnabled, isHighlighted) else old(borderColor)
    {
      var c := BorderColor(style, isEnabled, isHighlighted);
      if c.Some? {
        borderColor := c;
      }
    }

    /** `update`: recompute colours and image, set the border width, and,
        while the insets do not yet count as custom, assign the style default
        through `edgeInsets`, which latches the flag. */
    method Update()
      requires ImageCache()
      requires inWindow && !hasImage && images != Unset ==> tintStyle == Some(style)
      modifies this`titleColors, this`images, this`imageTintColors, this`tintStyle
      modifies this`backgroundColor, this`borderColor, this`borderWidth
      modifies this`edgeInsets, this`isUsingCustomContentEdgeInsets, this`titleLeftInset, this`titleRightInset
      ensures Rendered()
      ensures images != Unset <==> IsDisplayingImage(style, hasImage) && (inWindow || old(images) != Unset)
      ensures old(isUsingCustomContentEdgeInsets) ==>
        InsetsShifted(old(edgeInsets), old(titleLeftInset), old(titleRightInset),
          ImageShift(style, true, old(images.normal).Some?, images.normal.Some?))
      ensures !old(isUsingCustomContentEdgeInsets) ==>
        InsetsShifted(ContentEdgeInsets(style), old(titleLeftInset), old(titleRightInset),
          AssignedShift(style, images.normal.Some?))
      ensures !inWindow ==> titleColors == old(titleColors)
      ensures !HasBorders(style) ==> borderColor == old(borderColor)
    {
      UpdateContent();
      UpdateLayerAndInsets();
    }

    /** The second half of `update`: the layer steps, then the inset step. */
    method UpdateLayerAndInsets()
      modifies this`backgroundColor, this`borderColor, this`borderWidth
      modifies this`edgeInsets, this`isUsingCustomContentEdgeInsets, this`titleLeftInset, this`titleRightInset
      ensures LayerRendered() && isUsingCustomContentEdgeInsets
      ensures !HasBorders(style) ==> borderColor == old(borderColor)
      ensures old(isUsingCustomContentEdgeInsets) ==>
        unchanged(this`edgeInsets, this`titleLeftInset, this`titleRightInset)
      ensures !old(isUsingCustomContentEdgeInsets) ==>
        InsetsShifted(ContentEdgeInsets(style), old(titleLeftInset), old(titleRightInset),
          AssignedShift(style, images.normal.Some?))
    {
      UpdateLayer();
      UpdateDefaultInsets();
    }

    /** The first half of `update`: title colours, then the image. */
    method UpdateContent()
      requires ImageCache()
      requires inWindow && !hasImage && images != Unset ==> tintStyle == Some(style)
      modifies this`titleColors, this`images, this`imageTintColors, this`tintStyle
      modifies this`edgeInsets, this`isUsingCustomContentEdgeInsets, this`titleLeftInset, this`titleRightInset
      ensures TitlesRendered() && ImagesRendered()
      ensures images != Unset <==> IsDisplayingImage(style, hasImage) && (inWindow || old(images) != Unset)
      ensures !inWindow ==> titleColors == old(titleColors)
      ensures isUsingCustomContentEdgeInsets == old(isUsingCustomContentEdgeInsets)
      ensures InsetsShifted(old(edgeInsets), old(titleLeftInset), old(titleRightInset),
        ImageShift(style, isUsingCustomContentEdgeInsets, old(images.normal).Some?, images.normal.Some?))
    {
      UpdateTitleColors();
      UpdateImage();
    }

    /** The layer steps of `update`: background colour, border colour, border width. */
    method UpdateLayer()
      modifies this`backgroundColor, this`borderColor, this`borderWidth
      ensures LayerRendered()
      ensures !HasBorders(style) ==> borderColor == old(borderColor)
    {
      UpdateBackgroundColor();
      UpdateBorderColor();
      UpdateBorderWidth();
    }

    /** The border width step of `update`: stroke width 10 exactly for bordered styles. */
    method UpdateBorderWidth()
      modifies this`borderWidth
      ensures borderWidth == if HasBorders(style) then StrokeWidth10 else NoBorder
    {
      borderWidth := if HasBorders(style) then StrokeWidth10 else NoBorder;
    }

    /** The inset step of `update`: unless the insets already count as
        custom, the style default is assigned through `edgeInsets`, whose
        observer marks them as custom from then on. */
    method UpdateDefaultInsets()
      modifies this`edgeInsets, this`isUsingCustomContentEdgeInsets, this`titleLeftInset, this`titleRightInset
      ensures isUsingCustomContentEdgeInsets
      ensures old(isUsingCustomContentEdgeInsets) ==>
        unchanged(this`edgeInsets, this`titleLeftInset, this`titleRightInset)
      ensures !old(isUsingCustomContentEdgeInsets) ==>
        InsetsShifted(ContentEdgeInsets(style), old(titleLeftInset), old(titleRightInset),
          AssignedShift(style, images.normal.Some?))
    {
      if !isUsingCustomContentEdgeInsets {
        AssignEdgeInsets(ContentEdgeInsets(style));
      }
    }

    /** The `style` observer runs `update` only when the value changes.  The
        insets keep their edges: only the image adjustment moves the
        trailing one. */
    method SetStyle(s: ButtonStyle)
      requires Rendered()
      modifies this`style, this`titleColors, this`images, this`imageTintColors, this`tintStyle
      modifies this`backgroundColor, this`borderColor, this`borderWidth
      modifies this`edgeInsets, this`isUsingCustomContentEdgeInsets, this`titleLeftInset, this`titleRightInset
      ensures style == s && Rendered()
      ensures InsetsShifted(old(edgeInsets), old(titleLeftInset), old(titleRightInset),
        ImageShift(s, true, old(images.normal).Some?, images.normal.Some?))
      ensures s == old(style) ==> unchanged(this)
      ensures !HasBorders(style) ==> borderColor == old(borderColor)
      ensures !inWindow ==> titleColors == old(titleColors)
    {
      if s != style {
        style := s;
        Update();
      }
    }

    /** Assigning the image always runs `update`. */
    method SetImage(has: bool)
      requires Rendered()
      modifies this`hasImage, this`titleColors, this`images, this`imageTintColors, this`tintStyle
      modifies this`backgroundColor, this`borderColor, this`borderWidth
      modifies this`edgeInsets, this`isUsingCustomContentEdgeInsets, this`titleLeftInset, this`titleRightInset
      ensures hasImage == has && Rendered()
      ensures InsetsShifted(old(edgeInsets), old(titleLeftInset), old(titleRightInset),
        ImageShift(style, true, old(images.normal).Some?, images.normal.Some?))
      ensures !IsDisplayingImage(style, hasImage) ==> images == Unset
      ensures !HasBorders(style) ==> borderColor == old(borderColor)
      ensures !inWindow ==> titleColors == old(titleColors)
    {
      hasImage := has;
      Update();
    }

    /** Whether an image is set for the normal state is decided by the style,
        the image and the window, none of which highlight or enabled changes. */
    lemma ShownUnchanged(oldImages: PerState)
      requires ImageCache() && Rendered()
      requires oldImages.normal.Some? ==> IsDisplayingImage(style, hasImage)
      requires inWindow && IsDisplayingImage(style, hasImage) ==> oldImages != Unset
      requires oldImages == Unset || oldImages.normal.Some?
      requires images != Unset <==> IsDisplayingImage(style, hasImage) && (inWindow || oldImages != Unset)
      ensures images.normal.Some? == oldImages.normal.Some?
    {
    }

    /** The `isHighlighted` observer runs `update` only when the value changes;
        the insets stay as they are. */
    method SetHighlighted(h: bool)
      requires Rendered()
      modifies this`isHighlighted, this`titleColors, this`images, this`imageTintColors, this`tintStyle
      modifies this`backgroundColor, this`borderColor, this`borderWidth
      modifies this`edgeInsets, this`isUsingCustomContentEdgeInsets, this`titleLeftInset, this`titleRightInset
      ensures isHighlighted == h && Rendered()
      ensures edgeInsets == old(edgeInsets)
      ensures titleLeftInset == old(titleLeftInset) && titleRightInset == old(titleRightInset)
      ensures h == old(isHighlighted) ==> unchanged(this)
      ensures !HasBorders(style) ==> borderColor == old(borderColor)
      ensures !inWindow ==> titleColors == old(titleColors)
    {
      if h != isHighlighted {
        ghost var before := images;
        isHighlighted := h;
        Update();
        ShownUnchanged(before);
      }
    }

    /** The `isEnabled` observer runs `update` only when the value changes;
        the insets stay as they are. */
    method SetEnabled(e: bool)
      requires Rendered()
      modifies this`isEnabled, this`titleColors, this`images, this`imageTintColors, this`tintStyle
      modifies this`backgroundColor, this`borderColor, this`borderWidth
      modifies this`edgeInsets, this`isUsingCustomContentEdgeInsets, this`titleLeftInset, this`titleRightInset
      ensures isEnabled == e && Rendered()
      ensures edgeInsets == old(edgeInsets)
      ensures titleLeftInset == old(titleLeftInset) && titleRightInset == old(titleRightInset)
      ensures e == old(isEnabled) ==> unchanged(this)
      ensures !HasBorders(style) ==> borderColor == old(borderColor)
      ensures !inWindow ==> titleColors == old(titleColors)
    {
      if e != isEnabled {
        ghost var before := images;
        isEnabled := e;
        Update();
        ShownUnchanged(before);
      }
    }

    /** A client's assignment to `edgeInsets`: stored, latched as custom, and
        widened at the trailing edge by the style's padding while an image is
        set. */
    method SetEdgeInsets(e: EdgeInsets)
      requires Rendered()
      modifies this`edgeInsets, this`isUsingCustomContentEdgeInsets, this`titleLeftInset, this`titleRightInset
      ensures isUsingCustomContentEdgeInsets
      ensures edgeInsets == Shifted(e, AssignedShift(style, images.normal.Some?))
      ensures titleLeftInset == old(titleLeftInset) + AssignedShift(style, images.normal.Some?)
      ensures titleRightInset == old(titleRightInset) - AssignedShift(style, images.normal.Some?)
      ensures Rendered()
    {
      AssignEdgeInsets(e);
    }

    /** A focus change involving this button: only filled styles repaint their
        background, and only theirs depends on focus. */
    method DidUpdateFocus(focused: bool)
      requires Rendered()
      modifies this`isFocused, this`backgroundColor
      ensures isFocused == focused && Rendered()
      ensures !IsFilledStyle(style) ==> backgroundColor == old(backgroundColor)
    {
      isFocused := focused;
      if IsFilledStyle(style) {
        UpdateBackgroundColor();
      }
    }

    /** The repaint shared by `didMoveToWindow` and the theme-change handler:
        background, titles, image and border, in that order. */
    method Repaint()
      requires ImageCache()
      requires inWindow && !hasImage && images != Unset ==> tintStyle == Some(style)
      modifies this`titleColors, this`images, this`imageTintColors, this`tintStyle
      modifies this`backgroundColor, this`borderColor
      modifies this`edgeInsets, this`isUsingCustomContentEdgeInsets, this`titleLeftInset, this`titleRightInset
      ensures backgroundColor == Some(BackgroundColor(style, isEnabled, isHighlighted, isFocused))
      ensures borderColor == if HasBorders(style) then BorderColor(style, isEnabled, isHighlighted) else old(borderColor)
      ensures TitlesRendered() && ImagesRendered()
      ensures !inWindow ==> titleColors == old(titleColors)
      ensures isUsingCustomContentEdgeInsets == old(isUsingCustomContentEdgeInsets)
      ensures InsetsShifted(old(edgeInsets), old(titleLeftInset), old(titleRightInset),
        ImageShift(style, isUsingCustomContentEdgeInsets, old(images.normal).Some?, images.normal.Some?))
    {
      UpdateBackgroundColor();
      UpdateContent();
      UpdateBorderColor();
    }

    /** Moving into or out of a window repaints background, titles, image and
        border; an image first set on entering a window widens the insets. */
    method DidMoveToWindow(window: bool)
      requires Rendered()
      modifies this`inWindow, this`titleColors, this`images, this`imageTintColors, this`tintStyle
      modifies this`backgroundColor, this`borderColor
      modifies this`edgeInsets, this`isUsingCustomContentEdgeInsets, this`titleLeftInset, this`titleRightInset
      ensures inWindow == window && Rendered()
      ensures InsetsShifted(old(edgeInsets), old(titleLeftInset), old(titleRightInset),
        ImageShift(style, true, old(images.normal).Some?, images.normal.Some?))
      ensures !HasBorders(style) ==> borderColor == old(borderColor)
      ensures !inWindow ==> titleColors == old(titleColors)
    {
      inWindow := window;
      Repaint();
    }

    /** A change of the light/dark interface style repaints the border only. */
    method TraitCollectionDidChange(interfaceStyleChanged: bool)
      requires Rendered()
      modifies this`borderColor
      ensures Rendered()
      ensures !interfaceStyleChanged ==> unchanged(this)
      ensures !HasBorders(style) ==> borderColor == old(borderColor)
    {
      if interfaceStyleChanged {
        UpdateBorderColor();
      }
    }
  }

  /** The tertiary outline never shows an image, in any control state. */
  lemma TertiaryOutlineShowsNoImage(b: Button)
    requires b.Rendered() && b.style == tertiaryOutline
    ensures b.images == Unset
  {
  }

  /** The inset latch on a `Button` object: created with the default secondary
      outline style and then given the primary filled style, it keeps the
      secondary outline's 10/14 insets. */
  method StyleChangeKeepsInitialInsets() returns (b: Button)
    ensures b.style == primaryFilled
    ensures b.edgeInsets == ContentEdgeInsets(secondaryOutline)
    ensures b.edgeInsets != ContentEdgeInsets(primaryFilled)
  {
    b := new Button(secondaryOutline);
    b.SetStyle(primaryFilled);
  }

  /** The drift on a `Button` object: a primary filled button in a window
      shows its image (+10), is switched to the tertiary outline (the image
      goes, -0) and back (the image returns, +10), then loses its image
      (-10): the trailing inset ends 10 points wider than it started. */
  method TrailingInsetDrift() returns (b: Button)
    ensures !b.hasImage && b.style == primaryFilled
    ensures b.edgeInsets == Shifted(ContentEdgeInsets(primaryFilled), 10)
  {
    b := new Button(primaryFilled);
    b.DidMoveToWindow(true);
    b.SetImage(true);
    b.SetStyle(tertiaryOutline);
    b.SetStyle(primaryFilled);
    b.SetImage(false);
  }
}
