/** A day cell of the calendar grid: the date label, the event dot under it,
    and the selection overlay behind it, whose circle and square shapes mark
    a single selected day or a day inside a selected range.

    Colours are the alias tokens chosen; alphas are exact reals. */
module CalendarDayCell {
  import opened Tokens

  datatype TextStyle = primary | secondary

  datatype VisualState = normal | normalWithDots | fadedWithDots

  datatype SelectionType =
    | singleSelection | startOfRangedSelection | middleOfRangedSelection | endOfRangedSelection

  datatype SelectionStyle = normal | freeAtSpecificTimeSlot | freeAtDifferentTimeSlot | busy | unknown

  /** The content alpha of the faded visual state. */
  const FadedAlpha: real := 0.2

  /** The colour of the overlay's circle and square. */
  const ActiveColor: ColorToken := brandBackground1

  // ---------------------------------------------------------------------------
  // The tables behind the cell's state
  // ---------------------------------------------------------------------------

  /** The dot's alpha for an indicator level: levels above 4 count as 4. */
  function DotAlpha(level: int): (r: real)
    ensures 0 <= level ==> 0.0 <= r <= 1.0
    ensures level >= 4 ==> r == 1.0
    ensures r == 0.0 <==> level == 0
  {
    (if level < 4 then level else 4) as real / 4.0
  }

  /** More events never give a fainter dot. */
  lemma DotAlphaMonotone(level1: int, level2: int)
    requires level1 <= level2
    ensures DotAlpha(level1) <= DotAlpha(level2)
  {
  }

  /** The content alpha of each visual state: only the faded state lowers it. */
  function ContentAlpha(state: VisualState): (r: real)
    ensures r == FadedAlpha <==> state == fadedWithDots
    ensures state != fadedWithDots ==> r == 1.0
  {
    match state
    case normal => 1.0
    case normalWithDots => 1.0
    case fadedWithDots => FadedAlpha
  }

  /** The dot's alpha in each visual state, given the alpha `setup` stored. */
  function VisibleDotAlpha(state: VisualState, stored: real): (r: real)
    ensures state == VisualState.normal ==> r == 0.0
    ensures state != VisualState.normal ==> r == stored
  {
    match state
    case normal => 0.0
    case normalWithDots => stored
    case fadedWithDots => stored
  }

  /** The date label's colour: on the selection shape it is drawn on colour,
      otherwise primary days use `foreground3` and secondary days `foreground1`. */
  function LabelColor(style: TextStyle, active: bool): (r: ColorToken)
    ensures active <==> r == foregroundOnColor
    ensures !active ==> r == (if style == primary then foreground3 else foreground1)
    ensures !active ==> (r == foreground3 <==> style == primary)
  {
    if active then foregroundOnColor
    else match style
      case primary => foreground3
      case secondary => foreground1
  }

  /** Whether a selection type draws the circle. */
  predicate NeedsCircle(t: SelectionType) {
    t == singleSelection || t == startOfRangedSelection || t == endOfRangedSelection
  }

  /** Whether a selection type draws the square. */
  predicate NeedsSquare(t: SelectionType) {
    t == middleOfRangedSelection || t == startOfRangedSelection || t == endOfRangedSelection
  }

  /** Every selection type draws some shape; a single day only the circle, the
      middle of a range only the square, and the ends of a range both. */
  lemma SelectionShapes(t: SelectionType)
    ensures NeedsCircle(t) || NeedsSquare(t)
    ensures NeedsCircle(t) && !NeedsSquare(t) <==> t == singleSelection
    ensures NeedsSquare(t) && !NeedsCircle(t) <==> t == middleOfRangedSelection
  {
  }

  // ---------------------------------------------------------------------------
  // The selection overlay (`SelectionOverlayView`)
  // ---------------------------------------------------------------------------

  /** A circle or square of the overlay. */
  class OverlayShape {
    /** Added to the overlay's subviews. */
    var attached: bool
    var isHidden: bool
    var color: Option<ColorToken>

    constructor()
      ensures !attached && !isHidden && color.None?
    {
      attached := false;
      isHidden := false;
      color := None;
    }
  }

  class SelectionOverlay {
    var selectionType: SelectionType
    var selectionStyle: SelectionStyle
    var selected: bool
    var highlighted: bool
    var alpha: real
    /** Created on first use only. */
    var circleView: OverlayShape?
    var squareView: OverlayShape?

    /** The circle and the square are different objects. */
    ghost predicate Valid()
      reads this`circleView, this`squareView
    {
      circleView != null ==> circleView != squareView
    }

    /** A shape that has been set up: attached, in the active colour, and
        visible exactly while the day is selected or highlighted. */
    ghost predicate SetUp(v: OverlayShape?)
      reads this`selected, this`highlighted, v
    {
      v != null && v.attached && v.color == Some(ActiveColor) && v.isHidden == !(selected || highlighted)
    }

    /** A shape that is absent or hidden. */
    ghost predicate Dismissed(v: OverlayShape?)
      reads v
    {
      v == null || v.isHidden
    }

    /** The shapes the selection type needs are set up, the others dismissed. */
    ghost predicate ActiveViewsSetUp()
      reads this, circleView, squareView
    {
      && (NeedsCircle(selectionType) ==> SetUp(circleView))
      && (!NeedsCircle(selectionType) ==> Dismissed(circleView))
      && (NeedsSquare(selectionType) ==> SetUp(squareView))
      && (!NeedsSquare(selectionType) ==> Dismissed(squareView))
    }

    /** A fresh overlay marks a single day, unselected, with no shapes yet. */
    constructor()
      ensures selectionType == singleSelection && selectionStyle == SelectionStyle.normal
      ensures !selected && !highlighted && alpha == 1.0
      ensures circleView == null && squareView == null
      ensures Valid()
    {
      selectionType := singleSelection;
      selectionStyle := SelectionStyle.normal;
      selected := false;
      highlighted := false;
      alpha := 1.0;
      circleView := null;
      squareView := null;
    }

    /** `setupView`: attaches the shape if needed and shows it exactly while
        the day is selected or highlighted. */
    method SetupView(v: OverlayShape)
      modifies v`attached, v`isHidden
      ensures v.attached && v.isHidden == !(selected || highlighted)
    {
      if !v.attached {
        v.attached := true;
      }
      v.isHidden := !(selected || highlighted);
    }

    /** `setupCircleView`: creates the circle if absent, then sets it up. */
    method SetupCircleView()
      requires Valid()
      modifies this`circleView, circleView
      ensures old(circleView) != null ==> circleView == old(circleView)
      ensures old(circleView) == null ==> fresh(circleView)
      ensures SetUp(circleView) && Valid()
    {
      if circleView == null {
        circleView := new OverlayShape();
      }
      var circle := circleView;
      SetupView(circle);
      circle.color := Some(ActiveColor);
    }

    /** `setupSquareView`: creates the square if absent, then sets it up. */
    method SetupSquareView()
      requires Valid()
      modifies this`squareView, squareView
      ensures old(squareView) != null ==> squareView == old(squareView)
      ensures old(squareView) == null ==> fresh(squareView)
      ensures SetUp(squareView) && Valid()
    {
      if squareView == null {
        squareView := new OverlayShape();
      }
      var square := squareView;
      SetupView(square);
      square.color := Some(ActiveColor);
    }

    /** `setupActiveViews`: sets up the shapes the selection type needs and
        hides the others; a shape is created only when needed and only once. */
    method SetupActiveViews()
      requires Valid()
      modifies this`circleView, this`squareView, circleView, squareView
      ensures ActiveViewsSetUp() && Valid()
      ensures old(circleView) != null ==> circleView == old(circleView)
      ensures old(squareView) != null ==> squareView == old(squareView)
      ensures circleView != old(circleView) ==> fresh(circleView)
      ensures squareView != old(squareView) ==> fresh(squareView)
      ensures circleView != null <==> old(circleView) != null || NeedsCircle(selectionType)
      ensures squareView != null <==> old(squareView) != null || NeedsSquare(selectionType)
    {
      match selectionType
      case singleSelection =>
        SetupCircleView();
        if squareView != null {
          squareView.isHidden := true;
        }
      case middleOfRangedSelection =>
        SetupSquareView();
        if circleView != null {
          circleView.isHidden := true;
        }
      case startOfRangedSelection =>
        SetupCircleView();
        SetupSquareView();
      case endOfRangedSelection =>
        SetupCircleView();
        SetupSquareView();
    }

    /** The `selectionType` setter. */
    method SetSelectionType(t: SelectionType)
      requires Valid()
      modifies this`selectionType, this`circleView, this`squareView, circleView, squareView
      ensures selectionType == t && ActiveViewsSetUp() && Valid()
      ensures old(circleView) != null ==> circleView == old(circleView)
      ensures old(squareView) != null ==> squareView == old(squareView)
      ensures circleView != old(circleView) ==> fresh(circleView)
      ensures squareView != old(squareView) ==> fresh(squareView)
    {
      selectionType := t;
      SetupActiveViews();
    }

    /** The `selected` setter. */
    method SetSelected(b: bool)
      requires Valid()
      modifies this`selected, this`circleView, this`squareView, circleView, squareView
      ensures selected == b && ActiveViewsSetUp() && Valid()
      ensures old(circleView) != null ==> circleView == old(circleView)
      ensures old(squareView) != null ==> squareView == old(squareView)
      ensures circleView != old(circleView) ==> fresh(circleView)
      ensures squareView != old(squareView) ==> fresh(squareView)
    {
      selected := b;
      SetupActiveViews();
    }

    /** The `highlighted` setter. */
    method SetHighlighted(b: bool)
      requires Valid()
      modifies this`highlighted, this`circleView, this`squareView, circleView, squareView
      ensures highlighted == b && ActiveViewsSetUp() && Valid()
      ensures old(circleView) != null ==> circleView == old(circleView)
      ensures old(squareView) != null ==> squareView == old(squareView)
      ensures circleView != old(circleView) ==> fresh(circleView)
      ensures squareView != old(squareView) ==> fresh(squareView)
    {
      highlighted := b;
      SetupActiveViews();
    }

    /** `didMoveToWindow`. */
    method DidMoveToWindow()
      requires Valid()
      modifies this`circleView, this`squareView, circleView, squareView
      ensures ActiveViewsSetUp() && Valid()
      ensures old(circleView) != null ==> circleView == old(circleView)
      ensures old(squareView) != null ==> squareView == old(squareView)
      ensures circleView != old(circleView) ==> fresh(circleView)
      ensures squareView != old(squareView) ==> fresh(squareView)
    {
      SetupActiveViews();
    }
  }

  // ---------------------------------------------------------------------------
  // The cell (`CalendarViewDayCell`)
  // ---------------------------------------------------------------------------

  class DayCell {
    var isSelected: bool
    var isHighlighted: bool
    var textStyle: TextStyle
    /** The dot alpha `setup` stored for the visual states that show dots. */
    var visibleDotViewAlpha: real
    const overlay: SelectionOverlay
    var labelText: Option<string>
    var labelColor: ColorToken
    var labelAlpha: real
    var dotColor: ColorToken
    var dotAlpha: real
    var dotHidden: bool
    var contentAlpha: real
    var contentBackground: Option<ColorToken>

    /** The overlay carries the cell's selection and highlight flags. */
    ghost predicate Valid()
      reads this`isSelected, this`isHighlighted
      reads overlay`selected, overlay`highlighted, overlay`circleView, overlay`squareView
    {
      overlay.Valid() && overlay.selected == isSelected && overlay.highlighted == isHighlighted
    }

    /** The label colour and the dot's visibility follow the selection and
        highlight state. */
    ghost predicate Rendered()
      reads this`isSelected, this`isHighlighted, this`textStyle, this`labelColor, this`dotHidden
    {
      && labelColor == LabelColor(textStyle, isSelected || isHighlighted)
      && dotHidden == (isSelected || isHighlighted)
    }

    /** A new cell: primary text in `foreground3`, the dot hidden by alpha 0
        as in the `normal` visual state, and full dot alpha stored. */
    constructor()
      ensures textStyle == primary && visibleDotViewAlpha == 1.0
      ensures dotAlpha == 0.0 && dotColor == foreground3 && labelText.None?
      ensures labelAlpha == 1.0 && contentAlpha == 1.0 && contentBackground.None?
      ensures fresh(overlay) && overlay.alpha == 1.0
      ensures overlay.circleView == null && overlay.squareView == null
      ensures !isSelected && !isHighlighted && Valid() && Rendered()
    {
      isSelected := false;
      isHighlighted := false;
      textStyle := primary;
      visibleDotViewAlpha := 1.0;
      overlay := new SelectionOverlay();
      labelText := None;
      labelColor := foreground3;
      labelAlpha := 1.0;
      dotColor := foreground3;
      dotAlpha := 0.0;
      dotHidden := false;
      contentAlpha := 1.0;
      contentBackground := None;
    }

    /** `updateViews`: label colour by text style, then on-colour and a hidden
        dot while selected or highlighted. */
    method UpdateViews()
      modifies this`labelColor, this`contentBackground, this`dotHidden
      ensures Rendered() && contentBackground == Some(background2)
    {
      match textStyle {
        case primary => labelColor := foreground3;
        case secondary => labelColor := foreground1;
      }
      contentBackground := Some(background2);
      if isHighlighted || isSelected {
        dotHidden := true;
        labelColor := foregroundOnColor;
      } else {
        dotHidden := false;
      }
    }

    /** The `isSelected` setter: the flag is pushed into the overlay first. */
    method SetSelected(b: bool)
      requires Valid()
      modifies this`isSelected, this`labelColor, this`contentBackground, this`dotHidden
      modifies overlay`selected, overlay`circleView, overlay`squareView, overlay.circleView, overlay.squareView
      ensures isSelected == b && Valid() && Rendered() && overlay.ActiveViewsSetUp()
      ensures contentBackground == Some(background2)
      ensures old(overlay.circleView) != null ==> overlay.circleView == old(overlay.circleView)
      ensures old(overlay.squareView) != null ==> overlay.squareView == old(overlay.squareView)
    {
      isSelected := b;
      overlay.SetSelected(b);
      UpdateViews();
    }

    /** The `isHighlighted` setter: the flag is pushed into the overlay first. */
    method SetHighlighted(b: bool)
      requires Valid()
      modifies this`isHighlighted, this`labelColor, this`contentBackground, this`dotHidden
      modifies overlay`highlighted, overlay`circleView, overlay`squareView, overlay.circleView, overlay.squareView
      ensures isHighlighted == b && Valid() && Rendered() && overlay.ActiveViewsSetUp()
      ensures contentBackground == Some(background2)
      ensures old(overlay.circleView) != null ==> overlay.circleView == old(overlay.circleView)
      ensures old(overlay.squareView) != null ==> overlay.squareView == old(overlay.squareView)
    {
      isHighlighted := b;
      overlay.SetHighlighted(b);
      UpdateViews();
    }

    /** `setup`: stores the text style, selection style and label, stores the
        dot alpha of the indicator level (without applying it), and refreshes
        the views. */
    method Setup(style: TextStyle, selectionStyle: SelectionStyle, dateLabelText: string, indicatorLevel: int)
      modifies this`textStyle, this`labelText, this`visibleDotViewAlpha
      modifies this`labelColor, this`contentBackground, this`dotHidden, overlay`selectionStyle
      ensures textStyle == style && overlay.selectionStyle == selectionStyle
      ensures labelText == Some(dateLabelText)
      ensures visibleDotViewAlpha == DotAlpha(indicatorLevel)
      ensures Rendered()
      ensures contentBackground == Some(background2)
    {
      textStyle := style;
      overlay.selectionStyle := selectionStyle;
      labelText := Some(dateLabelText);
      visibleDotViewAlpha := DotAlpha(indicatorLevel);
      UpdateViews();
    }

    /** `setVisualState`: the alphas of the state; animation only changes how
        the end state is reached. */
    method SetVisualState(state: VisualState, animated: bool)
      modifies this`contentAlpha, this`labelAlpha, this`dotAlpha, overlay`alpha
      ensures contentAlpha == ContentAlpha(state)
      ensures dotAlpha == VisibleDotAlpha(state, visibleDotViewAlpha)
      ensures labelAlpha == 1.0 && overlay.alpha == 1.0
    {
      match state
      case normal =>
        contentAlpha := 1.0;
        labelAlpha := 1.0;
        dotAlpha := 0.0;
        overlay.alpha := 1.0;
      case normalWithDots =>
        contentAlpha := 1.0;
        labelAlpha := 1.0;
        dotAlpha := visibleDotViewAlpha;
        overlay.alpha := 1.0;
      case fadedWithDots =>
        contentAlpha := FadedAlpha;
        labelAlpha := 1.0;
        dotAlpha := visibleDotViewAlpha;
        overlay.alpha := 1.0;
    }

    /** `setSelectionType`: forwarded to the overlay. */
    method SetSelectionType(t: SelectionType)
      requires Valid()
      modifies overlay`selectionType, overlay`circleView, overlay`squareView, overlay.circleView, overlay.squareView
      ensures overlay.selectionType == t && overlay.ActiveViewsSetUp() && Valid()
      ensures old(overlay.circleView) != null ==> overlay.circleView == old(overlay.circleView)
      ensures old(overlay.squareView) != null ==> overlay.squareView == old(overlay.squareView)
    {
      overlay.SetSelectionType(t);
    }

    /** The theme-change handler as written: after `updateViews` it paints the
        label `foreground3` whatever the state, so a selected, highlighted or
        secondary day loses its label colour. */
    method ThemeDidChangeAsWritten()
      modifies this`labelColor, this`contentBackground, this`dotHidden, this`dotColor
      ensures labelColor == foreground3 && dotColor == foreground3
      ensures dotHidden == (isSelected || isHighlighted) && contentBackground == Some(background2)
      ensures isSelected || isHighlighted || textStyle == secondary ==>
                labelColor != LabelColor(textStyle, isSelected || isHighlighted)
    {
      UpdateViews();
      dotColor := foreground3;
      labelColor := foreground3;
    }

    /** The theme-change handler as intended: the views are recomputed and the
        dot repainted, and the label keeps the colour of the cell's state. */
    method ThemeDidChange()
      modifies this`labelColor, this`contentBackground, this`dotHidden, this`dotColor
      ensures Rendered() && dotColor == foreground3 && contentBackground == Some(background2)
    {
      UpdateViews();
      dotColor := foreground3;
    }
  }

  /** A selected day whose theme changes: as written its label turns
      `foreground3` on the active circle instead of staying on-colour. */
  method SelectedLabelAfterThemeChange() returns (cell: DayCell)
    ensures cell.isSelected && cell.labelColor == foreground3
    ensures LabelColor(cell.textStyle, true) == foregroundOnColor
  {
    cell := new DayCell();
    cell.SetSelected(true);
    cell.ThemeDidChangeAsWritten();
  }
}
