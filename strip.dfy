/**
 * `SmartTabStrip`: the row of tab views under the scroll container. It keeps
 * the selection state reported by the pager, the colorizer and interpolator,
 * and on every draw pass emits the underline, the selection indicator and the
 * separators between tabs. A draw pass is specified by the function `Draw`
 * and carried out by the method `SmartTabStrip.OnDraw`.
 */
module Strip {
  import opened Wrappers
  import opened JavaLang
  import opened Colors
  import opened Interpolation

  /**
   * A child tab view after layout: `id` stands for the view object's identity,
   * `selected` is its selected state.
   */
  datatype Tab = Tab(id: int, left: int, right: int, width: int, selected: bool)

  const DEFAULT_DIVIDER_HEIGHT: real := 0.5

  /** The drawing configuration resolved at construction. */
  datatype Style = Style(
    indicatorInFront: bool,
    indicatorThickness: int,
    indicatorCornerRadius: real,
    underlineThickness: int,
    underlineColor: Color,
    dividerHeight: real)

  /** What a draw pass reads of the strip's mutable state. */
  datatype StripState = StripState(
    tabs: seq<Tab>,
    selectedPosition: int,
    selectionOffset: real,
    interpolator: Interpolator,
    colorizer: TabColorizer)

  /** The canvas calls of a draw pass. */
  datatype DrawCommand =
      /** `drawRect(0, top, right, bottom)` with the underline paint */
    | Underline(top: int, right: int, bottom: int, color: Color)
      /** `drawRect` or, with a positive corner radius, `drawRoundRect` of the indicator */
    | Indicator(left: int, rectTop: real, right: int, rectBottom: real, color: Color, rounded: bool)
      /** `drawLine(x, top, x, bottom)` with the divider paint */
    | Divider(x: int, top: int, bottom: int, color: Color)

  /** The commands a pass issued, and the exception that ended it early, if any. */
  datatype Frame = Frame(commands: seq<DrawCommand>, fault: Option<Exception>)

  /** The thin full-width underline along the bottom edge. */
  function UnderlineOf(style: Style, height: int, width: int): DrawCommand {
    Underline(height - style.underlineThickness, width, height, style.underlineColor)
  }

  /** The indicator rectangle, centred vertically on `height - indicatorThickness / 2`. */
  function IndicatorRect(style: Style, left: int, right: int, thickness: real, color: Color, height: int): DrawCommand {
    var centre := height as real - style.indicatorThickness as real / 2.0;
    Indicator(left, centre - thickness / 2.0, right, centre + thickness / 2.0, color,
              style.indicatorCornerRadius > 0.0)
  }

  /** The indicator is travelling from the selected tab toward the next one. */
  predicate MidScroll(s: StripState) {
    s.selectionOffset > 0.0 && 0 <= s.selectedPosition < |s.tabs| - 1
  }

  /**
   * What a draw pass needs of the state: mid-scroll, the offset is at most 1
   * (the pager reports offsets in [0, 1)) and the smart thickness is finite.
   */
  predicate Drawable(curves: EdgeCurves, s: StripState) {
    MidScroll(s) ==> s.selectionOffset <= 1.0 && ThicknessDefined(curves, s.interpolator, s.selectionOffset)
  }

  /** The outcome of the indicator part of a draw pass. */
  datatype IndicatorStep = NoChildren | Painted(command: DrawCommand) | Raised(error: Exception)

  /**
   * The indicator: the selected tab's bounds, moved toward the next tab's by
   * the interpolator's edges while mid-scroll, with the colour blended toward
   * the next tab's colour and the thickness scaled. A selected position
   * without a child view makes `getLeft` fail on null.
   */
  function IndicatorPass(style: Style, curves: EdgeCurves, s: StripState, height: int): (step: IndicatorStep)
    requires Drawable(curves, s)
    ensures step.Painted? ==> step.command.Indicator?
  {
    if |s.tabs| == 0 then NoChildren
    else if !(0 <= s.selectedPosition < |s.tabs|) then Raised(NullPointer)
    else
      var current := s.tabs[s.selectedPosition];
      match IndicatorColor(s.colorizer, s.selectedPosition)
      case Failure(e) => Raised(e)
      case Success(color) =>
        if !MidScroll(s) then
          Painted(IndicatorRect(style, current.left, current.right, style.indicatorThickness as real, color, height))
        else
          match IndicatorColor(s.colorizer, s.selectedPosition + 1)
          case Failure(e) => Raised(e)
          case Success(nextColor) => Painted(Travelling(style, curves, s, height, color, nextColor))
  }

  /** The indicator partway between the selected tab and the next one. */
  function Travelling(style: Style, curves: EdgeCurves, s: StripState, height: int, color: Color, nextColor: Color): DrawCommand
    requires Drawable(curves, s) && MidScroll(s)
  {
    var offset := s.selectionOffset;
    var current := s.tabs[s.selectedPosition];
    var next := s.tabs[s.selectedPosition + 1];
    var shade := if color != nextColor then BlendColors(nextColor, color, offset) else color;
    var l := LeftEdge(curves, s.interpolator, offset);
    var r := RightEdge(curves, s.interpolator, offset);
    var t := Thickness(curves, s.interpolator, offset);
    IndicatorRect(style, EdgeMix(l, next.left, current.left), EdgeMix(r, next.right, current.right),
                  style.indicatorThickness as real * t, shade, height)
  }

  /** `(int) (t * towards + (1 - t) * from)`: an edge moved a fraction `t` of the way. */
  function EdgeMix(t: real, towards: int, from: int): int {
    Trunc(t * towards as real + (1.0 - t) * from as real)
  }

  /** `Math.min(Math.max(0f, x), 1f)`. */
  function Clamp01(x: real): (c: real)
    ensures 0.0 <= c <= 1.0
    ensures 0.0 <= x <= 1.0 ==> c == x
  {
    if x < 0.0 then 0.0 else if x > 1.0 then 1.0 else x
  }

  /** The separator height in pixels, a clamped fraction of the strip height. */
  function DividerHeightPx(dividerHeight: real, height: int): int {
    Trunc(Clamp01(dividerHeight) * height as real)
  }

  /** `childCount - 1` separators, none for at most one child. */
  function DividerCount(childCount: int): nat {
    if childCount > 0 then childCount - 1 else 0
  }

  /** The first `k` separators, in order, stopped by the first colour lookup that throws. */
  function Dividers(tabs: seq<Tab>, tc: TabColorizer, top: int, px: int, k: nat): Frame
    requires k <= |tabs|
  {
    if k == 0 then Frame([], None)
    else
      var prev := Dividers(tabs, tc, top, px, k - 1);
      if prev.fault.Some? then prev
      else
        match DividerColor(tc, k - 1)
        case Failure(e) => Frame(prev.commands, Some(e))
        case Success(c) => Frame(prev.commands + [Divider(tabs[k - 1].right, top, top + px, c)], None)
  }

  /** The separators of a pass: one per adjacent pair of children, vertically centred. */
  function Separators(style: Style, s: StripState, height: int): Frame {
    var px := DividerHeightPx(style.dividerHeight, height);
    Dividers(s.tabs, s.colorizer, Half(height - px), px, DividerCount(|s.tabs|))
  }

  /** The underline and the indicator, in the order the style asks for. */
  function Decorations(style: Style, step: IndicatorStep, height: int, width: int): seq<DrawCommand> {
    var underline := UnderlineOf(style, height, width);
    var shown := if step.Painted? then [step.command] else [];
    if style.indicatorInFront then [underline] + shown else shown + [underline]
  }

  /**
   * A draw pass: the underline before the indicator when the indicator is in
   * front, after it otherwise, and the separators last.
   */
  function Draw(style: Style, curves: EdgeCurves, s: StripState, height: int, width: int): Frame
    requires Drawable(curves, s)
  {
    Compose(style, IndicatorPass(style, curves, s, height), Separators(style, s, height), height, width)
  }

  /**
   * The pass assembled from its indicator step and its separators: a raised
   * exception ends it after the front underline, if any; otherwise the
   * decorations come first and the separators last.
   */
  function Compose(style: Style, step: IndicatorStep, separators: Frame, height: int, width: int): Frame {
    if step.Raised? then
      Frame(if style.indicatorInFront then [UnderlineOf(style, height, width)] else [], Some(step.error))
    else
      Frame(Decorations(style, step, height, width) + separators.commands, separators.fault)
  }

  /** The separator drawn at the right edge of tab `i`. */
  function DividerAt(tabs: seq<Tab>, tc: TabColorizer, top: int, px: int, i: nat): DrawCommand
    requires i < |tabs| && DividerColor(tc, i).Success?
  {
    Divider(tabs[i].right, top, top + px, DividerColor(tc, i).value)
  }

  /** The colorizer always answers (custom) or has colours to index (default). */
  predicate HasIndicatorColors(tc: TabColorizer) {
    tc.Custom? || |tc.indicatorColors| > 0
  }

  predicate HasDividerColors(tc: TabColorizer) {
    tc.Custom? || |tc.dividerColors| > 0
  }

  /**
   * The separators are drawn in order, divider `i` at tab `i`'s right edge in
   * divider colour `i`, until a lookup throws; without a fault all `k` are drawn.
   */
  lemma {:induction false} DividersShape(tabs: seq<Tab>, tc: TabColorizer, top: int, px: int, k: nat)
    requires k <= |tabs|
    ensures var f := Dividers(tabs, tc, top, px, k);
      && |f.commands| <= k
      && (forall i :: 0 <= i < |f.commands| ==>
            DividerColor(tc, i).Success? && f.commands[i] == DividerAt(tabs, tc, top, px, i))
      && (f.fault.None? ==> |f.commands| == k)
      && (f.fault.Some? ==> |f.commands| < k && DividerColor(tc, |f.commands|) == Failure(f.fault.value))
  {
    if k > 0 {
      DividersShape(tabs, tc, top, px, k - 1);
    }
  }

  /** Once a separator lookup has thrown, no further separator is drawn. */
  lemma {:induction false} DividersSticky(tabs: seq<Tab>, tc: TabColorizer, top: int, px: int, i: nat, k: nat)
    requires i <= k <= |tabs|
    requires Dividers(tabs, tc, top, px, i).fault.Some?
    ensures Dividers(tabs, tc, top, px, k) == Dividers(tabs, tc, top, px, i)
  {
    if i < k {
      DividersSticky(tabs, tc, top, px, i, k - 1);
    }
  }

  /** Separator colour lookups at non-negative positions throw exactly when the default colorizer has no divider colours. */
  lemma {:induction false} DividersFault(tabs: seq<Tab>, tc: TabColorizer, top: int, px: int, k: nat)
    requires k <= |tabs|
    ensures Dividers(tabs, tc, top, px, k).fault ==
              (if k > 0 && !HasDividerColors(tc) then Some(Arithmetic) else None)
  {
    if k > 0 {
      DividersFault(tabs, tc, top, px, k - 1);
    }
  }

  /**
   * Draw order: without a fault the underline is issued exactly once, before
   * the indicator iff the indicator is in front; there is an indicator iff
   * there are children; the separators come last.
   */
  lemma DrawOrder(style: Style, curves: EdgeCurves, s: StripState, height: int, width: int)
    requires Drawable(curves, s)
    requires Draw(style, curves, s, height, width).fault.None?
    ensures var cs := Draw(style, curves, s, height, width).commands;
      var u := if |s.tabs| == 0 || style.indicatorInFront then 0 else 1;
      && |cs| == (if |s.tabs| == 0 then 1 else 2 + DividerCount(|s.tabs|))
      && cs[u] == UnderlineOf(style, height, width)
      && (forall k :: 0 <= k < |cs| && cs[k].Underline? ==> k == u)
      && (|s.tabs| > 0 ==> cs[1 - u].Indicator?)
      && (forall k :: 0 <= k < |cs| && cs[k].Indicator? ==> |s.tabs| > 0 && k == 1 - u)
      && (forall k :: 0 <= k < |cs| && k > (if |s.tabs| == 0 then 0 else 1) ==> cs[k].Divider?)
  {
    ComposedOrder(style, IndicatorPass(style, curves, s, height), s, height, width);
  }

  /** `DrawOrder` for any indicator step that paints an indicator exactly when there are children. */
  lemma ComposedOrder(style: Style, step: IndicatorStep, s: StripState, height: int, width: int)
    requires step.NoChildren? <==> |s.tabs| == 0
    requires step.Painted? ==> step.command.Indicator?
    requires Compose(style, step, Separators(style, s, height), height, width).fault.None?
    ensures var cs := Compose(style, step, Separators(style, s, height), height, width).commands;
      var u := if |s.tabs| == 0 || style.indicatorInFront then 0 else 1;
      && |cs| == (if |s.tabs| == 0 then 1 else 2 + DividerCount(|s.tabs|))
      && cs[u] == UnderlineOf(style, height, width)
      && (forall k :: 0 <= k < |cs| && cs[k].Underline? ==> k == u)
      && (|s.tabs| > 0 ==> cs[1 - u].Indicator?)
      && (forall k :: 0 <= k < |cs| && cs[k].Indicator? ==> |s.tabs| > 0 && k == 1 - u)
      && (forall k :: 0 <= k < |cs| && k > (if |s.tabs| == 0 then 0 else 1) ==> cs[k].Divider?)
  {
    var separators := Separators(style, s, height);
    var deco := Decorations(style, step, height, width);
    ComposedSeparatorsLast(style, step, separators, height, width);
    SeparatorsShape(style, s, height);
    DecorationsShape(style, step, height, width);
    var cs := Compose(style, step, separators, height, width).commands;
    assert cs == deco + separators.commands;
    forall k | |deco| <= k < |cs|
      ensures cs[k].Divider?
    {
      assert cs[k] == separators.commands[k - |deco|];
    }
  }

  /** The decorations: the underline, and the indicator before or after it as the style asks. */
  lemma DecorationsShape(style: Style, step: IndicatorStep, height: int, width: int)
    ensures var d := Decorations(style, step, height, width);
      var u := if !step.Painted? || style.indicatorInFront then 0 else 1;
      && |d| == (if step.Painted? then 2 else 1)
      && d[u] == UnderlineOf(style, height, width)
      && (step.Painted? ==> d[1 - u] == step.command)
  {
  }

  /**
   * Separators last: without a fault the pass ends with exactly its
   * `childCount - 1` separators (none for at most one child), and no
   * separator comes before them. `SeparatorsShape` says where each one is.
   */
  lemma DividerPlacement(style: Style, curves: EdgeCurves, s: StripState, height: int, width: int)
    requires Drawable(curves, s)
    requires Draw(style, curves, s, height, width).fault.None?
    ensures DividerCount(|s.tabs|) <= |Draw(style, curves, s, height, width).commands|
    ensures var cs := Draw(style, curves, s, height, width).commands;
      cs[|cs| - DividerCount(|s.tabs|)..] == Separators(style, s, height).commands
    ensures var cs := Draw(style, curves, s, height, width).commands;
      forall k :: 0 <= k < |cs| - DividerCount(|s.tabs|) ==> !cs[k].Divider?
  {
    var step := IndicatorPass(style, curves, s, height);
    var separators := Separators(style, s, height);
    var deco := Decorations(style, step, height, width);
    ComposedSeparatorsLast(style, step, separators, height, width);
    SeparatorsShape(style, s, height);
    var cs := deco + separators.commands;
    assert cs[|deco|..] == separators.commands;
    forall k | 0 <= k < |deco|
      ensures !cs[k].Divider?
    {
      assert cs[k] == deco[k];
    }
  }

  /** Completed, the pass is its decorations, none of them a separator, followed by its separators. */
  lemma ComposedSeparatorsLast(style: Style, step: IndicatorStep, separators: Frame, height: int, width: int)
    requires step.Painted? ==> step.command.Indicator?
    requires Compose(style, step, separators, height, width).fault.None?
    ensures var deco := Decorations(style, step, height, width);
      && !step.Raised? && separators.fault.None?
      && Compose(style, step, separators, height, width).commands == deco + separators.commands
      && (forall k :: 0 <= k < |deco| ==> !deco[k].Divider?)
  {
    DecorationsShape(style, step, height, width);
  }

  /** The separators of a completed pass: divider `i` at tab `i`'s right edge, in divider colour `i`. */
  lemma SeparatorsShape(style: Style, s: StripState, height: int)
    requires Separators(style, s, height).fault.None?
    ensures var f := Separators(style, s, height);
      var px := DividerHeightPx(style.dividerHeight, height);
      var top := Half(height - px);
      && |f.commands| == DividerCount(|s.tabs|)
      && forall i :: 0 <= i < |f.commands| ==>
           DividerColor(s.colorizer, i).Success? &&
           f.commands[i] == Divider(s.tabs[i].right, top, top + px, DividerColor(s.colorizer, i).value)
  {
    var px := DividerHeightPx(style.dividerHeight, height);
    DividersShape(s.tabs, s.colorizer, Half(height - px), px, DividerCount(|s.tabs|));
  }

  /**
   * The exceptions of a draw pass: a selected position without a child view,
   * then an empty indicator colour array, then (with at least two children)
   * an empty divider colour array.
   */
  lemma DrawFaults(style: Style, curves: EdgeCurves, s: StripState, height: int, width: int)
    requires Drawable(curves, s)
    ensures Draw(style, curves, s, height, width).fault ==
      if |s.tabs| > 0 && !(0 <= s.selectedPosition < |s.tabs|) then Some(NullPointer)
      else if |s.tabs| > 0 && !HasIndicatorColors(s.colorizer) then Some(Arithmetic)
      else if |s.tabs| > 1 && !HasDividerColors(s.colorizer) then Some(Arithmetic)
      else None
  {
    var px := DividerHeightPx(style.dividerHeight, height);
    DividersFault(s.tabs, s.colorizer, Half(height - px), px, DividerCount(|s.tabs|));
  }

  /**
   * At rest (no positive offset, or the last tab selected) the indicator spans
   * the selected tab exactly, in its colour, at full thickness flush with the
   * bottom edge.
   */
  lemma IndicatorAtRest(style: Style, curves: EdgeCurves, s: StripState, height: int)
    requires Drawable(curves, s)
    requires 0 <= s.selectedPosition < |s.tabs|
    requires s.selectionOffset <= 0.0 || s.selectedPosition == |s.tabs| - 1
    requires IndicatorColor(s.colorizer, s.selectedPosition).Success?
    ensures var tab := s.tabs[s.selectedPosition];
      IndicatorPass(style, curves, s, height) ==
        Painted(Indicator(tab.left, (height - style.indicatorThickness) as real, tab.right, height as real,
                          IndicatorColor(s.colorizer, s.selectedPosition).value,
                          style.indicatorCornerRadius > 0.0))
  {
  }

  /** Mid-scroll the indicator is the travelling one, coloured by the two tabs' indicator colours. */
  lemma IndicatorMidScroll(style: Style, curves: EdgeCurves, s: StripState, height: int)
    requires Drawable(curves, s) && MidScroll(s)
    requires IndicatorColor(s.colorizer, s.selectedPosition).Success?
    requires IndicatorColor(s.colorizer, s.selectedPosition + 1).Success?
    ensures IndicatorPass(style, curves, s, height) ==
              Painted(Travelling(style, curves, s, height,
                                 IndicatorColor(s.colorizer, s.selectedPosition).value,
                                 IndicatorColor(s.colorizer, s.selectedPosition + 1).value))
  {
  }

  /**
   * The travelling indicator: its edges follow the interpolator (`left = (int)
   * (L * next.left + (1 - L) * current.left)`, likewise right) and stay between
   * the two tabs' edges while the interpolator's edges are in [0, 1]; its
   * thickness is scaled by the interpolator around the at-rest centre line; its
   * colour is the blend of the next and current colours with ratio offset,
   * unless they are equal.
   */
  lemma TravellingShape(style: Style, curves: EdgeCurves, s: StripState, height: int, color: Color, nextColor: Color)
    requires Drawable(curves, s) && MidScroll(s)
    ensures var c := Travelling(style, curves, s, height, color, nextColor);
      var current := s.tabs[s.selectedPosition];
      var next := s.tabs[s.selectedPosition + 1];
      var o := s.selectionOffset;
      var l := LeftEdge(curves, s.interpolator, o);
      var r := RightEdge(curves, s.interpolator, o);
      && c.Indicator?
      && c.left == EdgeMix(l, next.left, current.left)
      && c.right == EdgeMix(r, next.right, current.right)
      && (0.0 <= l <= 1.0 ==> Between(c.left, current.left, next.left))
      && (0.0 <= r <= 1.0 ==> Between(c.right, current.right, next.right))
      && c.rectBottom - c.rectTop == style.indicatorThickness as real * Thickness(curves, s.interpolator, o)
      && c.rectTop + c.rectBottom == 2.0 * height as real - style.indicatorThickness as real
      && c.color == (if color == nextColor then color else BlendColors(nextColor, color, o))
      && c.rounded == (style.indicatorCornerRadius > 0.0)
  {
    TravellingEdges(style, curves, s, height, color, nextColor);
    TravellingBand(style, curves, s, height, color, nextColor);
    TravellingColor(style, curves, s, height, color, nextColor);
  }

  /** The travelling indicator's edges, and where they stay. */
  lemma TravellingEdges(style: Style, curves: EdgeCurves, s: StripState, height: int, color: Color, nextColor: Color)
    requires Drawable(curves, s) && MidScroll(s)
    ensures var c := Travelling(style, curves, s, height, color, nextColor);
      var current := s.tabs[s.selectedPosition];
      var next := s.tabs[s.selectedPosition + 1];
      var l := LeftEdge(curves, s.interpolator, s.selectionOffset);
      var r := RightEdge(curves, s.interpolator, s.selectionOffset);
      && c.Indicator?
      && c.left == EdgeMix(l, next.left, current.left)
      && c.right == EdgeMix(r, next.right, current.right)
      && (0.0 <= l <= 1.0 ==> Between(c.left, current.left, next.left))
      && (0.0 <= r <= 1.0 ==> Between(c.right, current.right, next.right))
  {
    var current := s.tabs[s.selectedPosition];
    var next := s.tabs[s.selectedPosition + 1];
    var l := LeftEdge(curves, s.interpolator, s.selectionOffset);
    var r := RightEdge(curves, s.interpolator, s.selectionOffset);
    if 0.0 <= l <= 1.0 {
      EdgeMixBetween(l, next.left, current.left);
    }
    if 0.0 <= r <= 1.0 {
      EdgeMixBetween(r, next.right, current.right);
    }
  }

  /** The travelling indicator's band: scaled thickness about the at-rest centre line. */
  lemma TravellingBand(style: Style, curves: EdgeCurves, s: StripState, height: int, color: Color, nextColor: Color)
    requires Drawable(curves, s) && MidScroll(s)
    ensures var c := Travelling(style, curves, s, height, color, nextColor);
      && c.Indicator?
      && c.rectBottom - c.rectTop == style.indicatorThickness as real * Thickness(curves, s.interpolator, s.selectionOffset)
      && c.rectTop + c.rectBottom == 2.0 * height as real - style.indicatorThickness as real
  {
    var c := Travelling(style, curves, s, height, color, nextColor);
    var t := style.indicatorThickness as real * Thickness(curves, s.interpolator, s.selectionOffset);
    IndicatorRectShape(style, c.left, c.right, t, c.color, height);
  }

  /** The travelling indicator's colour and corners. */
  lemma TravellingColor(style: Style, curves: EdgeCurves, s: StripState, height: int, color: Color, nextColor: Color)
    requires Drawable(curves, s) && MidScroll(s)
    ensures var c := Travelling(style, curves, s, height, color, nextColor);
      && c.Indicator?
      && c.color == (if color == nextColor then color else BlendColors(nextColor, color, s.selectionOffset))
      && c.rounded == (style.indicatorCornerRadius > 0.0)
  {
  }

  /** The indicator rectangle is `thickness` tall around the line `height - indicatorThickness / 2`. */
  lemma IndicatorRectShape(style: Style, left: int, right: int, thickness: real, color: Color, height: int)
    ensures var c := IndicatorRect(style, left, right, thickness, color, height);
      && c.rectBottom - c.rectTop == thickness
      && c.rectTop + c.rectBottom == 2.0 * height as real - style.indicatorThickness as real
  {
  }

  /** An edge mixed with a part `t` in [0, 1] lies between the two tab edges, as a blended channel does. */
  lemma EdgeMixBetween(t: real, towards: int, from: int)
    requires 0.0 <= t <= 1.0
    ensures Between(EdgeMix(t, towards, from), towards, from)
  {
    MixTrunc(towards, from, t);
    assert t * towards as real + (1.0 - t) * from as real == towards as real * t + from as real * (1.0 - t);
  }

  /**
   * With the linear interpolator the indicator never turns inside out: if both
   * tabs have left <= right, so does the indicator mid-scroll.
   */
  lemma LinearIndicatorOrdered(style: Style, curves: EdgeCurves, s: StripState, height: int)
    requires Drawable(curves, s) && MidScroll(s) && s.interpolator == LINEAR
    requires IndicatorColor(s.colorizer, s.selectedPosition).Success?
    requires IndicatorColor(s.colorizer, s.selectedPosition + 1).Success?
    requires s.tabs[s.selectedPosition].left <= s.tabs[s.selectedPosition].right
    requires s.tabs[s.selectedPosition + 1].left <= s.tabs[s.selectedPosition + 1].right
    ensures IndicatorPass(style, curves, s, height).Painted?
    ensures IndicatorPass(style, curves, s, height).command.left <= IndicatorPass(style, curves, s, height).command.right
  {
    var current := s.tabs[s.selectedPosition];
    var next := s.tabs[s.selectedPosition + 1];
    var o := s.selectionOffset;
    IndicatorMidScroll(style, curves, s, height);
    TravellingShape(style, curves, s, height,
                    IndicatorColor(s.colorizer, s.selectedPosition).value,
                    IndicatorColor(s.colorizer, s.selectedPosition + 1).value);
    LinearIndication(curves, o);
    EdgeMixMonotone(o, next.left, current.left, next.right, current.right);
  }

  /** Moving both end points of a mix up moves the truncated mix up. */
  lemma EdgeMixMonotone(t: real, a: int, b: int, a': int, b': int)
    requires 0.0 <= t <= 1.0 && a <= a' && b <= b'
    ensures EdgeMix(t, a, b) <= EdgeMix(t, a', b')
  {
    var x := t * a as real + (1.0 - t) * b as real;
    var y := t * a' as real + (1.0 - t) * b' as real;
    var p := (a' - a) as real * t;
    var q := (b' - b) as real * (1.0 - t);
    ScaledWithin((a' - a) as real, t, p);
    ScaledWithin((b' - b) as real, 1.0 - t, q);
    MixDifference(t, a as real, b as real, a' as real, b' as real, x, y, p, q);
    TruncMonotone(x, y);
  }

  /** The difference of two mixes is the mix of the differences. */
  lemma MixDifference(t: real, a: real, b: real, a': real, b': real, x: real, y: real, p: real, q: real)
    requires x == t * a + (1.0 - t) * b && y == t * a' + (1.0 - t) * b'
    requires p == (a' - a) * t && q == (b' - b) * (1.0 - t)
    ensures y - x == p + q
  {
  }

  /** Three tabs [0,50], [50,110], [110,150] halfway from the first to the second, linearly: [25, 80]. */
  lemma LinearHalfwayExample(style: Style, curves: EdgeCurves, c: Color, height: int)
    ensures var s := StripState([Tab(0, 0, 50, 50, true), Tab(1, 50, 110, 60, false), Tab(2, 110, 150, 40, false)],
                                0, 0.5, LINEAR, Simple([c], [c]));
      var step := IndicatorPass(style, curves, s, height);
      step.Painted? && step.command.left == 25 && step.command.right == 80
  {
    var s := StripState([Tab(0, 0, 50, 50, true), Tab(1, 50, 110, 60, false), Tab(2, 110, 150, 40, false)],
                        0, 0.5, LINEAR, Simple([c], [c]));
    assert 0.5 * 50 as real + (1.0 - 0.5) * 0 as real == 25.0;
    assert 0.5 * 110 as real + (1.0 - 0.5) * 50 as real == 80.0;
    TruncOfInt(25);
    TruncOfInt(80);
  }

  /** The tab strip view: its children, selection state and colours. */
  class SmartTabStrip {
    const style: Style
    const indicatorAlwaysInCenter: bool
    const curves: EdgeCurves
    var tabs: seq<Tab>
    var lastPosition: int
    var selectedPosition: int
    var selectionOffset: real
    var indicationInterpolator: Interpolator
    var customTabColorizer: Option<CustomColorizer>
    var indicatorColors: seq<Color>
    var dividerColors: seq<Color>

    /** A strip with no children, settled on position 0, using the default colorizer. */
    constructor (style: Style, indicatorAlwaysInCenter: bool, interpolator: Interpolator, curves: EdgeCurves,
                 indicatorColors: seq<Color>, dividerColors: seq<Color>)
      ensures this.style == style && this.indicatorAlwaysInCenter == indicatorAlwaysInCenter
      ensures this.curves == curves && indicationInterpolator == interpolator
      ensures this.indicatorColors == indicatorColors && this.dividerColors == dividerColors
      ensures customTabColorizer == None && tabs == []
      ensures selectedPosition == 0 && selectionOffset == 0.0 && lastPosition == 0
    {
      this.style := style;
      this.indicatorAlwaysInCenter := indicatorAlwaysInCenter;
      this.curves := curves;
      this.indicationInterpolator := interpolator;
      this.indicatorColors := indicatorColors;
      this.dividerColors := dividerColors;
      customTabColorizer := None;
      tabs := [];
      selectedPosition, selectionOffset, lastPosition := 0, 0.0, 0;
    }

    /** The colorizer a draw pass uses: the custom one if set, the default one otherwise. */
    function TabColorizer(): TabColorizer
      reads this
    {
      if customTabColorizer.Some? then Custom(customTabColorizer.value)
      else Simple(indicatorColors, dividerColors)
    }

    function State(): StripState
      reads this
    {
      StripState(tabs, selectedPosition, selectionOffset, indicationInterpolator, TabColorizer())
    }

    /** `setCustomTabColorizer`: installs (or, with null, removes) the custom colorizer. */
    method SetCustomTabColorizer(colorizer: Option<CustomColorizer>)
      modifies this`customTabColorizer
      ensures customTabColorizer == colorizer
      ensures TabColorizer() == if colorizer.Some? then Custom(colorizer.value)
                                else Simple(indicatorColors, dividerColors)
    {
      customTabColorizer := colorizer;
    }

    /** `setSelectedIndicatorColors`: removes the custom colorizer and replaces the indicator colours. */
    method SetSelectedIndicatorColors(colors: seq<Color>)
      modifies this`customTabColorizer, this`indicatorColors
      ensures customTabColorizer == None && indicatorColors == colors
      ensures TabColorizer() == Simple(colors, dividerColors)
    {
      customTabColorizer := None;
      indicatorColors := colors;
    }

    /** `setDividerColors`: removes the custom colorizer and replaces the divider colours. */
    method SetDividerColors(colors: seq<Color>)
      modifies this`customTabColorizer, this`dividerColors
      ensures customTabColorizer == None && dividerColors == colors
      ensures TabColorizer() == Simple(indicatorColors, colors)
    {
      customTabColorizer := None;
      dividerColors := colors;
    }

    /**
     * `onViewPagerPageChanged`: records the position and offset; the last
     * position follows only when the pager has settled (offset 0).
     */
    method OnViewPagerPageChanged(position: int, positionOffset: real)
      modifies this`selectedPosition, this`selectionOffset, this`lastPosition
      ensures selectedPosition == position && selectionOffset == positionOffset
      ensures lastPosition == if positionOffset == 0.0 then position else old(lastPosition)
    {
      selectedPosition := position;
      selectionOffset := positionOffset;
      if positionOffset == 0.0 && lastPosition != selectedPosition {
        lastPosition := selectedPosition;
      }
    }

    /** `addView`: appends a child. */
    method AddView(tab: Tab)
      modifies this`tabs
      ensures tabs == old(tabs) + [tab]
    {
      tabs := tabs + [tab];
    }

    /** `getChildAt(index).setSelected(selected)`. */
    method SetTabSelected(index: int, selected: bool)
      requires 0 <= index < |tabs|
      modifies this`tabs
      ensures tabs == old(tabs)[index := old(tabs)[index].(selected := selected)]
    {
      tabs := tabs[index := tabs[index].(selected := selected)];
    }

    /** `removeAllViews`. */
    method RemoveAllViews()
      modifies this`tabs
      ensures tabs == []
    {
      tabs := [];
    }

    /** `onDraw`: one draw pass over the current state, as `Draw` specifies. */
    method OnDraw(height: int, width: int) returns (frame: Frame)
      requires Drawable(curves, State())
      ensures frame == Draw(style, curves, State(), height, width)
    {
      var underline := UnderlineOf(style, height, width);
      var commands: seq<DrawCommand> := [];

      if style.indicatorInFront {
        commands := commands + [underline];
      }

      var step := DrawIndicator(height);
      if step.Raised? {
        return Frame(commands, Some(step.error));
      }
      if step.Painted? {
        commands := commands + [step.command];
      }

      if !style.indicatorInFront {
        commands := commands + [underline];
      }

      var separators := DrawDividers(height);
      frame := Frame(commands + separators.commands, separators.fault);
    }

    /** The indicator part of `onDraw`: the thick coloured line below the current selection. */
    method DrawIndicator(height: int) returns (step: IndicatorStep)
      requires Drawable(curves, State())
      ensures step == IndicatorPass(style, curves, State(), height)
    {
      if |tabs| == 0 {
        return NoChildren;
      }
      if !(0 <= selectedPosition < |tabs|) {
        return Raised(NullPointer);
      }
      var tabColorizer := TabColorizer();
      var selectedTitle := tabs[selectedPosition];
      var left := selectedTitle.left;
      var right := selectedTitle.right;
      var lookup := IndicatorColor(tabColorizer, selectedPosition);
      if lookup.Failure? {
        return Raised(lookup.error);
      }
      var color := lookup.value;
      var thickness := style.indicatorThickness as real;

      if selectionOffset > 0.0 && selectedPosition < |tabs| - 1 {
        var nextLookup := IndicatorColor(tabColorizer, selectedPosition + 1);
        if nextLookup.Failure? {
          return Raised(nextLookup.error);
        }
        var nextColor := nextLookup.value;
        ghost var ownColor := color;
        if color != nextColor {
          color := BlendColors(nextColor, color, selectionOffset);
        }
        var leftOffset := LeftEdge(curves, indicationInterpolator, selectionOffset);
        var rightOffset := RightEdge(curves, indicationInterpolator, selectionOffset);
        var thicknessOffset := Thickness(curves, indicationInterpolator, selectionOffset);
        var nextTitle := tabs[selectedPosition + 1];
        left := EdgeMix(leftOffset, nextTitle.left, left);
        right := EdgeMix(rightOffset, nextTitle.right, right);
        thickness := thickness * thicknessOffset;
        assert IndicatorRect(style, left, right, thickness, color, height) ==
               Travelling(style, curves, State(), height, ownColor, nextColor);
      }
      step := Painted(IndicatorRect(style, left, right, thickness, color, height));
    }

    /** The separator part of `onDraw`: a vertical line at the right edge of every tab but the last. */
    method DrawDividers(height: int) returns (separators: Frame)
      ensures separators == Separators(style, State(), height)
    {
      var dividerHeightPx := DividerHeightPx(style.dividerHeight, height);
      var tabColorizer := TabColorizer();
      var separatorTop := Half(height - dividerHeightPx);
      var commands: seq<DrawCommand> := [];
      var i := 0;
      while i < |tabs| - 1
        invariant 0 <= i <= DividerCount(|tabs|)
        invariant Dividers(tabs, tabColorizer, separatorTop, dividerHeightPx, i) == Frame(commands, None)
      {
        var dividerColor := DividerColor(tabColorizer, i);
        if dividerColor.Failure? {
          DividersSticky(tabs, tabColorizer, separatorTop, dividerHeightPx, i + 1, DividerCount(|tabs|));
          return Frame(commands, Some(dividerColor.error));
        }
        commands := commands + [Divider(tabs[i].right, separatorTop, separatorTop + dividerHeightPx, dividerColor.value)];
        i := i + 1;
      }
      separators := Frame(commands, None);
    }
  }
}
