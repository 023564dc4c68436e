/**
 * `Utils`: null-safe accessors for a view's geometry and margins. A null view
 * reads as 0 everywhere; the margin accessors cast the view's layout
 * parameters to margin parameters, which fails for other parameters.
 */
module ViewUtils {
  import opened Wrappers
  import opened JavaLang

  /** A view's layout parameters: margin parameters carry start and end margins. */
  datatype LayoutParams = MarginParams(marginStart: int, marginEnd: int) | PlainParams

  /** The fields of a laid-out view the accessors read. */
  datatype View = View(
    left: int,
    right: int,
    width: int,
    measuredWidth: int,
    paddingStart: int,
    paddingEnd: int,
    layoutParams: Option<LayoutParams>)

  /** `getMeasuredWidth(v)` */
  function GetMeasuredWidth(v: Option<View>): int {
    if v.None? then 0 else v.value.measuredWidth
  }

  /** `getWidth(v)` */
  function GetWidth(v: Option<View>): int {
    if v.None? then 0 else v.value.width
  }

  /** `getRight(v, withoutPadding)`: the right edge, inside the end padding if asked. */
  function GetRightEdge(v: Option<View>, withoutPadding: bool): int {
    if v.None? then 0
    else if withoutPadding then v.value.right - v.value.paddingEnd
    else v.value.right
  }

  /** `getRight(v)` */
  function GetRight(v: Option<View>): int {
    GetRightEdge(v, false)
  }

  /** `getLeft(v, withoutPadding)`: the left edge, inside the start padding if asked. */
  function GetLeftEdge(v: Option<View>, withoutPadding: bool): int {
    if v.None? then 0
    else if withoutPadding then v.value.left + v.value.paddingStart
    else v.value.left
  }

  /** `getLeft(v)` */
  function GetLeft(v: Option<View>): int {
    GetLeftEdge(v, false)
  }

  /**
   * The cast `(ViewGroup.MarginLayoutParams) v.getLayoutParams()` and the
   * compat read that follows: other parameters fail the cast, absent ones
   * make the read fail on null.
   */
  function MarginParamsOf(v: View): Result<LayoutParams, Exception> {
    match v.layoutParams
    case None => Failure(NullPointer)
    case Some(PlainParams) => Failure(ClassCast)
    case Some(lp) => Success(lp)
  }

  /** `getMarginStart(v)` */
  function GetMarginStart(v: Option<View>): Result<int, Exception> {
    if v.None? then Success(0)
    else
      match MarginParamsOf(v.value)
      case Failure(e) => Failure(e)
      case Success(lp) => Success(lp.marginStart)
  }

  /** `getMarginEnd(v)` */
  function GetMarginEnd(v: Option<View>): Result<int, Exception> {
    if v.None? then Success(0)
    else
      match MarginParamsOf(v.value)
      case Failure(e) => Failure(e)
      case Success(lp) => Success(lp.marginEnd)
  }

  /** `getMarginHorizontally(v)` */
  function GetMarginHorizontally(v: Option<View>): Result<int, Exception> {
    if v.None? then Success(0)
    else
      match MarginParamsOf(v.value)
      case Failure(e) => Failure(e)
      case Success(lp) => Success(lp.marginStart + lp.marginEnd)
  }

  /** Every accessor reads 0 for a null view, and the margin accessors do not throw. */
  lemma NullViewIsZero(withoutPadding: bool)
    ensures GetMeasuredWidth(None) == 0 && GetWidth(None) == 0
    ensures GetLeft(None) == 0 && GetRight(None) == 0
    ensures GetLeftEdge(None, withoutPadding) == 0 && GetRightEdge(None, withoutPadding) == 0
    ensures GetMarginStart(None) == Success(0) && GetMarginEnd(None) == Success(0)
    ensures GetMarginHorizontally(None) == Success(0)
  {
  }

  /** The width accessors of a view are its stored width and measured width. */
  lemma WidthAccessors(v: View)
    ensures GetWidth(Some(v)) == v.width && GetMeasuredWidth(Some(v)) == v.measuredWidth
  {
  }

  /** The one-argument edges are the unpadded ones, the view's own left and right. */
  lemma UnpaddedEdges(v: Option<View>)
    ensures GetLeft(v) == GetLeftEdge(v, false) && GetRight(v) == GetRightEdge(v, false)
    ensures v.Some? ==> GetLeft(v) == v.value.left && GetRight(v) == v.value.right
  {
  }

  /**
   * The padded edges move inward by the paddings, so the padded span is the
   * unpadded one less both paddings.
   */
  lemma PaddedEdges(v: View)
    ensures GetLeftEdge(Some(v), true) == v.left + v.paddingStart
    ensures GetRightEdge(Some(v), true) == v.right - v.paddingEnd
    ensures GetRightEdge(Some(v), true) - GetLeftEdge(Some(v), true) ==
            GetRight(Some(v)) - GetLeft(Some(v)) - v.paddingStart - v.paddingEnd
  {
  }

  /**
   * The horizontal margin is the sum of start and end margins, and fails
   * exactly when they do, with the same exception: a cast failure for
   * parameters other than margin parameters, a null dereference for none.
   */
  lemma MarginSum(v: Option<View>)
    ensures GetMarginHorizontally(v).Success? <==> GetMarginStart(v).Success? && GetMarginEnd(v).Success?
    ensures GetMarginHorizontally(v).Success? ==>
              GetMarginHorizontally(v).value == GetMarginStart(v).value + GetMarginEnd(v).value
    ensures GetMarginHorizontally(v).Failure? ==>
              GetMarginHorizontally(v) == GetMarginStart(v) && GetMarginHorizontally(v) == GetMarginEnd(v)
    ensures v.Some? && v.value.layoutParams == Some(PlainParams) ==> GetMarginHorizontally(v) == Failure(ClassCast)
    ensures v.Some? && v.value.layoutParams.None? ==> GetMarginHorizontally(v) == Failure(NullPointer)
  {
  }
}
