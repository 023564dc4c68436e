/**
 * `SmartTabIndicationInterpolator`: how far the indicator's left and right
 * edges have travelled toward the next tab for a scroll offset, and how thick
 * it is meanwhile. The smart variant's edges are the platform's accelerate and
 * decelerate curves, which are foreign code and enter the model as parameters.
 */
module Interpolation {
  import opened Wrappers
  import opened JavaLang

  /**
   * The platform curves: `accelerate(f, x)` stands for
   * `new AccelerateInterpolator(f).getInterpolation(x)`, and
   * `decelerate(f, x)` for the `DecelerateInterpolator` counterpart.
   */
  datatype EdgeCurves = EdgeCurves(accelerate: (real, real) -> real, decelerate: (real, real) -> real)

  /** The two interpolators; `Smart` carries the factor its two curves were built with. */
  datatype Interpolator = Smart(factor: real) | Linear

  const DEFAULT_INDICATOR_INTERPOLATION_FACTOR: real := 3.0

  /** The shared instances `SMART` and `LINEAR`. */
  const SMART: Interpolator := Smart(DEFAULT_INDICATOR_INTERPOLATION_FACTOR)
  const LINEAR: Interpolator := Linear

  const ID_SMART: int := 0
  const ID_LINEAR: int := 1

  /** `of(id)`: the shared instance for a known id, `IllegalArgumentException` otherwise. */
  function Of(id: int): (r: Result<Interpolator, Exception>)
    ensures r.Success? <==> id == ID_SMART || id == ID_LINEAR
    ensures id == ID_SMART ==> r == Success(SMART)
    ensures id == ID_LINEAR ==> r == Success(LINEAR)
    ensures r.Failure? ==> r.error == IllegalArgument(id)
  {
    match id
    case 0 => Success(SMART)
    case 1 => Success(LINEAR)
    case _ => Failure(IllegalArgument(id))
  }

  /** `getLeftEdge(offset)`. */
  function LeftEdge(curves: EdgeCurves, i: Interpolator, offset: real): real {
    match i
    case Smart(factor) => curves.accelerate(factor, offset)
    case Linear => offset
  }

  /** `getRightEdge(offset)`. */
  function RightEdge(curves: EdgeCurves, i: Interpolator, offset: real): real {
    match i
    case Smart(factor) => curves.decelerate(factor, offset)
    case Linear => offset
  }

  /** The base class's `getThickness`: always the full thickness. */
  function DefaultThickness(offset: real): real {
    1.0
  }

  /**
   * The smart thickness divides by `1 - leftEdge + rightEdge`; Java's float
   * division by zero (an infinite thickness) is excluded here.
   */
  predicate ThicknessDefined(curves: EdgeCurves, i: Interpolator, offset: real) {
    i.Smart? ==> 1.0 - LeftEdge(curves, i, offset) + RightEdge(curves, i, offset) != 0.0
  }

  /** `getThickness(offset)`: linear inherits the default; smart is `1 / (1 - left + right)`. */
  function Thickness(curves: EdgeCurves, i: Interpolator, offset: real): real
    requires ThicknessDefined(curves, i, offset)
  {
    match i
    case Smart(_) => 1.0 / (1.0 - LeftEdge(curves, i, offset) + RightEdge(curves, i, offset))
    case Linear => DefaultThickness(offset)
  }

  /**
   * The linear thickness is the default one; the smart thickness is the
   * inverse of `1 - leftEdge + rightEdge`.
   */
  lemma ThicknessInverse(curves: EdgeCurves, i: Interpolator, offset: real)
    requires ThicknessDefined(curves, i, offset)
    ensures i.Linear? ==> Thickness(curves, i, offset) == DefaultThickness(offset)
    ensures i.Smart? ==>
      Thickness(curves, i, offset) * (1.0 - LeftEdge(curves, i, offset) + RightEdge(curves, i, offset)) == 1.0
  {
  }

  /** The linear interpolator moves both edges exactly with the offset, at full thickness. */
  lemma LinearIndication(curves: EdgeCurves, offset: real)
    ensures LeftEdge(curves, LINEAR, offset) == offset
    ensures RightEdge(curves, LINEAR, offset) == offset
    ensures Thickness(curves, LINEAR, offset) == 1.0
  {
  }

  /** Smart edges are the two curves, built from the same factor, at the same offset. */
  lemma SmartEdges(curves: EdgeCurves, offset: real)
    ensures LeftEdge(curves, SMART, offset) == curves.accelerate(3.0, offset)
    ensures RightEdge(curves, SMART, offset) == curves.decelerate(3.0, offset)
  {
  }

  /** Where the two smart edges coincide the indicator has its full thickness. */
  lemma SmartThicknessFullWhenEdgesMeet(curves: EdgeCurves, factor: real, offset: real)
    requires LeftEdge(curves, Smart(factor), offset) == RightEdge(curves, Smart(factor), offset)
    ensures Thickness(curves, Smart(factor), offset) == 1.0
  {
  }

  /** While the right edge leads the left one the smart indicator is thinner than full. */
  lemma SmartThinsWhileStretched(curves: EdgeCurves, factor: real, offset: real)
    requires LeftEdge(curves, Smart(factor), offset) < RightEdge(curves, Smart(factor), offset)
    ensures 0.0 < Thickness(curves, Smart(factor), offset) < 1.0
  {
    var i := Smart(factor);
    var s := 1.0 - LeftEdge(curves, i, offset) + RightEdge(curves, i, offset);
    var t := Thickness(curves, i, offset);
    ThicknessInverse(curves, i, offset);
    assert s > 1.0 && t * s == 1.0;
  }

  /** While the left edge leads the right one the smart indicator is thicker than full. */
  lemma SmartThickensWhileLeftLeads(curves: EdgeCurves, factor: real, offset: real)
    requires RightEdge(curves, Smart(factor), offset) < LeftEdge(curves, Smart(factor), offset)
    requires LeftEdge(curves, Smart(factor), offset) - RightEdge(curves, Smart(factor), offset) < 1.0
    ensures Thickness(curves, Smart(factor), offset) > 1.0
  {
    var i := Smart(factor);
    var s := 1.0 - LeftEdge(curves, i, offset) + RightEdge(curves, i, offset);
    var t := Thickness(curves, i, offset);
    ThicknessInverse(curves, i, offset);
    assert 0.0 < s < 1.0 && t * s == 1.0;
  }
}
