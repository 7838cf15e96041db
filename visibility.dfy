/**
 * The geometry behind the fade-in animation (script.js, "Scroll Animations"): an element's
 * bounding rectangle in viewport coordinates and the two visibility tests on it.
 *
 * Rectangle coordinates are exact reals; the window's sizes are integers, as the browser
 * reports them. JavaScript's `innerHeight || clientHeight` falls back to the document's
 * client size when the window size reads 0.
 */
module Visibility {

  datatype Rect = Rect(top: real, left: real, bottom: real, right: real)

  datatype Viewport = Viewport(innerHeight: int, innerWidth: int, clientHeight: int, clientWidth: int)

  /** The window height, or the document's client height when the window height reads 0. */
  function Height(v: Viewport): (h: int)
    ensures v.innerHeight != 0 ==> h == v.innerHeight
    ensures v.innerHeight == 0 ==> h == v.clientHeight
    ensures h == 0 <==> v.innerHeight == 0 && v.clientHeight == 0
  {
    if v.innerHeight != 0 then v.innerHeight else v.clientHeight
  }

  /** The window width, or the document's client width when the window width reads 0. */
  function Width(v: Viewport): (w: int)
    ensures v.innerWidth != 0 ==> w == v.innerWidth
    ensures v.innerWidth == 0 ==> w == v.clientWidth
    ensures w == 0 <==> v.innerWidth == 0 && v.clientWidth == 0
  {
    if v.innerWidth != 0 then v.innerWidth else v.clientWidth
  }

  /**
   * The element lies wholly inside the viewport. Only a viewport of non-negative size can
   * contain a rectangle whose edges are in order.
   */
  predicate IsInViewport(r: Rect, v: Viewport): (inside: bool)
    ensures inside <==> 0.0 <= r.top && 0.0 <= r.left
                        && r.bottom <= Height(v) as real && r.right <= Width(v) as real
    ensures inside && r.top <= r.bottom && r.left <= r.right ==> Height(v) >= 0 && Width(v) >= 0
  {
    && r.top >= 0.0
    && r.left >= 0.0
    && r.bottom <= Height(v) as real
    && r.right <= Width(v) as real
  }

  /**
   * The element's top is above 80% of the viewport height and its bottom below the top
   * edge; in integer-ratio terms, five times the top is less than four times the height.
   * A partially visible element with ordered edges overlaps the viewport's vertical span.
   */
  predicate IsPartiallyVisible(r: Rect, v: Viewport): (visible: bool)
    ensures visible <==> 5.0 * r.top < 4.0 * (Height(v) as real) && r.bottom > 0.0
    ensures visible && Height(v) >= 0 ==> r.top < Height(v) as real && r.bottom > 0.0
  {
    r.top < (Height(v) as real) * 0.8 && r.bottom > 0.0
  }

  /**
   * A fade-in candidate: whether it sits inside the hidden part of the experience timeline
   * and whether it already carries the `visible` marker.
   */
  datatype FadeItem = FadeItem(inHiddenTimeline: bool, visible: bool)

  /**
   * Full containment does not imply partial visibility: an element that lies wholly in the
   * lowest fifth of a non-empty viewport is contained but not yet partially visible.
   */
  lemma ContainedYetNotPartiallyVisible(v: Viewport)
    requires Height(v) > 0 && Width(v) >= 0
    ensures exists r :: IsInViewport(r, v) && !IsPartiallyVisible(r, v)
  {
    var h := Height(v) as real;
    var r := Rect(0.9 * h, 0.0, h, 0.0);
    assert IsInViewport(r, v) && !IsPartiallyVisible(r, v);
  }

  /**
   * Partial visibility does not imply containment either: an element straddling the top
   * edge is partially visible but not contained.
   */
  lemma PartiallyVisibleYetNotContained(v: Viewport)
    requires Height(v) > 0
    ensures exists r :: IsPartiallyVisible(r, v) && !IsInViewport(r, v)
  {
    var r := Rect(-1.0, 0.0, 1.0, 0.0);
    assert IsPartiallyVisible(r, v) && !IsInViewport(r, v);
  }

  /** A non-empty element contained in the upper 80% of the viewport is partially visible. */
  lemma ContainedInUpperBandIsPartiallyVisible(r: Rect, v: Viewport)
    requires IsInViewport(r, v) && r.top < r.bottom
    requires r.bottom <= (Height(v) as real) * 0.8
    ensures IsPartiallyVisible(r, v)
  {
  }
}
