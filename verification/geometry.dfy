/**
 * Axis-aligned rectangles and the overlap test of `java.awt.geom.Rectangle2D`,
 * which every sprite's `getBounds`/`intersects` delegates to.
 *
 * Library assumption: `r.intersects(b)` is false when either rectangle is empty
 * (non-positive width or height) and otherwise holds exactly when the two open
 * rectangles overlap, i.e. the overlap has positive area.
 */
module Geometry {

  datatype Rect = Rect(x: real, y: real, w: real, h: real)

  /** The size of a sprite's `BufferedImage`, which its bounds take. */
  datatype Image = Image(width: int, height: int)

  /** `getBounds()`: the sprite's position and its image's size. */
  function BoxAt(x: real, y: real, img: Image): Rect {
    Rect(x, y, img.width as real, img.height as real)
  }

  predicate IsEmpty(r: Rect) { r.w <= 0.0 || r.h <= 0.0 }

  /**
   * `a.intersects(b)`: never true of an empty rectangle, always true of a
   * non-empty rectangle against itself, and the same from either side.
   */
  predicate Intersects(a: Rect, b: Rect)
    ensures Intersects(a, b) ==> !IsEmpty(a) && !IsEmpty(b)
    ensures a == b ==> (Intersects(a, b) <==> !IsEmpty(a))
    ensures Intersects(a, b) == (!IsEmpty(b) && !IsEmpty(a) &&
      a.x + a.w > b.x && a.y + a.h > b.y && a.x < b.x + b.w && a.y < b.y + b.h)
  {
    !IsEmpty(a) && !IsEmpty(b) &&
    b.x + b.w > a.x && b.y + b.h > a.y && b.x < a.x + a.w && b.y < a.y + a.h
  }

  /** The point lies strictly inside the rectangle. */
  predicate Inside(r: Rect, px: real, py: real) {
    r.x < px < r.x + r.w && r.y < py < r.y + r.h
  }

  function Max(a: real, b: real): real { if a < b then b else a }
  function Min(a: real, b: real): real { if a < b then a else b }

  function Abs(a: real): (r: real)
    ensures r >= 0.0 && (r == a || r == -a)
  {
    if a < 0.0 then -a else a
  }

  /** The test does not depend on which rectangle is the receiver. */
  lemma IntersectsSymmetric(a: Rect, b: Rect)
    ensures Intersects(a, b) == Intersects(b, a)
  {
  }

  /** The overlap test is positive-area overlap: some point lies strictly inside both rectangles. */
  lemma IntersectsIffCommonPoint(a: Rect, b: Rect)
    ensures Intersects(a, b) <==> exists px, py :: Inside(a, px, py) && Inside(b, px, py)
  {
    if Intersects(a, b) {
      var px := (Max(a.x, b.x) + Min(a.x + a.w, b.x + b.w)) / 2.0;
      var py := (Max(a.y, b.y) + Min(a.y + a.h, b.y + b.h)) / 2.0;
      assert Inside(a, px, py) && Inside(b, px, py);
    }
    if exists px, py :: Inside(a, px, py) && Inside(b, px, py) {
      var px, py :| Inside(a, px, py) && Inside(b, px, py);
      assert Intersects(a, b);
    }
  }

  /**
   * A distance pre-filter `|ax - bx| < d && |ay - by| < d` never rejects an
   * intersecting pair when `d` is at least the larger width and the larger height.
   */
  lemma PrefilterSound(a: Rect, b: Rect, d: real)
    requires Intersects(a, b)
    requires d >= Max(a.w, b.w) && d >= Max(a.h, b.h)
    ensures Abs(a.x - b.x) < d && Abs(a.y - b.y) < d
  {
  }
}
