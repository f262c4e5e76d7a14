/** Axis-aligned rectangles and the overlap test the game uses for every catch. */
module Geometry {

  /** A rectangle by its top-left corner and its size, in logical playfield units. */
  datatype Rect = Rect(x: real, y: real, width: real, height: real)
  {
    /** Positive area: both sides strictly positive. */
    predicate HasArea()
    {
      width > 0.0 && height > 0.0
    }

    /** The point (px, py) lies strictly inside the rectangle. */
    predicate Contains(px: real, py: real)
    {
      x < px < x + width && y < py < y + height
    }
  }

  /** The game's overlap test: strict inequalities on both axes. */
  predicate IsColliding(a: Rect, b: Rect)
  {
    a.x < b.x + b.width &&
    a.x + a.width > b.x &&
    a.y < b.y + b.height &&
    a.y + a.height > b.y
  }

  /** The smaller and the larger of two coordinates (`Math.min` and `Math.max`). */
  function Min(p: real, q: real): real { if p <= q then p else q }
  function Max(p: real, q: real): real { if p >= q then p else q }

  /** The overlap test does not depend on the order of its arguments. */
  lemma CollidingSymmetric(a: Rect, b: Rect)
    ensures IsColliding(a, b) <==> IsColliding(b, a)
  {
  }

  /** A rectangle with positive area overlaps itself; a degenerate one never does. */
  lemma CollidingWithSelf(a: Rect)
    ensures IsColliding(a, a) <==> a.HasArea()
  {
  }

  /**
   * Reference meaning of the test: two rectangles with positive area collide exactly
   * when some point lies strictly inside both of them.
   */
  lemma CollidingIffCommonInteriorPoint(a: Rect, b: Rect)
    requires a.HasArea() && b.HasArea()
    ensures IsColliding(a, b) <==> exists px, py :: a.Contains(px, py) && b.Contains(px, py)
  {
    if IsColliding(a, b) {
      // The centre of the intersection of the two open boxes.
      var px := (Max(a.x, b.x) + Min(a.x + a.width, b.x + b.width)) / 2.0;
      var py := (Max(a.y, b.y) + Min(a.y + a.height, b.y + b.height)) / 2.0;
      assert a.Contains(px, py) && b.Contains(px, py);
    }
  }
}
