/** The pygame value types the model needs: Vector2 and Rect, on reals. */
module Geometry {

  datatype Vec2 = Vec2(x: real, y: real)

  /** Vector2.distance_squared_to */
  function DistSq(a: Vec2, b: Vec2): (r: real)
    ensures r >= 0.0
  {
    var dx := a.x - b.x;
    var dy := a.y - b.y;
    assert dx * dx >= 0.0 && dy * dy >= 0.0;
    dx * dx + dy * dy
  }

  /** pygame.Rect, by its top-left corner and size. */
  datatype Rect = Rect(left: real, top: real, width: real, height: real)
  {
    function Right(): real { left + width }
    function Bottom(): real { top + height }
    function CenterX(): real { left + width / 2.0 }
    function CenterY(): real { top + height / 2.0 }
    function Center(): Vec2 { Vec2(CenterX(), CenterY()) }

    /** Assigning rect.center */
    function WithCenter(c: Vec2): (r: Rect)
      ensures r.Center() == c && r.width == width && r.height == height
    {
      Rect(c.x - width / 2.0, c.y - height / 2.0, width, height)
    }

    /** Assigning rect.centerx */
    function WithCenterX(cx: real): (r: Rect)
      ensures r.CenterX() == cx && r.top == top && r.width == width && r.height == height
    {
      Rect(cx - width / 2.0, top, width, height)
    }

    /** Assigning rect.right */
    function WithRight(right: real): (r: Rect)
      ensures r.Right() == right && r.top == top && r.width == width && r.height == height
    {
      Rect(right - width, top, width, height)
    }

    /** Rect.colliderect: the interiors overlap (touching edges do not
        collide). */
    predicate Collides(other: Rect)
    {
      left < other.Right() && other.left < Right() &&
      top < other.Bottom() && other.top < Bottom()
    }
  }

  /** rect_from_size(size, center=pos) */
  function RectAround(size: Vec2, center: Vec2): (r: Rect)
    ensures r.Center() == center && r.width == size.x && r.height == size.y
  {
    Rect(0.0, 0.0, size.x, size.y).WithCenter(center)
  }
}
