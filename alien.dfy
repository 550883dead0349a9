/** One alien of the fleet: a float-free position (x, y) and the rectangle the
    library draws and collides with. The fleet writes `y` directly when it
    drops; the rectangle only catches up on the alien's next `Update`. */
module Aliens {
  import opened Geometry

  class Alien {
    /** The rectangle of the screen, taken when the alien is created. */
    const boundaries: Rect
    var x: int
    var y: int
    var rect: Rect

    /** Places a new w-by-h alien with its top-left corner at (x0, y0). */
    constructor (x0: int, y0: int, w: nat, h: nat, boundaries: Rect)
      ensures this.boundaries == boundaries
      ensures rect == Rect(x0, y0, w, h)
      ensures x == x0 && y == y0
    {
      this.boundaries := boundaries;
      var r := Rect(0, 0, w, h);
      r := r.(x := x0);
      r := r.(y := y0);
      rect := r;
      y := r.y;
      x := r.x;
    }

    /** The alien stands at p with its rectangle in step with its position. */
    ghost predicate At(p: Pos, w: nat, h: nat)
      reads this
    {
      x == p.x && y == p.y && rect == Rect(p.x, p.y, w, h)
    }

    /** Moves horizontally by one fleet step and resynchronises the rectangle
        from (x, y), which also publishes any drop written to `y` since. */
    method Update(fleetSpeed: int, fleetDirection: int)
      modifies this
      ensures x == old(x) + fleetSpeed * fleetDirection
      ensures y == old(y)
      ensures rect == old(rect).(x := x, y := y)
    {
      var tempSpeed := fleetSpeed;
      x := x + tempSpeed * fleetDirection;
      rect := rect.(x := x);
      rect := rect.(y := y);
    }

    /** Touching an edge is the contrary of lying strictly between the
        screen's left and right edges. */
    predicate CheckEdges()
      reads this
      ensures !CheckEdges() <==> boundaries.Left() < rect.Left() && rect.Right() < boundaries.Right()
    {
      rect.Right() >= boundaries.Right() || rect.Left() <= boundaries.Left()
    }
  }
}
