/** Integer view of the host library's axis-aligned rectangle: the top-left
    corner (x, y) and a non-negative size (w, h). The y axis grows downward,
    so the top edge is y and the bottom edge is y + h. */
module Geometry {

  datatype Pos = Pos(x: int, y: int)

  datatype Rect = Rect(x: int, y: int, w: nat, h: nat) {

    function Left(): int { x }

    function Right(): int { x + w }

    function Top(): int { y }

    function Bottom(): int { y + h }

    /** The library's centre column: x plus half the width, rounded down. */
    function CenterX(): int { x + w / 2 }

    function MidTop(): Pos { Pos(CenterX(), Top()) }

    function MidBottom(): Pos { Pos(CenterX(), Bottom()) }

    /** Assigning the `midtop` anchor: the size is kept and the anchor lands on p. */
    function WithMidTop(p: Pos): (r: Rect)
      ensures r.w == w && r.h == h
      ensures r.MidTop() == p
    {
      Rect(p.x - w / 2, p.y, w, h)
    }

    /** Assigning the `midbottom` anchor: the size is kept and the anchor lands on p. */
    function WithMidBottom(p: Pos): (r: Rect)
      ensures r.w == w && r.h == h
      ensures r.MidBottom() == p
    {
      Rect(p.x - w / 2, p.y - h, w, h)
    }
  }

  /** The rectangle of a display surface of the given size. */
  function ScreenRect(w: nat, h: nat): (r: Rect)
    ensures r.Left() == 0 && r.Top() == 0 && r.Right() == w && r.Bottom() == h
  {
    Rect(0, 0, w, h)
  }
}
