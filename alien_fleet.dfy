/** The alien fleet: the triangular formation it is built in, the sizing
    arithmetic that feeds it, and the per-tick edge check, drop and move. */
module AlienFleets {
  import opened Geometry
  import opened GameSettings
  import opened SpriteGroups
  import opened Aliens

  /** Aliens in the widest row of the triangle (the row nearest the top). */
  const TRIANGLE_BASE_WIDTH: nat := 17

  /** The number of aliens across and the number of rows that fit: the
      largest odd count strictly below the whole number of alien widths in
      the screen width, and likewise for alien heights in half the screen
      height. */
  function CalculateFleetSize(alienW: nat, screenW: nat, alienH: nat, screenH: nat): (r: (int, int))
    requires alienW > 0 && alienH > 0
    ensures r.0 % 2 == 1 && r.0 < screenW / alienW <= r.0 + 2
    ensures r.1 % 2 == 1 && r.1 < (screenH / 2) / alienH <= r.1 + 2
  {
    var fleetW := screenW / alienW;
    var fleetH := (screenH / 2) / alienH;
    var fleetW' := fleetW - if fleetW % 2 == 0 then 1 else 2;
    var fleetH' := fleetH - if fleetH % 2 == 0 then 1 else 2;
    (fleetW', fleetH')
  }

  /** Margins that centre a fleetW-by-fleetH block of aliens horizontally on
      the screen and vertically in its top half, rounding down: the far
      margin is the near one or one more. (The Python method reads the
      screen height from the settings; here it is the last argument.) */
  function CalculateOffsets(alienW: nat, alienH: nat, screenW: int, fleetW: int, fleetH: int, screenH: nat): (r: (int, int))
    ensures 0 <= (screenW - fleetW * alienW) - 2 * r.0 <= 1
    ensures 0 <= (screenH / 2 - fleetH * alienH) - 2 * r.1 <= 1
  {
    var halfScreen := screenH / 2;
    var fleetHorizontalSpace := fleetW * alienW;
    var fleetVerticalSpace := fleetH * alienH;
    var xOffset := (screenW - fleetHorizontalSpace) / 2;
    var yOffset := (halfScreen - fleetVerticalSpace) / 2;
    (xOffset, yOffset)
  }

  /** The vertical offset the fleet is built with: the second margin of
      CalculateOffsets applied to the sizes of CalculateFleetSize. */
  function FleetYOffset(s: Settings): int
    requires s.alienW > 0 && s.alienH > 0
  {
    var size := CalculateFleetSize(s.alienW, s.screenW, s.alienH, s.screenH);
    CalculateOffsets(s.alienW, s.alienH, s.screenW, size.0, size.1, s.screenH).1
  }

  /** The triangular layout: rows 0, 1, ... of base, base - 2, ... aliens,
      each row centred on the screen width, row r at height yOffset + r * alienH. */
  datatype Formation = Formation(base: nat, screenW: int, alienW: nat, alienH: nat, yOffset: int) {

    function RowCount(): nat { (base + 1) / 2 }

    function RowLength(row: nat): int { base - 2 * row }

    function RowStartX(row: nat): int { (screenW - RowLength(row) * alienW) / 2 }

    /** Where alien i of row `row` is placed. */
    function Slot(row: nat, i: int): Pos { Pos(RowStartX(row) + i * alienW, yOffset + row * alienH) }

    function Row(row: nat): (r: seq<Pos>)
      requires row < RowCount()
      ensures |r| == RowLength(row) >= 1
      ensures forall i :: 0 <= i < |r| ==> r[i] == Slot(row, i)
    {
      seq(base - 2 * row, i => Slot(row, i))
    }

    /** The first n rows, in the order they are created. */
    function Rows(n: nat): seq<Pos>
      requires n <= RowCount()
    {
      if n == 0 then [] else Rows(n - 1) + Row(n - 1)
    }

    function Layout(): seq<Pos> { Rows(RowCount()) }

    /** Where row `row` starts in the layout: the sizes of the rows before it. */
    function RowOffset(row: nat): int { row * (base - row + 1) }
  }

  function TriangleFor(s: Settings): Formation
    requires s.alienW > 0 && s.alienH > 0
  {
    Formation(TRIANGLE_BASE_WIDTH, s.screenW, s.alienW, s.alienH, FleetYOffset(s))
  }

  lemma {:induction false} RowsLength(f: Formation, n: nat)
    requires n <= f.RowCount()
    ensures |f.Rows(n)| == f.RowOffset(n)
  {
    if n > 0 {
      RowsLength(f, n - 1);
      assert |f.Rows(n)| == f.RowOffset(n - 1) + f.RowLength(n - 1);
      RowOffsetStep(f.base, n);
    }
  }

  /** The size of row n - 1 is what separates RowOffset(n - 1) from RowOffset(n). */
  lemma RowOffsetStep(base: int, n: int)
    ensures (n - 1) * (base - n + 2) + (base - 2 * (n - 1)) == n * (base - n + 1)
  {
    assert (n - 1) * (base - n + 2) == n * (base - n + 1) + n - base + n - 2;
  }

  lemma {:induction false} RowsPrefix(f: Formation, m: nat, n: nat)
    requires m <= n <= f.RowCount()
    ensures |f.Rows(m)| <= |f.Rows(n)| && f.Rows(n)[..|f.Rows(m)|] == f.Rows(m)
  {
    if m < n {
      RowsPrefix(f, m, n - 1);
      assert f.Rows(n) == f.Rows(n - 1) + f.Row(n - 1);
    }
  }

  /** Alien i of row `row` is entry RowOffset(row) + i of the layout. */
  lemma LayoutAt(f: Formation, row: nat, i: int)
    requires row < f.RowCount() && 0 <= i < f.RowLength(row)
    ensures 0 <= f.RowOffset(row) + i < |f.Layout()|
    ensures f.Layout()[f.RowOffset(row) + i] == f.Slot(row, i)
  {
    RowsLength(f, row);
    RowsPrefix(f, row + 1, f.RowCount());
    var k := f.RowOffset(row) + i;
    assert f.Rows(row + 1) == f.Rows(row) + f.Row(row);
    assert f.Rows(row + 1)[k] == f.Slot(row, i);
    assert f.Layout()[..|f.Rows(row + 1)|][k] == f.Layout()[k];
  }

  /** With base 17 there are 9 rows, row r holds 17 - 2r aliens, 81 in all. */
  lemma TriangleCounts(f: Formation)
    requires f.base == TRIANGLE_BASE_WIDTH
    ensures f.RowCount() == 9
    ensures forall row :: 0 <= row < 9 ==> |f.Row(row)| == 17 - 2 * row
    ensures |f.Layout()| == 81
  {
    RowsLength(f, 9);
  }

  /** Each row is centred: the space to its right is the space to its left
      or one pixel more. */
  lemma RowCentred(f: Formation, row: nat)
    requires row < f.RowCount()
    ensures var left := f.Slot(row, 0).x;
            var right := f.screenW - (left + f.RowLength(row) * f.alienW);
            left <= right <= left + 1
  {
  }

  /** When the widest row fits the screen, every alien of the layout lies
      inside the screen horizontally. */
  lemma SlotsFitWidth(f: Formation, row: nat, i: int)
    requires f.base * f.alienW <= f.screenW
    requires row < f.RowCount() && 0 <= i < f.RowLength(row)
    ensures 0 <= f.Slot(row, i).x && f.Slot(row, i).x + f.alienW <= f.screenW
  {
    var n := f.RowLength(row);
    var w := f.alienW;
    MulLe(n, f.base, w);
    MulLe(i + 1, n, w);
    assert (i + 1) * w == i * w + w;
    var d := f.screenW - n * w;
    assert f.Slot(row, i).x == d / 2 + i * w;
    assert 0 <= d / 2 <= d;
  }

  lemma MulLe(a: int, b: int, c: nat)
    requires a <= b
    ensures a * c <= b * c
  {
    assert b * c - a * c == (b - a) * c;
  }

  /** Rows further down the layout are lower on the screen, one alien
      height per row: the widest row is the highest. */
  lemma RowsDescend(f: Formation, row: nat, i: int, j: int)
    requires row + 1 < f.RowCount()
    ensures f.Slot(row + 1, j).y == f.Slot(row, i).y + f.alienH
  {
  }

  /** With the default settings the fleet is centred for a 5-row block in a
      312-pixel half screen (y offset 56), row 0 starts at x = 292 and the
      single alien of row 8 is at x = 612. */
  lemma DefaultYOffset()
    ensures FleetYOffset(DEFAULTS) == 56
  {
    assert CalculateFleetSize(40, 1265, 40, 625) == (29, 5);
  }

  lemma DefaultTriangle()
    ensures TriangleFor(DEFAULTS).Slot(0, 0) == Pos(292, 56)
    ensures TriangleFor(DEFAULTS).Slot(8, 0) == Pos(612, 376)
    ensures TriangleFor(DEFAULTS).RowOffset(8) == 80
  {
    DefaultYOffset();
  }

  /** The y offset is computed for the 5 rows of CalculateFleetSize, but the
      triangle has 9 rows: with the defaults its lowest row reaches below
      the top half of the screen. */
  lemma DefaultTriangleLeavesTopHalf()
    ensures TriangleFor(DEFAULTS).Slot(8, 0).y + DEFAULTS.alienH > DEFAULTS.screenH / 2
  {
    DefaultTriangle();
  }

  class AlienFleet {
    /** The rectangle of the screen. */
    const boundaries: Rect
    /** Taken from the settings when the fleet is created. */
    const fleetDropSpeed: int
    var fleet: seq<Alien>
    var fleetDirection: int

    /** The group holds each alien once, and every alien judges the edges
        against the fleet's screen rectangle. */
    ghost predicate Valid()
      reads this
    {
      && Distinct(fleet)
      && forall k :: 0 <= k < |fleet| ==> fleet[k].boundaries == boundaries
    }

    /** Aliens from index `from` on stand at the positions of L, w by h each. */
    ghost predicate Holds(from: nat, L: seq<Pos>, w: nat, h: nat)
      reads this, fleet
    {
      |fleet| == from + |L| && forall k :: 0 <= k < |L| ==> fleet[from + k].At(L[k], w, h)
    }

    /** Some alien's rectangle touches the left or the right screen edge. */
    ghost predicate AnyAtEdge()
      reads this, fleet
    {
      exists k :: 0 <= k < |fleet| && fleet[k].CheckEdges()
    }

    constructor (s: Settings)
      requires s.alienW > 0 && s.alienH > 0
      ensures Valid()
      ensures boundaries == ScreenRect(s.screenW, s.screenH)
      ensures fleetDirection == s.fleetDirection && fleetDropSpeed == s.fleetDropSpeed
      ensures Holds(0, TriangleFor(s).Layout(), s.alienW, s.alienH)
      ensures forall k :: 0 <= k < |fleet| ==> fresh(fleet[k])
    {
      boundaries := ScreenRect(s.screenW, s.screenH);
      fleet := [];
      fleetDirection := s.fleetDirection;
      fleetDropSpeed := s.fleetDropSpeed;
      new;
      CreateFleet(s);
    }

    /** Sizes the fleet, computes its offsets and builds the triangle, after
        the aliens already in the group. */
    method CreateFleet(s: Settings)
      requires Valid()
      requires s.alienW > 0 && s.alienH > 0
      modifies this
      ensures Valid() && fleetDirection == old(fleetDirection)
      ensures |fleet| >= |old(fleet)| && fleet[..|old(fleet)|] == old(fleet)
      ensures Holds(|old(fleet)|, TriangleFor(s).Layout(), s.alienW, s.alienH)
      ensures forall k :: |old(fleet)| <= k < |fleet| ==> fresh(fleet[k])
    {
      var alienW := s.alienW;
      var alienH := s.alienH;
      var screenW := s.screenW;
      var screenH := s.screenH;
      var size := CalculateFleetSize(alienW, screenW, alienH, screenH);
      var offsets := CalculateOffsets(alienW, alienH, screenW, size.0, size.1, screenH);
      CreateTriangleFleet(s, alienW, alienH, size.0, size.1, offsets.0, offsets.1);
    }

    /** Adds the triangle row by row, left to right. fleetW, fleetH and
        xOffset are accepted but not used, as in the game. */
    method CreateTriangleFleet(s: Settings, alienW: nat, alienH: nat, fleetW: int, fleetH: int, xOffset: int, yOffset: int)
      requires Valid()
      modifies this
      ensures Valid() && fleetDirection == old(fleetDirection)
      ensures |fleet| >= |old(fleet)| && fleet[..|old(fleet)|] == old(fleet)
      ensures Holds(|old(fleet)|, Formation(TRIANGLE_BASE_WIDTH, s.screenW, alienW, alienH, yOffset).Layout(), s.alienW, s.alienH)
      ensures forall k :: |old(fleet)| <= k < |fleet| ==> fresh(fleet[k])
    {
      ghost var f := Formation(TRIANGLE_BASE_WIDTH, s.screenW, alienW, alienH, yOffset);
      ghost var n0 := |fleet|;
      var triangleBaseWidth := TRIANGLE_BASE_WIDTH;
      var row := 0;
      while row < (triangleBaseWidth + 1) / 2
        invariant 0 <= row <= f.RowCount()
        invariant Valid() && fleetDirection == old(fleetDirection)
        invariant |fleet| >= n0 && fleet[..n0] == old(fleet)
        invariant Holds(n0, f.Rows(row), s.alienW, s.alienH)
        invariant forall k :: n0 <= k < |fleet| ==> fresh(fleet[k])
      {
        var aliensInRow := triangleBaseWidth - 2 * row;
        var totalWidth := aliensInRow * alienW;
        var startX := (s.screenW - totalWidth) / 2;
        ghost var done := f.Rows(row);
        var i := 0;
        while i < aliensInRow
          invariant 0 <= i <= aliensInRow
          invariant Valid() && fleetDirection == old(fleetDirection)
          invariant |fleet| >= n0 && fleet[..n0] == old(fleet)
          invariant Holds(n0, done + f.Row(row)[..i], s.alienW, s.alienH)
          invariant forall k :: n0 <= k < |fleet| ==> fresh(fleet[k])
        {
          var currentX := startX + i * alienW;
          var currentY := yOffset + row * alienH;
          CreateAlien(s, currentX, currentY, n0, done + f.Row(row)[..i]);
          assert f.Row(row)[..i + 1] == f.Row(row)[..i] + [Pos(currentX, currentY)];
          assert done + f.Row(row)[..i + 1] == done + f.Row(row)[..i] + [Pos(currentX, currentY)];
          i := i + 1;
        }
        assert f.Row(row)[..aliensInRow] == f.Row(row);
        row := row + 1;
      }
    }

    /** Adds one new alien at (currentX, currentY) to the end of the group. */
    method CreateAlien(s: Settings, currentX: int, currentY: int, ghost from: nat, ghost L: seq<Pos>)
      requires Valid()
      requires Holds(from, L, s.alienW, s.alienH)
      modifies this
      ensures Valid() && fleetDirection == old(fleetDirection)
      ensures |fleet| == |old(fleet)| + 1 && fleet[..|old(fleet)|] == old(fleet)
      ensures fresh(fleet[|old(fleet)|]) && fleet[|old(fleet)|].boundaries == boundaries
      ensures fleet[|old(fleet)|].At(Pos(currentX, currentY), s.alienW, s.alienH)
      ensures Holds(from, L + [Pos(currentX, currentY)], s.alienW, s.alienH)
    {
      var newAlien := new Alien(currentX, currentY, s.alienW, s.alienH, boundaries);
      fleet := fleet + [newAlien];
    }

    /** If any alien touches an edge, the whole fleet drops once and the
        direction flips once, however many aliens touch; otherwise nothing
        changes. Rectangles are not touched: a drop shows up in `rect` only
        on the aliens' next update. */
    method CheckFleetEdges()
      requires Valid()
      modifies this, fleet
      ensures fleet == old(fleet)
      ensures fleetDirection == if old(AnyAtEdge()) then -old(fleetDirection) else old(fleetDirection)
      ensures forall k :: 0 <= k < |fleet| ==>
                fleet[k].y == old(fleet[k].y) + (if old(AnyAtEdge()) then fleetDropSpeed else 0)
      ensures forall k :: 0 <= k < |fleet| ==> fleet[k].x == old(fleet[k].x) && fleet[k].rect == old(fleet[k].rect)
    {
      var j := 0;
      while j < |fleet|
        invariant 0 <= j <= |fleet|
        invariant fleet == old(fleet) && fleetDirection == old(fleetDirection)
        invariant forall k :: 0 <= k < |fleet| ==>
                    fleet[k].x == old(fleet[k].x) && fleet[k].y == old(fleet[k].y) && fleet[k].rect == old(fleet[k].rect)
        invariant forall k :: 0 <= k < j ==> !fleet[k].CheckEdges()
      {
        if fleet[j].CheckEdges() {
          DropAlienFleet();
          fleetDirection := fleetDirection * -1;
          return;
        }
        j := j + 1;
      }
    }

    /** Every alien's y grows by the drop speed; nothing else changes. */
    method DropAlienFleet()
      requires Valid()
      modifies fleet
      ensures forall k :: 0 <= k < |fleet| ==>
                fleet[k].y == old(fleet[k].y) + fleetDropSpeed &&
                fleet[k].x == old(fleet[k].x) && fleet[k].rect == old(fleet[k].rect)
    {
      var j := 0;
      while j < |fleet|
        invariant 0 <= j <= |fleet|
        invariant forall k :: 0 <= k < j ==> fleet[k].y == old(fleet[k].y) + fleetDropSpeed
        invariant forall k :: j <= k < |fleet| ==> fleet[k].y == old(fleet[k].y)
        invariant forall k :: 0 <= k < |fleet| ==> fleet[k].x == old(fleet[k].x) && fleet[k].rect == old(fleet[k].rect)
      {
        fleet[j].y := fleet[j].y + fleetDropSpeed;
        j := j + 1;
      }
    }

    /** One tick: the edge check (with its drop and flip) first, then every
        alien moves by fleetSpeed in the possibly flipped direction and takes
        its rectangle from its position. The formation stays rigid. */
    method UpdateFleet(fleetSpeed: int)
      requires Valid()
      modifies this, fleet
      ensures Valid() && fleet == old(fleet)
      ensures fleetDirection == if old(AnyAtEdge()) then -old(fleetDirection) else old(fleetDirection)
      ensures forall k :: 0 <= k < |fleet| ==>
                && fleet[k].x == old(fleet[k].x) + fleetSpeed * fleetDirection
                && fleet[k].y == old(fleet[k].y) + (if old(AnyAtEdge()) then fleetDropSpeed else 0)
                && fleet[k].rect == old(fleet[k].rect).(x := fleet[k].x, y := fleet[k].y)
      ensures forall i, j :: 0 <= i < |fleet| && 0 <= j < |fleet| ==>
                fleet[i].x - fleet[j].x == old(fleet[i].x - fleet[j].x) &&
                fleet[i].y - fleet[j].y == old(fleet[i].y - fleet[j].y)
    {
      CheckFleetEdges();
      label checked:
      var j := 0;
      while j < |fleet|
        invariant 0 <= j <= |fleet|
        invariant fleet == old(fleet) && fleetDirection == old@checked(fleetDirection)
        invariant forall k :: 0 <= k < j ==>
                    && fleet[k].x == old@checked(fleet[k].x) + fleetSpeed * fleetDirection
                    && fleet[k].y == old@checked(fleet[k].y)
                    && fleet[k].rect == old@checked(fleet[k].rect).(x := fleet[k].x, y := fleet[k].y)
        invariant forall k :: j <= k < |fleet| ==>
                    fleet[k].x == old@checked(fleet[k].x) && fleet[k].y == old@checked(fleet[k].y) &&
                    fleet[k].rect == old@checked(fleet[k].rect)
      {
        fleet[j].Update(fleetSpeed, fleetDirection);
        j := j + 1;
      }
    }

    /** Some alien's rectangle reaches the bottom of the screen. */
    method CheckFleetBottom(screenH: int) returns (reached: bool)
      ensures reached <==> exists k :: 0 <= k < |fleet| && fleet[k].rect.Bottom() >= screenH
    {
      var j := 0;
      while j < |fleet|
        invariant 0 <= j <= |fleet|
        invariant forall k :: 0 <= k < j ==> fleet[k].rect.Bottom() < screenH
      {
        if fleet[j].rect.Bottom() >= screenH {
          return true;
        }
        j := j + 1;
      }
      return false;
    }

    /** The fleet is destroyed exactly when the group holds no alien. */
    predicate CheckDestroyedStatus()
      reads this
      ensures CheckDestroyedStatus() <==> fleet == []
    {
      |fleet| == 0
    }
  }
}
