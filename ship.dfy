/** The player's ship: horizontal movement under two flags, bounded by the
    screen edges, a dock at the bottom centre, and the bullet pool it owns. */
module Ships {
  import opened Geometry
  import opened GameSettings
  import opened Bullets
  import opened Arsenals

  /** Where the ship docks: its midbottom on the screen's midbottom. The
      docked ship lies inside the screen when it is no wider and no taller. */
  lemma DockedInside(screenW: nat, screenH: nat, r: Rect)
    requires r.w <= screenW && r.h <= screenH
    ensures var d := r.WithMidBottom(ScreenRect(screenW, screenH).MidBottom());
            && d.x == screenW / 2 - r.w / 2 && d.Bottom() == screenH
            && 0 <= d.Left() && d.Right() <= screenW && 0 <= d.Top()
  {
  }

  class Ship {
    /** The rectangle of the screen. */
    const boundaries: Rect
    const arsenal: Arsenal
    var rect: Rect
    var x: int
    var movingRight: bool
    var movingLeft: bool

    ghost predicate Valid()
      reads this, arsenal
    {
      arsenal.Valid()
    }

    /** The ship is never more than one step past either screen edge, and
        its rectangle is at its position. */
    ghost predicate WithinStep(shipSpeed: int)
      reads this
    {
      x == rect.x && boundaries.Left() - shipSpeed < rect.Left() && rect.Right() < boundaries.Right() + shipSpeed
    }

    /** A ship of the settings' size, docked, not moving. */
    constructor (s: Settings, arsenal: Arsenal)
      requires arsenal.Valid()
      ensures Valid() && this.arsenal == arsenal
      ensures boundaries == ScreenRect(s.screenW, s.screenH)
      ensures rect == Rect(0, 0, s.shipW, s.shipH).WithMidBottom(boundaries.MidBottom()) && x == rect.x
      ensures !movingRight && !movingLeft
    {
      boundaries := ScreenRect(s.screenW, s.screenH);
      rect := Rect(0, 0, s.shipW, s.shipH);
      x := 0;
      this.arsenal := arsenal;
      movingRight := false;
      movingLeft := false;
      new;
      CenterShip();
    }

    /** Docks the ship: its midbottom goes to the screen's midbottom and its
        position follows the rectangle. */
    method CenterShip()
      modifies this`rect, this`x
      ensures rect == old(rect).WithMidBottom(boundaries.MidBottom())
      ensures x == rect.x
    {
      rect := rect.WithMidBottom(boundaries.MidBottom());
      x := rect.x;
    }

    /** Steps right when asked and the right edge is not reached, steps left
        when asked and the left edge is not reached (both judged on the
        rectangle before the move), then moves the rectangle to x. */
    method UpdateShipMovement(shipSpeed: int)
      modifies this`x, this`rect
      ensures x == old(x)
                   + (if movingRight && old(rect).Right() < boundaries.Right() then shipSpeed else 0)
                   - (if movingLeft && old(rect).Left() > boundaries.Left() then shipSpeed else 0)
      ensures rect == old(rect).(x := x)
      ensures shipSpeed >= 0 && old(WithinStep(shipSpeed)) ==> WithinStep(shipSpeed)
    {
      var tempSpeed := shipSpeed;
      if movingRight && rect.Right() < boundaries.Right() {
        x := x + tempSpeed;
      }
      if movingLeft && rect.Left() > boundaries.Left() {
        x := x - tempSpeed;
      }
      rect := rect.(x := x);
    }

    /** Moves the ship, then advances and prunes its bullets. */
    method Update(s: Settings)
      requires Valid()
      modifies this`x, this`rect, arsenal, arsenal.arsenal
      ensures Valid()
      ensures x == old(x)
                   + (if movingRight && old(rect).Right() < boundaries.Right() then s.shipSpeed else 0)
                   - (if movingLeft && old(rect).Left() > boundaries.Left() then s.shipSpeed else 0)
      ensures rect == old(rect).(x := x)
      ensures forall b :: b in old(arsenal.arsenal) ==> b.State() == Step(old(b.State()), s.bulletSpeed)
      ensures arsenal.arsenal == Survivors(old(arsenal.arsenal))
    {
      UpdateShipMovement(s.shipSpeed);
      arsenal.UpdateArsenal(s.bulletSpeed);
    }

    /** Fires through the pool, from this ship's midtop, and passes the
        pool's answer on. */
    method Fire(s: Settings) returns (fired: bool)
      requires Valid()
      modifies arsenal
      ensures Valid()
      ensures fired <==> |old(arsenal.arsenal)| < s.bulletAmount
      ensures fired ==> && |arsenal.arsenal| == |old(arsenal.arsenal)| + 1
                        && arsenal.arsenal[..|old(arsenal.arsenal)|] == old(arsenal.arsenal)
                        && fresh(arsenal.arsenal[|old(arsenal.arsenal)|])
                        && Launched(arsenal.arsenal[|old(arsenal.arsenal)|], s, rect)
      ensures !fired ==> arsenal.arsenal == old(arsenal.arsenal)
    {
      fired := arsenal.FireBullet(s, rect);
    }

    /** `collides` is the library's test of the ship's rectangle against the
        other group. On a hit the ship is docked again and the call answers
        true; otherwise nothing changes and it answers false. */
    method CheckCollisions(collides: Rect -> bool) returns (hit: bool)
      modifies this`rect, this`x
      ensures hit == collides(old(rect))
      ensures hit ==> rect == old(rect).WithMidBottom(boundaries.MidBottom()) && x == rect.x
      ensures !hit ==> rect == old(rect) && x == old(x)
    {
      if collides(rect) {
        CenterShip();
        return true;
      }
      return false;
    }
  }
}
