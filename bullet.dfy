/** A bullet: it starts at the ship's midtop and climbs by the bullet speed
    every tick, its rectangle following its position. */
module Bullets {
  import opened Geometry

  /** The part of a bullet that changes: its position y and its rectangle. */
  datatype Flight = Flight(y: int, rect: Rect)

  /** One tick of a flight. */
  function Step(f: Flight, bulletSpeed: int): Flight {
    Flight(f.y - bulletSpeed, f.rect.(y := f.y - bulletSpeed))
  }

  /** n ticks of a flight. */
  function Steps(f: Flight, bulletSpeed: int, n: nat): Flight {
    if n == 0 then f else Step(Steps(f, bulletSpeed, n - 1), bulletSpeed)
  }

  /** After n ticks the bullet is n * bulletSpeed higher, its column and
      size never change, and from the first tick on its rectangle is at y. */
  lemma {:induction false} StepsTrajectory(f: Flight, bulletSpeed: int, n: nat)
    ensures Steps(f, bulletSpeed, n).y == f.y - n * bulletSpeed
    ensures Steps(f, bulletSpeed, n).rect.x == f.rect.x
    ensures Steps(f, bulletSpeed, n).rect.w == f.rect.w && Steps(f, bulletSpeed, n).rect.h == f.rect.h
    ensures n > 0 ==> Steps(f, bulletSpeed, n).rect.y == Steps(f, bulletSpeed, n).y
  {
    if n > 0 {
      StepsTrajectory(f, bulletSpeed, n - 1);
      assert (n - 1) * bulletSpeed + bulletSpeed == n * bulletSpeed;
    }
  }

  /** A bullet with a positive speed is off the top of the screen after
      finitely many ticks. */
  lemma LeavesScreen(f: Flight, bulletSpeed: int)
    requires bulletSpeed > 0
    ensures exists n: nat :: n > 0 && Steps(f, bulletSpeed, n).rect.Bottom() <= 0
  {
    var d := f.y + f.rect.h;
    var n: nat := if d <= 0 then 1 else d / bulletSpeed + 1;
    StepsTrajectory(f, bulletSpeed, n);
    if d > 0 {
      assert n * bulletSpeed == (d / bulletSpeed) * bulletSpeed + bulletSpeed;
      assert n * bulletSpeed > d;
    } else {
      assert n * bulletSpeed == bulletSpeed;
    }
    assert Steps(f, bulletSpeed, n).rect.Bottom() == d - n * bulletSpeed;
  }

  class Bullet {
    var y: int
    var rect: Rect

    /** A w-by-h bullet whose midtop is the ship's midtop. */
    constructor (shipRect: Rect, w: nat, h: nat)
      ensures rect.w == w && rect.h == h
      ensures rect.MidTop() == shipRect.MidTop()
      ensures y == rect.y
    {
      var r := Rect(0, 0, w, h);
      r := r.WithMidTop(shipRect.MidTop());
      rect := r;
      y := r.y;
    }

    ghost function State(): Flight
      reads this
    {
      Flight(y, rect)
    }

    /** Moves up by bulletSpeed and moves the rectangle with it. */
    method Update(bulletSpeed: int)
      modifies this
      ensures State() == Step(old(State()), bulletSpeed)
    {
      y := y - bulletSpeed;
      rect := rect.(y := y);
    }
  }
}
