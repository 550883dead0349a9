/** The ship's bullet pool: a bounded group of bullets that advance every
    tick and are dropped once they have left the top of the screen. */
module Arsenals {
  import opened Geometry
  import opened GameSettings
  import opened SpriteGroups
  import opened Bullets

  /** The bullets of bs whose rectangle still reaches below the top of the
      screen, in their order in bs. */
  ghost function Survivors(bs: seq<Bullet>): (r: seq<Bullet>)
    reads bs
  {
    if bs == [] then []
    else
      var last := bs[|bs| - 1];
      Survivors(bs[..|bs| - 1]) + if last.rect.Bottom() > 0 then [last] else []
  }

  /** The survivors are exactly the members of bs still on screen. */
  lemma {:induction false} SurvivorsMembers(bs: seq<Bullet>, b: Bullet)
    ensures b in Survivors(bs) <==> b in bs && b.rect.Bottom() > 0
  {
    if bs != [] {
      var init := bs[..|bs| - 1];
      SurvivorsMembers(init, b);
      assert bs == init + [bs[|bs| - 1]];
    }
  }

  /** Pruning never adds a bullet. */
  lemma {:induction false} SurvivorsLength(bs: seq<Bullet>)
    ensures |Survivors(bs)| <= |bs|
  {
    if bs != [] {
      SurvivorsLength(bs[..|bs| - 1]);
    }
  }

  lemma {:induction false} SurvivorsDistinct(bs: seq<Bullet>)
    requires Distinct(bs)
    ensures Distinct(Survivors(bs))
  {
    if bs != [] {
      var init := bs[..|bs| - 1];
      SurvivorsDistinct(init);
      var last := bs[|bs| - 1];
      assert last !in init;
      SurvivorsMembers(init, last);
      if last.rect.Bottom() > 0 {
        DistinctAppend(Survivors(init), last);
      } else {
        assert Survivors(bs) == Survivors(init) + [];
      }
    }
  }

  /** One pass of the removal loop keeps the survivors of copy[..i] followed
      by the bullets not yet looked at. */
  lemma SurvivorsStep(copy: seq<Bullet>, i: nat)
    requires Distinct(copy) && i < |copy|
    ensures var rest := Survivors(copy[..i]) + copy[i..];
            Survivors(copy[..i + 1]) + copy[i + 1..]
              == if copy[i].rect.Bottom() <= 0 then Without(rest, copy[i]) else rest
  {
    var bullet := copy[i];
    var kept := Survivors(copy[..i]);
    SurvivorsSnoc(copy, i);
    assert copy[i..] == [bullet] + copy[i + 1..];
    if bullet.rect.Bottom() <= 0 {
      assert bullet !in copy[..i];
      SurvivorsMembers(copy[..i], bullet);
      assert bullet !in copy[i + 1..];
      WithoutSplit(kept, bullet, copy[i + 1..]);
      assert kept + copy[i..] == kept + [bullet] + copy[i + 1..];
    }
  }

  lemma SurvivorsSnoc(bs: seq<Bullet>, i: nat)
    requires i < |bs|
    ensures Survivors(bs[..i + 1]) == Survivors(bs[..i]) + if bs[i].rect.Bottom() > 0 then [bs[i]] else []
  {
    assert bs[..i + 1][..i] == bs[..i];
  }

  /** A freshly fired bullet: sized by the settings, its midtop at the ship's. */
  ghost predicate Launched(b: Bullet, s: Settings, shipRect: Rect)
    reads b
  {
    b.rect.w == s.bulletW && b.rect.h == s.bulletH && b.rect.MidTop() == shipRect.MidTop() && b.y == b.rect.y
  }

  class Arsenal {
    var arsenal: seq<Bullet>

    ghost predicate Valid()
      reads this
    {
      Distinct(arsenal)
    }

    constructor ()
      ensures Valid() && arsenal == []
    {
      arsenal := [];
    }

    /** Every bullet advances first; the off-screen ones are pruned after,
        judged by their new rectangles. */
    method UpdateArsenal(bulletSpeed: int)
      requires Valid()
      modifies this, arsenal
      ensures Valid()
      ensures forall b :: b in old(arsenal) ==> b.State() == Step(old(b.State()), bulletSpeed)
      ensures arsenal == Survivors(old(arsenal))
      ensures |arsenal| <= |old(arsenal)|
    {
      var j := 0;
      while j < |arsenal|
        invariant 0 <= j <= |arsenal| && arsenal == old(arsenal)
        invariant forall k :: 0 <= k < j ==> arsenal[k].State() == Step(old(arsenal[k].State()), bulletSpeed)
        invariant forall k :: j <= k < |arsenal| ==> arsenal[k].State() == old(arsenal[k].State())
      {
        arsenal[j].Update(bulletSpeed);
        j := j + 1;
      }
      RemoveBulletsOffscreen();
      SurvivorsLength(old(arsenal));
    }

    /** Removes, one by one, exactly the bullets whose rectangle's bottom is
        at or above the top of the screen, keeping the others in order. */
    method RemoveBulletsOffscreen()
      requires Valid()
      modifies this
      ensures Valid()
      ensures arsenal == Survivors(old(arsenal))
      ensures |arsenal| <= |old(arsenal)|
    {
      // The group being filtered is held in `kept` and stored back once the
      // pass over the snapshot `copy` is over.
      var copy := arsenal;
      var kept := arsenal;
      var i := 0;
      while i < |copy|
        invariant 0 <= i <= |copy|
        invariant kept == Survivors(copy[..i]) + copy[i..]
      {
        var bullet := copy[i];
        SurvivorsStep(copy, i);
        if bullet.rect.Bottom() <= 0 {
          kept := Without(kept, bullet);
        }
        i := i + 1;
      }
      assert copy[..|copy|] == copy;
      arsenal := kept;
      SurvivorsDistinct(copy);
      SurvivorsLength(copy);
    }

    /** Adds one bullet at the ship's midtop while fewer than bulletAmount
        are in flight, and reports whether it did; otherwise nothing changes. */
    method FireBullet(s: Settings, shipRect: Rect) returns (fired: bool)
      requires Valid()
      modifies this
      ensures Valid()
      ensures fired <==> |old(arsenal)| < s.bulletAmount
      ensures fired ==> && |arsenal| == |old(arsenal)| + 1
                        && arsenal[..|old(arsenal)|] == old(arsenal)
                        && fresh(arsenal[|old(arsenal)|])
                        && Launched(arsenal[|old(arsenal)|], s, shipRect)
      ensures !fired ==> arsenal == old(arsenal)
      ensures |arsenal| > |old(arsenal)| ==> |arsenal| <= s.bulletAmount
    {
      if |arsenal| < s.bulletAmount {
        var newBullet := new Bullet(shipRect, s.bulletW, s.bulletH);
        DistinctAppend(arsenal, newBullet);
        arsenal := arsenal + [newBullet];
        return true;
      }
      return false;
    }
  }

  /** n fire requests in a row on a new pool: the first bulletAmount succeed,
      the rest are refused, so the pool ends with min(n, bulletAmount) bullets. */
  method RepeatedFire(s: Settings, shipRect: Rect, n: nat) returns (count: nat, results: seq<bool>)
    ensures |results| == n
    ensures forall i :: 0 <= i < n ==> (results[i] <==> i < s.bulletAmount)
    ensures count == if n <= s.bulletAmount then n else if s.bulletAmount <= 0 then 0 else s.bulletAmount
  {
    var pool := new Arsenal();
    results := [];
    while |results| < n
      invariant |results| <= n && pool.Valid()
      invariant forall i :: 0 <= i < |results| ==> (results[i] <==> i < s.bulletAmount)
      invariant |pool.arsenal| == if |results| <= s.bulletAmount then |results| else if s.bulletAmount <= 0 then 0 else s.bulletAmount
    {
      var fired := pool.FireBullet(s, shipRect);
      results := results + [fired];
    }
    count := |pool.arsenal|;
  }

  /** With the default limit of five, six fire requests leave five bullets
      and the sixth is refused. */
  method SixFires(shipRect: Rect) returns (count: nat, sixth: bool)
    ensures count == 5 && !sixth
  {
    var results;
    count, results := RepeatedFire(DEFAULTS, shipRect, 6);
    sixth := results[5];
  }
}
