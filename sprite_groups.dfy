/** The two properties of the library's sprite group the game relies on: a
    group holds each sprite once, and `remove` takes one sprite out and
    keeps the order of the others. */
module SpriteGroups {

  /** Each member occurs once. */
  ghost predicate Distinct<T>(s: seq<T>) {
    forall i, j :: 0 <= i < j < |s| ==> s[i] != s[j]
  }

  /** The group after removing x: every other member, in order. */
  function Without<T(==)>(s: seq<T>, x: T): seq<T> {
    if s == [] then [] else (if s[0] == x then [] else [s[0]]) + Without(s[1..], x)
  }

  /** Removing x leaves exactly the other members. */
  lemma {:induction false} WithoutMembers<T>(s: seq<T>, x: T, y: T)
    ensures y in Without(s, x) <==> y in s && y != x
  {
    if s != [] {
      WithoutMembers(s[1..], x, y);
      assert s == [s[0]] + s[1..];
    }
  }

  lemma {:induction false} WithoutAbsent<T>(s: seq<T>, x: T)
    requires x !in s
    ensures Without(s, x) == s
  {
    if s != [] {
      WithoutAbsent(s[1..], x);
    }
  }

  /** Removing a member that occurs once, between a and b. */
  lemma {:induction false} WithoutSplit<T>(a: seq<T>, x: T, b: seq<T>)
    requires x !in a && x !in b
    ensures Without(a + [x] + b, x) == a + b
  {
    var s := a + [x] + b;
    if a == [] {
      assert s[0] == x && s[1..] == b;
      WithoutAbsent(b, x);
    } else {
      assert s[0] == a[0] && s[1..] == a[1..] + [x] + b;
      WithoutSplit(a[1..], x, b);
      assert a == [a[0]] + a[1..];
    }
  }

  lemma DistinctAppend<T>(s: seq<T>, x: T)
    requires Distinct(s) && x !in s
    ensures Distinct(s + [x])
  {
  }
}
