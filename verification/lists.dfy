/** The tracker-list clean-up of `manage_trackers`: a `for` loop over a Python list that calls
    `list.remove` on the element it is visiting. Each removal shifts the rest of the list one
    place left while the loop's index still advances, so the element after a removed one is not
    visited. Elements are paired with their `finished` flag, which nothing changes during the
    loop. */
module Lists {

  /** The position of the first occurrence of `x` in `xs`. */
  function IndexOf<T(==)>(xs: seq<T>, x: T): (k: nat)
    requires x in xs
    ensures k < |xs| && xs[k] == x && x !in xs[..k]
  {
    if xs[0] == x then 0 else 1 + IndexOf(xs[1..], x)
  }

  /** `xs.remove(x)`: drops the first occurrence of `x`, keeping the order of the rest. */
  function RemoveFirst<T(==)>(xs: seq<T>, x: T): (r: seq<T>)
    requires x in xs
    ensures |r| == |xs| - 1
    ensures var k := IndexOf(xs, x); r == xs[..k] + xs[k + 1..]
  {
    if xs[0] == x then xs[1..]
    else
      var ys := xs[1..];
      var k := IndexOf(ys, x);
      var rest := RemoveFirst(ys, x);
      assert IndexOf(xs, x) == k + 1;
      assert rest == ys[..k] + ys[k + 1..];
      assert xs[..k + 1] == [xs[0]] + ys[..k];
      assert xs[k + 2..] == ys[k + 1..];
      [xs[0]] + rest
  }

  /** Removing takes away exactly one copy of `x` and nothing else. */
  lemma RemoveFirstCount<T>(xs: seq<T>, x: T)
    requires x in xs
    ensures multiset(RemoveFirst(xs, x)) == multiset(xs) - multiset{x}
  {
    var k := IndexOf(xs, x);
    assert xs == xs[..k] + [x] + xs[k + 1..];
  }

  /** The list left by the loop once it has reached index `i` of the current list `xs`. */
  function Sweep<T(==)>(xs: seq<(T, bool)>, i: nat): seq<(T, bool)>
    decreases |xs| - i
  {
    if i >= |xs| then xs
    else if xs[i].1 then Sweep(RemoveFirst(xs, xs[i]), i + 1)
    else Sweep(xs, i + 1)
  }

  /** The sweep only removes elements, and only finished ones: every unfinished element stays,
      as often as it was in the list. */
  lemma {:induction false} SweepKeepsUnfinished<T>(xs: seq<(T, bool)>, i: nat)
    ensures multiset(Sweep(xs, i)) <= multiset(xs)
    ensures forall p: (T, bool) :: !p.1 ==> multiset(Sweep(xs, i))[p] == multiset(xs)[p]
    decreases |xs| - i
  {
    if i < |xs| {
      if xs[i].1 {
        var ys := RemoveFirst(xs, xs[i]);
        RemoveFirstCount(xs, xs[i]);
        SweepKeepsUnfinished(ys, i + 1);
        forall p: (T, bool) | !p.1
          ensures multiset(ys)[p] == multiset(xs)[p]
        {
          assert p != xs[i];
        }
      } else {
        SweepKeepsUnfinished(xs, i + 1);
      }
    }
  }

  /** The sweep does not remove every finished element: of two adjacent finished elements at
      the front, the second is skipped and stays. */
  lemma SweepSkipsNeighbour<T>(a: T, b: T)
    requires a != b
    ensures Sweep([(a, true), (b, true)], 0) == [(b, true)]
  {
    var xs := [(a, true), (b, true)];
    assert RemoveFirst(xs, xs[0]) == [(b, true)];
  }

  /** The elements of a tagged list, without their flags. */
  function Firsts<T>(xs: seq<(T, bool)>): (r: seq<T>)
    ensures |r| == |xs| && forall i :: 0 <= i < |xs| ==> r[i] == xs[i].0
  {
    if xs == [] then [] else [xs[0].0] + Firsts(xs[1..])
  }

  /** What the sweep keeps is taken from the list, and every unfinished element stays. */
  lemma SweepMembers<T>(xs: seq<(T, bool)>)
    ensures forall x :: x in Firsts(Sweep(xs, 0)) ==> x in Firsts(xs)
    ensures forall x :: (x, false) in xs ==> x in Firsts(Sweep(xs, 0))
  {
    SweepKeepsUnfinished(xs, 0);
    var ys := Sweep(xs, 0);
    forall x | x in Firsts(ys)
      ensures x in Firsts(xs)
    {
      var i :| 0 <= i < |ys| && Firsts(ys)[i] == x;
      assert ys[i] in multiset(ys);
      var j :| 0 <= j < |xs| && xs[j] == ys[i];
      assert Firsts(xs)[j] == x;
    }
    forall x | (x, false) in xs
      ensures x in Firsts(ys)
    {
      assert multiset(ys)[(x, false)] == multiset(xs)[(x, false)] > 0;
      var i :| 0 <= i < |ys| && ys[i] == (x, false);
      assert Firsts(ys)[i] == x;
    }
  }
}
