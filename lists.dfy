/** The list shapes the generator's loops build with `append`: keeping the
    elements that pass a test, and mapping a field out of each element. Both
    are defined by the last element, the way a loop extends its result. */
module Lists {

  /** The elements of `s` that pass `keep`, in their order in `s`. */
  function Filter<T(!new)>(s: seq<T>, keep: T -> bool): (r: seq<T>)
    ensures |r| <= |s|
    ensures forall x :: x in r <==> x in s && keep(x)
  {
    if s == [] then []
    else
      var init, last := s[..|s| - 1], s[|s| - 1];
      assert s == init + [last];
      Filter(init, keep) + (if keep(last) then [last] else [])
  }

  /** `f` applied to each element of `s`. */
  function Map<T, U>(s: seq<T>, f: T -> U): (r: seq<U>)
    ensures |r| == |s|
    ensures forall i :: 0 <= i < |s| ==> r[i] == f(s[i])
  {
    if s == [] then []
    else
      var init, last := s[..|s| - 1], s[|s| - 1];
      Map(init, f) + [f(last)]
  }

  /** Extending the input by one element extends the result of `Filter` by
      that element if it passes, as one more turn of a collecting loop does. */
  lemma FilterSnoc<T(!new)>(s: seq<T>, x: T, keep: T -> bool)
    ensures Filter(s + [x], keep) == Filter(s, keep) + (if keep(x) then [x] else [])
  {
    assert (s + [x])[..|s|] == s;
  }

  lemma MapSnoc<T, U>(s: seq<T>, x: T, f: T -> U)
    ensures Map(s + [x], f) == Map(s, f) + [f(x)]
  {
    assert (s + [x])[..|s|] == s;
  }

  /** What `Map` after `Filter` yields: the images of exactly the elements
      that pass. */
  lemma MapFilterMember<T(!new), U>(s: seq<T>, keep: T -> bool, f: T -> U, y: U)
    ensures y in Map(Filter(s, keep), f) <==> exists x :: x in s && keep(x) && y == f(x)
  {
    var kept := Filter(s, keep);
    var r := Map(kept, f);
    if y in r {
      var k :| 0 <= k < |r| && r[k] == y;
      assert kept[k] in kept;
    }
    if x :| x in s && keep(x) && y == f(x) {
      assert x in kept;
      var k :| 0 <= k < |kept| && kept[k] == x;
      assert r[k] == y;
    }
  }
}
