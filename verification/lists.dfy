/** `Array.prototype.filter`, shared by every screen that drops items by id. */
module Lists {

  /** `xs.filter(keep)`: the items `keep` accepts, in their order and with
      their multiplicity. */
  function Filter<T(==)>(xs: seq<T>, keep: T -> bool): (r: seq<T>)
    ensures |r| <= |xs|
    ensures forall i :: 0 <= i < |r| ==> r[i] in xs && keep(r[i])
    ensures forall i :: 0 <= i < |xs| && keep(xs[i]) ==> xs[i] in r
    ensures xs == [] ==> r == []
    ensures |xs| == 1 ==> r == if keep(xs[0]) then xs else []
    ensures (forall i :: 0 <= i < |xs| ==> keep(xs[i])) ==> r == xs
  {
    if xs == [] then []
    else
      var rest := Filter(xs[1..], keep);
      assert forall i :: 1 <= i < |xs| ==> xs[i] == xs[1..][i - 1];
      if keep(xs[0]) then
        assert xs == [xs[0]] + xs[1..];
        [xs[0]] + rest
      else rest
  }

  /** Filtering distributes over concatenation; together with the empty and
      one-item cases this fixes the result completely. */
  lemma {:induction false} FilterAppend<T>(a: seq<T>, b: seq<T>, keep: T -> bool)
    ensures Filter(a + b, keep) == Filter(a, keep) + Filter(b, keep)
    decreases |a|
  {
    if a == [] {
      assert a + b == b;
    } else {
      assert (a + b)[0] == a[0];
      assert (a + b)[1..] == a[1..] + b;
      FilterAppend(a[1..], b, keep);
    }
  }

  /** Filtering twice with the same test is filtering once. */
  lemma {:induction false} FilterIdempotent<T>(xs: seq<T>, keep: T -> bool)
    ensures Filter(Filter(xs, keep), keep) == Filter(xs, keep)
  {
    var r := Filter(xs, keep);
    assert forall i :: 0 <= i < |r| ==> r[i] in r;
  }
}
