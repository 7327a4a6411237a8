/** Stand-ins for the Python list operations the improvement heuristics call: `list.index`,
    `list.remove`, `range` and the slices `xs[-n:]`. */
module Lists {
  import opened Players

  /** `xs.index(x)`: the first place `x` occurs, or nothing where Python raises ValueError. */
  function IndexOf<T(==)>(xs: seq<T>, x: T): (r: Option<nat>)
    ensures r.Some? <==> x in xs
    ensures r.Some? ==> r.value < |xs| && xs[r.value] == x && x !in xs[..r.value]
  {
    if xs == [] then None
    else if xs[0] == x then Some(0)
    else
      match IndexOf(xs[1..], x)
      case None => None
      case Some(i) =>
        assert xs[1..][..i] == xs[1..i + 1];
        assert xs[..i + 1] == [xs[0]] + xs[1..i + 1];
        Some(i + 1)
  }

  /** `xs.remove(x)`: `xs` without the first occurrence of `x`, or nothing where Python raises
      ValueError. */
  function RemoveFirst<T(==)>(xs: seq<T>, x: T): (r: Option<seq<T>>)
    ensures r.Some? <==> x in xs
    ensures r.Some? ==> |r.value| == |xs| - 1 && multiset(r.value) == multiset(xs) - multiset{x}
  {
    match IndexOf(xs, x)
    case None => None
    case Some(i) =>
      assert xs == xs[..i] + [x] + xs[i + 1..];
      Some(xs[..i] + xs[i + 1..])
  }

  /** The occurrence `remove` takes out is the first: at the place `i` where `x` first occurs, the
      rest is what comes before `i` followed by what comes after it. */
  lemma {:induction false} RemoveFirstAt<T>(xs: seq<T>, x: T, i: int)
    requires 0 <= i < |xs| && xs[i] == x && x !in xs[..i]
    ensures RemoveFirst(xs, x) == Some(xs[..i] + xs[i + 1..])
  {
    assert xs[..i + 1][i] == x;
  }

  /** What is left after `remove` is drawn from the list. */
  lemma {:induction false} RemoveFirstFrom<T>(xs: seq<T>, x: T, ys: seq<T>, y: T)
    requires RemoveFirst(xs, x) == Some(ys) && y in ys
    ensures y in xs
  {
    assert y in multiset(ys);
  }

  /** `list(range(lo, hi))`. */
  function Range(lo: int, hi: int): (r: seq<int>)
    ensures |r| == if lo <= hi then hi - lo else 0
    ensures forall k :: 0 <= k < |r| ==> r[k] == lo + k
  {
    seq(if lo <= hi then hi - lo else 0, k => lo + k)
  }

  /** `xs[-n:]` for a positive `n`: the last `n` entries, or all of them when there are fewer.
      (For `n == 0` Python's `xs[-0:]` is the whole list, so `n` must be positive.) */
  function LastN<T>(xs: seq<T>, n: nat): (r: seq<T>)
    requires n > 0
    ensures |r| == if |xs| <= n then |xs| else n
    ensures r == xs[|xs| - |r|..]
  {
    if |xs| <= n then xs else xs[|xs| - n..]
  }
}
