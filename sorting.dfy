/** The three orders the heuristics sort players by, and stand-ins for the library calls that do
    the sorting and the shuffling: `list.sort` (in place), `sorted(list(set))` and `random.shuffle`. */
module Sorting {
  import opened Players

  /** `points_price_sort`: the sort key (points, -price). */
  function PointsPriceSort(x: Player): (int, int) {
    (x.points, -(x.price as int))
  }

  /** Python's ordering of pairs: `a >= b` compared field by field. */
  predicate PairAtLeast(a: (int, int), b: (int, int)) {
    a.0 > b.0 || (a.0 == b.0 && a.1 >= b.1)
  }

  /** The orders the source sorts by:
      `key=lambda p: p.price` (ascending), `key=lambda x: x.price, reverse=True`, and
      `key=points_price_sort, reverse=True`. */
  datatype SortKey = ByPriceAscending | ByPriceDescending | ByRank

  /** The pair each order compares, largest first: sorting ascending by price is sorting
      descending by minus the price. */
  function OrderKey(key: SortKey, x: Player): (int, int) {
    match key
    case ByPriceAscending => (-(x.price as int), 0)
    case ByPriceDescending => (x.price, 0)
    case ByRank => PointsPriceSort(x)
  }

  /** `x` may stand before `y` in a list sorted by `key`. */
  predicate Before(key: SortKey, x: Player, y: Player) {
    PairAtLeast(OrderKey(key, x), OrderKey(key, y))
  }

  /** What each order means in terms of the players' fields. */
  lemma {:induction false} BeforeMeaning(key: SortKey, x: Player, y: Player)
    ensures key == ByPriceAscending ==> (Before(key, x, y) <==> x.price <= y.price)
    ensures key == ByPriceDescending ==> (Before(key, x, y) <==> x.price >= y.price)
    ensures key == ByRank ==> (Before(key, x, y) <==> x.points > y.points || (x.points == y.points && x.price <= y.price))
  {
  }

  predicate Sorted(xs: seq<Player>, key: SortKey) {
    forall i, j :: 0 <= i < j < |xs| ==> Before(key, xs[i], xs[j])
  }

  lemma {:induction false} BeforeTotal(key: SortKey, x: Player, y: Player)
    ensures Before(key, x, y) || Before(key, y, x)
  {
  }

  lemma {:induction false} BeforeTransitive(key: SortKey, x: Player, y: Player, z: Player)
    requires Before(key, x, y) && Before(key, y, z)
    ensures Before(key, x, z)
  {
  }

  /** `x` may stand before every member of `s`. */
  predicate BeforeAll(key: SortKey, x: Player, s: set<Player>) {
    forall y :: y in s ==> Before(key, x, y)
  }

  lemma {:induction false} BeforeAllSubset(key: SortKey, x: Player, s: set<Player>, t: set<Player>)
    requires BeforeAll(key, x, s) && t <= s
    ensures BeforeAll(key, x, t)
  {
  }

  /** In a sorted list, each entry may stand before every entry from it onwards. */
  lemma {:induction false} SortedSuffixFirst(xs: seq<Player>, key: SortKey, i: int)
    requires Sorted(xs, key) && 0 <= i < |xs|
    ensures IsFirst(key, xs[i], Elems(xs[i..]))
  {
    forall y | y in Elems(xs[i..]) ensures Before(key, xs[i], y) {
      var m :| 0 <= m < |xs[i..]| && xs[i..][m] == y;
      assert xs[i + m] == y;
    }
    assert xs[i] == xs[i..][0];
  }

  /** In a sorted list, every entry before position `n` may stand before every entry from `n` on. */
  lemma {:induction false} SortedSplit(xs: seq<Player>, key: SortKey, n: int)
    requires Sorted(xs, key) && 0 <= n <= |xs|
    ensures forall x, y :: x in xs[..n] && y in xs[n..] ==> Before(key, x, y)
  {
    forall x, y | x in xs[..n] && y in xs[n..] ensures Before(key, x, y) {
      var k :| 0 <= k < n && xs[..n][k] == x;
      var m :| 0 <= m < |xs| - n && xs[n..][m] == y;
      assert xs[k] == x && xs[n + m] == y;
    }
  }

  /** `x` is a member of `s` that may stand before every member of `s`. */
  predicate IsFirst(key: SortKey, x: Player, s: set<Player>) {
    x in s && BeforeAll(key, x, s)
  }

  /** Every finite nonempty set has a member that may stand first. */
  lemma {:induction false} FirstOf(s: set<Player>, key: SortKey) returns (x: Player)
    requires s != {}
    ensures IsFirst(key, x, s)
    decreases |s|
  {
    var z :| z in s;
    if s - {z} == {} {
      forall y | y in s ensures y == z {
        assert y !in s - {z};
      }
      x := z;
    } else {
      var w := FirstOf(s - {z}, key);
      if Before(key, w, z) {
        x := w;
      } else {
        BeforeTotal(key, w, z);
        forall y | y in s ensures Before(key, z, y) {
          if y != z {
            BeforeTransitive(key, z, w, y);
          }
        }
        x := z;
      }
    }
  }

  /** While `q[j]` moves down into the sorted prefix `q[..i]`: `q[..j]` and `q[j..i+1]` are sorted,
      and everything left of `j` may stand before everything right of it. */
  ghost predicate Inserting(q: seq<Player>, j: int, i: int, key: SortKey) {
    && 0 <= j <= i < |q|
    && (forall k, l :: 0 <= k < l < j ==> Before(key, q[k], q[l]))
    && (forall k, l :: j <= k < l <= i ==> Before(key, q[k], q[l]))
    && (forall k, l :: 0 <= k < j < l <= i ==> Before(key, q[k], q[l]))
  }

  lemma {:induction false} InsertSwap(q: seq<Player>, j: int, i: int, key: SortKey)
    requires Inserting(q, j, i, key) && j > 0 && !Before(key, q[j - 1], q[j])
    ensures Inserting(q[j - 1 := q[j]][j := q[j - 1]], j - 1, i, key)
  {
    BeforeTotal(key, q[j - 1], q[j]);
  }

  lemma {:induction false} InsertDone(q: seq<Player>, j: int, i: int, key: SortKey)
    requires Inserting(q, j, i, key) && (j == 0 || Before(key, q[j - 1], q[j]))
    ensures Sorted(q[..i + 1], key)
  {
    forall k, l | 0 <= k < l <= i
      ensures Before(key, q[k], q[l])
    {
      if k < j - 1 && l == j {
        BeforeTransitive(key, q[k], q[j - 1], q[j]);
      }
    }
  }

  /** Exchanging two neighbours permutes a sequence. */
  lemma {:induction false} SwapPermutes(q: seq<Player>, j: int)
    requires 0 < j < |q|
    ensures multiset(q[j - 1 := q[j]][j := q[j - 1]]) == multiset(q)
  {
  }

  /** One round of insertion: moves `a[i]` down into the sorted prefix `a[..i]`. */
  method Insert(a: array<Player>, i: int, key: SortKey)
    requires 0 <= i < a.Length && Sorted(a[..i], key)
    modifies a
    ensures Sorted(a[..i + 1], key)
    ensures multiset(a[..]) == old(multiset(a[..]))
  {
    var j := i;
    while j > 0 && !Before(key, a[j - 1], a[j])
      invariant Inserting(a[..], j, i, key)
      invariant multiset(a[..]) == old(multiset(a[..]))
    {
      ghost var q := a[..];
      InsertSwap(q, j, i, key);
      SwapPermutes(q, j);
      a[j - 1], a[j] := a[j], a[j - 1];
      assert a[..] == q[j - 1 := q[j]][j := q[j - 1]];
      j := j - 1;
    }
    InsertDone(a[..], j, i, key);
    assert a[..i + 1] == a[..][..i + 1];
  }

  /** `list.sort(key=...)` on the caller's list, modelled as an insertion sort by adjacent swaps. */
  method SortInPlace(a: array<Player>, key: SortKey)
    modifies a
    ensures Sorted(a[..], key)
    ensures multiset(a[..]) == old(multiset(a[..]))
  {
    var i := 0;
    while i < a.Length
      invariant 0 <= i <= a.Length
      invariant Sorted(a[..i], key)
      invariant multiset(a[..]) == old(multiset(a[..]))
    {
      Insert(a, i, key);
      i := i + 1;
    }
    assert a[..a.Length] == a[..];
  }

  /** Midway through `SortSet`: `xs` is the sorted front of the result and `rest` what is left. */
  ghost predicate Selecting(xs: seq<Player>, rest: set<Player>, s: set<Player>, key: SortKey) {
    && Elems(xs) + rest == s && Elems(xs) !! rest
    && Distinct(xs) && Sorted(xs, key)
    && (forall i :: 0 <= i < |xs| ==> BeforeAll(key, xs[i], rest))
  }

  /** Moving a first member of `rest` to the end of `xs` keeps `Selecting`. */
  lemma {:induction false} SelectFirst(xs: seq<Player>, rest: set<Player>, s: set<Player>, key: SortKey, x: Player)
    requires Selecting(xs, rest, s, key) && IsFirst(key, x, rest)
    ensures Selecting(xs + [x], rest - {x}, s, key)
  {
    var ys := xs + [x];
    assert x !in Elems(xs);
    ElemsSnoc(ys);
    assert ys[..|xs|] == xs;
    forall i | 0 <= i < |xs| ensures Before(key, xs[i], x) {
      assert BeforeAll(key, xs[i], rest);
    }
    forall i | 0 <= i < |ys| ensures BeforeAll(key, ys[i], rest - {x}) {
      if i < |xs| {
        assert ys[i] == xs[i];
        BeforeAllSubset(key, xs[i], rest, rest - {x});
      } else {
        BeforeAllSubset(key, x, rest, rest - {x});
      }
    }
  }

  /** `sorted(list(s), key=...)`: the set's players in an order sorted by `key`. Players that tie on
      the key come in an order the model leaves open, as the set's iteration order does. */
  method SortSet(s: set<Player>, key: SortKey) returns (xs: seq<Player>)
    ensures Elems(xs) == s && Distinct(xs) && Sorted(xs, key)
    ensures |xs| == |s|
  {
    xs := [];
    var rest := s;
    while rest != {}
      invariant Selecting(xs, rest, s, key)
      invariant |xs| + |rest| == |s|
      decreases |rest|
    {
      ghost var w := FirstOf(rest, key);
      var x :| IsFirst(key, x, rest);
      SelectFirst(xs, rest, s, key, x);
      xs := xs + [x];
      rest := rest - {x};
    }
  }

  /** Python's `randbelow(n)` for a draw `d`: a number below `n`. */
  function Below(d: nat, n: int): (r: nat)
    requires n > 0
    ensures r < n
  {
    d % n
  }

  /** Python's Fisher-Yates shuffle on a sequence: for `i` from `i` down to 1, swap entry `i` with
      entry `j`, where `j` is draw number `cursor`, `cursor + 1`, ... reduced below `i + 1`. */
  function FisherYates<T>(xs: seq<T>, i: int, draws: nat -> nat, cursor: nat): (r: seq<T>)
    requires i < |xs|
    ensures |r| == |xs|
    decreases i
  {
    if i <= 0 then xs
    else
      var j := Below(draws(cursor), i + 1);
      FisherYates(xs[i := xs[j]][j := xs[i]], i - 1, draws, cursor + 1)
  }

  /** The shuffle is a permutation, whatever the draws. */
  lemma {:induction false} FisherYatesPermutes<T>(xs: seq<T>, i: int, draws: nat -> nat, cursor: nat)
    requires i < |xs|
    ensures multiset(FisherYates(xs, i, draws, cursor)) == multiset(xs)
    decreases i
  {
    if i > 0 {
      var j := Below(draws(cursor), i + 1);
      var swapped := xs[i := xs[j]][j := xs[i]];
      FisherYatesPermutes(swapped, i - 1, draws, cursor + 1);
      if i != j {
        assert multiset(xs[i := xs[j]]) == multiset(xs) - multiset{xs[i]} + multiset{xs[j]};
      }
    }
  }

  /** The loop state of `Shuffle`: shuffling `xs` from entry `i` on with the draws from `cursor`
      gives `goal`. */
  ghost predicate ShufflesTo<T>(xs: seq<T>, i: int, draws: nat -> nat, cursor: nat, goal: seq<T>)
    requires i < |xs|
  {
    FisherYates(xs, i, draws, cursor) == goal
  }

  /** One swap of the shuffle leaves the rest of it to give the same result. */
  lemma {:induction false} ShuffleStep<T>(xs: seq<T>, i: int, draws: nat -> nat, cursor: nat, goal: seq<T>)
    requires 0 < i < |xs| && ShufflesTo(xs, i, draws, cursor, goal)
    ensures var j := Below(draws(cursor), i + 1);
      ShufflesTo(xs[i := xs[j]][j := xs[i]], i - 1, draws, cursor + 1, goal)
  {
  }

  /** A new array holding `xs`. */
  method ArrayOf(xs: seq<int>) returns (a: array<int>)
    ensures fresh(a) && a[..] == xs
  {
    a := new int[|xs|](k requires 0 <= k < |xs| => xs[k]);
  }

  /** Exchanges two entries of `a` in place. */
  method Swap<T>(a: array<T>, i: int, j: int)
    requires 0 <= i < a.Length && 0 <= j < a.Length
    modifies a
    ensures a[..] == old(a[..])[i := old(a[j])][j := old(a[i])]
  {
    a[i], a[j] := a[j], a[i];
  }

  /** `random.shuffle(a)`: Python's Fisher-Yates shuffle, which swaps `a[i]` with `a[j]` for `i`
      from the end down to 1 and `j` drawn below `i + 1`. Draw number `k` is `draws(k)`, reduced
      into range; the result is the cursor after the draws this shuffle used. */
  method Shuffle<T>(a: array<T>, draws: nat -> nat, cursor: nat) returns (next: nat)
    modifies a
    ensures a[..] == FisherYates(old(a[..]), a.Length - 1, draws, cursor)
    ensures multiset(a[..]) == old(multiset(a[..]))
    ensures next == cursor + (if a.Length == 0 then 0 else a.Length - 1)
  {
    next := cursor;
    var i := a.Length - 1;
    ghost var cur := a[..];
    ghost var goal := FisherYates(cur, i, draws, cursor);
    while i > 0
      invariant -1 <= i < a.Length && (a.Length > 0 ==> 0 <= i)
      invariant a[..] == cur && ShufflesTo(cur, i, draws, next, goal)
      invariant next == cursor + (a.Length - 1 - i)
    {
      var j := Below(draws(next), i + 1);
      ShuffleStep(cur, i, draws, next, goal);
      cur := cur[i := cur[j]][j := cur[i]];
      Swap(a, i, j);
      next := next + 1;
      i := i - 1;
    }
    ShufflePermutes(old(a[..]), a[..], draws, cursor);
  }

  /** The whole shuffle of `xs` is a permutation of it. */
  lemma {:induction false} ShufflePermutes<T>(xs: seq<T>, ys: seq<T>, draws: nat -> nat, cursor: nat)
    requires ys == FisherYates(xs, |xs| - 1, draws, cursor)
    ensures multiset(ys) == multiset(xs)
  {
    FisherYatesPermutes(xs, |xs| - 1, draws, cursor);
  }
}
