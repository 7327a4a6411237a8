/** `local_search`: hill climbing over the starting eleven. For each slot it tries the last three,
    in ranked order, of the same-position players with more points, and takes the first one that
    is not already in the squad and passes the budget and club test. It repeats whole passes until
    a pass changes nothing. */
module Local {
  import opened Players
  import opened Sorting
  import opened Util
  import opened Lists
  import opened Moves

  /** `[x for x in xs if x.points > player.points]`. */
  function Better(xs: seq<Player>, player: Player): (r: seq<Player>)
    ensures forall x :: x in r <==> x in xs && x.points > player.points
  {
    if xs == [] then []
    else
      var n := |xs| - 1;
      assert xs == xs[..n] + [xs[n]];
      Better(xs[..n], player) + (if xs[n].points > player.points then [xs[n]] else [])
  }

  /** Filtering keeps a sorted list sorted. */
  lemma {:induction false} BetterSorted(xs: seq<Player>, player: Player, key: SortKey)
    requires Sorted(xs, key)
    ensures Sorted(Better(xs, player), key)
  {
    if xs != [] {
      var n := |xs| - 1;
      assert Sorted(xs[..n], key);
      BetterSorted(xs[..n], player, key);
      var r := Better(xs[..n], player);
      forall k | 0 <= k < |r| ensures Before(key, r[k], xs[n]) {
        assert r[k] in xs[..n];
      }
    }
  }

  /** The candidates tried for `player`: the last three players of `Better`. */
  function Alternatives(xs: seq<Player>, player: Player): (r: seq<Player>)
    ensures |r| == Min(3, |Better(xs, player)|)
    ensures forall x :: x in r ==> x in xs && x.points > player.points
  {
    LastN(Better(xs, player), 3)
  }

  /** In a list sorted by rank the candidates are the three improvers with the fewest points:
      every other improver may stand before each of them. */
  lemma {:induction false} AlternativesRanked(xs: seq<Player>, player: Player)
    requires Sorted(xs, ByRank)
    ensures forall x, y ::
      (x in xs && x.points > player.points && x !in Alternatives(xs, player) && y in Alternatives(xs, player))
      ==> Before(ByRank, x, y)
  {
    var better := Better(xs, player);
    BetterSorted(xs, player, ByRank);
    var r := Alternatives(xs, player);
    var n := |better| - |r|;
    SortedSplit(better, ByRank, n);
    assert better == better[..n] + r;
    assert forall x :: x in better && x !in r ==> x in better[..n];
  }

  /** A candidate the inner loop takes for slot `i`: in neither the lineup nor the bench, and
      passing the budget and club test. */
  ghost predicate Eligible(s: seq<Player>, bench: seq<Player>, budget: int, i: int, c: Player)
    requires 0 <= i < |s|
  {
    c !in s && c !in bench && SwapAllowed(s, bench, budget, i, c)
  }

  /** Slot `i` of `s` has no candidate left that could be brought in. */
  ghost predicate Settled(byPos: map<Position, seq<Player>>, s: seq<Player>, bench: seq<Player>,
                          budget: int, i: int)
    requires 0 <= i < |s|
  {
    s[i].position in byPos ==>
      forall c :: c in Alternatives(byPos[s[i].position], s[i]) ==> !Eligible(s, bench, budget, i, c)
  }

  /** Candidate `j` of `alts` is the first eligible one. */
  ghost predicate FirstEligible(alts: seq<Player>, s: seq<Player>, bench: seq<Player>, budget: int,
                                i: int, j: int)
    requires 0 <= i < |s|
  {
    && 0 <= j < |alts| && Eligible(s, bench, budget, i, alts[j])
    && forall l :: 0 <= l < j ==> !Eligible(s, bench, budget, i, alts[l])
  }

  /** What the search stops at: no slot of the eleven has a candidate it would still accept. */
  ghost predicate LocalOptimum(byPos: map<Position, seq<Player>>, s: seq<Player>, bench: seq<Player>,
                               budget: int) {
    |s| >= 11 && forall i :: 0 <= i < 11 ==> Settled(byPos, s, bench, budget, i)
  }

  /** `s'` and `b'` are `s` and `budget` after slot `i` took its first eligible candidate. */
  ghost predicate ImprovedBy(byPos: map<Position, seq<Player>>, s: seq<Player>, bench: seq<Player>,
                             budget: int, i: int, s': seq<Player>, b': int)
    requires 0 <= i < |s| && s[i].position in byPos
  {
    var alts := Alternatives(byPos[s[i].position], s[i]);
    exists j :: FirstEligible(alts, s, bench, budget, i, j)
      && s' == s[i := alts[j]] && b' == budget + s[i].price - alts[j].price
  }

  /** A slot with a first eligible candidate is not settled; one where no candidate is eligible
      is. */
  lemma {:induction false} SettledMeaning(byPos: map<Position, seq<Player>>, s: seq<Player>, bench: seq<Player>,
                       budget: int, i: int, j: int)
    requires 0 <= i < |s| && s[i].position in byPos
    ensures FirstEligible(Alternatives(byPos[s[i].position], s[i]), s, bench, budget, i, j)
            ==> !Settled(byPos, s, bench, budget, i)
    ensures (forall k :: 0 <= k < |Alternatives(byPos[s[i].position], s[i])| ==>
               !Eligible(s, bench, budget, i, Alternatives(byPos[s[i].position], s[i])[k]))
            ==> Settled(byPos, s, bench, budget, i)
  {
    var alts := Alternatives(byPos[s[i].position], s[i]);
    if FirstEligible(alts, s, bench, budget, i, j) {
      assert alts[j] in alts;
    }
  }

  /** Taking an eligible candidate keeps `Keeps` and the absence of duplicates and gains points. */
  lemma {:induction false} ImproveKeeps(start: seq<Player>, bench: seq<Player>, budget0: int, pool: set<Player>,
                     s: seq<Player>, budget: int, i: int, c: Player)
    requires Keeps(start, bench, budget0, pool, s, budget) && 0 <= i < |s|
    requires c.position == s[i].position && c in pool && c.points > s[i].points
    requires Eligible(s, bench, budget, i, c)
    ensures Keeps(start, bench, budget0, pool, s[i := c], budget + s[i].price - c.price)
    ensures Distinct(s + bench) ==> Distinct(s[i := c] + bench)
    ensures Points(s[i := c]) > Points(s)
  {
    SwapKeeps(start, bench, budget0, pool, s, budget, i, c);
    if Distinct(s + bench) {
      SwapDistinct(s, bench, i, c);
    }
  }

  /** One slot of a pass: the inner `for candidate in alternatives` loop. It moves exactly when
      the slot is not settled, and then puts the first eligible candidate into slot `i` alone,
      paying for it and gaining points; otherwise it changes nothing. */
  method ImproveSlot(byPos: map<Position, seq<Player>>, starting: array<Player>, bench: seq<Player>,
                     budget: int, i: int, ghost start: seq<Player>, ghost budget0: int,
                     ghost pool: set<Player>)
    returns (moved: bool, budgetNext: int)
    requires 0 <= i < starting.Length && Offers(byPos, pool)
    requires Keeps(start, bench, budget0, pool, starting[..], budget)
    modifies starting
    ensures Keeps(start, bench, budget0, pool, starting[..], budgetNext)
    ensures Distinct(old(starting[..]) + bench) ==> Distinct(starting[..] + bench)
    ensures moved ==> Points(starting[..]) > Points(old(starting[..]))
    ensures !moved ==> starting[..] == old(starting[..]) && budgetNext == budget
    ensures moved <==> !Settled(byPos, old(starting[..]), bench, budget, i)
    ensures moved ==> old(starting[i]).position in byPos
                      && ImprovedBy(byPos, old(starting[..]), bench, budget, i, starting[..], budgetNext)
  {
    var player := starting[i];
    moved, budgetNext := false, budget;
    if player.position !in byPos {
      return;
    }
    var alternatives := Alternatives(byPos[player.position], player);
    ghost var s := starting[..];
    for j := 0 to |alternatives|
      invariant starting[..] == s && budgetNext == budget && !moved
      invariant forall k :: 0 <= k < j ==> !Eligible(s, bench, budget, i, alternatives[k])
    {
      var candidate := alternatives[j];
      if candidate in starting[..] || candidate in bench {
        continue;
      }
      var clubOk := CheckClubConstraint(starting[..] + bench, candidate.club);
      if budget + player.price >= candidate.price && (clubOk || player.club == candidate.club) {
        assert FirstEligible(alternatives, s, bench, budget, i, j);
        assert candidate in alternatives;
        ImproveKeeps(start, bench, budget0, pool, s, budget, i, candidate);
        SettledMeaning(byPos, s, bench, budget, i, j);
        starting[i] := candidate;
        assert starting[..] == s[i := candidate];
        budgetNext := budget + player.price - candidate.price;
        moved := true;
        return;
      }
    }
    SettledMeaning(byPos, s, bench, budget, i, 0);
  }

  /** After the first `i` slots of a pass that started from `s0` with budget `budget`. */
  ghost predicate Passing(byPos: map<Position, seq<Player>>, bench: seq<Player>, budget: int,
                          s0: seq<Player>, s: seq<Player>, budgetNext: int, improved: bool, i: int) {
    && (Distinct(s0 + bench) ==> Distinct(s + bench))
    && (improved ==> Points(s) > Points(s0))
    && (!improved ==> s == s0 && budgetNext == budget)
    && (!improved ==> 0 <= i <= |s| && forall k :: 0 <= k < i ==> Settled(byPos, s, bench, budgetNext, k))
  }

  lemma {:induction false} PassStep(byPos: map<Position, seq<Player>>, bench: seq<Player>, budget: int, s0: seq<Player>,
                 s: seq<Player>, b: int, improved: bool, i: int, moved: bool, s': seq<Player>, b': int)
    requires Passing(byPos, bench, budget, s0, s, b, improved, i) && 0 <= i < |s|
    requires Distinct(s + bench) ==> Distinct(s' + bench)
    requires moved ==> Points(s') > Points(s)
    requires !moved ==> s' == s && b' == b && Settled(byPos, s, bench, b, i)
    ensures Passing(byPos, bench, budget, s0, s', b', improved || moved, i + 1)
  {
  }

  /** One pass of the `while improved` loop: every slot once, in order. If no slot moved, the
      lineup is unchanged and a local optimum; otherwise it has strictly more points. */
  method Pass(byPos: map<Position, seq<Player>>, starting: array<Player>, bench: seq<Player>,
              budget: int, ghost start: seq<Player>, ghost budget0: int, ghost pool: set<Player>)
    returns (improved: bool, budgetNext: int)
    requires starting.Length >= 11 && Offers(byPos, pool)
    requires Keeps(start, bench, budget0, pool, starting[..], budget)
    modifies starting
    ensures Keeps(start, bench, budget0, pool, starting[..], budgetNext)
    ensures Distinct(old(starting[..]) + bench) ==> Distinct(starting[..] + bench)
    ensures improved ==> Points(starting[..]) > Points(old(starting[..]))
    ensures !improved ==> starting[..] == old(starting[..]) && budgetNext == budget
    ensures !improved ==> LocalOptimum(byPos, starting[..], bench, budgetNext)
    ensures LocalOptimum(byPos, old(starting[..]), bench, budget) ==> !improved
  {
    ghost var s0 := starting[..];
    improved, budgetNext := false, budget;
    for i := 0 to 11
      invariant Keeps(start, bench, budget0, pool, starting[..], budgetNext)
      invariant Passing(byPos, bench, budget, s0, starting[..], budgetNext, improved, i)
      invariant LocalOptimum(byPos, s0, bench, budget) ==> !improved
    {
      ghost var s, b := starting[..], budgetNext;
      var moved;
      moved, budgetNext := ImproveSlot(byPos, starting, bench, budgetNext, i, start, budget0, pool);
      PassStep(byPos, bench, budget, s0, s, b, improved, i, moved, starting[..], budgetNext);
      improved := improved || moved;
    }
  }

  /** The `while improved` loop of `local_search`: passes over the starting eleven until a pass
      moves no slot. Players come from `byPos`, which offers players of `ranked` only. */
  method ImproveAll(byPos: map<Position, seq<Player>>, starting: array<Player>, bench: seq<Player>,
                    budget: int, ghost ranked: seq<Player>)
    returns (budgetLeft: int)
    requires starting.Length >= 11 && Offers(byPos, Elems(ranked))
    modifies starting
    ensures Keeps(old(starting[..]), bench, budget, Elems(ranked), starting[..], budgetLeft)
    ensures starting[..] == old(starting[..]) || Points(starting[..]) > Points(old(starting[..]))
    ensures Distinct(old(starting[..]) + bench) ==> Distinct(starting[..] + bench)
    ensures LocalOptimum(byPos, starting[..], bench, budgetLeft)
    ensures LocalOptimum(byPos, old(starting[..]), bench, budget) ==>
              starting[..] == old(starting[..]) && budgetLeft == budget
  {
    ghost var start := starting[..];
    ghost var pool := Elems(ranked);
    ghost var bound := |start| * MaxPoints(start + ranked);
    budgetLeft := budget;
    KeepsStart(start, bench, budget, pool);
    var improved := true;
    while improved
      invariant Keeps(start, bench, budget, pool, starting[..], budgetLeft)
      invariant starting[..] == start || Points(starting[..]) > Points(start)
      invariant Distinct(start + bench) ==> Distinct(starting[..] + bench)
      invariant !improved ==> LocalOptimum(byPos, starting[..], bench, budgetLeft)
      invariant LocalOptimum(byPos, start, bench, budget) ==> starting[..] == start && budgetLeft == budget
      decreases bound - Points(starting[..]) + (if improved then 1 else 0)
    {
      KeepsPointsBound(start, bench, budget, ranked, starting[..], budgetLeft);
      improved, budgetLeft := Pass(byPos, starting, bench, budgetLeft, start, budget, pool);
      KeepsPointsBound(start, bench, budget, ranked, starting[..], budgetLeft);
    }
  }

  /** `local_search`: sorts `instance` by rank (through `DivideByPositions`) and improves the
      starting eleven in place. The result keeps every slot's position, the money spent plus the
      budget, the club cap and the absence of duplicates, is the start itself or has strictly more
      points, and is a local optimum. The budget left over is returned as well. */
  method LocalSearch(instance: array<Player>, starting: array<Player>, bench: seq<Player>, budget: int)
    returns (budgetLeft: int)
    requires starting.Length >= 11 && instance != starting
    modifies instance, starting
    ensures multiset(instance[..]) == old(multiset(instance[..])) && Sorted(instance[..], ByRank)
    ensures Keeps(old(starting[..]), bench, budget, Elems(instance[..]), starting[..], budgetLeft)
    ensures starting[..] == old(starting[..]) || Points(starting[..]) > Points(old(starting[..]))
    ensures Distinct(old(starting[..]) + bench) ==> Distinct(starting[..] + bench)
    ensures LocalOptimum(PositionIndex(instance[..]), starting[..], bench, budgetLeft)
    ensures LocalOptimum(PositionIndex(instance[..]), old(starting[..]), bench, budget) ==>
              starting[..] == old(starting[..]) && budgetLeft == budget
  {
    var byPositions := DivideByPositions(instance);
    assert Offers(byPositions, Elems(instance[..]));
    budgetLeft := ImproveAll(byPositions, starting, bench, budget, instance[..]);
  }
}
