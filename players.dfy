/** The player catalogue, the fixed squad rules, and the quantities the heuristics keep track of:
    points and price totals, per-club and per-position counts, over lists and over sets. */
module Players {

  /** Playing position; the source spells these as the strings 'GK', 'DEF', 'MID' and 'FW'. */
  datatype Position = GK | DEF | MID | FW

  /** A draftable player. Prices are whole tenths of a budget unit, so 100.0 units is 1000.
      Two players are equal when all their fields are (a dataclass with field-wise equality and hash). */
  datatype Player = Player(id: int, position: Position, name: string, club: string, points: int, price: nat)

  /** How an operation of the source ends when it does not return normally. */
  datatype Failure =
    | MissingGoalkeeper   // `goalkeepers[1]` (or `[0]`) raises IndexError in select_starting_11
    | MissingForward      // `[... FW][0]` raises IndexError in select_starting_11
    | EmptyEviction       // the most expensive of no players: `selected[0]` raises IndexError
    | RoundsExhausted     // random_search has not completed the squad within the given rounds
    | BenchIncomplete     // greedy_search's first pass drafted fewer than 4 substitutes
    | NotInPositionList   // `list.index(player)` raises ValueError
    | LastInPositionList  // `indices.remove(index)` raises ValueError in simulated_annealing

  datatype Result<T> = Ok(value: T) | Err(error: Failure)

  datatype Option<T> = None | Some(value: T)

  /** MAX_BUDGET, 100.0 units, in tenths. */
  const MaxBudget: int := 1000

  /** The number of players in a full squad. */
  const SquadSize: nat := 15

  /** MAX_POSITIONS: how many players of each position a squad holds. */
  function MaxPositions(p: Position): nat {
    match p
    case GK => 2
    case DEF => 5
    case MID => 5
    case FW => 3
  }

  lemma {:induction false} PositionCases(p: Position)
    ensures p in {GK, DEF, MID, FW}
  {
  }

  /** The players of a list, as a set (`set(xs)`). */
  function Elems(xs: seq<Player>): set<Player> {
    set x | x in xs
  }

  predicate Distinct(xs: seq<Player>) {
    forall i, j :: 0 <= i < j < |xs| ==> xs[i] != xs[j]
  }

  /** Sum of the points of a list, counted from the front. */
  function Points(xs: seq<Player>): int {
    if xs == [] then 0 else Points(xs[..|xs| - 1]) + xs[|xs| - 1].points
  }

  /** Sum of the prices of a list. */
  function Prices(xs: seq<Player>): int {
    if xs == [] then 0 else Prices(xs[..|xs| - 1]) + xs[|xs| - 1].price
  }

  /** How many entries of a list play for `club` (an entry listed twice counts twice). */
  function ClubCount(xs: seq<Player>, club: string): nat {
    if xs == [] then 0
    else ClubCount(xs[..|xs| - 1], club) + (if xs[|xs| - 1].club == club then 1 else 0)
  }

  /** How many entries of a list play in position `p`. */
  function PositionCount(xs: seq<Player>, p: Position): nat {
    if xs == [] then 0
    else PositionCount(xs[..|xs| - 1], p) + (if xs[|xs| - 1].position == p then 1 else 0)
  }

  /** `[x for x in xs if x.position == p]`. */
  function OfPosition(xs: seq<Player>, p: Position): seq<Player> {
    if xs == [] then []
    else OfPosition(xs[..|xs| - 1], p) + (if xs[|xs| - 1].position == p then [xs[|xs| - 1]] else [])
  }

  function AtPosition(s: set<Player>, p: Position): set<Player> {
    set x | x in s && x.position == p
  }

  function FromClub(s: set<Player>, club: string): set<Player> {
    set x | x in s && x.club == club
  }

  /** Sum of the prices of a set of players. */
  ghost function SetPrice(s: set<Player>): int
    decreases |s|
  {
    if s == {} then 0 else var x :| x in s; x.price + SetPrice(s - {x})
  }

  /** No club has more than `cap` entries in the list. */
  ghost predicate ClubsWithin(xs: seq<Player>, cap: nat) {
    forall club :: ClubCount(xs, club) <= cap
  }

  /** A squad that meets every position quota exactly (and so has 15 players). */
  ghost predicate FullQuotas(s: set<Player>) {
    forall p :: |AtPosition(s, p)| == MaxPositions(p)
  }

  // ---------------------------------------------------------------------------------------------
  // Replacing one entry of a list

  /** Replacing `xs[i]` by `c` changes the points total by `c.points - xs[i].points`. */
  lemma {:induction false} PointsUpdate(xs: seq<Player>, i: int, c: Player)
    requires 0 <= i < |xs|
    ensures Points(xs[i := c]) == Points(xs) - xs[i].points + c.points
  {
    var n := |xs| - 1;
    if i == n {
      assert xs[i := c][..n] == xs[..n];
    } else {
      PointsUpdate(xs[..n], i, c);
      assert xs[i := c][..n] == xs[..n][i := c];
    }
  }

  lemma {:induction false} PricesUpdate(xs: seq<Player>, i: int, c: Player)
    requires 0 <= i < |xs|
    ensures Prices(xs[i := c]) == Prices(xs) - xs[i].price + c.price
  {
    var n := |xs| - 1;
    if i == n {
      assert xs[i := c][..n] == xs[..n];
    } else {
      PricesUpdate(xs[..n], i, c);
      assert xs[i := c][..n] == xs[..n][i := c];
    }
  }

  lemma {:induction false} ClubCountUpdate(xs: seq<Player>, i: int, c: Player, club: string)
    requires 0 <= i < |xs|
    ensures ClubCount(xs[i := c], club)
            == ClubCount(xs, club) - (if xs[i].club == club then 1 else 0) + (if c.club == club then 1 else 0)
  {
    var n := |xs| - 1;
    if i == n {
      assert xs[i := c][..n] == xs[..n];
    } else {
      ClubCountUpdate(xs[..n], i, c, club);
      assert xs[i := c][..n] == xs[..n][i := c];
    }
  }

  /** An entry that keeps its position, or a replacement from the same position, leaves the
      position counts alone. */
  lemma {:induction false} PositionCountUpdate(xs: seq<Player>, i: int, c: Player, p: Position)
    requires 0 <= i < |xs| && c.position == xs[i].position
    ensures PositionCount(xs[i := c], p) == PositionCount(xs, p)
  {
    var n := |xs| - 1;
    if i == n {
      assert xs[i := c][..n] == xs[..n];
    } else {
      PositionCountUpdate(xs[..n], i, c, p);
      assert xs[i := c][..n] == xs[..n][i := c];
    }
  }

  /** The list operations `starting_11[i] = c` and `[*starting_11, *bench]` commute. */
  lemma {:induction false} UpdateConcat(s: seq<Player>, b: seq<Player>, i: int, c: Player)
    requires 0 <= i < |s|
    ensures s[i := c] + b == (s + b)[i := c]
  {
  }

  // ---------------------------------------------------------------------------------------------
  // Lists and their sets

  lemma {:induction false} ElemsSnoc(xs: seq<Player>)
    requires xs != []
    ensures Elems(xs) == Elems(xs[..|xs| - 1]) + {xs[|xs| - 1]}
  {
    var n := |xs| - 1;
    assert xs == xs[..n] + [xs[n]];
  }

  /** A list without repeats has as many entries as its set has members. */
  lemma {:induction false} DistinctCard(xs: seq<Player>)
    requires Distinct(xs)
    ensures |Elems(xs)| == |xs|
  {
    if xs != [] {
      var n := |xs| - 1;
      DistinctCard(xs[..n]);
      ElemsSnoc(xs);
      assert xs[n] !in Elems(xs[..n]);
    }
  }

  /** The filtered list holds exactly the list's players of that position, without new repeats. */
  lemma {:induction false} OfPositionFacts(xs: seq<Player>, p: Position)
    ensures Elems(OfPosition(xs, p)) == AtPosition(Elems(xs), p)
    ensures |OfPosition(xs, p)| == PositionCount(xs, p)
    ensures forall x :: x in OfPosition(xs, p) ==> x.position == p
    ensures Distinct(xs) ==> Distinct(OfPosition(xs, p))
  {
    OfPositionElems(xs, p);
    OfPositionDistinct(xs, p);
  }

  lemma {:induction false} OfPositionElems(xs: seq<Player>, p: Position)
    ensures Elems(OfPosition(xs, p)) == AtPosition(Elems(xs), p)
    ensures |OfPosition(xs, p)| == PositionCount(xs, p)
    ensures forall x :: x in OfPosition(xs, p) ==> x.position == p
  {
    if xs != [] {
      var n := |xs| - 1;
      OfPositionElems(xs[..n], p);
      ElemsSnoc(xs);
      var ys := OfPosition(xs[..n], p);
      if xs[n].position == p {
        assert OfPosition(xs, p) == ys + [xs[n]];
        ElemsSnoc(ys + [xs[n]]);
        assert (ys + [xs[n]])[..|ys|] == ys;
      } else {
        assert OfPosition(xs, p) == ys;
      }
    }
  }

  lemma {:induction false} OfPositionDistinct(xs: seq<Player>, p: Position)
    ensures Distinct(xs) ==> Distinct(OfPosition(xs, p))
  {
    if xs != [] && Distinct(xs) {
      var n := |xs| - 1;
      OfPositionDistinct(xs[..n], p);
      OfPositionElems(xs[..n], p);
      ElemsSnoc(xs);
      var ys := OfPosition(xs[..n], p);
      if xs[n].position == p {
        assert OfPosition(xs, p) == ys + [xs[n]];
        assert xs[n] !in Elems(xs[..n]);
        assert xs[n] !in Elems(ys);
        assert xs[n] !in ys;
        forall i, j | 0 <= i < j < |ys| + 1 ensures (ys + [xs[n]])[i] != (ys + [xs[n]])[j] {
          if j == |ys| {
            assert ys[i] in ys;
          }
        }
      } else {
        assert OfPosition(xs, p) == ys;
      }
    }
  }

  /** Filtering by position keeps the multiplicities of that position's players and drops the rest. */
  lemma {:induction false} OfPositionMultiset(xs: seq<Player>, p: Position, x: Player)
    ensures multiset(OfPosition(xs, p))[x] == if x.position == p then multiset(xs)[x] else 0
  {
    if xs != [] {
      var n := |xs| - 1;
      OfPositionMultiset(xs[..n], p, x);
      assert xs == xs[..n] + [xs[n]];
    }
  }

  /** Two lists that are permutations of each other have permuted filtered lists. */
  lemma {:induction false} OfPositionPermutation(xs: seq<Player>, ys: seq<Player>, p: Position)
    requires multiset(xs) == multiset(ys)
    ensures multiset(OfPosition(xs, p)) == multiset(OfPosition(ys, p))
  {
    forall x ensures multiset(OfPosition(xs, p))[x] == multiset(OfPosition(ys, p))[x] {
      OfPositionMultiset(xs, p, x);
      OfPositionMultiset(ys, p, x);
    }
  }

  lemma {:induction false} PositionCountConcat(a: seq<Player>, b: seq<Player>, p: Position)
    ensures PositionCount(a + b, p) == PositionCount(a, p) + PositionCount(b, p)
  {
    if b != [] {
      var n := |b| - 1;
      PositionCountConcat(a, b[..n], p);
      assert (a + b)[..|a + b| - 1] == a + b[..n];
    } else {
      assert a + b == a;
    }
  }

  /** Every entry has exactly one of the four positions. */
  lemma {:induction false} PositionCountsSum(xs: seq<Player>)
    ensures PositionCount(xs, GK) + PositionCount(xs, DEF) + PositionCount(xs, MID) + PositionCount(xs, FW) == |xs|
  {
    if xs != [] {
      PositionCountsSum(xs[..|xs| - 1]);
    }
  }

  /** In a list without repeats, the position count is the size of that position's set. */
  lemma {:induction false} PositionCountOfDistinct(xs: seq<Player>, p: Position)
    requires Distinct(xs)
    ensures PositionCount(xs, p) == |AtPosition(Elems(xs), p)|
  {
    OfPositionFacts(xs, p);
    DistinctCard(OfPosition(xs, p));
  }

  /** In a list without repeats, the club count is the size of that club's set. */
  lemma {:induction false} ClubCountOfDistinct(xs: seq<Player>, club: string)
    requires Distinct(xs)
    ensures ClubCount(xs, club) == |FromClub(Elems(xs), club)|
  {
    if xs != [] {
      var n := |xs| - 1;
      ClubCountOfDistinct(xs[..n], club);
      ElemsSnoc(xs);
      assert xs[n] !in Elems(xs[..n]);
      if xs[n].club == club {
        assert FromClub(Elems(xs), club) == FromClub(Elems(xs[..n]), club) + {xs[n]};
      } else {
        assert FromClub(Elems(xs), club) == FromClub(Elems(xs[..n]), club);
      }
    }
  }

  /** A list whose set has as many members as the list has entries has no repeats. */
  lemma {:induction false} CardDistinct(xs: seq<Player>)
    requires |Elems(xs)| == |xs|
    ensures Distinct(xs)
  {
    if xs != [] {
      var n := |xs| - 1;
      ElemsSnoc(xs);
      ElemsCard(xs[..n]);
      assert xs[n] !in Elems(xs[..n]) by {
        if xs[n] in Elems(xs[..n]) {
          assert false;
        }
      }
      CardDistinct(xs[..n]);
      forall i, j | 0 <= i < j < |xs| ensures xs[i] != xs[j] {
        if j == n {
          assert xs[i] in Elems(xs[..n]);
        } else {
          assert xs[i] == xs[..n][i] && xs[j] == xs[..n][j];
        }
      }
    }
  }

  lemma {:induction false} ElemsCard(xs: seq<Player>)
    ensures |Elems(xs)| <= |xs|
  {
    if xs != [] {
      ElemsSnoc(xs);
      ElemsCard(xs[..|xs| - 1]);
    }
  }

  lemma {:induction false} AtPositionAdd(s: set<Player>, x: Player, p: Position)
    requires x !in s
    ensures |AtPosition(s + {x}, p)| == |AtPosition(s, p)| + (if x.position == p then 1 else 0)
  {
    if x.position == p {
      assert AtPosition(s + {x}, p) == AtPosition(s, p) + {x};
    } else {
      assert AtPosition(s + {x}, p) == AtPosition(s, p);
    }
  }

  lemma {:induction false} AtPositionRemove(s: set<Player>, y: Player, p: Position)
    requires y in s
    ensures |AtPosition(s - {y}, p)| == |AtPosition(s, p)| - (if y.position == p then 1 else 0)
  {
    if y.position == p {
      assert AtPosition(s - {y}, p) == AtPosition(s, p) - {y};
    } else {
      assert AtPosition(s - {y}, p) == AtPosition(s, p);
    }
  }

  lemma {:induction false} FromClubAdd(s: set<Player>, x: Player, club: string)
    requires x !in s
    ensures |FromClub(s + {x}, club)| == |FromClub(s, club)| + (if x.club == club then 1 else 0)
  {
    if x.club == club {
      assert FromClub(s + {x}, club) == FromClub(s, club) + {x};
    } else {
      assert FromClub(s + {x}, club) == FromClub(s, club);
    }
  }

  lemma {:induction false} FromClubRemove(s: set<Player>, y: Player, club: string)
    requires y in s
    ensures |FromClub(s - {y}, club)| == |FromClub(s, club)| - (if y.club == club then 1 else 0)
  {
    if y.club == club {
      assert FromClub(s - {y}, club) == FromClub(s, club) - {y};
    } else {
      assert FromClub(s - {y}, club) == FromClub(s, club);
    }
  }

  /** In a duplicate-free list, an entry does not occur before its own place. */
  lemma {:induction false} DistinctFresh(xs: seq<Player>, k: int)
    requires Distinct(xs) && 0 <= k < |xs|
    ensures xs[k] !in Elems(xs[..k])
    ensures Elems(xs[..k + 1]) == Elems(xs[..k]) + {xs[k]}
  {
    assert xs[..k + 1][..k] == xs[..k];
    ElemsSnoc(xs[..k + 1]);
  }

  /** Two orderings of the same players have the same set of players. */
  lemma {:induction false} MultisetElems(a: seq<Player>, b: seq<Player>)
    requires multiset(a) == multiset(b)
    ensures Elems(a) == Elems(b)
  {
    forall x ensures x in Elems(a) <==> x in Elems(b) {
      assert x in a <==> x in multiset(a);
      assert x in b <==> x in multiset(b);
    }
  }

  /** Reordering a duplicate-free list leaves it duplicate-free. */
  lemma {:induction false} DistinctPermutation(a: seq<Player>, b: seq<Player>)
    requires multiset(a) == multiset(b) && Distinct(a)
    ensures Distinct(b)
  {
    MultisetElems(a, b);
    DistinctCard(a);
    assert |a| == |multiset(a)| == |multiset(b)| == |b|;
    CardDistinct(b);
  }

  lemma {:induction false} ElemsConcat(a: seq<Player>, b: seq<Player>)
    ensures Elems(a + b) == Elems(a) + Elems(b)
  {
  }

  /** In a list whose entries all play in position `q`, only `q` is counted. */
  lemma {:induction false} PositionCountUniform(xs: seq<Player>, q: Position, p: Position)
    requires forall x :: x in xs ==> x.position == q
    ensures PositionCount(xs, p) == if p == q then |xs| else 0
  {
    if xs != [] {
      PositionCountUniform(xs[..|xs| - 1], q, p);
    }
  }

  // ---------------------------------------------------------------------------------------------
  // Sets of players

  /** Taking one member out of a set takes its price out of the total, whichever member it is. */
  lemma {:induction false} SetPriceRemove(s: set<Player>, x: Player)
    requires x in s
    ensures SetPrice(s) == x.price + SetPrice(s - {x})
    decreases |s|
  {
    var y :| y in s && SetPrice(s) == y.price + SetPrice(s - {y});
    if y != x {
      SetPriceRemove(s - {y}, x);
      SetPriceRemove(s - {x}, y);
      assert s - {y} - {x} == s - {x} - {y};
    }
  }

  lemma {:induction false} SetPriceAdd(s: set<Player>, x: Player)
    requires x !in s
    ensures SetPrice(s + {x}) == SetPrice(s) + x.price
  {
    SetPriceRemove(s + {x}, x);
    assert s + {x} - {x} == s;
  }

  /** The price total of a list without repeats is that of its set. */
  lemma {:induction false} PricesOfDistinct(xs: seq<Player>)
    requires Distinct(xs)
    ensures Prices(xs) == SetPrice(Elems(xs))
  {
    if xs != [] {
      var n := |xs| - 1;
      PricesOfDistinct(xs[..n]);
      ElemsSnoc(xs);
      assert xs[n] !in Elems(xs[..n]);
      SetPriceAdd(Elems(xs[..n]), xs[n]);
    }
  }

  lemma {:induction false} SubsetCard(a: set<Player>, b: set<Player>)
    requires b <= a
    ensures |a - b| == |a| - |b|
  {
    assert a == (a - b) + b;
    assert (a - b) !! b;
  }

  /** A set splits into its four position classes. */
  lemma {:induction false} PositionPartition(s: set<Player>)
    ensures |s| == |AtPosition(s, GK)| + |AtPosition(s, DEF)| + |AtPosition(s, MID)| + |AtPosition(s, FW)|
  {
    var g, d, m, f := AtPosition(s, GK), AtPosition(s, DEF), AtPosition(s, MID), AtPosition(s, FW);
    assert s == g + d + m + f;
    assert g !! d && (g + d) !! m && (g + d + m) !! f;
  }

  /** The quotas add up to the squad size, so a set that meets all of them has 15 members. */
  lemma {:induction false} FullQuotasSize(s: set<Player>)
    requires FullQuotas(s)
    ensures |s| == SquadSize
  {
    PositionPartition(s);
    assert |AtPosition(s, GK)| == 2 && |AtPosition(s, DEF)| == 5;
    assert |AtPosition(s, MID)| == 5 && |AtPosition(s, FW)| == 3;
  }
}
