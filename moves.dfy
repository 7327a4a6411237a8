/** What the three improvement heuristics share: a move replaces one starting slot by a player of
    the same position, and is allowed when the refund of the outgoing player covers the incoming
    one and the incoming player's club has room (or is the outgoing player's club). */
module Moves {
  import opened Players
  import opened Util

  /** The test of a move of `c` into slot `i`, on the lineup `s`, the bench and the budget:
      `budget + player.price >= candidate.price` and
      `check_club_constraint([*s, *bench], candidate.club) or player.club == candidate.club`. */
  predicate SwapAllowed(s: seq<Player>, bench: seq<Player>, budget: int, i: int, c: Player)
    requires 0 <= i < |s|
  {
    budget + s[i].price >= c.price && (ClubCount(s + bench, c.club) <= 2 || s[i].club == c.club)
  }

  /** What a lineup `s` with budget `budget`, reached from `start` and `budget0` by allowed moves
      that draw their players from `pool`, still has in common with the start: every slot keeps
      its position and is either the original player or one from the pool, the money spent plus
      the budget is unchanged, the budget is not overspent unless it never moved, and the club
      cap still holds if it held at the start. */
  ghost predicate Keeps(start: seq<Player>, bench: seq<Player>, budget0: int, pool: set<Player>,
                        s: seq<Player>, budget: int) {
    && |s| == |start|
    && (forall k :: 0 <= k < |s| ==> s[k].position == start[k].position)
    && (forall k :: 0 <= k < |s| ==> s[k] == start[k] || s[k] in pool)
    && Prices(s + bench) + budget == Prices(start + bench) + budget0
    && (budget >= 0 || budget == budget0)
    && (ClubsWithin(start + bench, 3) ==> ClubsWithin(s + bench, 3))
  }

  lemma {:induction false} KeepsStart(start: seq<Player>, bench: seq<Player>, budget0: int, pool: set<Player>)
    ensures Keeps(start, bench, budget0, pool, start, budget0)
  {
  }

  /** An allowed move of a same-position player from the pool keeps `Keeps`, leaves the budget
      non-negative, and changes the points by the difference of the two players' points. */
  lemma {:induction false} SwapKeeps(start: seq<Player>, bench: seq<Player>, budget0: int, pool: set<Player>,
                  s: seq<Player>, budget: int, i: int, c: Player)
    requires Keeps(start, bench, budget0, pool, s, budget) && 0 <= i < |s|
    requires c.position == s[i].position && c in pool && SwapAllowed(s, bench, budget, i, c)
    ensures Keeps(start, bench, budget0, pool, s[i := c], budget + s[i].price - c.price)
    ensures budget + s[i].price - c.price >= 0
    ensures Points(s[i := c]) == Points(s) - s[i].points + c.points
  {
    UpdateConcat(s, bench, i, c);
    PricesUpdate(s + bench, i, c);
    PointsUpdate(s, i, c);
    if ClubsWithin(start + bench, 3) {
      var t := s[i := c] + bench;
      forall club ensures ClubCount(t, club) <= 3 {
        ClubCountUpdate(s + bench, i, c, club);
      }
    }
  }

  /** A move that brings in a player from neither the lineup nor the bench keeps the squad free of
      duplicates. */
  lemma {:induction false} SwapDistinct(s: seq<Player>, bench: seq<Player>, i: int, c: Player)
    requires Distinct(s + bench) && 0 <= i < |s| && c !in s && c !in bench
    ensures Distinct(s[i := c] + bench)
  {
    UpdateConcat(s, bench, i, c);
    var t := (s + bench)[i := c];
    forall j, k | 0 <= j < k < |t| ensures t[j] != t[k] {
      if j == i {
        assert t[k] == (s + bench)[k] && (s + bench)[k] in s + bench;
      } else if k == i {
        assert t[j] == (s + bench)[j] && (s + bench)[j] in s + bench;
      }
    }
  }

  /** Lineups whose slots hold the same positions have the same formation. */
  lemma {:induction false} SamePositionCounts(a: seq<Player>, b: seq<Player>, p: Position)
    requires |a| == |b| && forall k :: 0 <= k < |a| ==> a[k].position == b[k].position
    ensures PositionCount(a, p) == PositionCount(b, p)
  {
    if a != [] {
      var n := |a| - 1;
      SamePositionCounts(a[..n], b[..n], p);
    }
  }

  /** Moves never change the formation: a lineup kept from a legal start is legal, and has the same
      number of players at each position on the squad as the start. */
  lemma {:induction false} KeepsFormation(start: seq<Player>, bench: seq<Player>, budget0: int, pool: set<Player>,
                       s: seq<Player>, budget: int)
    requires Keeps(start, bench, budget0, pool, s, budget)
    ensures LegalFormation(start) ==> LegalFormation(s)
    ensures forall p :: PositionCount(s + bench, p) == PositionCount(start + bench, p)
  {
    forall p ensures PositionCount(s, p) == PositionCount(start, p)
      && PositionCount(s + bench, p) == PositionCount(start + bench, p) {
      SamePositionCounts(s, start, p);
      PositionCountConcat(s, bench, p);
      PositionCountConcat(start, bench, p);
    }
  }

  /** A lineup of players with at most `m` points each has at most `|s| * m` points. */
  lemma {:induction false} PointsBound(s: seq<Player>, m: int)
    requires forall k :: 0 <= k < |s| ==> s[k].points <= m
    ensures Points(s) <= |s| * m
  {
    if s != [] {
      PointsBound(s[..|s| - 1], m);
    }
  }

  /** The most points of any player in `xs` (zero for none). */
  function MaxPoints(xs: seq<Player>): (m: int)
    ensures forall k :: 0 <= k < |xs| ==> xs[k].points <= m
  {
    if xs == [] then 0
    else
      var m := MaxPoints(xs[..|xs| - 1]);
      if xs[|xs| - 1].points > m then xs[|xs| - 1].points else m
  }

  /** A lineup reached by moves that draw from `pool` has at most `|start|` times the most points
      of any player of the start or the pool: the improvement loops cannot go on for ever. */
  lemma {:induction false} KeepsPointsBound(start: seq<Player>, bench: seq<Player>, budget0: int, pool: seq<Player>,
                         s: seq<Player>, budget: int)
    requires Keeps(start, bench, budget0, Elems(pool), s, budget)
    ensures Points(s) <= |start| * MaxPoints(start + pool)
  {
    var all := start + pool;
    forall k | 0 <= k < |s| ensures s[k].points <= MaxPoints(all) {
      if s[k] == start[k] {
        assert all[k] == s[k];
      } else {
        var m :| 0 <= m < |pool| && pool[m] == s[k];
        assert all[|start| + m] == s[k];
      }
    }
    PointsBound(s, MaxPoints(all));
  }

  /** A player is in the list `divide_by_positions` keeps for its position exactly when it is in
      the instance, so `list.index` finds every player of the instance. */
  lemma {:induction false} IndexMembership(xs: seq<Player>, x: Player)
    ensures x.position in PositionIndex(xs)
    ensures x in PositionIndex(xs)[x.position] <==> x in xs
  {
    PositionCases(x.position);
    OfPositionFacts(xs, x.position);
    assert x in OfPosition(xs, x.position) <==> x in Elems(OfPosition(xs, x.position));
  }

  /** Every position has a list in the map. */
  ghost predicate Complete(byPos: map<Position, seq<Player>>) {
    forall p :: p in byPos
  }

  /** Every player the map offers for a position is in the pool and plays that position. */
  ghost predicate Offers(byPos: map<Position, seq<Player>>, pool: set<Player>) {
    forall p, x :: p in byPos && x in byPos[p] ==> x in pool && x.position == p
  }

  lemma {:induction false} IndexOffers(xs: seq<Player>)
    ensures Offers(PositionIndex(xs), Elems(xs))
  {
    forall p, x | p in PositionIndex(xs) && x in PositionIndex(xs)[p] ensures x in Elems(xs) && x.position == p {
      OfPositionFacts(xs, p);
      assert x in Elems(OfPosition(xs, p));
    }
  }

  /** An accepted move: the lineup it led to and the budget after it. */
  datatype Move = Move(lineup: seq<Player>, budget: int)

  /** `max(0, index - 3)` and `min(index + 3, len - 1)`: the bounds of the neighbourhood of
      the incumbent at `index` in a position list of length `len`. */
  function Neighbourhood(index: int, len: int): (r: (int, int))
    requires 0 <= index < len
    ensures 0 <= r.0 <= index <= r.1 < len
    ensures r.0 == index - 3 || (r.0 == 0 && index < 3)
    ensures r.1 == index + 3 || (r.1 == len - 1 && index + 3 > len - 1)
  {
    (if index - 3 > 0 then index - 3 else 0, if index + 3 < len - 1 then index + 3 else len - 1)
  }
}
