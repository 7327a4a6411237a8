/** The helpers of util.py: adding up a lineup's points, the per-club check, the index of players
    by position, and the split of a drafted squad into a starting eleven and a bench. */
module Util {
  import opened Players
  import opened Sorting

  /** `eval_solution`: the points of a list of players, added up from the front. */
  method EvalSolution(players: seq<Player>) returns (sum: int)
    ensures sum == Points(players)
  {
    sum := 0;
    for k := 0 to |players|
      invariant sum == Points(players[..k])
    {
      assert players[..k + 1][..k] == players[..k];
      sum := sum + players[k].points;
    }
    assert players[..|players|] == players;
  }

  /** `check_club_constraint`: true while `club` has at most two entries in `selected`, that is,
      while one more player from `club` may still be added under a cap of three. */
  method CheckClubConstraint(selected: seq<Player>, club: string) returns (ok: bool)
    ensures ok <==> ClubCount(selected, club) <= 2
  {
    var cnt := 0;
    for k := 0 to |selected|
      invariant cnt == ClubCount(selected[..k], club)
    {
      assert selected[..k + 1][..k] == selected[..k];
      if selected[k].club == club {
        cnt := cnt + 1;
      }
    }
    assert selected[..|selected|] == selected;
    ok := cnt <= 2;
  }

  /** `check_club_constraint` called on a set of drafted players, as random_search and
      greedy_search do: the loop visits the members in some order. */
  method CheckClubConstraintOnSet(selected: set<Player>, club: string) returns (ok: bool)
    ensures ok <==> |FromClub(selected, club)| <= 2
  {
    var cnt := 0;
    var rest := selected;
    while rest != {}
      invariant rest <= selected
      invariant cnt + |FromClub(rest, club)| == |FromClub(selected, club)|
      decreases |rest|
    {
      var player :| player in rest;
      if player.club == club {
        assert FromClub(rest - {player}, club) == FromClub(rest, club) - {player};
        cnt := cnt + 1;
      } else {
        assert FromClub(rest - {player}, club) == FromClub(rest, club);
      }
      rest := rest - {player};
    }
    assert FromClub(rest, club) == {};
    ok := cnt <= 2;
  }

  /** The dictionary divide_by_positions returns: for each position, the players of that position
      in the order of `xs`. */
  function PositionIndex(xs: seq<Player>): (m: map<Position, seq<Player>>)
    ensures m.Keys == {GK, DEF, MID, FW}
    ensures forall p :: p in m && m[p] == OfPosition(xs, p)
  {
    var m := map[GK := OfPosition(xs, GK), MID := OfPosition(xs, MID), FW := OfPosition(xs, FW), DEF := OfPosition(xs, DEF)];
    assert forall p :: p in m by {
      forall p ensures p in m {
        PositionCases(p);
      }
    }
    m
  }

  /** Keeping only the players of one position keeps a sorted list sorted. */
  lemma {:induction false} OfPositionSorted(xs: seq<Player>, p: Position, key: SortKey)
    requires Sorted(xs, key)
    ensures Sorted(OfPosition(xs, p), key)
  {
    if xs != [] {
      var n := |xs| - 1;
      var front := xs[..n];
      assert Sorted(front, key);
      OfPositionSorted(front, p, key);
      var ys := OfPosition(front, p);
      if xs[n].position == p {
        OfPositionFacts(front, p);
        forall i | 0 <= i < |ys| ensures Before(key, ys[i], xs[n]) {
          assert ys[i] in Elems(ys);
          var k :| 0 <= k < n && front[k] == ys[i];
        }
        assert Sorted(ys + [xs[n]], key);
      }
    }
  }

  /** `divide_by_positions`: sorts the caller's list in place, best ranked first, and returns its
      players grouped by position, each group in that order. */
  method DivideByPositions(players: array<Player>) returns (byPos: map<Position, seq<Player>>)
    modifies players
    ensures multiset(players[..]) == old(multiset(players[..]))
    ensures Sorted(players[..], ByRank)
    ensures byPos == PositionIndex(players[..])
    ensures forall p :: p in byPos && Sorted(byPos[p], ByRank)
    ensures forall p :: multiset(byPos[p]) == multiset(OfPosition(old(players[..]), p))
    ensures forall p, x :: x in byPos[p] ==> x.position == p && x in players[..]
  {
    SortInPlace(players, ByRank);
    var xs := players[..];
    byPos := PositionIndex(xs);
    forall p
      ensures p in byPos
      ensures Sorted(byPos[p], ByRank)
      ensures multiset(byPos[p]) == multiset(OfPosition(old(players[..]), p))
      ensures forall x :: x in byPos[p] ==> x.position == p && x in xs
    {
      PositionCases(p);
      OfPositionSorted(xs, p, ByRank);
      OfPositionPermutation(xs, old(players[..]), p);
      OfPositionFacts(xs, p);
      forall x | x in byPos[p] ensures x in xs {
        assert x in Elems(OfPosition(xs, p));
      }
    }
  }

  // ---------------------------------------------------------------------------------------------
  // select_starting_11

  /** Python's `xs[:n]`. */
  function Take(xs: seq<Player>, n: nat): (r: seq<Player>)
    ensures |r| == if |xs| <= n then |xs| else n
    ensures r == xs[..|r|]
  {
    if |xs| <= n then xs else xs[..n]
  }

  /** Python's `xs[n:]`. */
  function Drop(xs: seq<Player>, n: nat): (r: seq<Player>)
    ensures Take(xs, n) + r == xs
  {
    if |xs| <= n then [] else xs[n..]
  }

  /** A squad split into the starting eleven and the substitutes, in the order they were picked. */
  datatype Lineup = Lineup(starting: seq<Player>, bench: seq<Player>)

  /** A formation the game allows: one goalkeeper, 3-5 defenders, 2-5 midfielders, 1-3 forwards. */
  predicate LegalFormation(s: seq<Player>) {
    && PositionCount(s, GK) == 1
    && 3 <= PositionCount(s, DEF) <= 5
    && 2 <= PositionCount(s, MID) <= 5
    && 1 <= PositionCount(s, FW) <= 3
  }

  function Min(a: int, b: int): int {
    if a <= b then a else b
  }

  /** The picks select_starting_11 makes, read off the result: the best ranked goalkeeper starts and
      the next one sits on the bench; the best ranked forward starts; the best ranked defenders, up
      to three, start; then up to six of the others start, each ranked at least as high as every
      other player left for the bench. */
  ghost predicate RankedPicks(squad: set<Player>, lu: Lineup) {
    var s, b := lu.starting, lu.bench;
    var gks, defs := AtPosition(squad, GK), AtPosition(squad, DEF);
    var d := Min(3, |defs|);
    && |s| >= 2 + d && |b| >= 1
    && |s| <= 2 + d + 6 && (|b| > 1 ==> |s| == 2 + d + 6)
    && IsFirst(ByRank, s[0], gks)
    && IsFirst(ByRank, b[0], gks - {s[0]})
    && IsFirst(ByRank, s[1], AtPosition(squad, FW))
    && Elems(s[2..2 + d]) <= defs
    && (forall k :: 2 <= k < 2 + d ==> BeforeAll(ByRank, s[k], defs - Elems(s[2..2 + d])))
    && (forall x, y :: x in s[2 + d..] && y in b[1..] ==> Before(ByRank, x, y))
  }

  /** A prefix of a duplicate-free list has no entry in common with the rest of it. */
  lemma {:induction false} DistinctSplit(xs: seq<Player>, n: int)
    requires Distinct(xs) && 0 <= n <= |xs|
    ensures Elems(xs[..n]) !! Elems(xs[n..])
    ensures Elems(xs[n..]) == Elems(xs) - Elems(xs[..n])
    ensures Distinct(xs[..n])
  {
    assert xs == xs[..n] + xs[n..];
    ElemsConcat(xs[..n], xs[n..]);
    forall x | x in Elems(xs[..n]) ensures x !in Elems(xs[n..]) {
      var i :| 0 <= i < n && xs[i] == x;
      forall j | 0 <= j < |xs| - n ensures xs[n..][j] != x {
        assert xs[i] != xs[n + j];
      }
    }
  }

  /** The first two entries of a ranked, duplicate-free list of goalkeepers are the best and the
      second best of them. */
  lemma {:induction false} TopTwo(xs: seq<Player>)
    requires Sorted(xs, ByRank) && Distinct(xs) && |xs| >= 2
    ensures IsFirst(ByRank, xs[0], Elems(xs))
    ensures IsFirst(ByRank, xs[1], Elems(xs) - {xs[0]})
  {
    SortedSuffixFirst(xs, ByRank, 0);
    assert xs[0..] == xs;
    SortedSuffixFirst(xs, ByRank, 1);
    DistinctSplit(xs, 1);
    assert xs[..1] == [xs[0]];
  }

  /** Each of the first `d` entries of a ranked, duplicate-free list ranks at least as high as every
      entry left out of them. */
  lemma {:induction false} TopSome(xs: seq<Player>, d: int)
    requires Sorted(xs, ByRank) && Distinct(xs) && 0 <= d <= |xs|
    ensures forall k :: 0 <= k < d ==> BeforeAll(ByRank, xs[k], Elems(xs) - Elems(xs[..d]))
  {
    DistinctSplit(xs, d);
    forall k | 0 <= k < d ensures BeforeAll(ByRank, xs[k], Elems(xs[d..])) {
      SortedSuffixFirst(xs, ByRank, k);
      assert Elems(xs[d..]) <= Elems(xs[k..]) by {
        assert xs[d..] == xs[k..][d - k..];
      }
      BeforeAllSubset(ByRank, xs[k], Elems(xs[k..]), Elems(xs[d..]));
    }
  }

  /** The players placed: every player of the squad but the goalkeepers beyond `g0` and `g1`. */
  lemma {:induction false} PlacedSet(squad: set<Player>, gk: set<Player>, g0: Player, g1: Player, f: Player,
                  defenders: seq<Player>, remaining: seq<Player>, s: seq<Player>, b: seq<Player>)
    requires gk <= squad && g0 in gk && g1 in gk
    requires f in squad - gk && Elems(defenders) <= squad - gk - {f}
    requires Elems(remaining) == squad - gk - {f} - Elems(defenders)
    requires s == [g0, f] + defenders + Take(remaining, 6) && b == [g1] + Drop(remaining, 6)
    ensures Elems(s + b) == squad - (gk - {g0, g1})
  {
    var taken, left := Take(remaining, 6), Drop(remaining, 6);
    ElemsConcat(taken, left);
    ElemsConcat([g0, f] + defenders, taken);
    ElemsConcat([g0, f], defenders);
    ElemsConcat([g1], left);
    ElemsConcat(s, b);
    assert Elems([g0, f]) == {g0, f};
    assert Elems([g1]) == {g1};
    assert Elems(s + b) == {g0, g1, f} + Elems(defenders) + Elems(remaining);
    forall x | x in squad - (gk - {g0, g1}) ensures x in Elems(s + b) {
      if x !in gk && x != f && x !in Elems(defenders) {
        assert x in Elems(remaining);
      }
    }
  }

  /** No player is placed twice. */
  lemma {:induction false} PlacedOnce(squad: set<Player>, gk: set<Player>, g0: Player, g1: Player, f: Player,
                   defenders: seq<Player>, remaining: seq<Player>, s: seq<Player>, b: seq<Player>)
    requires gk <= squad && g0 in gk && g1 in gk && g0 != g1
    requires f in squad - gk && Elems(defenders) <= squad - gk - {f}
    requires Elems(remaining) == squad - gk - {f} - Elems(defenders)
    requires Distinct(defenders) && Distinct(remaining)
    requires s == [g0, f] + defenders + Take(remaining, 6) && b == [g1] + Drop(remaining, 6)
    ensures Distinct(s + b)
  {
    PlacedSet(squad, gk, g0, g1, f, defenders, remaining, s, b);
    SubsetCard(squad, gk);
    SubsetCard(squad - gk, {f});
    SubsetCard(squad - gk - {f}, Elems(defenders));
    DistinctCard(defenders);
    DistinctCard(remaining);
    SubsetCard(gk, {g0, g1});
    SubsetCard(squad, gk - {g0, g1});
    assert |s + b| == 3 + |defenders| + |remaining|;
    CardDistinct(s + b);
  }

  lemma {:induction false} PositionCountPair(g: Player, f: Player, p: Position)
    ensures PositionCount([g, f], p) == (if g.position == p then 1 else 0) + (if f.position == p then 1 else 0)
  {
    assert [g, f][..1] == [g];
    assert [g][..0] == [];
    assert PositionCount([g], p) == PositionCount([], p) + (if g.position == p then 1 else 0);
  }

  /** The forced picks are a goalkeeper, a forward and three defenders. */
  lemma {:induction false} ForcedCounts(g: Player, f: Player, defenders: seq<Player>, p: Position)
    requires g.position == GK && f.position == FW && |defenders| == 3
    requires forall x :: x in defenders ==> x.position == DEF
    ensures PositionCount([g, f] + defenders, p) == match p case GK => 1 case DEF => 3 case MID => 0 case FW => 1
  {
    PositionCountConcat([g, f], defenders, p);
    PositionCountUniform(defenders, DEF, p);
    PositionCountPair(g, f, p);
  }

  /** With every position quota met, what is left after the forced picks is two defenders, five
      midfielders and two forwards. */
  lemma {:induction false} LeftAfterForced(squad: set<Player>, f: Player, defenders: seq<Player>, remaining: seq<Player>)
    requires FullQuotas(squad) && f in AtPosition(squad, FW)
    requires Distinct(defenders) && |defenders| == 3 && Elems(defenders) <= AtPosition(squad, DEF)
    requires Distinct(remaining)
    requires Elems(remaining) == squad - AtPosition(squad, GK) - {f} - Elems(defenders)
    ensures PositionCount(remaining, GK) == 0 && PositionCount(remaining, DEF) == 2
    ensures PositionCount(remaining, MID) == 5 && PositionCount(remaining, FW) == 2
  {
    var rest := Elems(remaining);
    assert |AtPosition(squad, DEF)| == 5 && |AtPosition(squad, MID)| == 5 && |AtPosition(squad, FW)| == 3;
    DistinctCard(defenders);
    assert AtPosition(rest, GK) == {};
    assert AtPosition(rest, DEF) == AtPosition(squad, DEF) - Elems(defenders);
    assert AtPosition(rest, MID) == AtPosition(squad, MID);
    assert AtPosition(rest, FW) == AtPosition(squad, FW) - {f};
    SubsetCard(AtPosition(squad, DEF), Elems(defenders));
    SubsetCard(AtPosition(squad, FW), {f});
    PositionCountOfDistinct(remaining, GK);
    PositionCountOfDistinct(remaining, DEF);
    PositionCountOfDistinct(remaining, MID);
    PositionCountOfDistinct(remaining, FW);
  }

  /** The starters of each position: the forced picks and as many of the rest as made the six. */
  lemma {:induction false} StarterCount(g: Player, f: Player, defenders: seq<Player>, remaining: seq<Player>, s: seq<Player>, p: Position)
    requires g.position == GK && f.position == FW && |defenders| == 3
    requires forall x :: x in defenders ==> x.position == DEF
    requires s == [g, f] + defenders + Take(remaining, 6)
    ensures PositionCount(s, p) == (match p case GK => 1 case DEF => 3 case MID => 0 case FW => 1) + PositionCount(Take(remaining, 6), p)
    ensures PositionCount(Take(remaining, 6), p) <= PositionCount(remaining, p)
  {
    PositionCountConcat([g, f] + defenders, Take(remaining, 6), p);
    PositionCountConcat(Take(remaining, 6), Drop(remaining, 6), p);
    ForcedCounts(g, f, defenders, p);
  }

  /** With every quota met, the starters are the forced five and six of two defenders, five
      midfielders and two forwards: a legal formation. */
  lemma {:induction false} StartersFormation(g: Player, f: Player, defenders: seq<Player>, remaining: seq<Player>, s: seq<Player>)
    requires g.position == GK && f.position == FW && |defenders| == 3
    requires forall x :: x in defenders ==> x.position == DEF
    requires PositionCount(remaining, GK) == 0 && PositionCount(remaining, DEF) == 2
    requires PositionCount(remaining, MID) == 5 && PositionCount(remaining, FW) == 2
    requires s == [g, f] + defenders + Take(remaining, 6)
    ensures |s| == 11 && LegalFormation(s)
  {
    PositionCountsSum(remaining);
    PositionCountsSum(Take(remaining, 6));
    StarterCount(g, f, defenders, remaining, s, GK);
    StarterCount(g, f, defenders, remaining, s, DEF);
    StarterCount(g, f, defenders, remaining, s, MID);
    StarterCount(g, f, defenders, remaining, s, FW);
  }

  /** The picks of the assembled lineup are the best ranked ones. */
  lemma {:induction false} PicksRanked(squad: set<Player>, ranked: seq<Player>, remaining: seq<Player>, s: seq<Player>, b: seq<Player>)
    requires Elems(ranked) == squad && Distinct(ranked) && Sorted(ranked, ByRank)
    requires |OfPosition(ranked, GK)| >= 2 && |OfPosition(ranked, FW)| >= 1
    requires Sorted(remaining, ByRank)
    requires s == [OfPosition(ranked, GK)[0], OfPosition(ranked, FW)[0]] + Take(OfPosition(ranked, DEF), 3) + Take(remaining, 6)
    requires b == [OfPosition(ranked, GK)[1]] + Drop(remaining, 6)
    ensures RankedPicks(squad, Lineup(s, b))
  {
    var gks, fws, dl := OfPosition(ranked, GK), OfPosition(ranked, FW), OfPosition(ranked, DEF);
    var defenders := Take(dl, 3);
    var d := |defenders|;
    var defs := AtPosition(squad, DEF);
    assert s[0] == gks[0] && s[1] == fws[0];
    assert s[2..2 + d] == defenders;
    assert s[2 + d..] == Take(remaining, 6);
    assert b[0] == gks[1] && b[1..] == Drop(remaining, 6);
    assert IsFirst(ByRank, s[0], AtPosition(squad, GK)) && IsFirst(ByRank, b[0], AtPosition(squad, GK) - {s[0]}) by {
      OfPositionFacts(ranked, GK);
      OfPositionSorted(ranked, GK, ByRank);
      TopTwo(gks);
    }
    assert IsFirst(ByRank, s[1], AtPosition(squad, FW)) by {
      OfPositionFacts(ranked, FW);
      OfPositionSorted(ranked, FW, ByRank);
      SortedSuffixFirst(fws, ByRank, 0);
      assert fws[0..] == fws;
    }
    assert d == Min(3, |defs|) && Elems(defenders) <= defs
      && forall k :: 0 <= k < d ==> BeforeAll(ByRank, defenders[k], defs - Elems(defenders)) by {
      OfPositionFacts(ranked, DEF);
      OfPositionSorted(ranked, DEF, ByRank);
      PositionCountOfDistinct(ranked, DEF);
      TopSome(dl, d);
      DistinctSplit(dl, d);
    }
    SortedSplit(remaining, ByRank, |Take(remaining, 6)|);
  }

  /** A ranked copy of the squad has as many players of each position as the squad has. */
  lemma {:induction false} RankedCopy(squad: set<Player>, ranked: seq<Player>, p: Position)
    requires Elems(ranked) == squad && Distinct(ranked)
    ensures Elems(OfPosition(ranked, p)) == AtPosition(squad, p)
    ensures |OfPosition(ranked, p)| == |AtPosition(squad, p)|
  {
    OfPositionFacts(ranked, p);
    PositionCountOfDistinct(ranked, p);
  }

  lemma {:induction false} TakeFacts(xs: seq<Player>, n: nat)
    ensures Elems(Take(xs, n)) <= Elems(xs)
    ensures Distinct(xs) ==> Distinct(Take(xs, n))
    ensures forall x :: x in Take(xs, n) ==> x in xs
  {
  }

  /** The forced picks, taken from the ranked squad: two distinct goalkeepers, a forward and up to
      three defenders, all from the squad. */
  lemma {:induction false} ForcedPieces(squad: set<Player>, ranked: seq<Player>)
    requires Elems(ranked) == squad && Distinct(ranked)
    requires |OfPosition(ranked, GK)| >= 2 && |OfPosition(ranked, FW)| >= 1
    ensures var gks, f := OfPosition(ranked, GK), OfPosition(ranked, FW)[0];
            var gk, defenders := AtPosition(squad, GK), Take(OfPosition(ranked, DEF), 3);
            && Elems(gks) == gk && {gks[0], gks[1]} <= gk && gks[0] != gks[1] && gks[0].position == GK
            && f in AtPosition(squad, FW) && f in squad - gk && f.position == FW
            && Elems(defenders) <= squad - gk - {f} && Elems(defenders) <= AtPosition(squad, DEF)
            && Distinct(defenders) && |defenders| == Min(3, |AtPosition(squad, DEF)|)
            && (forall x :: x in defenders ==> x.position == DEF)
  {
    var gks, fws, dl := OfPosition(ranked, GK), OfPosition(ranked, FW), OfPosition(ranked, DEF);
    RankedCopy(squad, ranked, GK);
    RankedCopy(squad, ranked, FW);
    RankedCopy(squad, ranked, DEF);
    OfPositionFacts(ranked, GK);
    OfPositionFacts(ranked, DEF);
    OfPositionFacts(ranked, FW);
    TakeFacts(dl, 3);
    assert gks[0] in Elems(gks) && gks[1] in Elems(gks);
    assert fws[0] in Elems(fws);
  }

  /** What the assembled lineup is, given the ranked squad and the ranked remainder. */
  lemma {:induction false} SplitFacts(squad: set<Player>, ranked: seq<Player>, remaining: seq<Player>, s: seq<Player>, b: seq<Player>)
    requires Elems(ranked) == squad && Distinct(ranked) && Sorted(ranked, ByRank)
    requires |OfPosition(ranked, GK)| >= 2 && |OfPosition(ranked, FW)| >= 1
    requires Elems(remaining) == squad - Elems(OfPosition(ranked, GK)) - {OfPosition(ranked, FW)[0]}
                                 - Elems(Take(OfPosition(ranked, DEF), 3))
    requires Distinct(remaining) && Sorted(remaining, ByRank)
    requires s == [OfPosition(ranked, GK)[0], OfPosition(ranked, FW)[0]] + Take(OfPosition(ranked, DEF), 3) + Take(remaining, 6)
    requires b == [OfPosition(ranked, GK)[1]] + Drop(remaining, 6)
    ensures RankedPicks(squad, Lineup(s, b))
    ensures Distinct(s + b)
    ensures Elems(s + b) == squad - (AtPosition(squad, GK) - {s[0], b[0]})
    ensures |AtPosition(squad, GK)| == 2 ==> Elems(s + b) == squad
    ensures FullQuotas(squad) ==> |s| == 11 && |b| == 4 && LegalFormation(s)
  {
    var gks := OfPosition(ranked, GK);
    var gk, g0, g1, f := AtPosition(squad, GK), gks[0], gks[1], OfPosition(ranked, FW)[0];
    var defenders := Take(OfPosition(ranked, DEF), 3);
    ForcedPieces(squad, ranked);
    PicksRanked(squad, ranked, remaining, s, b);
    PlacedOnce(squad, gk, g0, g1, f, defenders, remaining, s, b);
    PlacedSet(squad, gk, g0, g1, f, defenders, remaining, s, b);
    if |gk| == 2 {
      SubsetCard(gk, {g0, g1});
      assert gk - {g0, g1} == {};
    }
    if FullQuotas(squad) {
      assert |gk| == 2 && |AtPosition(squad, DEF)| == 5;
      LeftAfterForced(squad, f, defenders, remaining);
      StartersFormation(g0, f, defenders, remaining, s);
      PositionCountsSum(remaining);
    }
  }

  /** `select_starting_11`: ranks the squad, starts the best goalkeeper, forward and up to three
      defenders, benches the second goalkeeper, and fills six more starting places with the best
      ranked of the others; the rest go to the bench. Fewer than two goalkeepers or no forward
      is an IndexError in the source. */
  method SelectStarting11(squad: set<Player>) returns (r: Result<Lineup>)
    ensures r.Ok? <==> |AtPosition(squad, GK)| >= 2 && |AtPosition(squad, FW)| >= 1
    ensures r.Err? ==> r.error == if |AtPosition(squad, GK)| < 2 then MissingGoalkeeper else MissingForward
    ensures r.Ok? ==> RankedPicks(squad, r.value)
    ensures r.Ok? ==> Distinct(r.value.starting + r.value.bench)
    ensures r.Ok? ==> Elems(r.value.starting + r.value.bench)
                      == squad - (AtPosition(squad, GK) - {r.value.starting[0], r.value.bench[0]})
    ensures r.Ok? && |AtPosition(squad, GK)| == 2 ==> Elems(r.value.starting + r.value.bench) == squad
    ensures r.Ok? && FullQuotas(squad) ==>
              && |r.value.starting| == 11 && |r.value.bench| == 4
              && LegalFormation(r.value.starting)
  {
    var selectedList := SortSet(squad, ByRank);
    var goalkeepers := OfPosition(selectedList, GK);
    RankedCopy(squad, selectedList, GK);
    RankedCopy(squad, selectedList, FW);
    if |goalkeepers| < 2 {
      return Err(MissingGoalkeeper);
    }
    var forwards := OfPosition(selectedList, FW);
    if |forwards| == 0 {
      return Err(MissingForward);
    }
    var forward := forwards[0];
    var defenders := Take(OfPosition(selectedList, DEF), 3);
    var rest := squad - Elems(goalkeepers) - {forward} - Elems(defenders);
    var remaining := SortSet(rest, ByRank);
    var starting := [goalkeepers[0], forward] + defenders + Take(remaining, 6);
    var bench := [goalkeepers[1]] + Drop(remaining, 6);
    r := Ok(Lineup(starting, bench));
    SplitFacts(squad, selectedList, remaining, starting, bench);
  }
}
