/** The two constructive heuristics of search.py: random_search, which scans a shuffled pool and
    evicts the most expensive pick whenever a player does not fit, and greedy_search, which drafts
    four cheap substitutes and then fills the squad by rank. */
module Construct {
  import opened Players
  import opened Sorting
  import opened Util

  /** What a search hands back: the starting eleven, the substitutes and the budget left. */
  datatype Solution = Solution(starting: seq<Player>, bench: seq<Player>, budget: int)

  /** The drafting state: `selected_15`, `positions_cnt` and `budget`. */
  datatype Draft = Draft(selected: set<Player>, counts: map<Position, int>, budget: int)

  /** `positions_cnt` before anything is drafted. */
  function NoPositions(): (m: map<Position, int>)
    ensures m.Keys == {GK, DEF, MID, FW}
    ensures forall p :: p in m ==> m[p] == 0
  {
    map[GK := 0, MID := 0, DEF := 0, FW := 0]
  }

  /** The bookkeeping both heuristics keep while drafting: each position counter is the number of
      drafted players of that position and within its quota, the budget is MAX_BUDGET minus the
      price of the drafted players, and no club has more than three of them. */
  ghost predicate Tally(selected: set<Player>, counts: map<Position, int>, budget: int) {
    && (forall p :: p in counts)
    && (forall p :: p in counts ==> counts[p] == |AtPosition(selected, p)| <= MaxPositions(p))
    && budget == MaxBudget - SetPrice(selected)
    && (forall club :: |FromClub(selected, club)| <= 3)
  }

  lemma {:induction false} TallyStart()
    ensures Tally({}, NoPositions(), MaxBudget)
  {
    forall p ensures p in NoPositions() && AtPosition({}, p) == {} {
      PositionCases(p);
    }
    forall club ensures FromClub({}, club) == {} {
    }
  }

  /** Adding a player that is not yet drafted, whose position has room and whose club has at most
      two drafted players keeps the bookkeeping, with the counter and the budget updated. */
  lemma {:induction false} TallyAdd(selected: set<Player>, counts: map<Position, int>, budget: int, x: Player)
    requires Tally(selected, counts, budget)
    requires x !in selected && counts[x.position] < MaxPositions(x.position)
    requires |FromClub(selected, x.club)| <= 2
    ensures Tally(selected + {x}, counts[x.position := counts[x.position] + 1], budget - x.price)
  {
    forall p ensures |AtPosition(selected + {x}, p)| == |AtPosition(selected, p)| + (if x.position == p then 1 else 0) {
      AtPositionAdd(selected, x, p);
    }
    forall club ensures |FromClub(selected + {x}, club)| == |FromClub(selected, club)| + (if x.club == club then 1 else 0) {
      FromClubAdd(selected, x, club);
    }
    SetPriceAdd(selected, x);
  }

  /** Removing a drafted player keeps the bookkeeping, with its counter lowered and its price
      refunded; no club gains a player. */
  lemma {:induction false} TallyRemove(selected: set<Player>, counts: map<Position, int>, budget: int, y: Player)
    requires Tally(selected, counts, budget) && y in selected
    ensures Tally(selected - {y}, counts[y.position := counts[y.position] - 1], budget + y.price)
    ensures forall club :: |FromClub(selected - {y}, club)| <= |FromClub(selected, club)|
  {
    forall p ensures |AtPosition(selected - {y}, p)| == |AtPosition(selected, p)| - (if y.position == p then 1 else 0) {
      AtPositionRemove(selected, y, p);
    }
    forall club ensures |FromClub(selected - {y}, club)| == |FromClub(selected, club)| - (if y.club == club then 1 else 0) {
      FromClubRemove(selected, y, club);
    }
    SetPriceRemove(selected, y);
  }

  /** The quotas add up to fifteen, so a drafted set within them never exceeds fifteen, and one of
      fifteen meets every quota exactly. */
  lemma {:induction false} TallySize(selected: set<Player>, counts: map<Position, int>, budget: int)
    requires Tally(selected, counts, budget)
    ensures |selected| <= SquadSize
    ensures |selected| == SquadSize ==> FullQuotas(selected)
  {
    PositionPartition(selected);
    assert GK in counts && DEF in counts && MID in counts && FW in counts;
    assert |AtPosition(selected, GK)| <= 2 && |AtPosition(selected, DEF)| <= 5;
    assert |AtPosition(selected, MID)| <= 5 && |AtPosition(selected, FW)| <= 3;
    if |selected| == SquadSize {
      forall p ensures |AtPosition(selected, p)| == MaxPositions(p) {
        PositionCases(p);
      }
    }
  }

  /** The most expensive drafted player, `sorted(selected, key=price, reverse=True)[0]`: an
      IndexError when nothing is drafted. */
  method MostExpensive(selected: set<Player>) returns (r: Result<Player>)
    ensures r.Ok? <==> selected != {}
    ensures r.Err? ==> r.error == EmptyEviction
    ensures r.Ok? ==> r.value in selected && forall y :: y in selected ==> y.price <= r.value.price
  {
    var sortedSelected := SortSet(selected, ByPriceDescending);
    if |sortedSelected| == 0 {
      return Err(EmptyEviction);
    }
    r := Ok(sortedSelected[0]);
    forall y | y in selected ensures y.price <= sortedSelected[0].price {
      var m :| 0 <= m < |sortedSelected| && sortedSelected[m] == y;
      if m > 0 {
        BeforeMeaning(ByPriceDescending, sortedSelected[0], y);
      }
    }
  }

  /** A candidate both scans consider: not yet drafted, its position below quota and its club
      with at most two drafted players. */
  ghost predicate Admissible(selected: set<Player>, x: Player) {
    && x !in selected
    && |AtPosition(selected, x.position)| < MaxPositions(x.position)
    && |FromClub(selected, x.club)| <= 2
  }

  /** `y` is a drafted player no other drafted player costs more than. */
  ghost predicate Priciest(y: Player, selected: set<Player>) {
    y in selected && forall z :: z in selected ==> z.price <= y.price
  }

  /** Under the bookkeeping, the code's test `player not in selected_15 and positions_cnt[...] <
      MAX_POSITIONS[...] and check_club_constraint(selected_15, ...)` is `Admissible`. */
  lemma {:induction false} AdmissibleTest(d: Draft, x: Player)
    requires Tally(d.selected, d.counts, d.budget)
    ensures Admissible(d.selected, x) <==>
      x !in d.selected && d.counts[x.position] < MaxPositions(x.position) && |FromClub(d.selected, x.club)| <= 2
  {
  }

  // ---------------------------------------------------------------------------------------------
  // random_search

  /** What one candidate of random_search's scan does to the draft `d`, giving `e`: a candidate
      that is not admissible is passed over; one that fits the budget is added and paid for;
      otherwise a most expensive drafted player is evicted and refunded, and the candidate is not
      added. The draft changes exactly when the candidate is admissible. */
  ghost predicate RandomMove(d: Draft, x: Player, e: Draft)
    ensures RandomMove(d, x, e) ==> (e.selected == d.selected <==> !Admissible(d.selected, x))
  {
    if !Admissible(d.selected, x) then e.selected == d.selected && e.budget == d.budget
    else if x.price <= d.budget then e.selected == d.selected + {x} && e.budget == d.budget - x.price
    else exists y :: Priciest(y, d.selected) && e.selected == d.selected - {y} && e.budget == d.budget + y.price
  }

  /** One candidate of random_search's scan, when the squad is not yet full. It fails (the
      IndexError of `selected[0]`) exactly when an admissible candidate does not fit and nothing is
      drafted to evict, which takes a player dearer than the whole budget. */
  method RandomStep(d: Draft, player: Player) returns (r: Result<Draft>)
    requires Tally(d.selected, d.counts, d.budget) && d.budget >= 0
    ensures r.Err? <==> Admissible(d.selected, player) && player.price > d.budget && d.selected == {}
    ensures r.Err? ==> r.error == EmptyEviction && player.price > MaxBudget
    ensures r.Ok? ==> Tally(r.value.selected, r.value.counts, r.value.budget) && r.value.budget >= 0
    ensures r.Ok? ==> RandomMove(d, player, r.value)
  {
    var selected, positionsCnt, budget := d.selected, d.counts, d.budget;
    var clubOk := CheckClubConstraintOnSet(selected, player.club);
    AdmissibleTest(d, player);
    if player !in selected && positionsCnt[player.position] < MaxPositions(player.position) && clubOk {
      if player.price > budget {
        var evicted := MostExpensive(selected);
        if evicted.Err? {
          assert SetPrice(selected) == 0;
          return Err(EmptyEviction);
        }
        var removedPlayer := evicted.value;
        assert Priciest(removedPlayer, selected);
        TallyRemove(selected, positionsCnt, budget, removedPlayer);
        selected := selected - {removedPlayer};
        positionsCnt := positionsCnt[removedPlayer.position := positionsCnt[removedPlayer.position] - 1];
        budget := budget + removedPlayer.price;
      } else {
        TallyAdd(selected, positionsCnt, budget, player);
        selected := selected + {player};
        positionsCnt := positionsCnt[player.position := positionsCnt[player.position] + 1];
        budget := budget - player.price;
      }
    }
    r := Ok(Draft(selected, positionsCnt, budget));
  }

  /** The draft random_search starts from: nothing drafted, every counter 0, the whole budget. */
  function EmptyDraft(): (d: Draft)
    ensures d.selected == {} && d.budget == MaxBudget
    ensures d.counts.Keys == {GK, DEF, MID, FW} && forall p :: p in d.counts ==> d.counts[p] == 0
  {
    Draft({}, NoPositions(), MaxBudget)
  }

  /** The candidates `n` full passes over the pool look at, in order. */
  ghost function Passes(players: seq<Player>, n: nat): seq<Player> {
    if n == 0 then [] else Passes(players, n - 1) + players
  }

  /** `n` passes look at `n` times as many candidates as the pool has. */
  lemma {:induction false} PassesLength(players: seq<Player>, n: nat)
    ensures |Passes(players, n)| == n * |players|
  {
    if n > 0 {
      PassesLength(players, n - 1);
      assert n * |players| == (n - 1) * |players| + |players|;
    }
  }

  /** Candidate `k` of pass `m` (counting from 0) is the pool's entry `k`. */
  lemma {:induction false} PassesAt(players: seq<Player>, m: nat, n: nat, k: nat)
    requires m < n && k < |players|
    ensures |Passes(players, m)| + k < |Passes(players, n)|
    ensures Passes(players, n)[|Passes(players, m)| + k] == players[k]
  {
    if m < n - 1 {
      PassesAt(players, m, n - 1, k);
    }
  }

  /** `trail[j + 1]` is what candidate `pool[j]` made of `trail[j]` by `RandomMove`, each taken
      while fewer than fifteen were drafted. */
  ghost predicate RandomPrefix(pool: seq<Player>, trail: seq<Draft>) {
    && |trail| <= |pool| + 1
    && forall j :: 0 <= j < |trail| - 1 ==>
         |trail[j].selected| < SquadSize && RandomMove(trail[j], pool[j], trail[j + 1])
  }

  lemma {:induction false} RandomPrefixExtend(pool: seq<Player>, trail: seq<Draft>, e: Draft)
    requires RandomPrefix(pool, trail) && 0 < |trail| <= |pool|
    requires |trail[|trail| - 1].selected| < SquadSize
    requires RandomMove(trail[|trail| - 1], pool[|trail| - 1], e)
    ensures RandomPrefix(pool, trail + [e])
  {
    var t := trail + [e];
    forall j | 0 <= j < |t| - 1 ensures |t[j].selected| < SquadSize && RandomMove(t[j], pool[j], t[j + 1]) {
      assert t[j] == trail[j];
      if j < |trail| - 1 {
        assert t[j + 1] == trail[j + 1];
      }
    }
  }

  /** The trail so far is a run of `RandomMove` steps from the empty draft over the candidates of
      `Passes(players, rounds)`, and ends at `d`. */
  ghost predicate RandomTrail(players: seq<Player>, rounds: nat, trail: seq<Draft>, d: Draft) {
    && trail != [] && trail[0] == EmptyDraft() && trail[|trail| - 1] == d
    && RandomPrefix(Passes(players, rounds), trail)
  }

  /** The empty draft is about to face an admissible candidate dearer than the budget: the state
      in which the eviction finds nothing to evict. */
  ghost predicate EvictsNothing(players: seq<Player>, rounds: nat, trail: seq<Draft>) {
    var pool := Passes(players, rounds);
    && 0 < |trail| <= |pool|
    && var last := trail[|trail| - 1];
    && last.selected == {}
    && Admissible(last.selected, pool[|trail| - 1]) && pool[|trail| - 1].price > last.budget
  }

  /** The state of random_search's drafting loop after `round` passes: the bookkeeping, the draft
      `d` at the end of the trail, and the trail one step per candidate looked at, through every
      pass unless fifteen were drafted. */
  ghost predicate Drafting(players: seq<Player>, rounds: nat, round: nat, d: Draft, trail: seq<Draft>) {
    && Tally(d.selected, d.counts, d.budget) && d.budget >= 0 && d.selected <= Elems(players)
    && round <= rounds && RandomTrail(players, rounds, trail, d)
    && |trail| <= round * |players| + 1
    && (|d.selected| < SquadSize ==> |trail| == round * |players| + 1)
  }

  /** How the drafting loop fails: at an empty draft facing a candidate it cannot afford, which
      costs more than the whole budget. */
  ghost predicate DraftFails(players: seq<Player>, rounds: nat, trail: seq<Draft>) {
    && trail != [] && trail[0] == EmptyDraft() && RandomPrefix(Passes(players, rounds), trail)
    && EvictsNothing(players, rounds, trail)
    && exists x :: x in players && x.price > MaxBudget
  }

  /** Pass number `m` (counting from 0) of random_search's drafting loop: the `for player in
      players` loop, which stops once fifteen are drafted. */
  method RandomPass(players: seq<Player>, rounds: nat, m: nat, d: Draft, ghost trail: seq<Draft>)
    returns (r: Result<Draft>, ghost trail': seq<Draft>)
    requires m < rounds && Drafting(players, rounds, m, d, trail) && |d.selected| < SquadSize
    ensures r.Ok? ==> Drafting(players, rounds, m + 1, r.value, trail')
    ensures r.Err? ==> r.error == EmptyEviction && DraftFails(players, rounds, trail')
  {
    ghost var pool := Passes(players, rounds);
    PassesLength(players, m);
    assert (m + 1) * |players| == m * |players| + |players|;
    var selected, positionsCnt, budget := d.selected, d.counts, d.budget;
    trail' := trail;
    for k := 0 to |players|
      invariant Tally(selected, positionsCnt, budget) && budget >= 0
      invariant selected <= Elems(players)
      invariant RandomTrail(players, rounds, trail', Draft(selected, positionsCnt, budget))
      invariant |trail'| == m * |players| + k + 1
    {
      TallySize(selected, positionsCnt, budget);
      if |selected| == SquadSize {
        break;
      }
      PassesAt(players, m, rounds, k);
      assert pool[|trail'| - 1] == players[k];
      var step := RandomStep(Draft(selected, positionsCnt, budget), players[k]);
      if step.Err? {
        assert EvictsNothing(players, rounds, trail');
        return Err(step.error), trail';
      }
      RandomPrefixExtend(pool, trail', step.value);
      trail' := trail' + [step.value];
      selected, positionsCnt, budget := step.value.selected, step.value.counts, step.value.budget;
    }
    r := Ok(Draft(selected, positionsCnt, budget));
  }

  /** The drafting loop of random_search over the shuffled pool, for at most `rounds` passes; a
      pass stops early once fifteen are drafted. The ghost `trail` is the draft before each
      candidate looked at and the one the loop ends with: every step is `RandomMove` on the next
      candidate of `Passes(players, rounds)`, from the empty draft. The result is where the trail
      ends with fifteen drafted; `RoundsExhausted` is the trail going through all `rounds` passes
      with fewer than fifteen; `EmptyEviction` is the trail reaching an empty draft whose next
      candidate is admissible and dearer than the budget. */
  method RandomDraft(players: seq<Player>, rounds: nat) returns (r: Result<Draft>, ghost trail: seq<Draft>)
    ensures trail != [] && trail[0] == EmptyDraft() && RandomPrefix(Passes(players, rounds), trail)
    ensures r.Ok? <==> |trail[|trail| - 1].selected| == SquadSize
    ensures r.Ok? ==> r.value == trail[|trail| - 1]
    ensures r.Ok? ==> Tally(r.value.selected, r.value.counts, r.value.budget)
    ensures r.Ok? ==> |r.value.selected| == SquadSize && FullQuotas(r.value.selected)
    ensures r.Ok? ==> r.value.budget >= 0 && r.value.selected <= Elems(players)
    ensures r.Err? ==> r.error == RoundsExhausted
                       || (r.error == EmptyEviction && exists x :: x in players && x.price > MaxBudget)
    ensures r.Err? && r.error == RoundsExhausted ==> |trail| == |Passes(players, rounds)| + 1
    ensures r.Err? && r.error == EmptyEviction ==> EvictsNothing(players, rounds, trail)
  {
    var d := EmptyDraft();
    TallyStart();
    trail := [d];
    var round := 0;
    while |d.selected| < SquadSize
      invariant Drafting(players, rounds, round, d, trail)
      decreases rounds - round
    {
      if round == rounds {
        PassesLength(players, rounds);
        return Err(RoundsExhausted), trail;
      }
      var pass;
      pass, trail := RandomPass(players, rounds, round, d, trail);
      if pass.Err? {
        return Err(pass.error), trail;
      }
      d := pass.value;
      round := round + 1;
    }
    TallySize(d.selected, d.counts, d.budget);
    r := Ok(d);
  }

  /** A complete, valid team: 11 starters in a legal formation and 4 substitutes, 15 different
      players meeting every position quota, at most three from a club, and a budget that is
      MAX_BUDGET minus their price and not overspent. */
  ghost predicate ValidTeam(sol: Solution) {
    var squad := sol.starting + sol.bench;
    && |sol.starting| == 11 && |sol.bench| == 4
    && Distinct(squad) && FullQuotas(Elems(squad))
    && LegalFormation(sol.starting)
    && Prices(squad) + sol.budget == MaxBudget && sol.budget >= 0
    && ClubsWithin(squad, 3)
  }

  /** A duplicate-free lineup of the drafted players has their total price, their club counts and
      their position counts, so it keeps every quota and the club cap. */
  lemma {:induction false} LineupOfDraft(squad: seq<Player>, selected: set<Player>, counts: map<Position, int>, budget: int)
    requires Distinct(squad) && Elems(squad) == selected && Tally(selected, counts, budget)
    ensures Prices(squad) + budget == MaxBudget
    ensures ClubsWithin(squad, 3)
    ensures forall p :: PositionCount(squad, p) <= MaxPositions(p)
    ensures |squad| <= SquadSize
  {
    PricesOfDistinct(squad);
    forall club ensures ClubCount(squad, club) <= 3 {
      ClubCountOfDistinct(squad, club);
    }
    forall p ensures PositionCount(squad, p) <= MaxPositions(p) {
      PositionCountOfDistinct(squad, p);
    }
    TallySize(selected, counts, budget);
    DistinctCard(squad);
  }

  /** `random_search`: shuffles the caller's pool in place with the draws `draws`, drafts a squad
      from it and splits the squad into starters and bench. The ghost `trail` is `RandomDraft`'s
      over the shuffled pool. When it succeeds the team is valid and exactly the draft the trail
      ends with; it fails only when the passes run out or a player costs more than the whole
      budget with nothing left to evict, each as `RandomDraft` states it. */
  method RandomSearch(players: array<Player>, draws: nat -> nat, rounds: nat)
    returns (r: Result<Solution>, ghost trail: seq<Draft>)
    modifies players
    ensures players[..] == FisherYates(old(players[..]), players.Length - 1, draws, 0)
    ensures multiset(players[..]) == old(multiset(players[..]))
    ensures trail != [] && trail[0] == EmptyDraft() && RandomPrefix(Passes(players[..], rounds), trail)
    ensures r.Ok? <==> |trail[|trail| - 1].selected| == SquadSize
    ensures r.Ok? ==> ValidTeam(r.value)
    ensures r.Ok? ==> Elems(r.value.starting + r.value.bench) == trail[|trail| - 1].selected
                      && r.value.budget == trail[|trail| - 1].budget
    ensures r.Ok? ==> Elems(r.value.starting + r.value.bench) <= Elems(players[..])
    ensures r.Err? ==> r.error == RoundsExhausted
                       || (r.error == EmptyEviction && exists x :: x in players[..] && x.price > MaxBudget)
    ensures r.Err? && r.error == RoundsExhausted ==> |trail| == |Passes(players[..], rounds)| + 1
    ensures r.Err? && r.error == EmptyEviction ==> EvictsNothing(players[..], rounds, trail)
  {
    var _ := Shuffle(players, draws, 0);
    var drafted;
    drafted, trail := RandomDraft(players[..], rounds);
    if drafted.Err? {
      return Err(drafted.error), trail;
    }
    var selected15, budget := drafted.value.selected, drafted.value.budget;
    assert |AtPosition(selected15, GK)| == 2 && |AtPosition(selected15, FW)| == 3;
    var lineup := SelectStarting11(selected15);
    var sol := Solution(lineup.value.starting, lineup.value.bench, budget);
    LineupOfDraft(sol.starting + sol.bench, selected15, drafted.value.counts, budget);
    r := Ok(sol);
  }

  // ---------------------------------------------------------------------------------------------
  // greedy_search

  /** The bookkeeping of greedy_search's first phase: at most one goalkeeper and at most three
      others, so no quota can be exceeded. */
  ghost predicate BenchTally(selected: set<Player>, counts: map<Position, int>, budget: int) {
    && Tally(selected, counts, budget)
    && counts[GK] <= 1 && |selected| - counts[GK] <= 3
  }

  /** A non-goalkeeper admitted in the first phase finds room in its position. */
  lemma {:induction false} BenchRoom(selected: set<Player>, counts: map<Position, int>, budget: int, p: Position)
    requires BenchTally(selected, counts, budget) && p != GK && |selected| - counts[GK] < 3
    ensures counts[p] < MaxPositions(p)
  {
    PositionPartition(selected);
    PositionCases(p);
  }

  /** The drafted players other than goalkeepers. */
  ghost function Outfield(s: set<Player>): (r: set<Player>)
    ensures |r| == |s| - |AtPosition(s, GK)|
  {
    SubsetCard(s, AtPosition(s, GK));
    s - AtPosition(s, GK)
  }

  /** Whether the first phase takes `x` into the drafted set `s`: its club has at most two drafted
      players, and it is a goalkeeper while none is drafted, or another player while fewer than
      three others are drafted. */
  ghost predicate BenchTakes(s: set<Player>, x: Player) {
    && |FromClub(s, x.club)| <= 2
    && if x.position == GK then AtPosition(s, GK) == {} else |Outfield(s)| < 3
  }

  /** The drafted set after the first phase has looked at `x`. */
  ghost function BenchAdd(s: set<Player>, x: Player): set<Player> {
    if BenchTakes(s, x) then s + {x} else s
  }

  /** The first phase's scan: candidates in pool order, until four are drafted. It never drafts
      more than four, and drafts only players of the pool. */
  ghost function BenchScan(players: seq<Player>, s: set<Player>): (r: set<Player>)
    ensures |s| <= 4 ==> |r| <= 4
    ensures forall p :: p in r ==> p in s || p in players
    decreases |players|
  {
    if |s| == 4 || players == [] then s else BenchScan(players[1..], BenchAdd(s, players[0]))
  }

  /** Under the first phase's bookkeeping, the code's nested tests are `BenchTakes`. */
  lemma {:induction false} BenchTest(d: Draft, x: Player)
    requires BenchTally(d.selected, d.counts, d.budget)
    ensures BenchTakes(d.selected, x) <==>
      && |FromClub(d.selected, x.club)| <= 2
      && if x.position == GK then d.counts[GK] < 1
         else (d.counts[GK] < 1 && |d.selected| < 3) || (d.counts[GK] == 1 && |d.selected| < 4)
  {
    assert d.counts[GK] == |AtPosition(d.selected, GK)|;
    assert |Outfield(d.selected)| == |d.selected| - d.counts[GK];
  }

  /** One candidate of greedy_search's first phase, when fewer than four are drafted: a goalkeeper
      is added while none is drafted, any other player while fewer than three are drafted without
      a goalkeeper or fewer than four with one, each only if its club has at most two drafted
      players. The budget is not consulted. */
  method BenchStep(d: Draft, player: Player) returns (next: Draft)
    requires BenchTally(d.selected, d.counts, d.budget) && |d.selected| < 4 && player !in d.selected
    ensures BenchTally(next.selected, next.counts, next.budget)
    ensures next.selected == BenchAdd(d.selected, player)
  {
    var selected, positionsCnt, budget := d.selected, d.counts, d.budget;
    var clubOk := CheckClubConstraintOnSet(selected, player.club);
    BenchTest(d, player);
    if clubOk {
      if player.position == GK {
        if positionsCnt[GK] < 1 {
          TallyAdd(selected, positionsCnt, budget, player);
          selected := selected + {player};
          positionsCnt := positionsCnt[GK := 1];
          budget := budget - player.price;
        }
      } else {
        if (positionsCnt[GK] < 1 && |selected| < 3) || (positionsCnt[GK] == 1 && |selected| < 4) {
          BenchRoom(selected, positionsCnt, budget, player.position);
          TallyAdd(selected, positionsCnt, budget, player);
          selected := selected + {player};
          positionsCnt := positionsCnt[player.position := positionsCnt[player.position] + 1];
          budget := budget - player.price;
        }
      }
    }
    next := Draft(selected, positionsCnt, budget);
  }

  /** The first phase after its first `k` candidates: the bookkeeping, no more than four drafted,
      all from those candidates, and the scan of the rest ending where the whole scan ends. */
  ghost predicate Benching(players: seq<Player>, k: int, d: Draft) {
    && 0 <= k <= |players|
    && BenchTally(d.selected, d.counts, d.budget) && |d.selected| <= 4
    && d.selected <= Elems(players[..k])
    && BenchScan(players[k..], d.selected) == BenchScan(players, {})
  }

  lemma {:induction false} BenchingStep(players: seq<Player>, k: int, d: Draft, next: Draft)
    requires Distinct(players) && Benching(players, k, d) && k < |players| && |d.selected| < 4
    requires BenchTally(next.selected, next.counts, next.budget)
    requires next.selected == BenchAdd(d.selected, players[k])
    ensures Benching(players, k + 1, next)
  {
    DistinctFresh(players, k);
    assert players[k..][1..] == players[k + 1..];
  }

  /** The first phase of greedy_search, one pass over the pool sorted by price, stopping once four
      are drafted. It succeeds exactly when that scan drafts four, and then drafts what the scan
      does: exactly one goalkeeper among them. A pass that ends with fewer than four drafted is
      where the source would start a second pass. */
  method GreedyBench(players: seq<Player>) returns (r: Result<Draft>)
    requires Distinct(players)
    ensures |BenchScan(players, {})| <= 4
    ensures r.Ok? <==> |BenchScan(players, {})| == 4
    ensures r.Ok? ==> r.value.selected == BenchScan(players, {})
    ensures r.Ok? ==> Tally(r.value.selected, r.value.counts, r.value.budget)
    ensures r.Ok? ==> |r.value.selected| == 4 && |AtPosition(r.value.selected, GK)| == 1
    ensures r.Ok? ==> r.value.selected <= Elems(players)
    ensures r.Err? ==> r.error == BenchIncomplete
  {
    var budget := MaxBudget;
    var selected: set<Player> := {};
    var positionsCnt := NoPositions();
    TallyStart();
    for k := 0 to |players|
      invariant Benching(players, k, Draft(selected, positionsCnt, budget))
    {
      if |selected| == 4 {
        break;
      }
      DistinctFresh(players, k);
      var step := BenchStep(Draft(selected, positionsCnt, budget), players[k]);
      BenchingStep(players, k, Draft(selected, positionsCnt, budget), step);
      selected, positionsCnt, budget := step.selected, step.counts, step.budget;
    }
    if |selected| < 4 {
      return Err(BenchIncomplete);
    }
    assert players[..|players|] == players;
    r := Ok(Draft(selected, positionsCnt, budget));
  }

  /** The scan only ever adds. */
  lemma {:induction false} BenchScanGrows(players: seq<Player>, s: set<Player>)
    ensures s <= BenchScan(players, s)
    decreases |players|
  {
    if |s| != 4 && players != [] {
      BenchScanGrows(players[1..], BenchAdd(s, players[0]));
    }
  }

  /** A player the first phase refuses stays refused once more are drafted. */
  lemma {:induction false} RefusalLasts(s: set<Player>, t: set<Player>, x: Player)
    requires s <= t && !BenchTakes(s, x)
    ensures !BenchTakes(t, x)
  {
    SubsetCard(FromClub(t, x.club), FromClub(s, x.club));
    SubsetCard(Outfield(t), Outfield(s));
    if x.position == GK {
      assert AtPosition(s, GK) <= AtPosition(t, GK);
    }
  }

  lemma {:induction false} BenchScanRefuses(players: seq<Player>, s: set<Player>, x: Player, y: Player)
    requires Sorted(players, ByPriceAscending)
    requires x in players && x !in BenchScan(players, s)
    requires y in BenchScan(players, s) && y !in s && x.price < y.price
    ensures !BenchTakes(BenchScan(players, s), x)
    decreases |players|
  {
    var s' := BenchAdd(s, players[0]);
    BenchScanGrows(players[1..], s');
    if players[0] == x {
      RefusalLasts(s, BenchScan(players, s), x);
    } else {
      var m :| 0 < m < |players| && players[m] == x;
      assert Before(ByPriceAscending, players[0], players[m]);
      BeforeMeaning(ByPriceAscending, players[0], x);
      assert players[1..][m - 1] == x;
      BenchScanRefuses(players[1..], s', x, y);
    }
  }

  /** The "four cheapest" of the docstring, as the constraints allow: a player cheaper than some
      drafted substitute but not drafted itself is one the drafted bench would refuse (its club
      already has three, or it is a second goalkeeper, or the three outfield places are taken). */
  lemma {:induction false} BenchCheapest(players: seq<Player>, x: Player, y: Player)
    requires Sorted(players, ByPriceAscending)
    requires x in players && x !in BenchScan(players, {})
    requires y in BenchScan(players, {}) && x.price < y.price
    ensures !BenchTakes(BenchScan(players, {}), x)
  {
    BenchScanRefuses(players, {}, x, y);
  }

  /** What one candidate of greedy_search's second phase does to the draft `d`, giving `e`: a
      candidate that is not admissible is passed over; one that fits the budget is added and paid
      for; otherwise a most expensive drafted player is evicted and refunded, and the candidate is
      then added if the refund made it fit. The draft changes exactly when the candidate is
      admissible. */
  ghost predicate FillMove(d: Draft, x: Player, e: Draft)
    ensures FillMove(d, x, e) ==> (e.selected == d.selected <==> !Admissible(d.selected, x))
  {
    if !Admissible(d.selected, x) then e.selected == d.selected && e.budget == d.budget
    else if x.price <= d.budget then e.selected == d.selected + {x} && e.budget == d.budget - x.price
    else exists y :: Priciest(y, d.selected) && Evicted(d, x, y, e)
  }

  /** The rest of an eviction of `y` for `x`: the refund, then the add if `x` now fits. */
  ghost predicate Evicted(d: Draft, x: Player, y: Player, e: Draft) {
    if x.price <= d.budget + y.price then
      e.selected == d.selected - {y} + {x} && e.budget == d.budget + y.price - x.price
    else
      e.selected == d.selected - {y} && e.budget == d.budget + y.price
  }

  /** A step of the second phase drafts no one but its candidate. */
  lemma {:induction false} FillMoveDraws(d: Draft, x: Player, e: Draft)
    requires FillMove(d, x, e)
    ensures e.selected <= d.selected + {x}
  {
    if Admissible(d.selected, x) && x.price > d.budget {
      var y :| Priciest(y, d.selected) && Evicted(d, x, y, e);
    }
  }

  /** One candidate of greedy_search's second phase, when fewer than fifteen are drafted. It fails
      exactly when an admissible candidate does not fit and nothing is drafted to evict. An add
      never overspends. */
  method FillStep(d: Draft, player: Player, floor: int) returns (r: Result<Draft>)
    requires Tally(d.selected, d.counts, d.budget) && d.budget >= floor && floor <= 0
    ensures r.Err? <==> Admissible(d.selected, player) && player.price > d.budget && d.selected == {}
    ensures r.Err? ==> r.error == EmptyEviction && player.price > MaxBudget
    ensures r.Ok? ==> Tally(r.value.selected, r.value.counts, r.value.budget) && r.value.budget >= floor
    ensures r.Ok? ==> FillMove(d, player, r.value)
  {
    var selected, positionsCnt, budget := d.selected, d.counts, d.budget;
    var clubOk := CheckClubConstraintOnSet(selected, player.club);
    AdmissibleTest(d, player);
    if player !in selected && positionsCnt[player.position] < MaxPositions(player.position) && clubOk {
      ghost var evictedOne: Player := player;
      if player.price > budget {
        var evicted := MostExpensive(selected);
        if evicted.Err? {
          assert SetPrice(selected) == 0;
          return Err(EmptyEviction);
        }
        var removedPlayer := evicted.value;
        evictedOne := removedPlayer;
        assert Priciest(removedPlayer, selected);
        TallyRemove(selected, positionsCnt, budget, removedPlayer);
        selected := selected - {removedPlayer};
        positionsCnt := positionsCnt[removedPlayer.position := positionsCnt[removedPlayer.position] - 1];
        budget := budget + removedPlayer.price;
      }
      if player.price <= budget {
        TallyAdd(selected, positionsCnt, budget, player);
        selected := selected + {player};
        positionsCnt := positionsCnt[player.position := positionsCnt[player.position] + 1];
        budget := budget - player.price;
      }
      assert player.price > d.budget ==> Priciest(evictedOne, d.selected);
    }
    r := Ok(Draft(selected, positionsCnt, budget));
  }

  /** `trail[j + 1]` is what candidate `ranked[j]` made of `trail[j]`, each taken while fewer than
      fifteen were drafted. */
  ghost predicate FillPrefix(ranked: seq<Player>, trail: seq<Draft>) {
    && |trail| <= |ranked| + 1
    && forall j :: 0 <= j < |trail| - 1 ==>
         |trail[j].selected| < SquadSize && FillMove(trail[j], ranked[j], trail[j + 1])
  }

  /** A whole second phase: the scan went through the ranked pool, one candidate a step, until the
      pool ran out or fifteen were drafted. */
  ghost predicate FillRun(ranked: seq<Player>, trail: seq<Draft>) {
    && trail != [] && FillPrefix(ranked, trail)
    && (|trail| == |ranked| + 1 || |trail[|trail| - 1].selected| == SquadSize)
  }

  lemma {:induction false} FillPrefixExtend(ranked: seq<Player>, trail: seq<Draft>, e: Draft)
    requires FillPrefix(ranked, trail) && 0 < |trail| <= |ranked|
    requires |trail[|trail| - 1].selected| < SquadSize
    requires FillMove(trail[|trail| - 1], ranked[|trail| - 1], e)
    ensures FillPrefix(ranked, trail + [e])
  {
    var t := trail + [e];
    forall j | 0 <= j < |t| - 1 ensures |t[j].selected| < SquadSize && FillMove(t[j], ranked[j], t[j + 1]) {
      assert t[j] == trail[j];
      if j < |trail| - 1 {
        assert t[j + 1] == trail[j + 1];
      }
    }
  }

  /** The second phase's failure: the trail has reached an empty draft whose next candidate is
      admissible and dearer than the budget, so the eviction finds nothing to evict. */
  ghost predicate FillFails(ranked: seq<Player>, trail: seq<Draft>) {
    && 0 < |trail| <= |ranked|
    && var last := trail[|trail| - 1];
    && last.selected == {}
    && Admissible(last.selected, ranked[|trail| - 1]) && ranked[|trail| - 1].price > last.budget
  }

  /** The second phase of greedy_search, one pass over the pool ranked best first, stopping once
      fifteen are drafted. The ghost `trail` is the draft before each candidate and the one it
      ends with: every step is `FillMove` from `start`, and on success the run is complete. It
      fails exactly where the trail reaches an empty draft facing an admissible candidate dearer
      than the budget, which takes a candidate dearer than the whole budget. The budget never drops below
      zero through an add, so it ends no lower than where it started or than zero. */
  method GreedyFill(ranked: seq<Player>, start: Draft) returns (r: Result<Draft>, ghost trail: seq<Draft>)
    requires Tally(start.selected, start.counts, start.budget)
    ensures trail != [] && trail[0] == start && FillPrefix(ranked, trail)
    ensures r.Ok? ==> FillRun(ranked, trail) && trail[|trail| - 1] == r.value
    ensures r.Err? ==> FillFails(ranked, trail)
    ensures r.Ok? ==> Tally(r.value.selected, r.value.counts, r.value.budget)
    ensures r.Ok? ==> r.value.budget >= Min(0, start.budget)
    ensures r.Ok? ==> r.value.selected <= start.selected + Elems(ranked)
    ensures r.Err? ==> r.error == EmptyEviction && exists k :: 0 <= k < |ranked| && ranked[k].price > MaxBudget
  {
    var selected, positionsCnt, budget := start.selected, start.counts, start.budget;
    trail := [start];
    for k := 0 to |ranked|
      invariant Tally(selected, positionsCnt, budget)
      invariant budget >= Min(0, start.budget)
      invariant selected <= start.selected + Elems(ranked)
      invariant |trail| == k + 1 && trail[0] == start && trail[k] == Draft(selected, positionsCnt, budget)
      invariant FillPrefix(ranked, trail)
    {
      TallySize(selected, positionsCnt, budget);
      if |selected| == SquadSize {
        break;
      }
      var step := FillStep(Draft(selected, positionsCnt, budget), ranked[k], Min(0, start.budget));
      if step.Err? {
        assert FillFails(ranked, trail);
        return Err(step.error), trail;
      }
      FillPrefixExtend(ranked, trail, step.value);
      FillMoveDraws(Draft(selected, positionsCnt, budget), ranked[k], step.value);
      assert ranked[k] in Elems(ranked);
      trail := trail + [step.value];
      selected, positionsCnt, budget := step.value.selected, step.value.counts, step.value.budget;
    }
    r := Ok(Draft(selected, positionsCnt, budget));
  }

  /** `starting_11, bench = select_starting_11(selected_15)` at the end of greedy_search, with the
      budget: the split fails exactly as `SelectStarting11` does, for fewer than two goalkeepers
      or no forward in the draft; otherwise the team is the drafted set,
      each player once, and keeps the bookkeeping's quotas, club cap and price. */
  method SplitDraft(d: Draft) returns (r: Result<Solution>)
    requires Tally(d.selected, d.counts, d.budget)
    ensures r.Err? ==> r.error == MissingGoalkeeper || r.error == MissingForward
    ensures r.Ok? <==> |AtPosition(d.selected, GK)| >= 2 && |AtPosition(d.selected, FW)| >= 1
    ensures r.Err? ==> r.error == if |AtPosition(d.selected, GK)| < 2 then MissingGoalkeeper else MissingForward
    ensures r.Ok? ==> var squad := r.value.starting + r.value.bench;
                      && r.value.budget == d.budget && Elems(squad) == d.selected
                      && Distinct(squad) && |squad| <= SquadSize
                      && (forall p :: PositionCount(squad, p) <= MaxPositions(p))
                      && ClubsWithin(squad, 3)
                      && Prices(squad) + r.value.budget == MaxBudget
  {
    var lineup := SelectStarting11(d.selected);
    if lineup.Err? {
      return Err(lineup.error);
    }
    assert GK in d.counts;
    var sol := Solution(lineup.value.starting, lineup.value.bench, d.budget);
    LineupOfDraft(sol.starting + sol.bench, d.selected, d.counts, d.budget);
    r := Ok(sol);
  }

  /** `greedy_search`: sorts the caller's pool by price (the ghost `byPrice`), drafts the bench,
      re-sorts the pool by rank, fills the squad and splits it. It reports `BenchIncomplete`
      exactly when the single scan by price drafts fewer than four; otherwise the bench is that
      scan's four, and the squad is where the second phase (`trail`) ends. The result never breaks
      a quota or the club cap, never names a player twice, comes from the pool, and its budget is
      MAX_BUDGET minus its price. */
  method GreedySearch(players: array<Player>) returns (r: Result<Solution>, ghost byPrice: seq<Player>,
                                                      ghost trail: seq<Draft>)
    requires Distinct(players[..])
    modifies players
    ensures multiset(players[..]) == old(multiset(players[..]))
    ensures multiset(byPrice) == old(multiset(players[..])) && Sorted(byPrice, ByPriceAscending)
    ensures r == Err(BenchIncomplete) <==> |BenchScan(byPrice, {})| < 4
    ensures r == Err(BenchIncomplete) ==> players[..] == byPrice
    ensures r != Err(BenchIncomplete) ==> Sorted(players[..], ByRank)
    ensures r.Err? && r.error == EmptyEviction ==> exists x :: x in players[..] && x.price > MaxBudget
    ensures r != Err(BenchIncomplete) ==>
              && trail != [] && trail[0].selected == BenchScan(byPrice, {}) && FillPrefix(players[..], trail)
    ensures r == Err(EmptyEviction) ==> FillFails(players[..], trail)
    ensures r != Err(BenchIncomplete) && r != Err(EmptyEviction) ==>
              var last := trail[|trail| - 1].selected;
              && FillRun(players[..], trail)
              && (r.Ok? <==> |AtPosition(last, GK)| >= 2 && |AtPosition(last, FW)| >= 1)
              && (r.Err? ==> r.error == if |AtPosition(last, GK)| < 2 then MissingGoalkeeper else MissingForward)
    ensures r.Ok? ==> var squad := r.value.starting + r.value.bench;
                      && FillRun(players[..], trail) && trail[0].selected == BenchScan(byPrice, {})
                      && Elems(squad) == trail[|trail| - 1].selected
                      && Distinct(squad) && |squad| <= SquadSize && Elems(squad) <= Elems(players[..])
                      && (forall p :: PositionCount(squad, p) <= MaxPositions(p))
                      && ClubsWithin(squad, 3)
                      && Prices(squad) + r.value.budget == MaxBudget
  {
    SortInPlace(players, ByPriceAscending);
    byPrice := players[..];
    trail := [];
    DistinctPermutation(old(players[..]), byPrice);
    var bench := GreedyBench(players[..]);
    if bench.Err? {
      return Err(bench.error), byPrice, trail;
    }
    SortInPlace(players, ByRank);
    ghost var byRank := players[..];
    MultisetElems(byPrice, byRank);
    var filled;
    filled, trail := GreedyFill(players[..], bench.value);
    if filled.Err? {
      assert forall x :: x in byRank ==> x in players[..];
      return Err(filled.error), byPrice, trail;
    }
    assert filled.value.selected <= Elems(byRank);
    r := SplitDraft(filled.value);
  }
}
