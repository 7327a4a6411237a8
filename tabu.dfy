/** `is_tabu` and `tabu_search`: 400 rounds over the eleven slots. For each slot the candidates are
    the players within three places of the incumbent in its ranked position list; the first one
    that passes the budget and club test and whose lineup is not covered by a remembered lineup is
    taken, and the new lineup is remembered. The memory is a deque holding the last `tenure`
    lineups. */
module Tabu {
  import opened Players
  import opened Sorting
  import opened Util
  import opened Lists
  import opened Moves

  /** The last `n` entries of `xs`: what a deque bounded by `n` holds of everything appended. */
  function Window(xs: seq<seq<Player>>, n: nat): (r: seq<seq<Player>>)
    ensures |r| == Min(|xs|, n)
    ensures r == xs[|xs| - |r|..]
  {
    if |xs| <= n then xs else xs[|xs| - n..]
  }

  /** Appending to a bounded deque keeps it the window of the whole history. */
  lemma {:induction false} WindowAppend(xs: seq<seq<Player>>, s: seq<Player>, n: nat)
    ensures Window(Window(xs, n) + [s], n) == Window(xs + [s], n)
  {
    var m := Min(|xs|, n);
    assert Window(xs, n) + [s] == (xs + [s])[|xs| - m..];
    if m + 1 > n {
      assert (xs + [s])[|xs| - m..][1..] == (xs + [s])[|xs| + 1 - n..];
    }
  }

  /** A deque that holds anything holds the lineup appended last. */
  lemma {:induction false} WindowLast(xs: seq<seq<Player>>, n: nat)
    requires xs != [] && n > 0
    ensures Window(xs, n) != [] && Window(xs, n)[|Window(xs, n)| - 1] == xs[|xs| - 1]
  {
  }

  /** `deque(maxlen=tenure)` holding lineups. */
  class TabuList {
    var entries: seq<seq<Player>>
    const maxLen: nat

    ghost predicate Valid()
      reads this
    {
      |entries| <= maxLen
    }

    constructor (maxLen: nat)
      ensures Valid() && entries == [] && this.maxLen == maxLen
    {
      this.maxLen := maxLen;
      entries := [];
    }

    /** `append`: the lineup goes at the end and, once the deque is over its bound, the oldest entry
        drops out. */
    method Append(s: seq<Player>)
      requires Valid()
      modifies this
      ensures Valid()
      ensures entries == Window(old(entries) + [s], maxLen)
    {
      entries := entries + [s];
      if |entries| > maxLen {
        entries := entries[1..];
      }
    }
  }

  /** Some remembered lineup contains every player of `solution`. */
  ghost predicate Tabu(solution: seq<Player>, entries: seq<seq<Player>>) {
    exists k :: 0 <= k < |entries| && Elems(solution) <= Elems(entries[k])
  }

  /** `is_tabu`: whether some remembered lineup contains every player of `solution`. */
  method IsTabu(solution: seq<Player>, tabuList: seq<seq<Player>>) returns (r: bool)
    ensures r <==> Tabu(solution, tabuList)
  {
    for k := 0 to |tabuList|
      invariant forall l :: 0 <= l < k ==> !(Elems(solution) <= Elems(tabuList[l]))
    {
      if Elems(solution) - Elems(tabuList[k]) == {} {
        assert Elems(solution) <= Elems(tabuList[k]) by {
          forall x | x in Elems(solution) ensures x in Elems(tabuList[k]) {
            assert x !in Elems(solution) - Elems(tabuList[k]);
          }
        }
        return true;
      }
    }
    return false;
  }

  /** A move that brings in a player the lineup already has yields a lineup with no new player, so
      it is tabu while the lineup it came from is remembered. */
  lemma {:induction false} DuplicateIsTabu(s: seq<Player>, i: int, c: Player)
    requires 0 <= i < |s| && c in s
    ensures Elems(s[i := c]) <= Elems(s)
  {
    forall x | x in Elems(s[i := c]) ensures x in Elems(s) {
      var j :| 0 <= j < |s| && s[i := c][j] == x;
      if j != i {
        assert s[j] == x;
      }
    }
  }

  /** So a move the tabu list lets through, from a lineup it remembers, keeps a lineup free of
      duplicates. */
  lemma {:induction false} TabuDistinct(s: seq<Player>, i: int, c: Player, entries: seq<seq<Player>>)
    requires 0 <= i < |s| && Distinct(s) && s in entries && !Tabu(s[i := c], entries)
    ensures Distinct(s[i := c])
  {
    var k :| 0 <= k < |entries| && entries[k] == s;
    if c in s {
      DuplicateIsTabu(s, i, c);
      assert false;
    }
    SwapDistinct(s, [], i, c);
    assert s + [] == s && s[i := c] + [] == s[i := c];
  }

  /** What one slot of a round did: nothing, or an accepted move to a new lineup and budget. */
  datatype Step = Stay | Moved(lineup: seq<Player>, budget: int)

  /** The candidates for the incumbent at `index` of `xs`: the neighbourhood
      `xs[min_idx:max_idx + 1]` with the incumbent removed. When `index` is the incumbent's first
      place, as `list.index` gives it, they are the neighbourhood's players before and after it,
      in list order. */
  function TabuCandidates(xs: seq<Player>, index: int): (r: seq<Player>)
    requires 0 <= index < |xs|
    ensures forall c :: c in r ==> c in xs
    ensures |r| == Neighbourhood(index, |xs|).1 - Neighbourhood(index, |xs|).0
    ensures var (lo, hi) := Neighbourhood(index, |xs|);
      xs[index] !in xs[..index] ==> r == xs[lo..index] + xs[index + 1..hi + 1]
  {
    var bounds := Neighbourhood(index, |xs|);
    CandidatesWindow(xs, index, bounds.0, bounds.1);
    RemoveFirst(xs[bounds.0..bounds.1 + 1], xs[index]).value
  }

  /** Removing the incumbent from its neighbourhood `xs[lo..hi + 1]` leaves one player fewer, all
      from `xs`, and, when `index` is the incumbent's first place, the players on either side of
      it. */
  lemma {:induction false} CandidatesWindow(xs: seq<Player>, index: int, lo: int, hi: int)
    requires 0 <= lo <= index <= hi < |xs|
    ensures var removed := RemoveFirst(xs[lo..hi + 1], xs[index]);
      && removed.Some? && |removed.value| == hi - lo
      && (forall c :: c in removed.value ==> c in xs)
      && (xs[index] !in xs[..index] ==> removed.value == xs[lo..index] + xs[index + 1..hi + 1])
  {
    var window := xs[lo..hi + 1];
    var removed := RemoveFirst(window, xs[index]);
    assert window[index - lo] == xs[index];
    forall c | c in removed.value ensures c in xs {
      RemoveFirstFrom(window, xs[index], removed.value, c);
    }
    if xs[index] !in xs[..index] {
      assert window[..index - lo] == xs[lo..index] && window[index - lo + 1..] == xs[index + 1..hi + 1];
      assert xs[index] !in window[..index - lo];
      RemoveFirstAt(window, xs[index], index - lo);
    }
  }

  /** Candidate `c` for slot `i` passes both tests of the inner loop: the budget and club test,
      and the resulting lineup is not tabu. */
  ghost predicate Passes(s: seq<Player>, bench: seq<Player>, budget: int, i: int, c: Player,
                         entries: seq<seq<Player>>)
    requires 0 <= i < |s|
  {
    SwapAllowed(s, bench, budget, i, c) && !Tabu(s[i := c], entries)
  }

  /** The first candidate from place `k` on that passes, if any. */
  ghost function FirstPassing(alts: seq<Player>, s: seq<Player>, bench: seq<Player>, budget: int,
                              i: int, entries: seq<seq<Player>>, k: nat): (r: Option<nat>)
    requires 0 <= i < |s|
    ensures r.Some? ==> k <= r.value < |alts| && Passes(s, bench, budget, i, alts[r.value], entries)
    ensures r.Some? ==> forall l :: k <= l < r.value ==> !Passes(s, bench, budget, i, alts[l], entries)
    ensures r.None? ==> forall l :: k <= l < |alts| ==> !Passes(s, bench, budget, i, alts[l], entries)
    decreases |alts| - k
  {
    if k >= |alts| then None
    else if Passes(s, bench, budget, i, alts[k], entries) then Some(k)
    else FirstPassing(alts, s, bench, budget, i, entries, k + 1)
  }

  /** What one slot of a round of `tabu_search` does, for the lineup `s`, the budget and the tabu
      list `entries`: an error when the incumbent is not in its position list (`list.index`
      raises); a move to the first candidate, in `TabuCandidates` order, that passes; or nothing
      when none does. */
  ghost function TabuMove(byPos: map<Position, seq<Player>>, s: seq<Player>, bench: seq<Player>,
                          budget: int, entries: seq<seq<Player>>, i: int): (r: Result<Step>)
    requires 0 <= i < |s| && s[i].position in byPos
    ensures r.Err? <==> s[i] !in byPos[s[i].position]
    ensures r.Err? ==> r.error == NotInPositionList
    ensures r.Ok? && r.value.Moved? ==> |r.value.lineup| == |s|
  {
    var xs := byPos[s[i].position];
    match IndexOf(xs, s[i])
    case None => Err(NotInPositionList)
    case Some(index) =>
      var alts := TabuCandidates(xs, index);
      match FirstPassing(alts, s, bench, budget, i, entries, 0)
      case None => Ok(Stay)
      case Some(j) => Ok(Moved(s[i := alts[j]], budget + s[i].price - alts[j].price))
  }

  /** A move `TabuMove` takes brings in a candidate from the incumbent's position list that passes,
      with the budget changed by the difference of the two prices. */
  lemma {:induction false} TabuMoveTakes(byPos: map<Position, seq<Player>>, s: seq<Player>, bench: seq<Player>,
                                         budget: int, entries: seq<seq<Player>>, i: int)
    requires 0 <= i < |s| && s[i].position in byPos
    ensures var r := TabuMove(byPos, s, bench, budget, entries, i);
      r.Ok? && r.value.Moved? ==> exists c ::
        && c in byPos[s[i].position] && Passes(s, bench, budget, i, c, entries)
        && r.value.lineup == s[i := c] && r.value.budget == budget + s[i].price - c.price
  {
    var xs := byPos[s[i].position];
    var found := IndexOf(xs, s[i]);
    if found.Some? {
      var alts := TabuCandidates(xs, found.value);
      var j := FirstPassing(alts, s, bench, budget, i, entries, 0);
      if j.Some? {
        assert alts[j.value] in alts;
      }
    }
  }

  /** `TabuMove` once the incumbent is found at `index` and the first passing candidate is `j`. */
  lemma {:induction false} TabuMoveFound(byPos: map<Position, seq<Player>>, s: seq<Player>, bench: seq<Player>, budget: int,
                      entries: seq<seq<Player>>, i: int, index: nat, j: Option<nat>)
    requires 0 <= i < |s| && s[i].position in byPos
    requires IndexOf(byPos[s[i].position], s[i]) == Some(index)
    requires j == FirstPassing(TabuCandidates(byPos[s[i].position], index), s, bench, budget, i, entries, 0)
    ensures var alts := TabuCandidates(byPos[s[i].position], index);
      && (j.None? ==> TabuMove(byPos, s, bench, budget, entries, i) == Ok(Stay))
      && (j.Some? ==> TabuMove(byPos, s, bench, budget, entries, i)
                      == Ok(Moved(s[i := alts[j.value]], budget + s[i].price - alts[j.value].price)))
  {
  }

  /** The inner `for alternative in alternatives` loop of a slot: the place of the first candidate
      that passes the budget and club test and whose lineup `is_tabu` does not find covered by the
      tabu list, or nothing when none does. */
  method FirstAllowed(alternatives: seq<Player>, s: seq<Player>, bench: seq<Player>, budget: int, i: int,
                      entries: seq<seq<Player>>)
    returns (r: Option<nat>)
    requires 0 <= i < |s|
    ensures r == FirstPassing(alternatives, s, bench, budget, i, entries, 0)
  {
    var player := s[i];
    for j := 0 to |alternatives|
      invariant FirstPassing(alternatives, s, bench, budget, i, entries, j)
                == FirstPassing(alternatives, s, bench, budget, i, entries, 0)
    {
      var candidate := alternatives[j];
      var clubOk := CheckClubConstraint(s + bench, candidate.club);
      if budget + player.price >= candidate.price && (clubOk || player.club == candidate.club) {
        var isTabu := IsTabu(s[i := candidate], entries);
        if !isTabu {
          return Some(j);
        }
      }
    }
    return None;
  }

  /** One slot of a round of `tabu_search`: the move `TabuMove` describes, with the new lineup
      appended to the tabu list exactly when there is a move. */
  method TabuSlot(byPos: map<Position, seq<Player>>, s: seq<Player>, bench: seq<Player>, budget: int,
                  i: int, tabu: TabuList)
    returns (r: Result<Step>)
    requires 0 <= i < |s| && s[i].position in byPos && tabu.Valid()
    modifies tabu
    ensures tabu.Valid()
    ensures r == TabuMove(byPos, s, bench, budget, old(tabu.entries), i)
    ensures tabu.entries == if r.Ok? && r.value.Moved? then Window(old(tabu.entries) + [r.value.lineup], tabu.maxLen)
                            else old(tabu.entries)
  {
    var player := s[i];
    var found := IndexOf(byPos[player.position], player);
    if found.None? {
      return Err(NotInPositionList);
    }
    var alternatives := TabuCandidates(byPos[player.position], found.value);
    var j := FirstAllowed(alternatives, s, bench, budget, i, tabu.entries);
    TabuMoveFound(byPos, s, bench, budget, tabu.entries, i, found.value, j);
    if j.None? {
      return Ok(Stay);
    }
    var possible := s[i := alternatives[j.value]];
    tabu.Append(possible);
    return Ok(Moved(possible, budget + player.price - alternatives[j.value].price));
  }

  /** What `tabu_search` returns (the last lineup) and what it writes out (the best lineup found,
      `None` while no accepted lineup scored above zero), with the budget left. */
  datatype Outcome = Outcome(lineup: seq<Player>, best: Option<seq<Player>>, bestScore: int, budget: int)

  /** The state after an accepted lineup scoring `score`: it becomes the current lineup, and the
      best one exactly when `score > best_score`. */
  function Accept(st: Outcome, lineup: seq<Player>, budget: int, score: int): (r: Outcome)
    ensures r.lineup == lineup && r.budget == budget
    ensures score > st.bestScore ==> r.best == Some(lineup) && r.bestScore == score
    ensures score <= st.bestScore ==> r.best == st.best && r.bestScore == st.bestScore
  {
    if score > st.bestScore then Outcome(lineup, Some(lineup), score, budget)
    else Outcome(lineup, st.best, st.bestScore, budget)
  }

  /** The whole state of the search between slots: the outcome so far, the tabu list, every lineup
      appended to it (`trail`) and every accepted move (`history`). */
  datatype Search = Search(st: Outcome, entries: seq<seq<Player>>, trail: seq<seq<Player>>, history: seq<Move>)

  /** The state before the first round: the start, no best lineup, and a tabu list holding the
      start. */
  function TabuStart(starting: seq<Player>, budget: int, tenure: nat): Search {
    Search(Outcome(starting, None, 0, budget), Window([starting], tenure), [starting], [])
  }

  /** One slot `i` of a round: the move, then `starting_11 = possible_solution`,
      `tabu_list.append(...)`, the new budget, and the best lineup when the score beats it. The
      result is the state unchanged, or it records exactly one more accepted move. */
  ghost function TabuTurnOf(byPos: map<Position, seq<Player>>, bench: seq<Player>, tenure: nat,
                            x: Search, i: int): (r: Result<Search>)
    requires 0 <= i < |x.st.lineup| && Complete(byPos)
    ensures r.Ok? ==> |r.value.st.lineup| == |x.st.lineup|
    ensures r.Ok? && r.value != x ==>
      && r.value.history == x.history + [Move(r.value.st.lineup, r.value.st.budget)]
      && r.value.trail == x.trail + [r.value.st.lineup]
      && r.value.entries == Window(x.entries + [r.value.st.lineup], tenure)
  {
    match TabuMove(byPos, x.st.lineup, bench, x.st.budget, x.entries, i)
    case Err(e) => Err(e)
    case Ok(Stay) => Ok(x)
    case Ok(Moved(next, budget)) => Ok(TabuAfter(x, tenure, next, budget))
  }

  /** The state after the accepted move to `next` with budget `budget`. */
  ghost function TabuAfter(x: Search, tenure: nat, next: seq<Player>, budget: int): Search {
    Search(Accept(x.st, next, budget, Points(next)), Window(x.entries + [next], tenure),
           x.trail + [next], x.history + [Move(next, budget)])
  }

  /** Slots `i` to 10 of a round, stopping at the first error. */
  ghost function TabuSweep(byPos: map<Position, seq<Player>>, bench: seq<Player>, tenure: nat,
                           x: Search, i: nat): (r: Result<Search>)
    requires i <= 11 <= |x.st.lineup| && Complete(byPos)
    ensures r.Ok? ==> |r.value.st.lineup| == |x.st.lineup|
    decreases 11 - i, x // `x` here keeps a sweep from a literal slot from being unrolled whole
  {
    if i == 11 then Ok(x)
    else
      match TabuTurnOf(byPos, bench, tenure, x, i)
      case Err(e) => Err(e)
      case Ok(y) => TabuSweep(byPos, bench, tenure, y, i + 1)
  }

  /** `n` rounds of eleven slots, stopping at the first error. */
  ghost function TabuRun(byPos: map<Position, seq<Player>>, bench: seq<Player>, tenure: nat,
                         x: Search, n: nat): (r: Result<Search>)
    requires 11 <= |x.st.lineup| && Complete(byPos)
    ensures r.Ok? ==> |r.value.st.lineup| == |x.st.lineup|
    decreases n, x // `x` here keeps a run of a literal length from being unrolled whole
  {
    if n == 0 then Ok(x)
    else
      match TabuSweep(byPos, bench, tenure, x, 0)
      case Err(e) => Err(e)
      case Ok(y) => TabuRun(byPos, bench, tenure, y, n - 1)
  }

  /** A method's outcome with the ghost bookkeeping beside it, as a state of the search. */
  ghost function Pack(r: Result<Outcome>, entries: seq<seq<Player>>, trail: seq<seq<Player>>,
                      history: seq<Move>): Result<Search> {
    match r
    case Err(e) => Err(e)
    case Ok(o) => Ok(Search(o, entries, trail, history))
  }

  /** One slot of a round together with the bookkeeping after an accepted move: `starting_11`,
      the budget and the best lineup are updated, as `TabuTurnOf` says. */
  method TabuTurn(byPos: map<Position, seq<Player>>, bench: seq<Player>, tabu: TabuList, i: int,
                  st: Outcome, ghost trail: seq<seq<Player>>, ghost history: seq<Move>)
    returns (r: Result<Outcome>, ghost trail': seq<seq<Player>>, ghost history': seq<Move>)
    requires 0 <= i < |st.lineup| && Complete(byPos) && tabu.Valid()
    modifies tabu
    ensures tabu.Valid()
    ensures Pack(r, tabu.entries, trail', history')
            == TabuTurnOf(byPos, bench, tabu.maxLen, Search(st, old(tabu.entries), trail, history), i)
  {
    var step := TabuSlot(byPos, st.lineup, bench, st.budget, i, tabu);
    trail', history' := trail, history;
    if step.Err? {
      return Err(step.error), trail', history';
    }
    r := Ok(st);
    if step.value.Moved? {
      var next := step.value.lineup;
      var score := EvalSolution(next);
      r := Ok(Accept(st, next, step.value.budget, score));
      trail', history' := trail + [next], history + [Move(next, step.value.budget)];
    }
  }

  /** One slot of `TabuSweep`, unfolded. */
  lemma {:induction false} SweepStep(byPos: map<Position, seq<Player>>, bench: seq<Player>, tenure: nat, x: Search, i: nat,
                  t: Result<Search>)
    requires i < 11 <= |x.st.lineup| && Complete(byPos)
    requires t == TabuTurnOf(byPos, bench, tenure, x, i)
    ensures t.Err? ==> TabuSweep(byPos, bench, tenure, x, i) == Err(t.error)
    ensures t.Ok? ==> TabuSweep(byPos, bench, tenure, x, i) == TabuSweep(byPos, bench, tenure, t.value, i + 1)
  {
  }

  /** The first round of `TabuRun`, unfolded. */
  lemma {:induction false} TabuRunStep(byPos: map<Position, seq<Player>>, bench: seq<Player>, tenure: nat, x: Search, n: nat,
                    y: Result<Search>)
    requires 11 <= |x.st.lineup| && Complete(byPos) && n > 0
    requires y == TabuSweep(byPos, bench, tenure, x, 0)
    ensures y.Err? ==> TabuRun(byPos, bench, tenure, x, n) == Err(y.error)
    ensures y.Ok? ==> TabuRun(byPos, bench, tenure, x, n) == TabuRun(byPos, bench, tenure, y.value, n - 1)
  {
  }

  /** `TabuRun` on equal round counts. */
  lemma {:induction false} TabuRunArguments(byPos: map<Position, seq<Player>>, bench: seq<Player>, tenure: nat, y: Search,
                         m: nat, rest: nat)
    requires 11 <= |y.st.lineup| && Complete(byPos) && m == rest
    ensures TabuRun(byPos, bench, tenure, y, m) == TabuRun(byPos, bench, tenure, y, rest)
  {
  }

  /** The `for i in range(11)` loop of one round: `TabuSweep` from slot 0. */
  method TabuRound(byPos: map<Position, seq<Player>>, bench: seq<Player>, tabu: TabuList, st: Outcome,
                   ghost trail: seq<seq<Player>>, ghost history: seq<Move>)
    returns (r: Result<Outcome>, ghost trail': seq<seq<Player>>, ghost history': seq<Move>)
    requires |st.lineup| >= 11 && Complete(byPos) && tabu.Valid()
    modifies tabu
    ensures tabu.Valid()
    ensures Pack(r, tabu.entries, trail', history')
            == TabuSweep(byPos, bench, tabu.maxLen, Search(st, old(tabu.entries), trail, history), 0)
  {
    ghost var y0 := Search(st, tabu.entries, trail, history);
    var cur := st;
    trail', history' := trail, history;
    for i := 0 to 11
      invariant tabu.Valid() && |cur.lineup| == |st.lineup|
      invariant TabuSweep(byPos, bench, tabu.maxLen, y0, 0)
                == TabuSweep(byPos, bench, tabu.maxLen, Search(cur, tabu.entries, trail', history'), i)
    {
      ghost var before := Search(cur, tabu.entries, trail', history');
      var next;
      next, trail', history' := TabuTurn(byPos, bench, tabu, i, cur, trail', history');
      SweepStep(byPos, bench, tabu.maxLen, before, i, Pack(next, tabu.entries, trail', history'));
      if next.Err? {
        return next, trail', history';
      }
      cur := next.value;
    }
    return Ok(cur), trail', history';
  }

  /** The run of `n` rounds from `x` ends in `target`. */
  ghost predicate RunsTo(byPos: map<Position, seq<Player>>, bench: seq<Player>, tenure: nat, x: Search, n: nat,
                         target: Result<Search>)
    requires 11 <= |x.st.lineup| && Complete(byPos)
  {
    TabuRun(byPos, bench, tenure, x, n) == target
  }

  /** One round as the first of `left` rounds of a run that ends in `target`: the run fails as the
      round fails, or else the other `left - 1` rounds from the state after it end in `target`. */
  method TabuRunRound(byPos: map<Position, seq<Player>>, bench: seq<Player>, tabu: TabuList, st: Outcome,
                      ghost trail: seq<seq<Player>>, ghost history: seq<Move>, ghost left: nat,
                      ghost target: Result<Search>)
    returns (r: Result<Outcome>, ghost trail': seq<seq<Player>>, ghost history': seq<Move>)
    requires |st.lineup| >= 11 && Complete(byPos) && tabu.Valid() && left > 0
    requires RunsTo(byPos, bench, tabu.maxLen, Search(st, tabu.entries, trail, history), left, target)
    modifies tabu
    ensures tabu.Valid()
    ensures r.Err? ==> target == Err(r.error)
    ensures r.Ok? ==> |r.value.lineup| == |st.lineup|
                      && RunsTo(byPos, bench, tabu.maxLen, Search(r.value, tabu.entries, trail', history'), left - 1, target)
  {
    ghost var before := Search(st, tabu.entries, trail, history);
    r, trail', history' := TabuRound(byPos, bench, tabu, st, trail, history);
    TabuRunStep(byPos, bench, tabu.maxLen, before, left, Pack(r, tabu.entries, trail', history'));
  }

  /** The `for iteration in range(400)` loop, for `rounds` rounds: the run `TabuRun`. */
  method TabuRounds(byPos: map<Position, seq<Player>>, bench: seq<Player>, tabu: TabuList, st: Outcome,
                    rounds: nat, ghost trail: seq<seq<Player>>, ghost history: seq<Move>)
    returns (r: Result<Outcome>, ghost trail': seq<seq<Player>>, ghost history': seq<Move>)
    requires |st.lineup| >= 11 && Complete(byPos) && tabu.Valid()
    modifies tabu
    ensures tabu.Valid()
    ensures Pack(r, tabu.entries, trail', history')
            == TabuRun(byPos, bench, tabu.maxLen, Search(st, old(tabu.entries), trail, history), rounds)
  {
    ghost var target := TabuRun(byPos, bench, tabu.maxLen, Search(st, tabu.entries, trail, history), rounds);
    var cur := st;
    trail', history' := trail, history;
    ghost var left := rounds;
    for iteration := 0 to rounds
      invariant tabu.Valid() && |cur.lineup| == |st.lineup| && left == rounds - iteration
      invariant RunsTo(byPos, bench, tabu.maxLen, Search(cur, tabu.entries, trail', history'), left, target)
    {
      var next;
      next, trail', history' := TabuRunRound(byPos, bench, tabu, cur, trail', history', left, target);
      if next.Err? {
        return next, trail', history';
      }
      cur := next.value;
      left := left - 1;
    }
    return Ok(cur), trail', history';
  }

  /** The tabu list is the window of everything appended, the current lineup last. */
  ghost predicate Remembered(tenure: nat, entries: seq<seq<Player>>, trail: seq<seq<Player>>,
                             start: seq<Player>, current: seq<Player>) {
    && trail != [] && trail[|trail| - 1] == current
    && entries == Window(trail, tenure)
    && (tenure > 0 && Distinct(start) ==> Distinct(current))
  }

  /** The current lineup is the last accepted one, and every accepted one kept `Keeps` and scored
      no more than `bestScore`. */
  ghost predicate Accepted(start: seq<Player>, bench: seq<Player>, budget0: int, pool: set<Player>,
                           history: seq<Move>, st: Outcome) {
    && (|history| == 0 ==> st.lineup == start)
    && (|history| > 0 ==> st.lineup == history[|history| - 1].lineup && st.budget == history[|history| - 1].budget)
    && Keeps(start, bench, budget0, pool, st.lineup, st.budget)
    && (forall k :: 0 <= k < |history| ==>
          Keeps(start, bench, budget0, pool, history[k].lineup, history[k].budget)
          && Points(history[k].lineup) <= st.bestScore)
  }

  /** The best lineup is an accepted one and `bestScore` its points, or there is none yet. */
  ghost predicate BestSoFar(history: seq<Move>, st: Outcome) {
    && (st.best.None? ==> st.bestScore == 0)
    && (st.best.Some? ==>
          && st.bestScore == Points(st.best.value) && st.bestScore > 0
          && exists k :: 0 <= k < |history| && history[k].lineup == st.best.value)
  }

  /** What every state of a search from `start` satisfies. */
  ghost predicate Searching(start: seq<Player>, bench: seq<Player>, budget0: int, ranked: seq<Player>,
                            tenure: nat, x: Search) {
    && Remembered(tenure, x.entries, x.trail, start, x.st.lineup)
    && Accepted(start, bench, budget0, Elems(ranked), x.history, x.st)
    && BestSoFar(x.history, x.st)
  }

  /** The states of the search that satisfy `Searching`. */
  ghost function Searchings(start: seq<Player>, bench: seq<Player>, budget0: int, ranked: seq<Player>,
                            tenure: nat): iset<Search> {
    iset x: Search | Searching(start, bench, budget0, ranked, tenure, x)
  }

  lemma {:induction false} RememberMove(tenure: nat, entries: seq<seq<Player>>, trail: seq<seq<Player>>,
                     start: seq<Player>, current: seq<Player>, next: seq<Player>)
    requires Remembered(tenure, entries, trail, start, current)
    requires Distinct(current) && current in entries ==> Distinct(next)
    ensures Remembered(tenure, Window(entries + [next], tenure), trail + [next], start, next)
  {
    WindowAppend(trail, next, tenure);
    if tenure > 0 {
      WindowLast(trail, tenure);
    }
  }

  lemma {:induction false} AcceptMove(start: seq<Player>, bench: seq<Player>, budget0: int, pool: set<Player>,
                   history: seq<Move>, st: Outcome, next: seq<Player>, nextBudget: int)
    requires Accepted(start, bench, budget0, pool, history, st)
    requires Keeps(start, bench, budget0, pool, next, nextBudget)
    ensures Accepted(start, bench, budget0, pool, history + [Move(next, nextBudget)],
                     Accept(st, next, nextBudget, Points(next)))
  {
    var h := history + [Move(next, nextBudget)];
    var st' := Accept(st, next, nextBudget, Points(next));
    forall k | 0 <= k < |h|
      ensures Keeps(start, bench, budget0, pool, h[k].lineup, h[k].budget) && Points(h[k].lineup) <= st'.bestScore
    {
      if k < |history| {
        assert h[k] == history[k];
      }
    }
  }

  lemma {:induction false} BestMove(history: seq<Move>, st: Outcome, next: seq<Player>, nextBudget: int)
    requires BestSoFar(history, st)
    ensures BestSoFar(history + [Move(next, nextBudget)], Accept(st, next, nextBudget, Points(next)))
  {
    var h := history + [Move(next, nextBudget)];
    var st' := Accept(st, next, nextBudget, Points(next));
    if st'.best.Some? && st'.best != st.best {
      assert h[|history|].lineup == st'.best.value;
    } else if st'.best.Some? {
      var k :| 0 <= k < |history| && history[k].lineup == st.best.value;
      assert h[k] == history[k];
    }
  }

  /** The start satisfies `Searching`. */
  lemma {:induction false} SearchStart(start: seq<Player>, bench: seq<Player>, budget0: int, ranked: seq<Player>, tenure: nat)
    ensures Searching(start, bench, budget0, ranked, tenure, TabuStart(start, budget0, tenure))
  {
    KeepsStart(start, bench, budget0, Elems(ranked));
  }

  /** An accepted move to a lineup that keeps `Keeps`, and that repeats no player when the lineup
      it came from is remembered and repeats none, keeps `Searching`. */
  lemma {:induction false} AfterSearching(start: seq<Player>, bench: seq<Player>, budget0: int, ranked: seq<Player>,
                       tenure: nat, x: Search, next: seq<Player>, b: int)
    requires Searching(start, bench, budget0, ranked, tenure, x)
    requires Keeps(start, bench, budget0, Elems(ranked), next, b)
    requires Distinct(x.st.lineup) && x.st.lineup in x.entries ==> Distinct(next)
    ensures TabuAfter(x, tenure, next, b) in Searchings(start, bench, budget0, ranked, tenure)
  {
    RememberMove(tenure, x.entries, x.trail, start, x.st.lineup, next);
    AcceptMove(start, bench, budget0, Elems(ranked), x.history, x.st, next, b);
    BestMove(x.history, x.st, next, b);
  }

  /** A move to a candidate the position list offers and that passes keeps `Keeps`, and repeats no
      player when the lineup it came from is remembered and repeats none. */
  lemma {:induction false} MoveKeeps(start: seq<Player>, bench: seq<Player>, budget0: int, ranked: seq<Player>,
                  s: seq<Player>, budget: int, entries: seq<seq<Player>>, i: int, c: Player)
    requires 0 <= i < |s| && Keeps(start, bench, budget0, Elems(ranked), s, budget)
    requires c in PositionIndex(ranked)[s[i].position] && Passes(s, bench, budget, i, c, entries)
    ensures Keeps(start, bench, budget0, Elems(ranked), s[i := c], budget + s[i].price - c.price)
    ensures Distinct(s) && s in entries ==> Distinct(s[i := c])
  {
    IndexOffers(ranked);
    SwapKeeps(start, bench, budget0, Elems(ranked), s, budget, i, c);
    if Distinct(s) && s in entries {
      TabuDistinct(s, i, c, entries);
    }
  }

  /** `TabuTurnOf`, unfolded on the outcome of the slot's move. */
  lemma {:induction false} TabuTurnCases(byPos: map<Position, seq<Player>>, bench: seq<Player>, tenure: nat, x: Search, i: int,
                      m: Result<Step>)
    requires 0 <= i < |x.st.lineup| && Complete(byPos)
    requires m == TabuMove(byPos, x.st.lineup, bench, x.st.budget, x.entries, i)
    ensures m.Err? ==> TabuTurnOf(byPos, bench, tenure, x, i) == Err(m.error)
    ensures m.Ok? && m.value.Stay? ==> TabuTurnOf(byPos, bench, tenure, x, i) == Ok(x)
    ensures m.Ok? && m.value.Moved? ==>
      TabuTurnOf(byPos, bench, tenure, x, i) == Ok(TabuAfter(x, tenure, m.value.lineup, m.value.budget))
  {
  }

  /** A slot that changes the state moves one player of the incumbent's position list into slot
      `i`, and the lineup it moves to was not tabu against the list before the append: the search
      never goes back to a remembered lineup or to a part of one. */
  lemma {:induction false} TurnNotTabu(byPos: map<Position, seq<Player>>, bench: seq<Player>, tenure: nat,
                                       x: Search, i: int)
    requires 0 <= i < |x.st.lineup| && Complete(byPos)
    ensures var r := TabuTurnOf(byPos, bench, tenure, x, i);
      r.Ok? && r.value != x ==>
        && !Tabu(r.value.st.lineup, x.entries)
        && exists c :: c in byPos[x.st.lineup[i].position] && r.value.st.lineup == x.st.lineup[i := c]
  {
    var m := TabuMove(byPos, x.st.lineup, bench, x.st.budget, x.entries, i);
    TabuTurnCases(byPos, bench, tenure, x, i, m);
    TabuMoveTakes(byPos, x.st.lineup, bench, x.st.budget, x.entries, i);
  }

  /** A state of the search that keeps `Searching`, or an error that a start player from slot `i`
      on missing from the instance explains. */
  ghost predicate Reached(start: seq<Player>, bench: seq<Player>, budget0: int, ranked: seq<Player>,
                          tenure: nat, i: nat, r: Result<Search>)
    requires 11 <= |start|
  {
    && (r.Err? ==> r.error == NotInPositionList && exists k :: i <= k < 11 && start[k] !in ranked)
    && (r.Ok? ==> r.value in Searchings(start, bench, budget0, ranked, tenure))
  }

  /** One slot keeps `Searching`, and fails only on a start player missing from the instance. */
  lemma {:induction false} TurnSearching(start: seq<Player>, bench: seq<Player>, budget0: int, ranked: seq<Player>,
                      tenure: nat, x: Search, i: nat)
    requires i < 11 <= |start| && x in Searchings(start, bench, budget0, ranked, tenure)
    ensures Reached(start, bench, budget0, ranked, tenure, i, TabuTurnOf(PositionIndex(ranked), bench, tenure, x, i))
  {
    var byPos := PositionIndex(ranked);
    var s := x.st.lineup;
    var m := TabuMove(byPos, s, bench, x.st.budget, x.entries, i);
    TabuTurnCases(byPos, bench, tenure, x, i, m);
    TabuMoveTakes(byPos, s, bench, x.st.budget, x.entries, i);
    if m.Err? {
      IndexMembership(ranked, s[i]);
      assert s[i] !in Elems(ranked);
    } else if m.value.Moved? {
      var c :| && c in byPos[s[i].position] && Passes(s, bench, x.st.budget, i, c, x.entries)
               && m.value.lineup == s[i := c] && m.value.budget == x.st.budget + s[i].price - c.price;
      MovedSearching(start, bench, budget0, ranked, tenure, x, i, c, m.value.lineup, m.value.budget);
    }
  }

  /** A tabu move to a passing candidate `c`, which leads to `next` with budget `b`, keeps
      `Searching`. */
  lemma {:induction false} MovedSearching(start: seq<Player>, bench: seq<Player>, budget0: int, ranked: seq<Player>,
                       tenure: nat, x: Search, i: nat, c: Player, next: seq<Player>, b: int)
    requires i < 11 <= |start| && x in Searchings(start, bench, budget0, ranked, tenure)
    requires c in PositionIndex(ranked)[x.st.lineup[i].position]
    requires Passes(x.st.lineup, bench, x.st.budget, i, c, x.entries)
    requires next == x.st.lineup[i := c] && b == x.st.budget + x.st.lineup[i].price - c.price
    ensures TabuAfter(x, tenure, next, b) in Searchings(start, bench, budget0, ranked, tenure)
  {
    MoveKeeps(start, bench, budget0, ranked, x.st.lineup, x.st.budget, x.entries, i, c);
    AfterSearching(start, bench, budget0, ranked, tenure, x, next, b);
  }

  /** The rest of a round keeps `Searching`, with the same failures. */
  lemma {:induction false} SweepSearching(start: seq<Player>, bench: seq<Player>, budget0: int,
                                          ranked: seq<Player>, tenure: nat, x: Search, i: nat)
    requires i <= 11 <= |start| && x in Searchings(start, bench, budget0, ranked, tenure)
    ensures Reached(start, bench, budget0, ranked, tenure, i, TabuSweep(PositionIndex(ranked), bench, tenure, x, i))
    decreases 11 - i
  {
    if i < 11 {
      var t := TabuTurnOf(PositionIndex(ranked), bench, tenure, x, i);
      TurnSearching(start, bench, budget0, ranked, tenure, x, i);
      SweepStep(PositionIndex(ranked), bench, tenure, x, i, t);
      if t.Ok? {
        SweepSearching(start, bench, budget0, ranked, tenure, t.value, i + 1);
      }
    }
  }

  /** `Reached` carries over to a run `r` that fails as its first round `y` fails, or else equals
      the rest of the run, `rest`. */
  lemma {:induction false} ReachedCarry(start: seq<Player>, bench: seq<Player>, budget0: int, ranked: seq<Player>,
                     tenure: nat, y: Result<Search>, rest: Result<Search>, r: Result<Search>)
    requires 11 <= |start| && Reached(start, bench, budget0, ranked, tenure, 0, y)
    requires y.Err? ==> r == Err(y.error)
    requires y.Ok? ==> r == rest && Reached(start, bench, budget0, ranked, tenure, 0, rest)
    ensures Reached(start, bench, budget0, ranked, tenure, 0, r)
  {
  }

  /** Every state a run reaches satisfies `Searching`; a run fails only on a start player missing
      from the instance. */
  lemma {:induction false} RunSearching(start: seq<Player>, bench: seq<Player>, budget0: int,
                                        ranked: seq<Player>, tenure: nat, x: Search, n: nat)
    requires 11 <= |start| && x in Searchings(start, bench, budget0, ranked, tenure)
    ensures Reached(start, bench, budget0, ranked, tenure, 0, TabuRun(PositionIndex(ranked), bench, tenure, x, n))
    decreases n
  {
    if n > 0 {
      var byPos := PositionIndex(ranked);
      var y := TabuSweep(byPos, bench, tenure, x, 0);
      var m: nat := n - 1;
      TabuRunStep(byPos, bench, tenure, x, n, y);
      SweepSearching(start, bench, budget0, ranked, tenure, x, 0);
      if y.Ok? {
        RunSearching(start, bench, budget0, ranked, tenure, y.value, m);
        TabuRunArguments(byPos, bench, tenure, y.value, m, n - 1);
        ReachedCarry(start, bench, budget0, ranked, tenure, y, TabuRun(byPos, bench, tenure, y.value, m),
                     TabuRun(byPos, bench, tenure, x, n));
      } else {
        ReachedCarry(start, bench, budget0, ranked, tenure, y, y, TabuRun(byPos, bench, tenure, x, n));
      }
    }
  }

  /** `tabu_search`: 400 rounds over the eleven slots, starting from a tabu list that holds the
      start, with `instance` sorted by rank in place. The result is the run `TabuRun` from
      `TabuStart`. An error means a lineup player was missing from the instance, which cannot
      happen when the start's players are all in it. On success the last lineup and every
      accepted one keep the start's positions, budget relation and club cap; the best lineup is
      one of the accepted ones with the most points, and with a nonempty tabu list no lineup
      repeats a player. */
  method TabuSearch(instance: array<Player>, starting: seq<Player>, bench: seq<Player>, budget: int,
                    tenure: nat)
    returns (r: Result<Outcome>, ghost history: seq<Move>)
    requires |starting| >= 11
    modifies instance
    ensures multiset(instance[..]) == old(multiset(instance[..])) && Sorted(instance[..], ByRank)
    ensures var run := TabuRun(PositionIndex(instance[..]), bench, tenure, TabuStart(starting, budget, tenure), 400);
      && (r.Ok? <==> run.Ok?) && (r.Err? ==> r.error == run.error)
      && (r.Ok? ==> r.value == run.value.st && history == run.value.history)
    ensures r.Err? ==> r.error == NotInPositionList
    ensures (forall k :: 0 <= k < 11 ==> starting[k] in instance[..]) ==> r.Ok?
    ensures r.Ok? ==> Keeps(starting, bench, budget, Elems(instance[..]), r.value.lineup, r.value.budget)
    ensures r.Ok? && |history| == 0 ==> r.value.lineup == starting
    ensures r.Ok? && |history| > 0 ==> r.value.lineup == history[|history| - 1].lineup
    ensures r.Ok? ==> forall k :: 0 <= k < |history| ==>
      && Keeps(starting, bench, budget, Elems(instance[..]), history[k].lineup, history[k].budget)
      && Points(history[k].lineup) <= r.value.bestScore
    ensures r.Ok? && r.value.best.None? ==> r.value.bestScore == 0
    ensures r.Ok? && r.value.best.Some? ==>
      && r.value.bestScore == Points(r.value.best.value) > 0
      && exists k :: 0 <= k < |history| && history[k].lineup == r.value.best.value
    ensures r.Ok? && tenure > 0 && Distinct(starting) ==> Distinct(r.value.lineup)
  {
    var byPositions := DivideByPositions(instance);
    ghost var ranked := instance[..];
    var tabu := new TabuList(tenure);
    assert instance[..] == ranked;
    tabu.Append(starting);
    assert instance[..] == ranked;
    ghost var trail;
    r, trail, history := TabuRounds(byPositions, bench, tabu, Outcome(starting, None, 0, budget), 400, [starting], []);
    assert instance[..] == ranked;
    SearchStart(starting, bench, budget, ranked, tenure);
    RunSearching(starting, bench, budget, ranked, tenure, TabuStart(starting, budget, tenure), 400);
  }
}
