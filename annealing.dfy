/** `simulated_annealing`: for each temperature step and each of the eleven slots, a neighbour is
    drawn from the players within three places of the incumbent in its ranked position list, in
    shuffled order; a move that does not lose points is always taken and one that loses points is
    taken when the random draw falls under `exp(-dt / t)`. The best lineup seen is returned. */
module Annealing {
  import opened Players
  import opened Sorting
  import opened Util
  import opened Lists
  import opened Moves

  /** `x in range(lo, hi)`. */
  lemma {:induction false} InRange(lo: int, hi: int, x: int)
    ensures x in Range(lo, hi) <==> lo <= x < hi
  {
    if lo <= x < hi {
      assert Range(lo, hi)[x - lo] == x;
    }
  }

  lemma {:induction false} RangeMembers(lo: int, hi: int)
    ensures forall x :: x in Range(lo, hi) <==> lo <= x < hi
  {
    forall x ensures x in Range(lo, hi) <==> lo <= x < hi {
      InRange(lo, hi, x);
    }
  }

  /** Removing `x` from `range(lo, hi)` leaves the two ranges on either side of it. */
  lemma {:induction false} RangeRemove(lo: int, hi: int, x: int)
    requires lo <= x < hi
    ensures RemoveFirst(Range(lo, hi), x) == Some(Range(lo, x) + Range(x + 1, hi))
  {
    var xs := Range(lo, hi);
    InRange(lo, hi, x);
    var j := IndexOf(xs, x).value;
    assert j == x - lo;
    assert xs[..j] == Range(lo, x);
    assert xs[j + 1..] == Range(x + 1, hi);
  }

  /** `list(range(min_idx, max_idx))` with `index` removed, as the source writes it. The range
      leaves out `max_idx`, so it holds the indices within three places of `index` except the
      last place of the list and the place three after `index`. For the last player of its list
      it does not hold `index` at all, and `remove` raises ValueError. `AsWrittenRemoves` shows
      this is `remove` on the range. */
  function AnnealIndicesAsWritten(index: int, len: int): (r: Result<seq<int>>)
    requires 0 <= index < len
    ensures r.Err? <==> index == len - 1
    ensures r.Err? ==> r.error == LastInPositionList
    ensures r.Ok? ==> forall k :: k in r.value <==> 0 <= k < len - 1 && index - 3 <= k < index + 3 && k != index
  {
    var (lo, hi) := Neighbourhood(index, len);
    if index < hi then
      RangeMembers(lo, index);
      RangeMembers(index + 1, hi);
      var rest := Range(lo, index) + Range(index + 1, hi);
      assert forall k :: k in rest <==> k in Range(lo, index) || k in Range(index + 1, hi);
      Ok(rest)
    else Err(LastInPositionList)
  }

  /** `AnnealIndicesAsWritten` is `list(range(min_idx, max_idx))` followed by `remove(index)`. */
  lemma {:induction false} AsWrittenRemoves(index: int, len: int)
    requires 0 <= index < len
    ensures var (lo, hi) := Neighbourhood(index, len);
      AnnealIndicesAsWritten(index, len)
      == match RemoveFirst(Range(lo, hi), index)
         case None => Err(LastInPositionList)
         case Some(rest) => Ok(rest)
  {
    var (lo, hi) := Neighbourhood(index, len);
    InRange(lo, hi, index);
    if index < hi {
      RangeRemove(lo, hi, index);
    }
  }

  /** The only player of a one-player position list makes the as-written indices fail. */
  lemma {:induction false} LonePlayerFails()
    ensures AnnealIndicesAsWritten(0, 1) == Err(LastInPositionList)
  {
  }

  /** The neighbourhood as intended, `list(range(min_idx, max_idx + 1))` with `index` removed, the
      same neighbourhood `tabu_search` uses: every index within three places of `index`, in range,
      other than `index` itself, in increasing order. `IntendedRemoves` shows this is `remove` on
      the range. */
  function AnnealIndices(index: int, len: int): (r: seq<int>)
    requires 0 <= index < len
    ensures forall k :: k in r <==> 0 <= k < len && index - 3 <= k <= index + 3 && k != index
    ensures forall i, j :: 0 <= i < j < |r| ==> r[i] < r[j]
  {
    var (lo, hi) := Neighbourhood(index, len);
    var r := Range(lo, index) + Range(index + 1, hi + 1);
    assert forall k :: k in r <==> k in Range(lo, index) || k in Range(index + 1, hi + 1);
    RangeMembers(lo, index);
    RangeMembers(index + 1, hi + 1);
    r
  }

  /** `AnnealIndices` is `list(range(min_idx, max_idx + 1))` followed by `remove(index)`. */
  lemma {:induction false} IntendedRemoves(index: int, len: int)
    requires 0 <= index < len
    ensures var (lo, hi) := Neighbourhood(index, len);
      RemoveFirst(Range(lo, hi + 1), index) == Some(AnnealIndices(index, len))
  {
    var (lo, hi) := Neighbourhood(index, len);
    RangeRemove(lo, hi + 1, index);
  }

  /** Which candidate indices the annealing draws from: the range as the source writes it, or the
      range it evidently intends. */
  datatype IndexRule = AsWritten | Intended

  /** The candidate indices for the incumbent at `index` of a list of length `len`, under `rule`:
      only the as-written rule fails, and only for the last player of the list. */
  function SlotIndices(rule: IndexRule, index: int, len: int): (r: Result<seq<int>>)
    requires 0 <= index < len
    ensures r.Err? <==> rule == AsWritten && index == len - 1
    ensures r.Err? ==> r.error == LastInPositionList
    ensures rule == Intended ==> r == Ok(AnnealIndices(index, len))
    ensures r.Ok? ==> forall k :: 0 <= k < |r.value| ==> 0 <= r.value[k] < len && r.value[k] != index
  {
    match rule
    case AsWritten =>
      var r := AnnealIndicesAsWritten(index, len);
      assert r.Ok? ==> forall k :: 0 <= k < |r.value| ==> r.value[k] in r.value;
      r
    case Intended =>
      var r := AnnealIndices(index, len);
      assert forall k :: 0 <= k < |r| ==> r[k] in r;
      Ok(r)
  }

  /** How many draws `random.shuffle` takes for `n` items: one per place from the last down to the
      second. */
  function ShuffleDraws(n: nat): nat {
    if n == 0 then 0 else n - 1
  }

  /** `random.shuffle(indices)` with draws from `draws` from `cursor` on. */
  function ShuffleOf(indices: seq<int>, draws: nat -> nat, cursor: nat): seq<int> {
    FisherYates(indices, |indices| - 1, draws, cursor)
  }

  /** The shuffle only reorders: indices that were in range and not `index` stay so. */
  lemma {:induction false} ShuffleKeeps(indices: seq<int>, draws: nat -> nat, cursor: nat, index: int, len: int)
    requires forall k :: 0 <= k < |indices| ==> 0 <= indices[k] < len && indices[k] != index
    ensures var o := ShuffleOf(indices, draws, cursor);
      forall k :: 0 <= k < |o| ==> 0 <= o[k] < len && o[k] != index
  {
    var o := ShuffleOf(indices, draws, cursor);
    FisherYatesPermutes(indices, |indices| - 1, draws, cursor);
    forall k | 0 <= k < |o| ensures 0 <= o[k] < len && o[k] != index {
      assert o[k] in multiset(o);
      assert o[k] in indices;
    }
  }

  /** `indices` after `list(range(...))`, `indices.remove(index)` and `random.shuffle(indices)`:
      the shuffled candidate indices of `SlotIndices`, and where the draws go on from. */
  method ShuffledIndices(rule: IndexRule, index: int, len: int, draws: nat -> nat, cursor: nat)
    returns (r: Result<seq<int>>, next: nat)
    requires 0 <= index < len
    ensures var ix := SlotIndices(rule, index, len);
      && (r.Err? <==> ix.Err?) && (r.Err? ==> r.error == ix.error)
      && (r.Ok? ==> r.value == ShuffleOf(ix.value, draws, cursor) && next == cursor + ShuffleDraws(|ix.value|))
  {
    var indices := SlotIndices(rule, index, len);
    if indices.Err? {
      r, next := Err(indices.error), cursor;
    } else {
      var ix := indices.value;
      var a := ArrayOf(ix);
      next := Shuffle(a, draws, cursor);
      r := Ok(a[..]);
    }
  }

  /** The candidate is already one of the squad. */
  predicate InSquad(c: Player, s: seq<Player>, bench: seq<Player>) {
    c in s || c in bench
  }

  /** Some entry from `k` up to `l` of the shuffled order is a player of the squad: the loop
      `break`s there with no neighbour. */
  ghost predicate Blocked(xs: seq<Player>, order: seq<int>, s: seq<Player>, bench: seq<Player>, k: int, l: int)
    requires forall m :: 0 <= m < |order| ==> 0 <= order[m] < |xs|
  {
    exists m :: k <= m <= l && 0 <= m < |order| && InSquad(xs[order[m]], s, bench)
  }

  /** What the `for idx in indices` loop finds from place `k` of the shuffled order on: the place
      of the first candidate that passes the budget and club test, provided no candidate up to it
      is already in the squad; none once a player of the squad comes first, or when no candidate
      passes. */
  ghost function FirstNeighbour(xs: seq<Player>, order: seq<int>, s: seq<Player>, bench: seq<Player>,
                                budget: int, i: int, k: nat): (r: Option<nat>)
    requires 0 <= i < |s| && forall m :: 0 <= m < |order| ==> 0 <= order[m] < |xs|
    ensures r.Some? ==> k <= r.value < |order| && SwapAllowed(s, bench, budget, i, xs[order[r.value]])
    ensures r.Some? ==> forall l :: k <= l <= r.value ==> !InSquad(xs[order[l]], s, bench)
    ensures r.Some? ==> forall l :: k <= l < r.value ==> !SwapAllowed(s, bench, budget, i, xs[order[l]])
    ensures r.None? ==> forall l :: k <= l < |order| && !Blocked(xs, order, s, bench, k, l) ==>
      !SwapAllowed(s, bench, budget, i, xs[order[l]])
    decreases |order| - k
  {
    if k >= |order| then None
    else if InSquad(xs[order[k]], s, bench) then
      assert forall l :: k <= l < |order| ==> Blocked(xs, order, s, bench, k, l);
      None
    else if SwapAllowed(s, bench, budget, i, xs[order[k]]) then Some(k)
    else
      var r := FirstNeighbour(xs, order, s, bench, budget, i, k + 1);
      assert r.None? ==> forall l :: k + 1 <= l < |order| && Blocked(xs, order, s, bench, k + 1, l) ==>
        Blocked(xs, order, s, bench, k, l);
      r
  }

  /** The `for idx in indices` loop: the neighbour `FirstNeighbour` describes. */
  method FindNeighbour(xs: seq<Player>, order: seq<int>, s: seq<Player>, bench: seq<Player>,
                       budget: int, i: int)
    returns (neighbour: Option<Player>)
    requires 0 <= i < |s| && forall m :: 0 <= m < |order| ==> 0 <= order[m] < |xs|
    ensures neighbour == match FirstNeighbour(xs, order, s, bench, budget, i, 0)
                         case None => None
                         case Some(j) => Some(xs[order[j]])
  {
    var player := s[i];
    for j := 0 to |order|
      invariant FirstNeighbour(xs, order, s, bench, budget, i, j) == FirstNeighbour(xs, order, s, bench, budget, i, 0)
    {
      var candidate := xs[order[j]];
      if candidate in s || candidate in bench {
        return None;
      }
      var clubOk := CheckClubConstraint(s + bench, candidate.club);
      if budget + player.price >= candidate.price && (clubOk || player.club == candidate.club) {
        return Some(candidate);
      }
    }
    return None;
  }

  /** The state the annealing carries from slot to slot: the current lineup with its score and
      budget, and the best lineup seen with its score and the budget it left. */
  datatype Anneal = Anneal(current: seq<Player>, currentScore: int, budget: int,
                           best: seq<Player>, bestScore: int, bestBudget: int)

  /** `if current_score > best_score: best_score = current_score; best_solution = current_solution`. */
  function Promote(st: Anneal): (r: Anneal)
    ensures r.current == st.current && r.currentScore == st.currentScore && r.budget == st.budget
    ensures r.bestScore >= st.bestScore && r.bestScore >= st.currentScore
    ensures st.currentScore > st.bestScore ==>
      (r.best, r.bestScore, r.bestBudget) == (st.current, st.currentScore, st.budget)
    ensures st.currentScore <= st.bestScore ==> r == st
  {
    if st.currentScore > st.bestScore then st.(best := st.current, bestScore := st.currentScore, bestBudget := st.budget)
    else st
  }

  /** The whole state between slots: the annealing state, where the shuffle draws go on from, and
      every accepted move. */
  datatype Walk = Walk(st: Anneal, cursor: nat, history: seq<Move>)

  /** The state before the first round: the start is both the current and the best lineup. */
  function AnnealStart(starting: seq<Player>, budget: int): Walk {
    Walk(Anneal(starting, Points(starting), budget, starting, Points(starting), budget), 0, [])
  }

  /** The shuffled candidate indices of a slot, and where the draws go on from. */
  datatype Shuffled = Shuffled(order: seq<int>, cursor: nat)

  /** The candidate indices for slot `i` of the lineup `s`: the incumbent's place in its list
      (`list.index` raises when it is missing), then the indices `SlotIndices` gives under `rule`,
      shuffled with the draws from `cursor` on. */
  ghost function CandidateOrder(byPos: map<Position, seq<Player>>, rule: IndexRule, draws: nat -> nat,
                                s: seq<Player>, i: int, cursor: nat): (r: Result<Shuffled>)
    requires 0 <= i < |s| && Complete(byPos)
    ensures r.Err? && r.error == NotInPositionList <==> s[i] !in byPos[s[i].position]
    ensures r.Err? ==> r.error == NotInPositionList || (r.error == LastInPositionList && rule == AsWritten)
    ensures r.Ok? ==> r.value.cursor >= cursor
    ensures r.Ok? ==> forall m :: 0 <= m < |r.value.order| ==> 0 <= r.value.order[m] < |byPos[s[i].position]|
  {
    var xs := byPos[s[i].position];
    match IndexOf(xs, s[i])
    case None => Err(NotInPositionList)
    case Some(index) =>
      match SlotIndices(rule, index, |xs|)
      case Err(e) => Err(e)
      case Ok(indices) =>
        ShuffleKeeps(indices, draws, cursor, index, |xs|);
        Ok(Shuffled(ShuffleOf(indices, draws, cursor), cursor + ShuffleDraws(|indices|)))
  }

  /** What the search for a neighbour of slot `i` ends with: the neighbour, if any, and where the
      shuffle draws go on from. */
  datatype Found = Found(neighbour: Option<Player>, cursor: nat)

  /** The search for a neighbour of slot `i` of the lineup `s`: the neighbour `FirstNeighbour`
      finds among the candidates in the order `CandidateOrder` gives. */
  ghost function AnnealMove(byPos: map<Position, seq<Player>>, bench: seq<Player>, rule: IndexRule,
                            draws: nat -> nat, s: seq<Player>, budget: int, i: int, cursor: nat)
    : (r: Result<Found>)
    requires 0 <= i < |s| && Complete(byPos)
    ensures r.Err? && r.error == NotInPositionList <==> s[i] !in byPos[s[i].position]
    ensures r.Err? ==> r.error == NotInPositionList || (r.error == LastInPositionList && rule == AsWritten)
    ensures r.Ok? ==> r.value.cursor >= cursor
    ensures r.Ok? && r.value.neighbour.Some? ==>
      var c := r.value.neighbour.value;
      c in byPos[s[i].position] && !InSquad(c, s, bench) && SwapAllowed(s, bench, budget, i, c)
  {
    var xs := byPos[s[i].position];
    match CandidateOrder(byPos, rule, draws, s, i, cursor)
    case Err(e) => Err(e)
    case Ok(Shuffled(order, next)) =>
      match FirstNeighbour(xs, order, s, bench, budget, i, 0)
      case None => Ok(Found(None, next))
      case Some(j) =>
        assert xs[order[j]] in xs;
        Ok(Found(Some(xs[order[j]]), next))
  }

  /** One slot `i` of round `round`: the neighbour `AnnealMove` finds (none: `continue`); the move
      is taken when it does not lose points (`p` is 1) or when `accept(round, i)`, which stands for
      the draw `random.random() < exp(-dt / t)`; then the best lineup is updated. */
  ghost function AnnealTurnOf(byPos: map<Position, seq<Player>>, bench: seq<Player>, rule: IndexRule,
                              draws: nat -> nat, accept: (nat, nat) -> bool, round: nat, x: Walk, i: int)
    : (r: Result<Walk>)
    requires 0 <= i < |x.st.current| && Complete(byPos)
    ensures r.Ok? ==> |r.value.st.current| == |x.st.current| && r.value.cursor >= x.cursor
    ensures r.Ok? && r.value.history == x.history ==>
      r.value.st.current == x.st.current && r.value.st.budget == x.st.budget
    ensures r.Ok? && r.value.history != x.history ==>
      r.value.history == x.history + [Move(r.value.st.current, r.value.st.budget)]
  {
    var s := x.st.current;
    match AnnealMove(byPos, bench, rule, draws, s, x.st.budget, i, x.cursor)
    case Err(e) => Err(e)
    case Ok(Found(None, cursor)) => Ok(Walk(x.st, cursor, x.history))
    case Ok(Found(Some(c), cursor)) =>
      var next := s[i := c];
      if Points(next) >= x.st.currentScore || accept(round, i) then
        var b := x.st.budget + s[i].price - c.price;
        Ok(Walk(Promote(x.st.(current := next, currentScore := Points(next), budget := b)), cursor,
                x.history + [Move(next, b)]))
      else Ok(Walk(Promote(x.st), cursor, x.history))
  }

  /** `AnnealTurnOf` by the outcome of the neighbour search. */
  lemma {:induction false} AnnealTurnCases(byPos: map<Position, seq<Player>>, bench: seq<Player>, rule: IndexRule,
                        draws: nat -> nat, accept: (nat, nat) -> bool, round: nat, x: Walk, i: int,
                        m: Result<Found>)
    requires 0 <= i < |x.st.current| && Complete(byPos)
    requires m == AnnealMove(byPos, bench, rule, draws, x.st.current, x.st.budget, i, x.cursor)
    ensures m.Err? ==> AnnealTurnOf(byPos, bench, rule, draws, accept, round, x, i) == Err(m.error)
    ensures m.Ok? && m.value.neighbour.None? ==>
      AnnealTurnOf(byPos, bench, rule, draws, accept, round, x, i) == Ok(Walk(x.st, m.value.cursor, x.history))
  {
  }

  /** `AnnealTurnOf` when the neighbour search finds `c`: the move is taken or the state stays. */
  lemma {:induction false} AnnealTurnMoved(byPos: map<Position, seq<Player>>, bench: seq<Player>, rule: IndexRule,
                        draws: nat -> nat, accept: (nat, nat) -> bool, round: nat, x: Walk, i: int,
                        c: Player, cursor: nat, next: seq<Player>, b: int)
    requires 0 <= i < |x.st.current| && Complete(byPos)
    requires AnnealMove(byPos, bench, rule, draws, x.st.current, x.st.budget, i, x.cursor) == Ok(Found(Some(c), cursor))
    requires next == x.st.current[i := c] && b == x.st.budget + x.st.current[i].price - c.price
    ensures Points(next) >= x.st.currentScore || accept(round, i) ==>
      AnnealTurnOf(byPos, bench, rule, draws, accept, round, x, i)
      == Ok(Walk(Promote(x.st.(current := next, currentScore := Points(next), budget := b)),
                 cursor, x.history + [Move(next, b)]))
    ensures !(Points(next) >= x.st.currentScore || accept(round, i)) ==>
      AnnealTurnOf(byPos, bench, rule, draws, accept, round, x, i) == Ok(Walk(Promote(x.st), cursor, x.history))
  {
  }

  /** Slots `i` to 10 of round `round`, stopping at the first error. */
  ghost function AnnealSweep(byPos: map<Position, seq<Player>>, bench: seq<Player>, rule: IndexRule,
                             draws: nat -> nat, accept: (nat, nat) -> bool, round: nat, x: Walk, i: nat)
    : (r: Result<Walk>)
    requires i <= 11 <= |x.st.current| && Complete(byPos)
    ensures r.Ok? ==> |r.value.st.current| == |x.st.current|
    decreases 11 - i, x // `x` here keeps a sweep from a literal slot from being unrolled whole
  {
    if i == 11 then Ok(x)
    else
      match AnnealTurnOf(byPos, bench, rule, draws, accept, round, x, i)
      case Err(e) => Err(e)
      case Ok(y) => AnnealSweep(byPos, bench, rule, draws, accept, round, y, i + 1)
  }

  /** `n` temperature steps from round `round` on, stopping at the first error. */
  ghost function AnnealRun(byPos: map<Position, seq<Player>>, bench: seq<Player>, rule: IndexRule,
                           draws: nat -> nat, accept: (nat, nat) -> bool, round: nat, x: Walk, n: nat)
    : (r: Result<Walk>)
    requires 11 <= |x.st.current| && Complete(byPos)
    ensures r.Ok? ==> |r.value.st.current| == |x.st.current|
    decreases n, x // `x` here keeps a run of a literal length from being unrolled whole
  {
    if n == 0 then Ok(x)
    else
      match AnnealSweep(byPos, bench, rule, draws, accept, round, x, 0)
      case Err(e) => Err(e)
      case Ok(y) => AnnealRun(byPos, bench, rule, draws, accept, round + 1, y, n - 1)
  }

  /** A method's outcome with the ghost bookkeeping beside it, as a state of the walk. */
  ghost function PackWalk(r: Result<Anneal>, cursor: nat, history: seq<Move>): Result<Walk> {
    match r
    case Err(e) => Err(e)
    case Ok(st) => Ok(Walk(st, cursor, history))
  }

  /** From `index = by_positions[player.position].index(player)` to `random.shuffle(indices)`:
      the candidate order `CandidateOrder` describes. */
  method OrderCandidates(byPos: map<Position, seq<Player>>, rule: IndexRule, draws: nat -> nat,
                         s: seq<Player>, i: int, cursor: nat)
    returns (r: Result<Shuffled>)
    requires 0 <= i < |s| && Complete(byPos)
    ensures r == CandidateOrder(byPos, rule, draws, s, i, cursor)
  {
    var xs := byPos[s[i].position];
    var found := IndexOf(xs, s[i]);
    if found.None? {
      r := Err(NotInPositionList);
    } else {
      var order, next := ShuffledIndices(rule, found.value, |xs|, draws, cursor);
      r := if order.Err? then Err(order.error) else Ok(Shuffled(order.value, next));
      CandidateOrderFound(byPos, rule, draws, s, i, cursor, found.value);
    }
  }

  /** `CandidateOrder` once `list.index` has found the incumbent at `index`. */
  lemma {:induction false} CandidateOrderFound(byPos: map<Position, seq<Player>>, rule: IndexRule, draws: nat -> nat,
                                               s: seq<Player>, i: int, cursor: nat, index: nat)
    requires 0 <= i < |s| && Complete(byPos)
    requires IndexOf(byPos[s[i].position], s[i]) == Some(index)
    ensures index < |byPos[s[i].position]|
    ensures var ix := SlotIndices(rule, index, |byPos[s[i].position]|);
      CandidateOrder(byPos, rule, draws, s, i, cursor)
      == if ix.Err? then Err(ix.error) else Ok(Shuffled(ShuffleOf(ix.value, draws, cursor), cursor + ShuffleDraws(|ix.value|)))
  {
    var xs := byPos[s[i].position];
    match SlotIndices(rule, index, |xs|)
    case Err(e) =>
      assert CandidateOrder(byPos, rule, draws, s, i, cursor) == Err(e);
    case Ok(indices) =>
      assert CandidateOrder(byPos, rule, draws, s, i, cursor)
             == Ok(Shuffled(ShuffleOf(indices, draws, cursor), cursor + ShuffleDraws(|indices|)));
  }

  /** The neighbour search of a slot, to the end of the `for idx in indices` loop: the search
      `AnnealMove` describes. */
  method NeighbourSearch(byPos: map<Position, seq<Player>>, bench: seq<Player>, rule: IndexRule,
                         draws: nat -> nat, s: seq<Player>, budget: int, i: int, cursor: nat)
    returns (r: Result<Found>)
    requires 0 <= i < |s| && Complete(byPos)
    ensures r == AnnealMove(byPos, bench, rule, draws, s, budget, i, cursor)
  {
    var order := OrderCandidates(byPos, rule, draws, s, i, cursor);
    if order.Err? {
      return Err(order.error);
    }
    var neighbour := FindNeighbour(byPos[s[i].position], order.value.order, s, bench, budget, i);
    return Ok(Found(neighbour, order.value.cursor));
  }

  /** One slot of a round of `simulated_annealing`, as `AnnealTurnOf` says. */
  method AnnealSlot(byPos: map<Position, seq<Player>>, bench: seq<Player>, rule: IndexRule,
                    draws: nat -> nat, accept: (nat, nat) -> bool, round: nat, st: Anneal, i: int,
                    cursor: nat, ghost history: seq<Move>)
    returns (r: Result<Anneal>, next: nat, ghost history': seq<Move>)
    requires 0 <= i < |st.current| && Complete(byPos)
    ensures PackWalk(r, next, history') == AnnealTurnOf(byPos, bench, rule, draws, accept, round, Walk(st, cursor, history), i)
  {
    history' := history;
    var found := NeighbourSearch(byPos, bench, rule, draws, st.current, st.budget, i, cursor);
    AnnealTurnCases(byPos, bench, rule, draws, accept, round, Walk(st, cursor, history), i, found);
    if found.Err? {
      return Err(found.error), cursor, history';
    }
    next := found.value.cursor;
    if found.value.neighbour.None? {
      return Ok(st), next, history';
    }
    var player := st.current[i];
    var candidate := found.value.neighbour.value;
    var possible := st.current[i := candidate];
    var score := EvalSolution(possible);
    var budget' := st.budget + player.price - candidate.price;
    AnnealTurnMoved(byPos, bench, rule, draws, accept, round, Walk(st, cursor, history), i, candidate, next,
                    possible, budget');
    var st' := st;
    if score >= st.currentScore || accept(round, i) {
      st' := st.(current := possible, currentScore := score, budget := budget');
      history' := history + [Move(possible, budget')];
    }
    return Ok(Promote(st')), next, history';
  }

  /** One slot of `AnnealSweep`, unfolded. */
  lemma {:induction false} AnnealStep(byPos: map<Position, seq<Player>>, bench: seq<Player>, rule: IndexRule,
                   draws: nat -> nat, accept: (nat, nat) -> bool, round: nat, x: Walk, i: nat, t: Result<Walk>)
    requires i < 11 <= |x.st.current| && Complete(byPos)
    requires t == AnnealTurnOf(byPos, bench, rule, draws, accept, round, x, i)
    ensures t.Err? ==> AnnealSweep(byPos, bench, rule, draws, accept, round, x, i) == Err(t.error)
    ensures t.Ok? ==> AnnealSweep(byPos, bench, rule, draws, accept, round, x, i)
                      == AnnealSweep(byPos, bench, rule, draws, accept, round, t.value, i + 1)
  {
  }

  /** `AnnealRun` by the outcome of its first temperature step. */
  lemma {:induction false} AnnealRunStep(byPos: map<Position, seq<Player>>, bench: seq<Player>, rule: IndexRule,
                      draws: nat -> nat, accept: (nat, nat) -> bool, round: nat, x: Walk, n: nat, y: Result<Walk>)
    requires 11 <= |x.st.current| && Complete(byPos) && n > 0
    requires y == AnnealSweep(byPos, bench, rule, draws, accept, round, x, 0)
    ensures y.Err? ==> AnnealRun(byPos, bench, rule, draws, accept, round, x, n) == Err(y.error)
    ensures y.Ok? ==> AnnealRun(byPos, bench, rule, draws, accept, round, x, n)
                      == AnnealRun(byPos, bench, rule, draws, accept, round + 1, y.value, n - 1)
  {
  }

  /** The `for i in range(11)` loop of one temperature step: `AnnealSweep` from slot 0. */
  method AnnealRound(byPos: map<Position, seq<Player>>, bench: seq<Player>, rule: IndexRule,
                     draws: nat -> nat, accept: (nat, nat) -> bool, round: nat, st: Anneal,
                     cursor: nat, ghost history: seq<Move>)
    returns (r: Result<Anneal>, next: nat, ghost history': seq<Move>)
    requires |st.current| >= 11 && Complete(byPos)
    ensures PackWalk(r, next, history') == AnnealSweep(byPos, bench, rule, draws, accept, round, Walk(st, cursor, history), 0)
  {
    ghost var target := AnnealSweep(byPos, bench, rule, draws, accept, round, Walk(st, cursor, history), 0);
    var cur := st;
    next, history' := cursor, history;
    for i := 0 to 11
      invariant |cur.current| == |st.current|
      invariant SweepsTo(byPos, bench, rule, draws, accept, round, Walk(cur, next, history'), i, target)
    {
      var slot;
      slot, next, history' := AnnealSweepSlot(byPos, bench, rule, draws, accept, round, cur, i, next, history', target);
      if slot.Err? {
        return slot, next, history';
      }
      cur := slot.value;
    }
    SweepDone(byPos, bench, rule, draws, accept, round, Walk(cur, next, history'), target);
    return Ok(cur), next, history';
  }

  /** A sweep from past the last slot ends where it starts. */
  lemma {:induction false} SweepDone(byPos: map<Position, seq<Player>>, bench: seq<Player>, rule: IndexRule,
                                     draws: nat -> nat, accept: (nat, nat) -> bool, round: nat, x: Walk,
                                     target: Result<Walk>)
    requires 11 <= |x.st.current| && Complete(byPos)
    requires SweepsTo(byPos, bench, rule, draws, accept, round, x, 11, target)
    ensures target == Ok(x)
  {
  }

  /** The sweep from slot `i` of `x` ends in `target`. */
  ghost predicate SweepsTo(byPos: map<Position, seq<Player>>, bench: seq<Player>, rule: IndexRule,
                           draws: nat -> nat, accept: (nat, nat) -> bool, round: nat, x: Walk, i: nat,
                           target: Result<Walk>)
    requires i <= 11 <= |x.st.current| && Complete(byPos)
  {
    AnnealSweep(byPos, bench, rule, draws, accept, round, x, i) == target
  }

  /** Slot `i` as the next slot of a sweep that ends in `target`: the sweep fails as the slot
      fails, or else the sweep from slot `i + 1` of the state after it ends in `target`. */
  method AnnealSweepSlot(byPos: map<Position, seq<Player>>, bench: seq<Player>, rule: IndexRule,
                         draws: nat -> nat, accept: (nat, nat) -> bool, round: nat, st: Anneal, i: nat,
                         cursor: nat, ghost history: seq<Move>, ghost target: Result<Walk>)
    returns (r: Result<Anneal>, next: nat, ghost history': seq<Move>)
    requires i < 11 <= |st.current| && Complete(byPos)
    requires SweepsTo(byPos, bench, rule, draws, accept, round, Walk(st, cursor, history), i, target)
    ensures r.Err? ==> target == Err(r.error)
    ensures r.Ok? ==> |r.value.current| == |st.current|
                      && SweepsTo(byPos, bench, rule, draws, accept, round, Walk(r.value, next, history'), i + 1, target)
  {
    ghost var before := Walk(st, cursor, history);
    r, next, history' := AnnealSlot(byPos, bench, rule, draws, accept, round, st, i, cursor, history);
    AnnealStep(byPos, bench, rule, draws, accept, round, before, i, PackWalk(r, next, history'));
  }

  /** The run of `n` temperature steps from `x`, the first numbered `round`, ends in `target`. */
  ghost predicate AnnealRunsTo(byPos: map<Position, seq<Player>>, bench: seq<Player>, rule: IndexRule,
                               draws: nat -> nat, accept: (nat, nat) -> bool, round: nat, x: Walk, n: nat,
                               target: Result<Walk>)
    requires 11 <= |x.st.current| && Complete(byPos)
  {
    AnnealRun(byPos, bench, rule, draws, accept, round, x, n) == target
  }

  /** One temperature step as the first of `left` steps of a run that ends in `target`: the run
      fails as the step fails, or else the other `left - 1` steps from the state after it end in
      `target`. */
  method AnnealRunRound(byPos: map<Position, seq<Player>>, bench: seq<Player>, rule: IndexRule,
                        draws: nat -> nat, accept: (nat, nat) -> bool, round: nat, st: Anneal,
                        cursor: nat, ghost history: seq<Move>, ghost left: nat, ghost target: Result<Walk>)
    returns (r: Result<Anneal>, next: nat, ghost history': seq<Move>)
    requires |st.current| >= 11 && Complete(byPos) && left > 0
    requires AnnealRunsTo(byPos, bench, rule, draws, accept, round, Walk(st, cursor, history), left, target)
    ensures r.Err? ==> target == Err(r.error)
    ensures r.Ok? ==> |r.value.current| == |st.current|
                      && AnnealRunsTo(byPos, bench, rule, draws, accept, round + 1, Walk(r.value, next, history'), left - 1, target)
  {
    ghost var before := Walk(st, cursor, history);
    r, next, history' := AnnealRound(byPos, bench, rule, draws, accept, round, st, cursor, history);
    AnnealRunStep(byPos, bench, rule, draws, accept, round, before, left, PackWalk(r, next, history'));
  }

  /** The `while t > 0.01` loop, run for `rounds` temperature steps: the run `AnnealRun`. */
  method AnnealRounds(byPos: map<Position, seq<Player>>, bench: seq<Player>, rule: IndexRule,
                      draws: nat -> nat, accept: (nat, nat) -> bool, st: Anneal, rounds: nat)
    returns (r: Result<Anneal>, ghost history: seq<Move>)
    requires |st.current| >= 11 && Complete(byPos)
    ensures var run := AnnealRun(byPos, bench, rule, draws, accept, 0, Walk(st, 0, []), rounds);
      && (r.Ok? <==> run.Ok?) && (r.Err? ==> r.error == run.error)
      && (r.Ok? ==> r.value == run.value.st && history == run.value.history)
  {
    ghost var target := AnnealRun(byPos, bench, rule, draws, accept, 0, Walk(st, 0, []), rounds);
    var cur, cursor := st, 0;
    history := [];
    ghost var left := rounds;
    for round := 0 to rounds
      invariant |cur.current| == |st.current| && left == rounds - round
      invariant AnnealRunsTo(byPos, bench, rule, draws, accept, round, Walk(cur, cursor, history), left, target)
    {
      var next;
      next, cursor, history := AnnealRunRound(byPos, bench, rule, draws, accept, round, cur, cursor, history, left, target);
      if next.Err? {
        return next, history;
      }
      cur := next.value;
      left := left - 1;
    }
    return Ok(cur), history;
  }

  /** What holds of the state after some slots, given the moves accepted so far: both lineups keep
      the start's positions, budget relation and club cap and carry their true scores; the best
      one is the start or an accepted one and scores at least as much as the start, the current
      one and every accepted one; and neither repeats a player if the start did not. */
  ghost predicate Cooling(start: seq<Player>, bench: seq<Player>, budget0: int, pool: set<Player>,
                          history: seq<Move>, st: Anneal) {
    && Keeps(start, bench, budget0, pool, st.current, st.budget) && st.currentScore == Points(st.current)
    && Keeps(start, bench, budget0, pool, st.best, st.bestBudget) && st.bestScore == Points(st.best)
    && Points(start) <= st.bestScore && st.currentScore <= st.bestScore
    && (forall k :: 0 <= k < |history| ==>
          Keeps(start, bench, budget0, pool, history[k].lineup, history[k].budget)
          && Points(history[k].lineup) <= st.bestScore)
    && (st.best == start || exists k :: 0 <= k < |history| && history[k].lineup == st.best)
    && (Distinct(start + bench) ==> Distinct(st.current + bench) && Distinct(st.best + bench))
  }

  /** The states of the walk that satisfy `Cooling`. */
  ghost function Coolings(start: seq<Player>, bench: seq<Player>, budget0: int, pool: set<Player>): iset<Walk> {
    iset w: Walk | Cooling(start, bench, budget0, pool, w.history, w.st)
  }

  lemma {:induction false} CoolingStart(start: seq<Player>, bench: seq<Player>, budget0: int, pool: set<Player>)
    ensures Cooling(start, bench, budget0, pool, AnnealStart(start, budget0).history, AnnealStart(start, budget0).st)
  {
    KeepsStart(start, bench, budget0, pool);
  }

  /** Taking a move to `next`, then `if current_score > best_score`, keeps `Cooling`. */
  lemma {:induction false} CoolingAccept(start: seq<Player>, bench: seq<Player>, budget0: int, pool: set<Player>,
                      history: seq<Move>, st: Anneal, next: seq<Player>, nextBudget: int)
    requires Cooling(start, bench, budget0, pool, history, st)
    requires Keeps(start, bench, budget0, pool, next, nextBudget)
    requires Distinct(st.current + bench) ==> Distinct(next + bench)
    ensures Cooling(start, bench, budget0, pool, history + [Move(next, nextBudget)],
                    Promote(st.(current := next, currentScore := Points(next), budget := nextBudget)))
  {
    var h := history + [Move(next, nextBudget)];
    assert h[|history|].lineup == next;
    forall k | 0 <= k < |history| ensures h[k] == history[k] { }
    var st' := Promote(st.(current := next, currentScore := Points(next), budget := nextBudget));
    if st'.best != st.best {
      assert h[|history|].lineup == st'.best;
    } else if st.best != start {
      var k :| 0 <= k < |history| && history[k].lineup == st.best;
      assert h[k].lineup == st'.best;
    }
  }

  /** A move to a neighbour keeps `Keeps`, and repeats no player if the lineup and bench did not. */
  lemma {:induction false} MoveCools(start: seq<Player>, bench: seq<Player>, budget0: int, ranked: seq<Player>,
                  s: seq<Player>, budget: int, i: int, c: Player)
    requires 0 <= i < |s| && Keeps(start, bench, budget0, Elems(ranked), s, budget)
    requires c in PositionIndex(ranked)[s[i].position] && !InSquad(c, s, bench)
    requires SwapAllowed(s, bench, budget, i, c)
    ensures Keeps(start, bench, budget0, Elems(ranked), s[i := c], budget + s[i].price - c.price)
    ensures Distinct(s + bench) ==> Distinct(s[i := c] + bench)
  {
    IndexOffers(ranked);
    SwapKeeps(start, bench, budget0, Elems(ranked), s, budget, i, c);
    if Distinct(s + bench) {
      SwapDistinct(s, bench, i, c);
    }
  }

  /** A state of the walk that keeps `Cooling`, or an error that a start player from slot `i` on
      missing from the instance, or the as-written rule, explains. */
  ghost predicate Cooled(start: seq<Player>, bench: seq<Player>, budget0: int, ranked: seq<Player>,
                         rule: IndexRule, i: nat, r: Result<Walk>)
    requires 11 <= |start|
  {
    && (r.Err? ==> (r.error == NotInPositionList && exists k :: i <= k < 11 && start[k] !in ranked)
                   || (r.error == LastInPositionList && rule == AsWritten))
    && (r.Ok? ==> r.value in Coolings(start, bench, budget0, Elems(ranked)))
  }

  /** Moving to `next`, taken or not, then updating the best lineup keeps `Cooling`. */
  lemma {:induction false} AfterCooling(start: seq<Player>, bench: seq<Player>, budget0: int, pool: set<Player>,
                     x: Walk, next: seq<Player>, b: int)
    requires Cooling(start, bench, budget0, pool, x.history, x.st)
    requires Keeps(start, bench, budget0, pool, next, b)
    requires Distinct(x.st.current + bench) ==> Distinct(next + bench)
    ensures Cooling(start, bench, budget0, pool, x.history + [Move(next, b)],
                    Promote(x.st.(current := next, currentScore := Points(next), budget := b)))
    ensures Cooling(start, bench, budget0, pool, x.history, Promote(x.st))
  {
    CoolingAccept(start, bench, budget0, pool, x.history, x.st, next, b);
  }

  /** One slot keeps `Cooling`, and fails only on a start player missing from the instance or,
      under the as-written rule, on the last player of a position list. */
  lemma {:induction false} TurnCooling(start: seq<Player>, bench: seq<Player>, budget0: int, ranked: seq<Player>,
                    rule: IndexRule, draws: nat -> nat, accept: (nat, nat) -> bool, round: nat, x: Walk, i: nat)
    requires i < 11 <= |start| && x in Coolings(start, bench, budget0, Elems(ranked))
    ensures Cooled(start, bench, budget0, ranked, rule, i,
                   AnnealTurnOf(PositionIndex(ranked), bench, rule, draws, accept, round, x, i))
  {
    var byPos := PositionIndex(ranked);
    var s := x.st.current;
    var m := AnnealMove(byPos, bench, rule, draws, s, x.st.budget, i, x.cursor);
    AnnealTurnCases(byPos, bench, rule, draws, accept, round, x, i, m);
    if m.Err? && m.error == NotInPositionList {
      IndexMembership(ranked, s[i]);
      assert s[i] !in Elems(ranked);
      assert s[i] == start[i];
    } else if m.Err? {
      assert m.error == LastInPositionList && rule == AsWritten;
    } else if m.value.neighbour.None? {
      assert AnnealTurnOf(byPos, bench, rule, draws, accept, round, x, i) == Ok(Walk(x.st, m.value.cursor, x.history));
    } else {
      var c := m.value.neighbour.value;
      var next := s[i := c];
      var b := x.st.budget + s[i].price - c.price;
      AnnealTurnMoved(byPos, bench, rule, draws, accept, round, x, i, c, m.value.cursor, next, b);
      MoveCools(start, bench, budget0, ranked, s, x.st.budget, i, c);
      AfterCooling(start, bench, budget0, Elems(ranked), x, next, b);
    }
  }

  /** The rest of a round keeps `Cooling`, with the same failures. */
  lemma {:induction false} SweepCooling(start: seq<Player>, bench: seq<Player>, budget0: int, ranked: seq<Player>,
                                        rule: IndexRule, draws: nat -> nat, accept: (nat, nat) -> bool,
                                        round: nat, x: Walk, i: nat)
    requires i <= 11 <= |start| && x in Coolings(start, bench, budget0, Elems(ranked))
    ensures Cooled(start, bench, budget0, ranked, rule, i,
                   AnnealSweep(PositionIndex(ranked), bench, rule, draws, accept, round, x, i))
    decreases 11 - i
  {
    if i < 11 {
      var byPos := PositionIndex(ranked);
      var t := AnnealTurnOf(byPos, bench, rule, draws, accept, round, x, i);
      TurnCooling(start, bench, budget0, ranked, rule, draws, accept, round, x, i);
      AnnealStep(byPos, bench, rule, draws, accept, round, x, i, t);
      if t.Ok? {
        SweepCooling(start, bench, budget0, ranked, rule, draws, accept, round, t.value, i + 1);
        SweepCarry(start, bench, budget0, ranked, rule, i, t,
                   AnnealSweep(byPos, bench, rule, draws, accept, round, t.value, i + 1),
                   AnnealSweep(byPos, bench, rule, draws, accept, round, x, i));
      } else {
        SweepCarry(start, bench, budget0, ranked, rule, i, t, t,
                   AnnealSweep(byPos, bench, rule, draws, accept, round, x, i));
      }
    }
  }

  /** `Cooled` from slot `i` carries over to a sweep `r` that fails as its turn `t` at slot `i`
      fails, or else equals the sweep `rest` from slot `i + 1`. */
  lemma {:induction false} SweepCarry(start: seq<Player>, bench: seq<Player>, budget0: int, ranked: seq<Player>,
                    rule: IndexRule, i: nat, t: Result<Walk>, rest: Result<Walk>, r: Result<Walk>)
    requires 11 <= |start| && Cooled(start, bench, budget0, ranked, rule, i, t)
    requires t.Err? ==> r == Err(t.error)
    requires t.Ok? ==> r == rest && Cooled(start, bench, budget0, ranked, rule, i + 1, rest)
    ensures Cooled(start, bench, budget0, ranked, rule, i, r)
  {
    if t.Ok? && r.Err? && r.error == NotInPositionList {
      var k :| i + 1 <= k < 11 && start[k] !in ranked;
      assert i <= k < 11 && start[k] !in ranked;
    }
  }

  /** The run after the first temperature step, named by its round and its remaining steps. */
  lemma {:induction false} RunArguments(byPos: map<Position, seq<Player>>, bench: seq<Player>, rule: IndexRule,
                     draws: nat -> nat, accept: (nat, nat) -> bool, next: nat, m: nat, round: nat, rest: nat, y: Walk)
    requires 11 <= |y.st.current| && Complete(byPos) && next == round + 1 && m == rest
    ensures AnnealRun(byPos, bench, rule, draws, accept, next, y, m)
            == AnnealRun(byPos, bench, rule, draws, accept, round + 1, y, rest)
  {
  }

  /** `Cooled` carries over to a run `r` that fails as its first temperature step `y` fails, or
      else equals the rest of the run, `rest`. */
  lemma {:induction false} CooledCarry(start: seq<Player>, bench: seq<Player>, budget0: int, ranked: seq<Player>,
                    rule: IndexRule, y: Result<Walk>, rest: Result<Walk>, r: Result<Walk>)
    requires 11 <= |start| && Cooled(start, bench, budget0, ranked, rule, 0, y)
    requires y.Err? ==> r == Err(y.error)
    requires y.Ok? ==> r == rest && Cooled(start, bench, budget0, ranked, rule, 0, rest)
    ensures Cooled(start, bench, budget0, ranked, rule, 0, r)
  {
  }

  /** Every state a run reaches keeps `Cooling`. */
  lemma {:induction false} RunCooling(start: seq<Player>, bench: seq<Player>, budget0: int, ranked: seq<Player>,
                                      rule: IndexRule, draws: nat -> nat, accept: (nat, nat) -> bool,
                                      round: nat, x: Walk, n: nat)
    requires 11 <= |start| && x in Coolings(start, bench, budget0, Elems(ranked))
    ensures Cooled(start, bench, budget0, ranked, rule, 0,
                   AnnealRun(PositionIndex(ranked), bench, rule, draws, accept, round, x, n))
    decreases n
  {
    if n > 0 {
      var byPos := PositionIndex(ranked);
      var y := AnnealSweep(byPos, bench, rule, draws, accept, round, x, 0);
      var next: nat, m: nat := round + 1, n - 1;
      AnnealRunStep(byPos, bench, rule, draws, accept, round, x, n, y);
      SweepCooling(start, bench, budget0, ranked, rule, draws, accept, round, x, 0);
      if y.Ok? {
        RunCooling(start, bench, budget0, ranked, rule, draws, accept, next, y.value, m);
        RunArguments(byPos, bench, rule, draws, accept, next, m, round, n - 1, y.value);
        CooledCarry(start, bench, budget0, ranked, rule, y, AnnealRun(byPos, bench, rule, draws, accept, next, y.value, m),
                    AnnealRun(byPos, bench, rule, draws, accept, round, x, n));
      } else {
        CooledCarry(start, bench, budget0, ranked, rule, y, y, AnnealRun(byPos, bench, rule, draws, accept, round, x, n));
      }
    }
  }

  /** `x` is the last player of its position list and occurs there once, so `list.index` gives the
      last place. */
  ghost predicate LastOfList(ranked: seq<Player>, x: Player) {
    var xs := PositionIndex(ranked)[x.position];
    xs != [] && xs[|xs| - 1] == x && x !in xs[..|xs| - 1]
  }

  /** Under the as-written rule, a start whose first player is the last of its position list fails
      at the first slot of the first temperature step, when `indices.remove(index)` raises. */
  lemma {:induction false} AsWrittenFails(ranked: seq<Player>, starting: seq<Player>, bench: seq<Player>, budget: int,
                       draws: nat -> nat, accept: (nat, nat) -> bool, rounds: nat)
    requires |starting| >= 11 && rounds > 0 && LastOfList(ranked, starting[0])
    ensures AnnealRun(PositionIndex(ranked), bench, AsWritten, draws, accept, 0, AnnealStart(starting, budget), rounds)
            == Err(LastInPositionList)
  {
    var byPos := PositionIndex(ranked);
    var x := AnnealStart(starting, budget);
    var xs := byPos[starting[0].position];
    var found := IndexOf(xs, starting[0]);
    assert xs[|xs| - 1] in xs;
    assert found == Some(|xs| - 1);
    assert CandidateOrder(byPos, AsWritten, draws, starting, 0, 0) == Err(LastInPositionList);
    assert AnnealTurnOf(byPos, bench, AsWritten, draws, accept, 0, x, 0) == Err(LastInPositionList);
    assert AnnealSweep(byPos, bench, AsWritten, draws, accept, 0, x, 0) == Err(LastInPositionList);
  }

  /** `simulated_annealing` over `rounds` temperature steps, with candidate indices under `rule`:
      sorts `instance` by rank in place and returns the best lineup seen. The result is the run
      `AnnealRun` from `AnnealStart`. Under the intended rule it fails only when a start player
      is missing from the instance; as written it also fails on the last player of a position
      list, and does so at once when that is the first start player. The best lineup keeps the
      start's positions, budget relation and club cap, scores at least as much as the start and
      as every accepted lineup, is the start or one of them, and repeats no player if the squad
      did not. */
  method SimulatedAnnealing(instance: array<Player>, starting: seq<Player>, bench: seq<Player>,
                            budget: int, rounds: nat, rule: IndexRule, draws: nat -> nat,
                            accept: (nat, nat) -> bool)
    returns (r: Result<Anneal>, ghost history: seq<Move>)
    requires |starting| >= 11
    modifies instance
    ensures multiset(instance[..]) == old(multiset(instance[..])) && Sorted(instance[..], ByRank)
    ensures var run := AnnealRun(PositionIndex(instance[..]), bench, rule, draws, accept, 0,
                                 AnnealStart(starting, budget), rounds);
      && (r.Ok? <==> run.Ok?) && (r.Err? ==> r.error == run.error)
      && (r.Ok? ==> r.value == run.value.st && history == run.value.history)
    ensures r.Err? ==> r.error == NotInPositionList || (r.error == LastInPositionList && rule == AsWritten)
    ensures rule == Intended && (forall k :: 0 <= k < 11 ==> starting[k] in instance[..]) ==> r.Ok?
    ensures rule == AsWritten && rounds > 0 && LastOfList(instance[..], starting[0]) ==> r == Err(LastInPositionList)
    ensures r.Ok? ==> Keeps(starting, bench, budget, Elems(instance[..]), r.value.best, r.value.bestBudget)
    ensures r.Ok? ==> r.value.bestScore == Points(r.value.best) >= Points(starting)
    ensures r.Ok? ==> forall k :: 0 <= k < |history| ==>
      && Keeps(starting, bench, budget, Elems(instance[..]), history[k].lineup, history[k].budget)
      && Points(history[k].lineup) <= r.value.bestScore
    ensures r.Ok? ==> r.value.best == starting || exists k :: 0 <= k < |history| && history[k].lineup == r.value.best
    ensures r.Ok? && Distinct(starting + bench) ==> Distinct(r.value.best + bench)
  {
    var byPositions := DivideByPositions(instance);
    ghost var ranked := instance[..];
    var currentScore := EvalSolution(starting);
    r, history := AnnealRounds(byPositions, bench, rule, draws, accept,
                               Anneal(starting, currentScore, budget, starting, currentScore, budget), rounds);
    assert instance[..] == ranked;
    CoolingStart(starting, bench, budget, Elems(ranked));
    RunCooling(starting, bench, budget, ranked, rule, draws, accept, 0, AnnealStart(starting, budget), rounds);
    if rule == AsWritten && rounds > 0 && LastOfList(ranked, starting[0]) {
      AsWrittenFails(ranked, starting, bench, budget, draws, accept, rounds);
    }
  }
}
