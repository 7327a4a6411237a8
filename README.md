# Fantasy-football squad picker: a verified model of its optimisation core

The system picks a fantasy-football squad of 15 players from a catalogue. Each player has an id,
a position (goalkeeper, defender, midfielder, forward), a name, a club, points and a price.

The squad must respect four limits:

- at most 2 goalkeepers, 5 defenders, 5 midfielders and 3 forwards;
- a total budget of 100.0;
- a cap on players from one club;
- a legal starting formation.

Two constructive heuristics build a first squad:

- a random one;
- a greedy one.

Three improvement heuristics then swap starting players for players of the same position:

- local search;
- tabu search;
- simulated annealing.

This model states, in Dafny, what each of these operations does. It proves what they keep:

- the position of each of the eleven slots;
- the money balance (spent plus left equals what it was);
- a budget that is never overspent;
- the club cap;
- the absence of duplicates;
- the formation.

It also pins down what each step does, so that the proofs are about the program's own moves:

- The random heuristic adds an admissible player that fits and otherwise evicts the most expensive
  drafted one. Its run is a trail of such steps over the shuffled pool, and it succeeds exactly
  when that trail reaches 15 players; the squad is then the trail's last draft and meets the
  quotas, the budget and the club cap.
- The greedy heuristic benches the cheapest players its first-phase test admits, then scans the
  rest by rank, evicting at most once per candidate. Every outcome after the bench is tied to that
  trail of steps, and the split succeeds exactly when the last draft holds two goalkeepers and a
  forward. Its squad keeps the quotas, the club cap and the money balance; the code does not keep
  it within the budget, and neither does the model.
- Local search stops at a local optimum with at least the points it started with.
- Tabu search takes, slot by slot, the first candidate of the price window that passes the swap
  test and is not tabu. It never moves to a remembered lineup, and it tracks its best lineup.
- Annealing takes the first shuffled candidate before any squad member that passes the swap test.
  It always accepts a move that does not lose points, and its best lineup is the start or an
  accepted one. The candidate window is modelled both as the code writes it (which raises for the
  last player of a position list) and as evidently intended.

## Modules

- `players.dfy` (`Players`): the player record and the position quotas. Prices are counted in
  tenths, so `MaxBudget` is 1000, which is 100.0. Also the specification functions: points,
  prices, club and position counts, and filtering by position.
- `sorting.dfy` (`Sorting`): the three orders the code sorts by.
  - Price ascending, price descending, and `points_price_sort` reversed (most points first,
    then cheapest first).
  - An in-place sort of an array.
  - Sorting a set into a list.
  - Fisher-Yates `random.shuffle` driven by a draw oracle.
- `util.py` → `util.dfy` (`Util`): `eval_solution`, `check_club_constraint`,
  `divide_by_positions` and `select_starting_11`.
- `lists.dfy` (`Lists`): `list.index`, `list.remove`, `range` and the `[-3:]` slice.
- `construct.dfy` (`Construct`): `random_search` and `greedy_search`.
- `moves.dfy` (`Moves`): the swap test the three improvement heuristics share, and what a chain
  of swaps keeps.
- `local.dfy` (`Local`): `local_search`.
- `tabu.dfy` (`Tabu`): `is_tabu`, the bounded tabu list, and `tabu_search`.
- `annealing.dfy` (`Annealing`): `simulated_annealing`.

Randomness comes in as parameters:

- `draws: nat -> nat` drives every shuffle (swap index `draws(k) % (i + 1)`, as in Python's
  algorithm);
- `accept(round, slot)` stands for `random.random() < exp(-dt / t)`.

Where the source mutates its arguments in place, the model uses arrays:

- sorting the instance in `divide_by_positions` and `greedy_search`;
- the shuffle in `random_search`;
- `local_search` writing into `starting_11`.

`tabu_search` and `simulated_annealing` work on copies, so they take sequences. The tabu list is
a class whose `entries` field is updated in place, like the `deque(maxlen=tenure)` it models.

`simulated_annealing` takes a `rule`: `AsWritten` builds the candidate indices as the code does,
and `Intended` builds the window the code evidently means (see "## Findings").

## Model

| member | source | states |
|---|---|---|
| Sorting.BeforeMeaning | src/util.py:73-80 | Sorting by `points_price_sort` in reverse puts more points first and, among equal points, the cheaper player first. The two price orders are plain `<=` / `>=` on price. |
| Sorting.BeforeTransitive | src/util.py:73-80 | The reversed `points_price_sort` order is transitive. With `BeforeTotal` this makes it a total preorder, so sorting by it is well defined. |
| Sorting.SortInPlace | src/util.py:106 | `list.sort` in place: afterwards the array is sorted by the key and is a permutation of what it held. |
| Sorting.SortSet | src/search.py:37-38 | `list(set)` then sort: the result holds exactly the set's members, each once, in key order. |
| Sorting.Shuffle | src/search.py:27 | `random.shuffle` in place: the array becomes `FisherYates` of what it held, where each place from the last down to 1 is exchanged with the place `draws(k) % (i + 1)`. The result is a permutation, and one draw is used per place. |
| Sorting.FisherYatesPermutes | src/search.py:27 | Every Fisher-Yates shuffle is a permutation of its input, whatever the draws. |
| Util.EvalSolution | src/util.py:60-70 | The loop's sum is the total points of the list. |
| Util.CheckClubConstraint | src/util.py:83-96 | True exactly when at most 2 listed players are from the club. |
| Util.CheckClubConstraintOnSet | src/search.py:33-34 | The same test applied to the set of drafted players. True exactly when at most 2 of them are from the club. |
| Util.OfPositionSorted | src/util.py:106-110 | Filtering a sorted list by position keeps it sorted, so each position list is in rank order. |
| Util.DivideByPositions | src/util.py:99-112 | Sorts the instance by rank, in place, as a permutation. Returns one list per position, each sorted by rank. Each list is a permutation of the original players of that position. Each holds only players of that position from the instance. |
| Util.SelectStarting11 | src/util.py:115-148 | Fails exactly when there are fewer than 2 goalkeepers (`goalkeepers[1]`) or no forward (`[...][0]`), with that reason. The best goalkeeper, the best forward and the best (up to) 3 defenders start, and the second goalkeeper is benched. The rest, in rank order, fill six starting places and then the bench. No player appears twice. Only squad players are used, and with exactly two goalkeepers all of them are. |
| Util.SplitFacts | src/util.py:139-146 | For a squad at full quotas, the eleven picked this way has a legal formation and the bench 4 players. |
| Lists.IndexOf | src/search.py:180 | `list.index`: present exactly when the element is in the list, at its first occurrence. |
| Lists.RemoveFirst | src/search.py:184 | `list.remove`: succeeds exactly when the element is present. It removes one occurrence: length minus one, multiset minus that element. |
| Lists.RemoveFirstAt | src/search.py:184 | The occurrence removed is the first one, and the rest keep their order: the result is the list before it followed by the list after it. |
| Lists.LastN | src/search.py:133 | For a positive `n`, `[-n:]` is the last `min(n, len)` entries of the list; the code takes `[-3:]`. |
| Construct.MostExpensive | src/search.py:37-39 | The first of the drafted set sorted by price descending. Fails exactly on an empty set; otherwise it is a drafted player no cheaper than any other. |
| Construct.TallyAdd | src/search.py:43-46 | Adding a player whose quota and club allow it keeps the counters, the club cap (3 after the add) and the budget balance in step with the drafted set. |
| Construct.TallyRemove | src/search.py:39-42 | Evicting a drafted player keeps the counters and the budget balance, and never raises a club count. |
| Construct.TallySize | src/search.py:14 | The position quotas sum to 15, so a consistent draft has at most 15 players, and with exactly 15 every quota is full. |
| Construct.AdmissibleTest | src/search.py:33-34 | The three conditions on the counters are exactly admissibility: not drafted, quota not full, at most 2 from the club. |
| Construct.RandomMove | src/search.py:33-46 | One candidate of the scan: an inadmissible one leaves the draft alone; an admissible one that fits is added and charged; otherwise a most expensive drafted player is evicted and refunded. The drafted set changes exactly when the candidate is admissible. |
| Construct.RandomStep | src/search.py:33-46 | The step is exactly `RandomMove`. An inadmissible player leaves the draft alone. An admissible one that fits is added and charged. One that does not fit is not added, and a most expensive drafted player is evicted and refunded. It fails exactly when that eviction finds nothing drafted, which needs a price above 100.0. The tally and a non-negative budget are kept. |
| Construct.PassesAt | src/search.py:29-30 | In the candidates of `n` passes over the pool, candidate `k` of pass `m` is the pool's entry `k`. |
| Construct.RandomPass | src/search.py:29-46 | One pass of the `for player in players` loop carries the drafting state on: the bookkeeping and a trail one `RandomMove` per candidate, ending at the new draft, through the whole pass unless 15 are drafted. It fails only at an empty draft facing an admissible candidate dearer than the budget. |
| Construct.RandomDraft | src/search.py:24-46 | The ghost trail starts at the empty draft and takes one `RandomMove` step per candidate of `Passes(players, rounds)` while fewer than 15 are drafted. The draft is Ok exactly when the trail ends with 15, and is then that last draft: 15 catalogue players at full quotas, within budget and the club cap. `RoundsExhausted` is the trail running through all `rounds` passes with fewer than 15. `EmptyEviction` is the trail reaching an empty draft whose next candidate is admissible and dearer than the budget, so some player costs more than 100.0. |
| Construct.LineupOfDraft | src/search.py:48 | Listing a consistent draft gives the money balance against 100.0, the club cap of 3, the quotas and at most 15 players. |
| Construct.RandomSearch | src/search.py:17-50 | Shuffles the catalogue in place by `FisherYates` with the draws, a permutation, and drafts from it with `RandomDraft`'s trail. It succeeds exactly when that trail ends with 15. The result is then exactly the last draft of the trail, split into 11 starters in a legal formation and 4 substitutes: 15 different catalogue players at full quotas, at most 3 per club, with spent plus left equal to 100.0 and nothing overspent. The failures are `RandomDraft`'s, under the same conditions. |
| Construct.BenchRoom | src/search.py:78-82 | While fewer than three outfield substitutes are drafted, their position quota still has room. |
| Construct.BenchTest | src/search.py:71-82 | The first-phase test on the counters is exactly `BenchTakes`: the club test, then a goalkeeper only if none is drafted, an outfield player only while fewer than three outfield players are drafted. |
| Construct.EmptyDraft | src/search.py:24-26 | The start of random_search: nothing drafted, every position counter 0, the whole budget. |
| Construct.BenchScan | src/search.py:67-82 | The first phase's scan of the price-ordered pool, taking each candidate by `BenchAdd` until four are drafted. It never drafts more than four, and only players of the pool. |
| Construct.BenchStep | src/search.py:71-82 | One visit of the first phase yields exactly `BenchAdd`: the player is taken when `BenchTakes` holds and nothing changes otherwise. The bench stays in tally, with at most one goalkeeper and three outfield players. |
| Construct.GreedyBench | src/search.py:64-82 | The one price-ordered scan `BenchScan` benches at most four. The step is Ok exactly when it benches four, and then the draft is that bench: in tally, one goalkeeper, from the catalogue. Otherwise it reports `BenchIncomplete`. |
| Construct.BenchCheapest | src/search.py:56-82 | The bench is the cheapest the test allows: a catalogue player left out while a dearer one was benched is refused by the test against the final bench. |
| Construct.FillMove | src/search.py:89-103 | One candidate of the second phase: as `RandomMove`, except that after the eviction the candidate is added when the refund makes it fit. The drafted set changes exactly when the candidate is admissible. |
| Construct.FillStep | src/search.py:88-103 | The step is exactly `FillMove`. An inadmissible player leaves the draft alone. One that fits is added. Otherwise a most expensive drafted player is evicted, at most once, and the candidate is added exactly when it then fits. It fails exactly as `RandomStep` does. The tally is kept, and the budget stays above the floor. |
| Construct.FillMoveDraws | src/search.py:88-103 | A second-phase step only ever holds players that were drafted or the candidate. |
| Construct.GreedyFill | src/search.py:85-103 | The ghost trail of drafts starts at the bench, and each step is `FillMove` on the next ranked player while fewer than 15 are drafted. On success it is a whole `FillRun`, ending at the result: the pool ends or 15 are drafted. The tally is kept, the budget ends at least at `min(0, start)`, and every player comes from the bench or the pool. It fails exactly where the trail reaches an empty draft whose next candidate is admissible and dearer than the budget, which takes a price above 100.0. |
| Construct.SplitDraft | src/search.py:105 | `select_starting_11` on a draft succeeds exactly when it holds two goalkeepers and a forward, and otherwise fails with `MissingGoalkeeper` for too few goalkeepers, else `MissingForward`. On success it lists exactly the drafted players once each, within the quotas and the club cap, with the budget balance. |
| Construct.GreedySearch | src/search.py:53-107 | Sorts the catalogue in place, as a permutation: by price, then by rank once the bench is complete. `BenchIncomplete` occurs exactly when the price-ordered scan benches fewer than four. Otherwise the ghost trail starts at that bench and steps by `FillMove` over the ranked catalogue. `EmptyEviction` is the trail reaching an empty draft facing an admissible candidate dearer than the budget. In every other case the trail is a whole `FillRun`, and the result is Ok exactly when its last draft has two goalkeepers and a forward, failing otherwise as `select_starting_11` does. A result lists exactly that last draft: no duplicates, at most 15 catalogue players, the quotas, the club cap of 3, and spent plus left equal to 100.0. |
| Moves.SwapKeeps | src/search.py:137-143 | A swap that passes the budget and club test keeps every slot's position, the money balance and the club cap. It leaves the budget non-negative and changes the points by the players' difference. |
| Moves.SwapDistinct | src/search.py:135-136 | A swap that brings in a player from neither the lineup nor the bench keeps the squad free of duplicates. |
| Moves.KeepsFormation | src/search.py:137-143 | Swaps never change the formation or the squad's position counts. |
| Moves.KeepsPointsBound | src/search.py:127-143 | A lineup reached by swaps scores at most eleven times the best player's points, so `while improved` ends. |
| Moves.IndexMembership | src/search.py:180 | A player is in its position list exactly when it is in the instance. |
| Moves.IndexOffers | src/util.py:107-112 | Every player in a position list is an instance player of that position. |
| Moves.Neighbourhood | src/search.py:181-182 | The window bounds: three either side of the incumbent, clamped to the list. |
| Local.Better | src/search.py:133 | The comprehension keeps exactly the players with more points than the incumbent. |
| Local.BetterSorted | src/search.py:133 | The comprehension keeps the rank order. |
| Local.Alternatives | src/search.py:133 | `[-3:]`: at most three improvers, all from the position list. |
| Local.AlternativesRanked | src/search.py:132-133 | The three tried are the improvers ranked last, i.e. the smallest improvement: every other improver ranks before each of them. |
| Local.SettledMeaning | src/search.py:134-143 | A slot whose alternatives include an eligible one is not settled, and one where none is eligible is. |
| Local.ImproveKeeps | src/search.py:137-142 | Bringing in an eligible improver keeps the swap invariant and the absence of duplicates, and strictly raises the points. |
| Local.ImproveSlot | src/search.py:131-143 | Moves exactly when the slot is not settled. Then slot `i` alone changes, to the first eligible alternative, with the budget changed by the price difference (`ImprovedBy`). That keeps the invariant and the absence of duplicates and raises the points. Otherwise the lineup and the budget stay as they were. |
| Local.Pass | src/search.py:128-143 | One pass: more points, or an unchanged lineup that is a local optimum. A pass over a lineup that already is a local optimum moves no slot. |
| Local.ImproveAll | src/search.py:127-143 | The `while improved` loop ends at a local optimum, keeps the invariant and the absence of duplicates, and leaves the lineup as it was or with strictly more points. A start that already is a local optimum comes back unchanged, with the same budget, after one pass. |
| Local.LocalSearch | src/search.py:110-146 | Ends with each slot's position kept, the money balance, the club cap and no new duplicates. The lineup is the start or has strictly more points, and no slot has a candidate it would still accept. A start that already is a local optimum is returned unchanged, with the same budget. |
| Tabu.Window | src/search.py:169 | `deque(maxlen=n)` holds the last `min(len, n)` entries. |
| Tabu.WindowAppend | src/search.py:195 | Appending to a bounded deque equals bounding the full history: the list is always the last `tenure` entries. |
| Tabu.TabuList.constructor | src/search.py:169 | An empty tabu list of capacity `tenure`. |
| Tabu.TabuList.Append | src/search.py:173 | Appending drops the oldest entry on overflow: the entries are the window of the old ones plus the new one. |
| Tabu.IsTabu | src/search.py:149-153 | True exactly when some entry holds every member of the solution. |
| Tabu.DuplicateIsTabu | src/search.py:190-193 | A swap that puts a lineup player into a second slot gives a lineup whose players are all in the old one, so it is tabu against it. |
| Tabu.TabuDistinct | src/search.py:190-196 | A lineup accepted from a remembered duplicate-free lineup is duplicate-free. |
| Tabu.TabuCandidates | src/search.py:180-184 | The slice of the window around the incumbent, less the incumbent. It has the window's length minus one, all entries from the position list. When the incumbent is unrepeated before its place (as `list.index` ensures), it is exactly the slice before the incumbent followed by the slice after it, in order. |
| Tabu.CandidatesWindow | src/search.py:183-184 | `remove` on the window slice always succeeds, and gives that slice less the first copy of the incumbent. |
| Tabu.FirstPassing | src/search.py:186-205 | The first candidate, from a place on, that passes the budget and club test and whose lineup is not tabu. None means no candidate passes. |
| Tabu.FirstAllowed | src/search.py:186-193 | The inner loop stops at exactly `FirstPassing`. |
| Tabu.TabuMoveFound | src/search.py:180-198 | Once the incumbent is found, the slot's move is the first passing candidate of `TabuCandidates`, or `Stay` when none passes. |
| Tabu.TabuMoveTakes | src/search.py:186-198 | A move brings in a player of the position list that passes both tests, and changes the budget by the price difference. |
| Tabu.TabuMove | src/search.py:178-205 | One slot's move: it fails exactly when the incumbent is not in its position list; a move keeps the lineup length (with `TabuMoveFound`, it is the first passing candidate, or a stay). |
| Tabu.TabuSlot | src/search.py:177-205 | Returns exactly `TabuMove`. It fails exactly when the incumbent is not in its position list (`index` raises). Otherwise it moves to the first candidate that passes the budget and club test and is not tabu, or stays when none does. The tabu list gets the new lineup appended exactly when it moves. |
| Tabu.Accept | src/search.py:194-203 | The accepted lineup and budget become current. The best changes, to the new lineup and its score, only when the score beats the best score; otherwise both stay. |
| Tabu.TurnNotTabu | src/search.py:193-195 | A slot that changes the state moves one player of the incumbent's list into that slot, and the new lineup was not tabu against the list before the append. |
| Tabu.TabuTurnOf | src/search.py:176-205 | One slot of an iteration: the state stays, or exactly the accepted lineup and budget are appended to the history, the trail and the tabu window. |
| Tabu.TabuTurn | src/search.py:176-205 | The result, the new tabu list, trail and history are exactly `TabuTurnOf`. The state stays on `Stay`; otherwise exactly one more accepted move is recorded in the history, the trail and the window. |
| Tabu.TabuSweep | src/search.py:176-205 | The `for i in range(11)` loop from slot `i`, one `TabuTurnOf` a slot, stopping at the first error; the lineup length is kept. |
| Tabu.TabuRound | src/search.py:176-205 | The eleven slots of a round are exactly `TabuSweep`, stopping at the first error. |
| Tabu.TabuRunRound | src/search.py:175-205 | One round of the run carries the run's outcome: an error is the run's error, and a state runs on to the same end in one round fewer. |
| Tabu.TabuRun | src/search.py:175-205 | `n` iterations of the `for iteration in range(400)` loop, one `TabuSweep` each, stopping at the first error; the lineup length is kept. |
| Tabu.TabuRounds | src/search.py:175-205 | The round loop is exactly `TabuRun`: outcome, tabu list, trail and history. |
| Tabu.SearchStart | src/search.py:168-173 | The start (no best, score 0, the start remembered) satisfies the search invariant. |
| Tabu.AfterSearching | src/search.py:193-203 | An accepted lineup that keeps the swap invariant, and stays duplicate-free when the current one was, keeps the search invariant. |
| Tabu.MovedSearching | src/search.py:186-203 | The move to a passing candidate of the position list keeps the search invariant. |
| Tabu.TurnSearching | src/search.py:176-205 | One slot from an invariant state keeps the invariant, or fails because that slot's starter is missing. |
| Tabu.SweepSearching | src/search.py:176-205 | A sweep from slot `i` keeps the invariant, or fails because a starter from slot `i` on is missing. |
| Tabu.RunSearching | src/search.py:175-205 | Any number of rounds keeps the invariant, or fails because a starter is missing. |
| Tabu.TabuSearch | src/search.py:156-208 | Sorts the instance in place, as a permutation. Its outcome and history are exactly those of `TabuRun` over 400 rounds from the start. It fails only when a starter is not in the instance, and never when all are. The last accepted lineup is returned and keeps the swap invariant. The best score bounds every accepted lineup, and is 0 with no best or that best's points. Within the eleven there are no duplicates when tenure > 0. |
| Annealing.InRange | src/search.py:244 | `range(lo, hi)` holds exactly the integers from `lo` up to but not including `hi`. |
| Annealing.RangeRemove | src/search.py:244-245 | Removing a member of a range leaves the range with a gap at that point. |
| Annealing.AnnealIndicesAsWritten | src/search.py:241-245 | The index list as the code builds it. It raises exactly when the incumbent is last in its position list, and otherwise holds the indices in the list, below `len - 1`, from three before the incumbent to two after it, without the incumbent. |
| Annealing.AsWrittenRemoves | src/search.py:242-245 | That list is `list(range(min_idx, max_idx)).remove(index)` with the window bounds, raising where `remove` does. |
| Annealing.LonePlayerFails | src/search.py:244-245 | A position list holding only the incumbent raises. |
| Annealing.AnnealIndices | src/search.py:241-245 | The corrected window: exactly the indices within three of the incumbent, in the list, other than the incumbent, ascending. |
| Annealing.IntendedRemoves | src/search.py:242-245 | The corrected window is `list(range(min_idx, max_idx + 1)).remove(index)`, which always succeeds. |
| Annealing.SlotIndices | src/search.py:241-245 | Under `AsWritten`, the code's list, which raises exactly for the last player of a list. Under `Intended`, the corrected window. Every index is in the list and is not the incumbent. |
| Annealing.ShuffleKeeps | src/search.py:246 | The shuffle only reorders: indices in the list and not the incumbent stay so. |
| Annealing.ShuffledIndices | src/search.py:244-246 | The indices of `SlotIndices` under the rule, shuffled (`ShuffleOf`, a permutation by `FisherYatesPermutes`). It fails exactly when they fail, and advances the draws by the length less one. |
| Annealing.CandidateOrder | src/search.py:241-246 | Fails with `NotInPositionList` exactly when the incumbent is missing, and otherwise only for the as-written raise. The shuffled indices are all in the list. |
| Annealing.CandidateOrderFound | src/search.py:241-246 | Once the incumbent is found, the candidate order is the shuffle of `SlotIndices`, or its error. |
| Annealing.OrderCandidates | src/search.py:241-246 | `index`, the window and `shuffle` compute exactly `CandidateOrder`. |
| Annealing.FirstNeighbour | src/search.py:248-256 | A neighbour is the first shuffled candidate that passes the swap test, with no squad member at or before it. None means every candidate before the first squad member failed the test. |
| Annealing.FindNeighbour | src/search.py:248-256 | The `for idx in indices` loop returns exactly the candidate `FirstNeighbour` picks, or none. |
| Annealing.AnnealMove | src/search.py:239-258 | A neighbour comes from the incumbent's position list, is in neither the lineup nor the bench, and passes the swap test. Errors are exactly the missing incumbent or the as-written raise. |
| Annealing.NeighbourSearch | src/search.py:239-258 | The neighbour search of a slot computes exactly `AnnealMove`. |
| Annealing.Promote | src/search.py:280-282 | The best changes, to the current lineup, its score and budget, only when the current score beats the best score; otherwise nothing changes. |
| Annealing.AnnealTurnOf | src/search.py:237-282 | One slot either keeps the lineup and budget with an unchanged history, or records exactly the accepted move in the history. |
| Annealing.AnnealTurnCases | src/search.py:239-258 | An error of the neighbour search is the slot's error. With no neighbour (`continue`), the state and history stay as they were and only the draw cursor moves on. |
| Annealing.AnnealTurnMoved | src/search.py:260-282 | For a found neighbour, a lineup scoring at least the current score, or an accepting draw, is always taken and recorded, then promoted. Otherwise the state is only promoted. |
| Annealing.AnnealSlot | src/search.py:239-282 | One slot computes exactly `AnnealTurnOf`: state, draw cursor and history. |
| Annealing.AnnealSweepSlot | src/search.py:237-282 | One slot of a round carries the round's outcome: an error is the round's error, and a state sweeps on to the same end from the next slot. |
| Annealing.AnnealSweep | src/search.py:237-282 | The `for i in range(11)` loop from slot `i`, one `AnnealTurnOf` a slot, stopping at the first error; the lineup length is kept. |
| Annealing.AnnealRound | src/search.py:237-283 | The eleven slots of a round compute exactly `AnnealSweep`, stopping at the first error. |
| Annealing.AnnealRunRound | src/search.py:234-284 | One temperature step carries the run's outcome: an error is the run's error, and a state runs on to the same end in one step fewer. |
| Annealing.AnnealRun | src/search.py:234-284 | `n` steps of the `while t > 0.01` loop, one `AnnealSweep` each, stopping at the first error; the lineup length is kept. |
| Annealing.AnnealRounds | src/search.py:234-284 | The temperature loop computes exactly `AnnealRun`: state and history. |
| Annealing.CoolingStart | src/search.py:227-230 | The start state (current = best = the start, with its own score) satisfies the annealing invariant. |
| Annealing.CoolingAccept | src/search.py:272-282 | Accepting a kept lineup, then promoting it to best if it scores more, preserves the invariant. |
| Annealing.MoveCools | src/search.py:249-256 | A neighbour from the position list, outside the squad and passing the swap test, keeps the swap invariant and the absence of duplicates. |
| Annealing.TurnCooling | src/search.py:237-282 | One slot from an invariant state keeps the invariant, or fails because a starter from that slot on is missing or, as written, with the last-in-list raise. |
| Annealing.SweepCooling | src/search.py:237-283 | A round from slot `i` keeps the invariant or fails for a starter from slot `i` on. |
| Annealing.RunCooling | src/search.py:234-284 | Any number of temperature steps keeps the invariant or fails for a starter. |
| Annealing.AsWrittenFails | src/search.py:241-245 | As written, a start whose first player is the last of its position list makes the whole run fail with the `remove` raise. |
| Annealing.SimulatedAnnealing | src/search.py:211-287 | Sorts the instance in place, as a permutation. Its outcome and history are exactly those of `AnnealRun` from the start. It fails only for a starter missing from the instance or, as written, last in its list. With the intended window and all starters present it succeeds, and as written it fails when the first starter is last in its list. The best lineup keeps the swap invariant and scores its stated score. That is at least the start's and at least every accepted lineup's. The best is the start or an accepted lineup, and is duplicate-free with the bench if the start was. |

## Left out

- File I/O: `parse_instance_csv`, `solution_to_string` and every write to `outfile` (I/O). `src/validator.py` and the `__main__` driver are not part of this model.
- Tabu.TabuSearch: when no accepted lineup ever scores above 0, `best_solution` stays `None`, and the write at search.py:207 raises `TypeError`. The model leaves out the write and returns Ok with no best.
- Construct.GreedySearch: with fewer than 15 players drafted, the write at search.py:106 raises `IndexError`, because `solution_to_string` (util.py:35-57) reads `starting_11[10]` and `bench[3]`. The model leaves out the write and returns the shorter squad.
- Floating point:
  - Prices are integers in tenths, so `round(budget, 1)` at search.py:278 has nothing to do. Prices with more than one decimal are not modelled.
  - The temperature loop `while t > 0.01` with `t = 0.99 * t` becomes a `rounds` count. The number of rounds that `t0` gives is not computed.
  - The Metropolis test `random.random() < exp(-dt / t)` becomes the oracle `accept(round, slot)`.
  - A lineup scoring at least the current one is always accepted, because `exp(0)` is 1.
- The Python random stream: shuffles and acceptance draws are oracle parameters. Python's `randbelow` is modelled as `draws(k) % (i + 1)`.
- Construct.RandomDraft: the `while len(selected_15) < 15` loop can run for ever on a poor catalogue. The model bounds it by `rounds` full scans and reports `RoundsExhausted` exactly when the trail has gone through all of them with fewer than 15 drafted.
- Construct.GreedyBench: only the first scan of the `while len(selected_15) < 4` loop is modelled.
  - A second scan would re-add drafted players: the test at lines 72-82 does not check membership.
  - Such a re-add charges the budget twice, and if fewer than four players ever pass the test the loop never ends.
  - The model reports `BenchIncomplete` instead.
  - It requires a catalogue without duplicate records.
- Construct.GreedySearch: the first phase ignores the budget, so the model does not promise a non-negative budget or 15 players. The code does not ensure either.
- Sorting.SortInPlace: stability is not stated. Ties in the key may come out in any order, so equal-key players may be ranked differently from Python's stable sort.
- Util.CheckClubConstraint: the test is "at most 2 before adding", so squads reach 3 per club. The docstring says the cap is 2. The model follows the code and uses a cap of 3 throughout.
- Tabu.TabuSearch:
  - The code has no `candidate in bench` test, so a bench player can be swapped into the eleven. The model therefore promises no duplicates within the eleven (tenure > 0), not across eleven and bench.
  - With tenure 0 nothing is remembered, and even that is not promised.
  - The code returns the last accepted lineup and only writes the best one to a file. The model returns both.
- Local.LocalSearch returns the final budget, which the code keeps local. Annealing.SimulatedAnnealing likewise returns its state, including the budget that goes with the best lineup.

## Findings

| source | as written | input that shows it | evidently intended | confidence | as-written member | corrected member |
|---|---|---|---|---|---|---|
| src/search.py:244-245 | `list(range(min_idx, max_idx))` excludes `max_idx`. When the incumbent is last in its position list, `max_idx == index`, so `indices.remove(index)` raises `ValueError`. The window is also one short on the right. | Any starter ranked last in their position list, e.g. an instance with a single goalkeeper (`index = 0`, list length 1), as `Annealing.LonePlayerFails` states; `Annealing.AsWrittenFails` shows the whole annealing fails on such a start. | The inclusive window `min_idx..max_idx` minus the incumbent, as `tabu_search` builds at line 183. `Annealing.SimulatedAnnealing` under the rule `Intended` runs it. | not executed | Annealing.AnnealIndicesAsWritten | Annealing.AnnealIndices |
