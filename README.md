# Rostering by tabu search — a Dafny model

This project models the core of a small rostering engine. The engine builds a
rotation of working days and days off over a horizon of `num_days` days. It
then improves the rotation by tabu search under six parameters:
- the longest and shortest allowed run of working days (`max_working`, `min_working`);
- the longest and shortest allowed run of days off (`max_off`, `min_off`);
- the mandatory weekdays off (`days_off`).

What is modelled, module by module:

- **Days** (`days.dfy`): day types and days; the guarded type setter of an immutable day.
- **Runs** (`runs.dfy`): the two day-run utilities.
  - `cons_days_number`: the length of the run a day belongs to.
  - `get_next_available_day`: the first day of another type in a direction, clamped to the horizon.
  - Each is an imperative method proved against a specification function.
- **BlockEncoding** (`blocks.dfy`): blocks, a run of working days followed by a run of days off.
  - `Blocks` is the run-length encoding; `Expand` is its inverse.
  - Both round trips are proved.
- **BlockScan** (`scan.dfy`): the reading loop of `build_blocks`, proved to compute `Blocks`.
- **Scoring** (`scoring.dfy`): the score (penalty, bonus, total), the three penalty terms of `evaluate`, and the strict "better" order used by the search.
- **Moves** (`moves.dfy`): the move operators and `find_neighborhood` stated on values. Four operations:
  - setting one day off in a copy that must pass two checks;
  - the two targets tried for a short run of days off;
  - the four targets tried for a long run of working days;
  - the scan over all days.
- **Model** (`schedule.dfy`): the mutable `Schedule` object.
  - Its constructor, `build_blocks`, `evaluate`, `change_day_type` and the move operators.
  - `find_neighborhood`, which returns new schedule objects.
  - `Valid()` ties a schedule's blocks and score to its days.
  - Each method is proved to build the value-level moves of `Moves`.
- **Validation** (`validation.dfy`): `check_params` as a method, proved equal to a verdict function. The verdict is characterised rule by rule.
- **Tabu** (`tabu.dfy`): the tabu search on rotations as values.
  - The loop variables form a `SearchState`: current rotation, best rotation, tabu list, stagnation counter.
  - `NextRotation` is the move: the first best, by (penalty, total), of the neighbours not in the tabu list; none when every neighbour is tabu.
  - `MoveTo` is the update after a move; `Step` is one pass of the loop body.
  - `Loop` iterates a loop body while `count <= max_iterations`; `Run` is `Loop` with `Step`.
  - `LoopVisited` lists the rotations a loop moves through; `Visited` is `LoopVisited` for `Run`.
- **TabuRuns** (`tabu_runs.dfy`): what a search promises, in two halves.
  - Lemmas about `Loop` hold for any loop body that obeys a few rules (stop rules, moves to neighbours, best replaced only by a strictly better rotation, tabu recording, faults).
  - Lemmas about `Step` show that the search's own body obeys each rule.
  - `SearchFromStart` joins them: a search from an initial rotation fails exactly on the unscannable one-day horizon; otherwise it keeps every promise in `Promises`.
  - The promises: the result is one of the rotations moved through; these form a walk of neighbourhood moves from the initial rotation; none of them beats the result.
  - Each stop reason holds only when its rule fired; there are at most max_iterations + 1 iterations; the tabu list is the window of the latest moves.
- **Search** (`search.dfy`): `find_best_schedule`, the `TabuSearch` class and `perform_tabu_search` over schedule objects.
  - The methods take the loop body as a ghost argument `step`. `IsStep` ties it to `Step`, which keeps the body of `Step` out of the methods' proofs.
  - `NextMove` is proved to make the move `NextRotation` makes; `Advance` the update `MoveTo` makes; `Iterate` one pass of `step`.
  - `Search` is proved to compute `Loop` of `step` from the initial rotation.
  - `PerformTabuSearch` passes the body of `Run` with the bounds (1000, 5000, 10). Its result is therefore that of `Run`, and `SearchFromStart` gives what it promises.

The source's exceptions become values: `Result`/`Outcome` with a `Fault` naming the cause.
- A `TypeError` from the day setter becomes `ImmutableDay`.
- A failed assertion in the run utilities becomes `TypeMismatch`.
- An assertion of `check_params` becomes `InvalidParams(rule)`.
- A failed assertion of `check_params` whose message names a weekday missing from `DAY_NAME` raises KeyError instead. This becomes `UnknownWeekday`.
- `get_next_available_day` on a one-day horizon returns a variable its loop never bound. This becomes `UnboundIndex`.
- `evaluate` on a horizon of no days reads the last of zero blocks. This becomes `EmptyHorizon`.

Behaviours of the code that the model keeps as written, each stated by a lemma:
- `check_params` compares the list of days off as given with the sorted list (`ExampleOrderMatters`).
- Its third rule can never fire (`MinWorkingRuleUnreachable`).
- The generator numbers weekdays `i % 7 + 1`, while `eval_days_off` uses `(i + 1) % 7`. Day 0 is never set off (`WeekdayShift`, `InitialDaysMissNothing`, `DayZeroExempt`).
- The run checked against `max_off` is the run that holds the trigger day, whatever its type (`ExampleFlipFiveRejected`).
- The working-run targets are clamped at the horizon edge (`EdgeClampExample`).
- A neighbour may be listed twice (`ExampleKeepEach`).

## Model

| member | source | states |
|---|---|---|
| Days.SetType | model.py:84-90 | the setter succeeds exactly when the day is mutable or keeps its type; it then sets the type and keeps index and mutability; otherwise it fails with ImmutableDay |
| Days.ImmutableDayKeepsType | model.py:84-90 | an accepted assignment to an immutable day leaves the day unchanged |
| Days.SetOffSucceeds | model.py:219-222 | on a well-formed rotation (immutable days are days off) setting any day OFF never raises |
| Days.FlipOffWellFormed | model.py:219-222 | setting a day OFF keeps the rotation well formed and never adds a working day |
| Runs.RunLengthIsMaximalRun | utils.py:1-31 | the run length around a day spans a maximal run of its type and lies in [1, number of days] |
| Runs.MaximalRunLength | utils.py:1-31 | any maximal run containing the day has exactly that length |
| Runs.ConsDaysNumber | utils.py:1-31 | the two-sided counting loop returns the length of the maximal run holding the day; an explicit type the day lacks fails with TypeMismatch, and only then |
| Runs.NextBoundaryIsFirstDifferent | utils.py:34-58 | the boundary is inside the horizon, every day strictly between has the day's type, and it is the first day of another type or the horizon edge |
| Runs.GetNextAvailableDay | utils.py:34-58 | the scan returns the boundary in the chosen direction; it fails with TypeMismatch on a wrong explicit type and with UnboundIndex exactly on a one-day horizon |
| BlockEncoding.ExpandBlocks | model.py:184-210 | blocks are lossless: expanding the blocks of a type sequence gives it back |
| BlockEncoding.BlocksOfExpand | model.py:184-210 | building blocks from the expansion of well-formed blocks gives the same blocks |
| BlockEncoding.BlocksShape | model.py:184-210 | no block is empty, only the first may lack working days and only the last may lack days off; if day 0 works every block has working days |
| BlockEncoding.FirstBlock | model.py:193-198 | the first block has no working days exactly when day 0 is a day off |
| BlockEncoding.BlocksInjective | model.py:138-141 | two type sequences have equal blocks exactly when they are equal |
| BlockEncoding.BlocksCover | model.py:184-210 | the blocks' lengths add up to the number of days and their working runs to the number of working days |
| BlockScan.BlocksFromIsBlocks | model.py:190-210 | reading blocks from day i onward gives the encoding of the suffix from i |
| BlockScan.BlockStepAdvances | model.py:191-210 | each step of the loop moves forward and lands on the end or on the next block start |
| BlockScan.ReadBlock | model.py:193-206 | one step reads the working run from the block start (none when day 0 is off) and the off run after it (none at the end) |
| BlockScan.ScanBlocks | model.py:184-210 | the whole loop produces exactly the run-length encoding of the days |
| Scoring.FirstBestExtend | utils.py:67-73 | one scan step keeps the first-best position, replacing it exactly when the new score is strictly better |
| Scoring.EvalNumberOfDays | model.py:358-365 | no penalty for the right length, 8 per extra day, 4 per missing day |
| Scoring.PipelineIsDeviationSum | model.py:387-405 | the filter-then-sum pipeline equals the summed distances of each block's runs to their bounds |
| Scoring.DeviationSumZero | model.py:387-405 | the summed distance is zero exactly when every block lies within all four bounds |
| Scoring.ConsecutiveDaysPenalty | model.py:367-407 | the run-length term is 50 times the distances of all blocks but the last plus the last block's excess over the upper bounds; it is never negative and is zero exactly when the run-length rule holds |
| Scoring.MissedDaysOffZero | model.py:409-419 | the count of working days on mandatory weekdays is zero exactly when no such day exists |
| Scoring.ScoreOfMeaning | model.py:347-356 | the penalty is non-negative and zero exactly when the length is right, the run-length rule holds and no mandatory day off is worked; the bonus is the blocks' working total and total is penalty minus working days |
| Scoring.AllWorkingWeek | model.py:367-407 | seven working days under max_working 5 form one block (7, 0), charged 100, with bonus 7 |
| Moves.WorkingTargets | model.py:287-320 | four targets are tried for a long working run; the first two always lie inside the horizon |
| Moves.NewDayOffMeaning | model.py:212-234 | a copy is kept exactly when the run holding the trigger day is at most max_off long and no block but the last is short of min_working; a kept copy differs only in the target day being off |
| Moves.KeepEachFrom | model.py:250-266 | every kept copy is the accepted copy of one of the targets tried |
| Moves.DayMovesFromTrigger | model.py:331-343 | every move added for a day comes from that day's trigger and one of its targets |
| Moves.NeighborhoodFromTriggers | model.py:324-345 | every neighbour comes from a trigger day (an off run shorter than min_off or a working run longer than max_working) and one of its candidate targets |
| Moves.NeighborhoodNext | model.py:330-345 | scanning one more day appends that day's moves, or ends the scan with its fault |
| Moves.NeighborWellFormed | model.py:212-234 | a neighbour of a well-formed rotation is well formed, as long, and has no more working days |
| Moves.DayMovesFault | model.py:331-343 | a day's moves fail exactly on a one-day horizon whose day triggers a move, with UnboundIndex |
| Moves.NeighborhoodFault | model.py:324-345 | the neighbourhood fails exactly when the horizon has one day and that day triggers a move, with UnboundIndex |
| Moves.ExampleTargets | model.py:287-302 | on a week of working days the scans take day 5 as the last and day 1 as the first working day |
| Moves.ExampleFlipFiveRejected | model.py:224-234 | flipping day 5 is rejected because the working run of the trigger exceeds max_off |
| Moves.ExampleFlipOneRejected | model.py:227-234 | flipping day 1 is rejected because the first block has one working day |
| Moves.ExampleFlipThreeKept | model.py:224-232 | flipping day 3 is kept |
| Moves.ExampleWorkingTargets | model.py:287-320 | the targets on a week of working days are 5, 1, 3 and 3 |
| Moves.EdgeClampExample | model.py:268-322 | the working-run operator on a week of working days yields the day-3 copy twice |
| Moves.ExampleKeepEach | model.py:293-320 | trying 5, 1, 3, 3 keeps exactly two copies, both with day 3 off |
| Model.WithDefaultDayOff | model.py:173-175 | weekday 4 is added exactly when min_off > 0 and no day off is given |
| Model.InitialDaysWellFormed | model.py:177-182 | the generated rotation is well formed |
| Model.InitialDaysMissNothing | model.py:177-182 | the generated rotation works no mandatory weekday unless weekday 0 or 1 is mandatory |
| Model.DayZeroExempt | model.py:179 | with weekday 1 mandatory, day 0 stays working and is charged by the scorer |
| Model.Schedule.Generate | model.py:114-133 | the generating constructor appends the default day off to the caller's list, builds the initial rotation and leaves a valid schedule |
| Model.Schedule.WithDays | model.py:126-133 | the constructor with explicit days keeps them and leaves a valid schedule |
| Model.Schedule.Clone | model.py:220 | the copy has the same parameters, days, blocks and score |
| Model.Schedule.Create | model.py:114-133 | empty days generate the rotation; a wrong length fails with LengthMismatch; no day at all fails with EmptyHorizon; otherwise a fresh valid schedule |
| Model.Schedule.EqualsMeansSameRotation | model.py:138-141 | two valid schedules compare equal exactly when their type sequences and all parameters agree |
| Model.Schedule.WorkingDaysNum | model.py:143-148 | the number of working days, at most the number of days and equal to the blocks' working total |
| Model.Schedule.GenerateInitialSchedule | model.py:168-182 | the loop appends the default day off when needed and builds day i off and immutable exactly when i != 0 and weekday i % 7 + 1 is mandatory |
| Model.Schedule.BuildBlocks | model.py:184-210 | the blocks become the run-length encoding of the days |
| Model.Schedule.EvalDaysOff | model.py:409-419 | the loop charges 40 per working day on a mandatory weekday (index + 1) % 7 |
| Model.Schedule.Evaluate | model.py:347-356 | the score is the sum of the three terms with the working-day bonus; over rebuilt blocks it is the rotation's score |
| Model.Schedule.UpdateSchedule | model.py:150-156 | blocks and score are rebuilt from the days |
| Model.Schedule.ChangeDayType | model.py:158-166 | an accepted assignment changes that one day and rebuilds; a refused one fails with ImmutableDay and changes nothing; the schedule stays valid |
| Model.Schedule.CreateScheduleNewDayOff | model.py:212-234 | returns a fresh valid copy with the target off exactly when the value-level move keeps it, and nothing otherwise |
| Model.Schedule.AppendInHorizon | model.py:310-320 | a target outside [0, num_days) is skipped; otherwise its kept copy is appended |
| Model.Schedule.CreateSchedulesNewDaysOff | model.py:236-266 | the schedules built are, in order, the value-level moves for a short off run; a one-day horizon fails with UnboundIndex |
| Model.Schedule.CreateSchedulesNewDaysOffWd | model.py:268-322 | the schedules built are, in order, the value-level moves for a long working run; a one-day horizon fails with UnboundIndex |
| Model.Schedule.TryWorkingTargets | model.py:292-322 | the four tries append, in order, the kept copies of the four working targets |
| Model.Schedule.DayNeighbors | model.py:331-343 | the schedules added for one day are that day's value-level moves, with the same fault |
| Model.Schedule.FindNeighborhood | model.py:324-345 | the schedules returned are valid, fresh and realise the value-level neighbourhood in order; it fails exactly when that does, with the same fault |
| Validation.Sort | model.py:514 | the sorted list is ascending and a permutation of the input |
| Validation.SortSorted | model.py:514 | sorting an ascending list leaves it unchanged |
| Validation.DayName | constants.py:33-42 | a weekday has a name exactly when it lies in 0..7 |
| Validation.AllNamed | model.py:518 | every weekday of the list has a name exactly when all lie in 0..7 |
| Validation.Report | model.py:508-518 | a failed rule whose message names weekdays all in 0..7 fails with that rule; otherwise the lookup fails with UnknownWeekday |
| Validation.MinOf | model.py:508-511 | the minimum is an element and no element is smaller |
| Validation.GapVerdictPass | model.py:513-518 | the gap checks pass exactly when every position passes its gap rule |
| Validation.GapVerdictFirst | model.py:513-518 | a reported position fails its gap rule and every earlier position passes |
| Validation.ParamsVerdictPass | model.py:493-518 | the parameters pass exactly when there are no days off or all four rules hold |
| Validation.MinWorkingRuleUnreachable | model.py:508-511 | the third rule never rejects: the second rule already implies it |
| Validation.ParamsVerdictRejects | model.py:493-518 | every rejection names a parameter rule or an unknown weekday; with all days off in 0..7 it names a rule |
| Validation.GapVerdictShape | model.py:513-518 | the gap loop fails only with GapTooShort or UnknownWeekday, and with every day off in 0..7 only with GapTooShort |
| Validation.ExampleOrderMatters | model.py:513-518 | with min_working 2, days off [3, 5] fail the gap rule at position 0 |
| Validation.ExampleOrderMattersReversed | model.py:513-518 | with min_working 2, days off [5, 3] pass, as the gap rule compares the list as given with the sorted one |
| Validation.ExampleUnknownWeekdayInGap | model.py:513-518 | with min_working 2, days off [3, 5, 8] fail the gap rule, and naming weekday 8 raises KeyError |
| Validation.ExampleUnknownWeekdayFirst | model.py:508-509 | with min_working 0, days off [-1] fail the second rule, and naming weekday -1 raises KeyError |
| Validation.ExampleUnnamedWeekdayPasses | model.py:502-518 | days off [8] with min_working 2 pass: no message is built, so no name is looked up |
| Validation.ExampleTuesdayDayOff | model.py:508-509 | with min_working 2, days off [2, 5] are rejected for lack of room before the first day off |
| Validation.ExampleWeekendDaysOff | model.py:493-518 | with min_working 2, days off [5, 6] pass every rule |
| Validation.CheckParams | model.py:493-518 | the checks, the gap loop included, return exactly the verdict of the rules in the source's order |
| Scoring.FirstBestFrom | utils.py:67-74 | the scan from position i, holding a first-best choice for the prefix, ends at a first-best position of the whole list |
| Scoring.FirstBest | utils.py:61-74 | the position find_best_schedule picks: nothing beats it and every earlier position is strictly worse |
| Tabu.Enqueue | model.py:482-485 | recording a move keeps a list within its capacity within it, and holds only earlier entries and the new one |
| Tabu.TabuWindow | model.py:482-485 | the tabu list is a FIFO window: if it holds the latest moves, at most tabu_size of them, it still does after one more move |
| Tabu.NonTabu | model.py:467 | a rotation is kept exactly when it is a neighbour and no tabu entry has its blocks |
| Tabu.Candidates | model.py:465-467 | the candidates are exactly the neighbours not in the tabu list, each spanning the horizon |
| Tabu.NextRotation | model.py:465-470 | the move fails exactly when the neighbourhood fails; a move goes to a non-tabu neighbour |
| Tabu.NextRotationMeaning | model.py:465-470 | there is no move exactly when every neighbour is tabu; otherwise the move is the first best of the non-tabu neighbours |
| TabuRuns.MoveToRules | model.py:470-485 | after the move, current is the new rotation; best is replaced and the counter reset exactly on a strict improvement, else the counter grows by one; the search converges exactly when the best has no penalty and the counter reached limit_not_improved; otherwise the move is recorded in the tabu list |
| TabuRuns.MoveToBest | model.py:471-475 | the best after a move is the old best or the new rotation, and neither the new rotation nor the old best beats it |
| TabuRuns.StepStops | model.py:469-487 | an iteration converges only with a best without penalty and the counter at the limit, stops for want of moves only when every neighbour is tabu and keeps its state, and never stops for the iteration limit |
| TabuRuns.StepAdjacent | model.py:465-470 | an iteration that moves goes to a neighbour of the current rotation |
| TabuRuns.StepBest | model.py:471-475 | an iteration replaces the best only by a strictly better rotation |
| TabuRuns.StepFault | model.py:465 | an iteration fails exactly on the unscannable one-day horizon, with UnboundIndex, and moves only on two days or more |
| TabuRuns.IterationStops | model.py:469-487 | the loop body of the search obeys the stop rules |
| TabuRuns.IterationAdjacent | model.py:465-470 | the loop body of the search moves to neighbours |
| TabuRuns.IterationBest | model.py:471-475 | the loop body of the search keeps the best rotation best |
| TabuRuns.IterationFault | model.py:465 | the loop body of the search fails exactly on the unscannable horizon |
| TabuRuns.IterationTabu | model.py:479-485 | the loop body of the search records each move in the tabu list, and leaves the list unchanged when it converges |
| TabuRuns.LoopIterations | model.py:456-488 | the loop ends within max_iterations + 1 iterations, in a state spanning the horizon |
| TabuRuns.LoopLimit | model.py:463 | the loop stops at the iteration limit only after max_iterations + 1 iterations |
| TabuRuns.LoopConverged | model.py:479-480 | a converged loop ends with a best without penalty and the counter at limit_not_improved |
| TabuRuns.LoopNoNeighbors | model.py:469-487 | a loop that stops for want of moves ends where every neighbour is tabu |
| TabuRuns.LoopWalkEnd | model.py:463-488 | the rotations moved through end at the loop's last current rotation |
| TabuRuns.LoopWalk | model.py:465-470 | the rotations moved through form a walk of neighbourhood moves |
| TabuRuns.LoopKeepsBest | model.py:471-475 | the best at the start of the loop does not beat the final best |
| TabuRuns.LoopBestVisited | model.py:471-475 | the final best is the starting best or one of the rotations moved through |
| TabuRuns.LoopBestDominates | model.py:471-475 | no rotation moved through beats the final best |
| TabuRuns.LoopTabu | model.py:482-485 | a loop that does not converge ends with the window of the latest rotations it moved to as its tabu list |
| TabuRuns.LoopTabuConverged | model.py:479-485 | a converged loop ends with the window of the rotations it moved to, except the converging one, as its tabu list |
| TabuRuns.LoopFault | model.py:463-465 | the loop fails exactly when it iterates at all on the unscannable horizon, with UnboundIndex |
| TabuRuns.LoopWalkPromised | model.py:456-490 | a finished loop from an initial rotation keeps the walk promises: result on the walk, walk of moves, nothing on it better, initial not better |
| TabuRuns.LoopStopPromised | model.py:463-488 | a finished loop from an initial rotation keeps the stop promises: iteration bound, each stop reason only when its rule fired |
| TabuRuns.LoopTabuOpen | model.py:482-487 | a finished loop that did not converge holds the window of all its moves |
| TabuRuns.LoopTabuClosed | model.py:479-485 | a converged loop holds the window of its moves but the last |
| TabuRuns.LoopTabuPromised | model.py:479-487 | a finished loop from an initial rotation keeps the tabu promises |
| TabuRuns.SearchFromStart | model.py:450-490 | a search from an initial rotation fails exactly when it iterates and the horizon is unscannable, with UnboundIndex; otherwise it keeps all its promises |
| Search.FindBestSchedule | utils.py:61-74 | returns the schedule at the first-best position of the scores: nothing beats it and every earlier one is strictly worse |
| Search.FirstBestStep | utils.py:69-73 | one pass of the scan keeps the choice first best for the prefix read, and the same first best for the whole list |
| Search.NotInTabu | model.py:467 | keeps exactly the neighbours not equal by __eq__ to a tabu entry |
| Search.InTabuMeansTabu | model.py:138-141 | among valid schedules under the same constraints, `in` on the tabu list is equality of blocks with some entry's rotation |
| Search.NotInTabuRealizes | model.py:467 | filtering schedules against the tabu list filters their rotations the same way |
| Search.NextRotationOf | model.py:465-470 | the non-tabu schedules realise the candidates, and the move is the rotation of their first best, none when none is left |
| Search.NextRotationFault | model.py:465 | when the neighbourhood fails, the move fails with the same fault |
| Search.ChosenMove | model.py:467-470 | the move is none when no non-tabu schedule is left, else the rotation of their first best, a valid schedule among the neighbours |
| Search.ChooseMove | model.py:467-470 | the filter and find_best_schedule return the schedule of the move NextRotation makes, none exactly when it makes none |
| Search.NextMove | model.py:465-470 | fails exactly when the neighbourhood fails, with its fault; otherwise returns none or a fresh valid schedule exactly as NextRotation moves |
| Search.DaysOfEnqueue | model.py:482-485 | recording a schedule in the tabu list records its rotation |
| Search.IterationIsStep | model.py:463-488 | the loop body of Run is Step on every state spanning the horizon |
| Search.StepOfMove | model.py:465-487 | a loop body that is Step fails, stops for want of moves, or does MoveTo, as NextRotation fails, returns none, or moves |
| Search.TabuSearch.constructor | model.py:446-448 | the driver keeps its tabu size, iteration bound and stagnation limit |
| Search.TabuSearch.Advance | model.py:470-485 | the new rotation becomes best with the counter reset exactly when strictly better, else the counter grows; it converges exactly when the best has no penalty and the counter reached the limit; otherwise the move enters the tabu list; this is MoveTo |
| Search.TabuSearch.Iterate | model.py:464-487 | one pass raises, halts or continues exactly as the loop body fails, halts or moves, with its fault, reason and new state |
| Search.TabuSearch.Round | model.py:463-488 | one pass from count iterations leaves Loop's outcome from the old state as it is from the new state, or ends it as Loop does |
| Search.TabuSearch.Explore | model.py:463-490 | the loop fails exactly when Loop fails, with its fault; otherwise returns a valid schedule whose rotation is Loop's final best |
| Search.TabuSearch.Search | model.py:450-490 | evaluates the initial schedule and returns exactly the outcome of Loop from the initial rotation: its fault, or a valid schedule with its final best rotation |
| Search.LoopUnfold | model.py:463-488 | Loop and its walk unfolded once: past the limit it stops, otherwise it fails, halts or continues as the body does |
| Search.InitialRotation | model.py:177-182 | the rotation of n days whose day k is the generator's day k |
| Search.PerformTabuSearch | model.py:521-538 | rejected parameters fail with their fault and nothing changes; otherwise the default day off is added; no day gives EmptyHorizon; otherwise the result is Run from the initial rotation with bounds (1000, 5000, 10): it fails exactly on the unscannable one-day horizon, and a result is valid with Run's final best rotation, which keeps every promise of SearchFromStart |

## Left out

- Printing: `__str__` of schedules and scores, the parameter and result prints, and the iteration-count print are I/O and are not modelled.
- main.py and the scenario table in constants.py only drive runs and are not modelled. The assertion messages are reduced to the fault that names the failed rule. Their `DAY_NAME` lookups are kept, because a weekday outside 0..7 turns the failure into a KeyError (`UnknownWeekday`).
- The abstract `Search` base class carries no behaviour and is folded into `TabuSearch`.
- Search.PerformTabuSearch: the source prints the best schedule and returns nothing. The model returns it so that its properties can be stated.
- `copy.deepcopy` is modelled as a value copy (`Clone`). Days are values, so the copy shares nothing mutable with the original.
- Search.TabuSearch.Search: the iteration count is printed by the source and not returned; `Loop` still records it in its result.
- Search.TabuSearch.Search: it is proved against any loop body `step` that `IsStep` ties to `Step`; PerformTabuSearch passes the body of `Run`.
- Model.Schedule.Generate: it requires num_days >= 1. Fewer days fail in `evaluate` in the source, and Model.Schedule.Create returns that case as EmptyHorizon.
- Model.Schedule.WithDays: explicit days are required to be well formed (each index its position, immutable days off), as every rotation the engine builds is.
- Integers are unbounded, as in Python; nothing wraps around.
