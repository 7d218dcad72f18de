# EDBOGenerator round ledger in Dafny

EDBOGenerator drives a Bayesian reaction-optimisation campaign through numbered
*rounds*. Each round is a CSV table of candidate experiments: one column per component,
one column per objective, and an integer `priority`. The rows with priority 1 form the
*batch* to run next. This project models the generator class's bookkeeping around the
external optimiser, and proves what that bookkeeping promises:

- **Component space** (`ComponentSpace`). `components.csv` is parsed into the component
  map (every column but `min` and `max`, blanks dropped) and into the ordered objective
  list with its parallel mode list.
- **Merge engine** (`MergeEngine`). This is `bulk_training`. It fills rows from the first
  matching observation and sets the priority of the rows it resolved. It then sorts the
  table by priority, highest first, and forces priority 1 on the first `batch_size` rows.
- **Round chaining** (`RoundChain`). The scored table loses every column whose name
  contains `predicted_mean`, `predicted_variance` or `expected_improvement`. The result
  becomes round `round_num + 1`.
- **Audit log** (`AuditLog`). The summary log stores one entry per call under a counter.
  The counter is reloaded as the number of entries already present.
- **The generator object** (`Generator.EDBOGenerator`). It is a class whose fields are:
  - the in-memory log and the counter;
  - the parsed component map and objectives (unset until `initialize_scope`);
  - the run directory's round files, backup files and summary file, as maps.

  Its methods are `initialize_scope`, `single_round_predict`, `bulk_training`,
  `simulate_run` and `_log_stuff`.
- **A worked merge** (`Scenario`). Four candidates over two sizes and two colours, two
  observations and batch size 2. It is stated for any two distinct sizes and any two
  distinct colours; `Example` is one such instance (sizes S and M, colours red and blue,
  yields 10 and 20).

Modelling choices:

- **Cells.** A cell is `Blank` (pandas NaN) or `Val(text)`. Objective values are such
  cells, not floats.
- **Rows.** A row holds its cells by column name, with `priority` kept apart.
- **Optimiser calls.** `EDBOplus().generate_reaction_scope` followed by `EDBOplus().run`
  on round 0 is one function parameter, `ScopeOracle`; its result is taken as the round 0
  file that `run` leaves behind. `EDBOplus().run` on a later round is another,
  `ScoringOracle`; its result is the prediction file, and the round file it was given is
  taken to be left as it was.
- **Errors.** Python exceptions become an `Outcome`/`Result` error, raised at the point
  where the code would raise:
  - `NotInitialized` is the AttributeError from reading `self.components` or
    `self.run_objs` before `initialize_scope`.
  - `MissingColumn` is a column that is indexed but absent: a component missing from a
    round row (`row[component]`, a KeyError), a component missing from the observations
    (`query` raises pandas' UndefinedVariableError, a NameError), an objective missing
    from the observations (a KeyError from the column selection), or a `min`/`max`
    column missing from `components.csv` (a KeyError).
  - `EmptyQuery` is `query('')` with no components.
  - `RoundNotFound` is a missing round file.

  An error in the fill loop leaves the backup written and the round file and log
  untouched, as in the code.

Behaviour of the code worth noting:

- The code does not reject an objective listed under both `min` and `max`; it is simply
  listed twice. `ObjectivesDistinct` states the condition under which the list is
  duplicate-free.
- After a merge, more rows than the batch may have priority 1. Rows after the batch keep
  the priority of 1 that they had, or were given when resolved with `priority_setting`
  false. The model proves that the first `SliceEnd(b, n)` rows have priority 1 and that
  the marking step leaves the other rows unchanged.
- The sort is pandas' default quicksort, which is not stable. The model promises no order
  within equal priorities.
- `initialize_scope` rewrites the scope file on every call. Only the creation and scoring
  of round 0 is skipped when round 0 exists.
- Round chaining removes columns whose names *contain* one of the three words
  (`str.contains`). It does not compare whole names.
- A negative `batch_size` follows Python slice semantics: every row but the last
  `|batch_size|` is marked.

## Model

| member | source | states |
|---|---|---|
| ComponentSpace.DropBlanks | edbogenerator/edbogenerator/generator.py:81 | no blank remains, and every filled cell occurs as often as in the column |
| ComponentSpace.DropBlanksAppend | edbogenerator/edbogenerator/generator.py:81 | dropping blanks from two concatenated columns is dropping them from each and concatenating, so the filled cells keep their order |
| ComponentSpace.DropBlanksSingle | edbogenerator/edbogenerator/generator.py:81 | a single cell is dropped exactly when it is blank |
| ComponentSpace.ParseComponents | edbogenerator/edbogenerator/generator.py:81 | keys are exactly the sheet's columns other than `min`/`max`; each value list is its column with the blanks dropped, in column order (`DropBlanks`), so it has no blanks and keeps every filled cell with its multiplicity |
| ComponentSpace.ParseObjectives | edbogenerator/edbogenerator/generator.py:82-84 | defined exactly when both `min` and `max` exist (KeyError otherwise); names and modes have length \|mins\|+\|maxs\|; mins first with mode Min at their index, then maxs with mode Max |
| ComponentSpace.ObjectivesDistinct | edbogenerator/edbogenerator/generator.py:82-84 | when the two lists are each duplicate-free and disjoint, the objective list is duplicate-free and an index has mode Min exactly when its name is in the `min` list |
| MergeEngine.FirstMatch | edbogenerator/edbogenerator/generator.py:184-188 | the result is the index of an observation equal to the row on every component (both cells filled), and no earlier one matches; None exactly when no observation matches |
| MergeEngine.FirstMatchIsLeast | edbogenerator/edbogenerator/generator.py:188 | the least matching index is the one `iloc[0]` takes |
| MergeEngine.FirstMatchAgrees | edbogenerator/edbogenerator/generator.py:184-185 | the match depends only on the row's component cells |
| MergeEngine.Resolve | edbogenerator/edbogenerator/generator.py:188-189 | a matched row gets every objective cell from the observation, keeps each other cell, gains no other column, and gets priority -1 with priority setting and 1 without |
| MergeEngine.FillOne | edbogenerator/edbogenerator/generator.py:183-189 | an unselected row comes back unchanged and never raises; a raising row fails with NotInitialized, MissingColumn or EmptyQuery (the order of the checks is stated by `FillOneOrder`, the Ok cases by `UnmatchedRowUntouched`, `MatchedRowTakesFirstObservation` and `FillSettles`) |
| MergeEngine.FillOneOrder | edbogenerator/edbogenerator/generator.py:183-189 | checks in the code's order: an unset component map raises the AttributeError first; an empty one raises the empty-query error, and that error comes from nothing else; a row that passes the query had every component cell and column; a row that changes is the `Resolve` of its first match with the objective list set |
| MergeEngine.FillAll | edbogenerator/edbogenerator/generator.py:181-192 | succeeds exactly when every row's iteration succeeds; then it has the same length and holds each row's iteration result at its index |
| MergeEngine.FillAllStopsAtFirstError | edbogenerator/edbogenerator/generator.py:183-192 | the pass fails with the error of the first row whose iteration raises |
| MergeEngine.FillAllKeepsError | edbogenerator/edbogenerator/generator.py:183-192 | once a prefix fails, every longer prefix fails with the same error: later rows are never reached |
| MergeEngine.FillRows | edbogenerator/edbogenerator/generator.py:183-192 | the row-by-row loop updating the table in place computes exactly the fill pass |
| MergeEngine.UnmatchedRowUntouched | edbogenerator/edbogenerator/generator.py:181-192 | a row not selected (priority limiting, priority not 1) or matching no observation is returned unchanged |
| MergeEngine.MatchedRowTakesFirstObservation | edbogenerator/edbogenerator/generator.py:187-189 | a selected row whose first match is observation j gets j's objective cells, keeps its other cells, and gets priority -1 with priority setting and 1 without |
| MergeEngine.FillSettles | edbogenerator/edbogenerator/generator.py:183-189 | when objectives and components are distinct columns, each examined row afterwards holds its first match's objective values |
| MergeEngine.RefillKeepsSettledCells | edbogenerator/edbogenerator/generator.py:187-188 | filling a row that already holds its match's values changes none of its cells |
| MergeEngine.ResolvedTableIsFixpoint | edbogenerator/edbogenerator/generator.py:181-192 | a second fill pass over a fully resolved table changes no cell of any row (only priorities may move) |
| MergeEngine.InsertByPriority | edbogenerator/edbogenerator/generator.py:194 | inserting into a table sorted highest first keeps it sorted and adds exactly that row |
| MergeEngine.SortByPriority | edbogenerator/edbogenerator/generator.py:194 | the result is a permutation of the rows (same multiset) with non-increasing priorities |
| MergeEngine.MarkBatch | edbogenerator/edbogenerator/generator.py:195 | rows of the slice `[:batch_size]` get priority 1 with their cells kept; every other row is unchanged |
| MergeEngine.BatchTakesRowsAbove | edbogenerator/edbogenerator/generator.py:194-195 | when at least batch-many rows have priority above t, every row the sort puts into the batch has priority above t |
| MergeEngine.SortedTailBelow | edbogenerator/edbogenerator/generator.py:194 | in a table sorted highest first, every row past the rows above t has priority at most t |
| MergeEngine.MarkedImage | edbogenerator/edbogenerator/generator.py:195 | marking the batch changes priorities only, never cells |
| MergeEngine.MergedLength | edbogenerator/edbogenerator/generator.py:194-195 | sort and marking keep the number of rows |
| MergeEngine.MergeKeepsRows | edbogenerator/edbogenerator/generator.py:194-195 | sort and marking keep the row count and each row's cells with their multiplicity, and the first `SliceEnd(batch_size, n)` rows have priority 1 (the rows of the slice `[:batch_size]`) |
| MergeEngine.SameMultisetNoDuplicates | edbogenerator/edbogenerator/generator.py:194 | a general sequence fact used by `MergedCellsDistinct`: a rearrangement of a duplicate-free sequence is duplicate-free |
| MergeEngine.MergedCellsDistinct | edbogenerator/edbogenerator/generator.py:194-195 | if the filled rows have pairwise different cells, so do the merged rows: sorting and marking neither copy nor merge rows |
| MergeEngine.DistinctCellsAt | edbogenerator/edbogenerator/generator.py:194-195 | a helper of `ScenarioMergeDistinct` that unfolds `NoDuplicates`: in a table without repeated cells, rows at two different positions have different cells |
| MergeEngine.MergedBatchFromAbove | edbogenerator/edbogenerator/generator.py:189-195 | under the same condition, each batch row is a filled row of priority above t with its priority forced to 1 |
| MergeEngine.MergedTailBelow | edbogenerator/edbogenerator/generator.py:189-195 | a row after the batch and after all rows above t is an unchanged filled row with priority at most t (resolved rows keep -1) |
| RoundChain.KeepColumns | edbogenerator/edbogenerator/generator.py:142 | a column is kept exactly when it is in the input and its name contains none of the three scoring words |
| RoundChain.KeepColumnsAppend | edbogenerator/edbogenerator/generator.py:142 | filtering two concatenated column lists is filtering each and concatenating, so kept columns stay in their order |
| RoundChain.KeepColumnsSingle | edbogenerator/edbogenerator/generator.py:142 | a single column is kept exactly when it is not a scoring column |
| RoundChain.StripScoringColumns | edbogenerator/edbogenerator/generator.py:142 | columns are the input's columns filtered in order (`KeepColumns`), so exactly the non-scoring ones; rows keep their count, order, priority and every non-scoring cell, and keep no scoring cell |
| RoundChain.KeepColumnsIdempotent | edbogenerator/edbogenerator/generator.py:142 | filtering the column list twice equals filtering it once |
| RoundChain.StripIdempotent | edbogenerator/edbogenerator/generator.py:142 | stripping a stripped table changes nothing |
| RoundChain.StripKeepsCandidates | edbogenerator/edbogenerator/generator.py:141-143 | if no component name contains a scoring word, the next round has the same rows as the scored table, in its order, with the same component cells |
| AuditLog.ContiguousSize | edbogenerator/edbogenerator/generator.py:31 | a log keyed 0..n-1 has n entries, so the counter reloaded as its length is a fresh key |
| AuditLog.AppendExtends | edbogenerator/edbogenerator/generator.py:55-64 | storing under the counter adds exactly one entry, overwrites none and keeps the keys 0..counter |
| Generator.EDBOGenerator.constructor | edbogenerator/edbogenerator/generator.py:18-35 | an existing summary file is loaded with the counter at its size, or an empty log and file are created; component map and objectives unset |
| Generator.EDBOGenerator.LogStuff | edbogenerator/edbogenerator/generator.py:54-64 | one entry stored under the old counter, the file rewritten with the whole log, the counter incremented; key contiguity preserved |
| Generator.EDBOGenerator.InitializeScope | edbogenerator/edbogenerator/generator.py:80-109 | the component map is set; a missing `min`/`max` fails before objectives, round 0 or the log change; otherwise objectives set, round 0 created and scored only if absent, one entry logged |
| Generator.InitializeTwiceKeepsRoundZero | edbogenerator/edbogenerator/generator.py:94-107 | a second initialisation does not change round 0 and does not use its scope oracle |
| Generator.EDBOGenerator.SingleRoundPredict | edbogenerator/edbogenerator/generator.py:117-146 | uninitialised or missing round fails with nothing written; otherwise round_num+1 is the stripped scored table, nothing else changes, one entry logged |
| Generator.EDBOGenerator.BulkTraining | edbogenerator/edbogenerator/generator.py:148-205 | a missing round fails with no backup; otherwise the backup is the pre-merge table; a failing fill leaves round file and log unchanged; a successful one saves a merge of the filled rows in the same columns and logs one entry |
| Generator.EDBOGenerator.SimulateRound | edbogenerator/edbogenerator/generator.py:227-229 | one loop iteration: on success exactly two entries are stored under the next two keys (merge with limiting and setting, then predict); the backup of round_num is the table before the merge; the round files change as one iteration (`Iterated`): round_num is the merge of its old table, round_num+1 is the merged round scored with its scoring columns stripped, and no other round changes; a missing round fails with no file and no log entry changed; otherwise round_num is backed up even on failure, and a failure leaves the round files unchanged or, when the class is not initialised, only round_num merged; on failure the log is unchanged or holds only the merge entry; on success the summary file holds the log, and a summary file that held the log still does; key contiguity preserved |
| Generator.LoggedRoundsExtend | edbogenerator/edbogenerator/generator.py:226-229 | storing a round's two entries after earlier rounds keeps the earlier rounds' entries and adds the new round's |
| Generator.RunLogRounds | edbogenerator/edbogenerator/generator.py:226-229 | after n rounds, round r < n has its merge entry at base+1+2r and its prediction entry at base+2+2r |
| Generator.RunLogKeepsBase | edbogenerator/edbogenerator/generator.py:224-229 | the rounds never overwrite the run's own entry |
| RunHistory.LinkedFrame | edbogenerator/edbogenerator/generator.py:226-229 | rewriting rounds n and n+1 keeps the rounds 0..k of a chain merged when k < n |
| RunHistory.ChainExtends | edbogenerator/edbogenerator/generator.py:226-229 | a chain of n iterations from round 0, followed by one more iteration (`Iterated`: round n merged from its old table, round n+1 its prediction, no other round changed), is a chain of n+1 iterations |
| RunHistory.PredictedRoundTable | edbogenerator/edbogenerator/generator.py:141-143 | a predicted round is the scored round before it with the scoring columns stripped |
| RunHistory.ChainedLast | edbogenerator/edbogenerator/generator.py:226-229 | after n > 0 iterations rounds 0..n-1 are merged and round n is the last prediction |
| RunHistory.BackupsExtend | edbogenerator/edbogenerator/generator.py:175-179 | backing up round n with the table it held (the prediction made from round n-1, or the initial round 0) extends the backups of n iterations to those of n+1, other backups unchanged |
| RunHistory.OtherRoundsExtend | edbogenerator/edbogenerator/generator.py:226-229 | an iteration that rewrites only rounds n and n+1 keeps every round outside 0..n+1 as it was |
| RunHistory.RunExtends | edbogenerator/edbogenerator/generator.py:226-229 | one more iteration (`Iterated` plus the backup of round n) extends the chain, the backups and the frame of n iterations to those of n+1 |
| RunHistory.ChainedKeys | edbogenerator/edbogenerator/generator.py:226-229 | after n > 0 iterations rounds 0..n all exist |
| Generator.EDBOGenerator.RunRounds | edbogenerator/edbogenerator/generator.py:226-229 | the round loop: on success the log is the start log plus each round's two entries in order and the counter grew by 2 per round; with at least one round, the round and backup files are those of the run (`RoundsRun`): the rounds form a chain from the initial round 0 (`Chained`: each round 0..max_rounds-1 is the merge of the round before it scored and stripped, round 0 of the initial table, and round max_rounds is the last round's prediction), backup 0 is the initial round 0, backup r for 0 < r < max_rounds is the prediction made from round r-1, and no other round or backup changed; with no round nothing is written; a summary file that held the log still does; the run's own entry and contiguity survive a failure |
| Generator.EDBOGenerator.SimulateRun | edbogenerator/edbogenerator/generator.py:207-229 | the call's own entry first; on success the counter grew by 1+2·max_rounds, the log is the old log plus the call's entry plus each round's two entries in order (`RunLog`), so earlier entries are kept, rounds 1..max_rounds exist, round r's two entries sit at positions base+1+2r and base+2+2r, and the round and backup files are those of the run (`RoundsRun`, as for RunRounds); with no round no round or backup file changes; the summary file holds the log |
| Scenario.ScenarioFill | edbogenerator/edbogenerator/generator.py:181-192 | in the worked example, (small, red) and (medium, blue) are filled with their observed yields at priority -1; the other two rows are untouched |
| Scenario.TwoUnresolved | edbogenerator/edbogenerator/generator.py:189-194 | in the worked example, exactly two filled rows lie above priority -1 |
| Scenario.ScenarioMerge | edbogenerator/edbogenerator/generator.py:194-195 | in the worked example, each batch row is one of the two unresolved candidates at priority 1 and each later row is one of the resolved rows with priority -1 and its yield |
| Scenario.FilledCellsDistinct | edbogenerator/edbogenerator/generator.py:181-192 | in the worked example, the four filled rows have pairwise different cells |
| Scenario.ScenarioMergeDistinct | edbogenerator/edbogenerator/generator.py:194-195 | in the worked example, the two batch rows are different candidates and the two later rows are different rows; with ScenarioMerge this makes the batch both unresolved candidates and the tail both resolved rows |
| Scenario.ExampleApart | edbogenerator/edbogenerator/generator.py:181-195 | the instance with sizes S, M and colours red, blue meets the worked example's distinctness condition |

## Left out

- File and CSV/JSON I/O. This covers the run-directory creation, `os.chdir`, the
  `components.csv` template (lines 14-24, 37-52) and reading `components.csv`, which is a
  parameter (`Sheet`).
- Round files, backup files and the summary file are maps in the object. Disk failures
  and partially written files are not modelled.
- Timestamps (line 56), `print` messages, and the always-`None` `result` field of a log
  entry. A log entry holds the call and its parameters only.
- The external optimiser (`EDBOplus`, lines 86-104 and 132-139) is given as the function
  parameters `ScopeOracle` and `ScoringOracle`. Exceptions it raises and the files it
  writes (`<run>_scope.csv`, `pred_<run>_round_N.csv`, and any rewrite of the round file
  it is given) are not modelled.
- The `**kwargs` forwarded to the optimiser and logged with the call.
- `summary`, `visualize` and `input_data` (lines 111-115, 231 onward): they are display
  code or an empty stub.
- The plotting module and the older stub copy of the class, which hold no behaviour of
  the ledger.
- String-built queries (line 184). Matching is structured equality on every component.
  The hazards of the interpolated query are not reproduced:
  - values containing quotes;
  - NaN rendered as `"nan"`;
  - a numeric column compared with a quoted string;
  - column names that are not identifiers.
- pandas label indexing. `round_input.loc[index]` is modelled by position, which agrees
  with the default index that `read_csv` produces.
- Column enlargement. When the round file lacks an objective column, pandas adds it; the
  model sets the row's cell and leaves the column list as it was.
- JSON key types. A reloaded log has string keys; the model keys the log by natural
  numbers.
- MergeEngine.SortByPriority: states permutation and non-increasing priority only, not
  the particular order quicksort gives to equal priorities. `MergedRows` therefore holds
  for every order a sort may produce.
- Generator.EDBOGenerator.SingleRoundPredict: assumes `EDBOplus().run` (lines 132-139)
  leaves round_num's file as it was, and stores only the stripped prediction as round
  round_num+1. Initialisation instead takes round 0 to be the file `run` rewrote. The run
  chain (`Chained`, `RoundsRun`) relies on this: if `run` rewrites the round file, rounds
  0..max_rounds-1 hold that rewrite, not their merged tables.
- Generator.EDBOGenerator.SingleRoundPredict: a missing round file fails before the
  optimiser is called. In the code the optimiser is called on the missing file and
  raises there.
- Generator.EDBOGenerator.SimulateRun: on a failing round it states only the run's own
  log entry, the summary file and key contiguity, not which rounds and backups were
  written before the failure.
- Generator.EDBOGenerator.RunRounds: on a failing round it states only the run's own log
  entry, the summary file and key contiguity, like SimulateRun.
- Round files without an integer `priority` column. Every round table is assumed to
  have one (lines 181, 194 and 195 read it, sort on it and write it); in the model the
  priority is a field of every row.
- Generator.EDBOGenerator.InitializeScope: the scope oracle stands for scope generation
  and the scoring of round 0 together. Regenerating the scope file on every call is not
  modelled.
