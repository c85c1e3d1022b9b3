# FEMIterate: a verified model of the iteration controller

FEMIterate is a FreeCAD macro that tunes a finite-element model by
repetition. The user lists changes: an object, a property, a delta and its
unit type, plus the property's original value, recorded when the table was
read. The user also lists checks: Python expressions over the latest result
`r` and the iteration `i`. `_calculate` then repeats one step up to
`iteration_limit` times. Each step adds every unit delta to its property,
recomputes the document, meshes, sets up the CalculiX solver, checks its
prerequisites, writes the input file, runs the solver and loads the results.
After each step, the first result object not yet labelled `Iteration…` is
renamed `Iteration{i}`, and the checks are evaluated. The loop stops when all
checks return True, when the prerequisites fail, or at the limit. Afterwards
every changed property is set back to its recorded original.

The model consists of these modules:

- `Base` (`base.dfy`): the property store, keyed by object name and property name. It also holds the names of the tool calls and the exceptions that can end a run.
- `FreeCadDocument` (`document.dfy`): `find_object_by_typeid` and the document as a property store.
- `Changes` (`changes.dfy`): the change table and `_apply_delta_changes` / `_revert_delta_changes`. Each is an imperative method with nested loops, proved equal to a fold over the flattened table. The lemmas cover accumulation, rollback and failure.
- `Results` (`results.dfy`): the analysis group and `_find_rename_latest_result`, with the `Iteration{i}` label.
- `Checks` (`checks.dfy`): `_eval_checks`, with `eval` as an oracle.
- `Solver` (`solver.dfy`): the mesher and the CalculiX tools. They are modelled as a trace of the calls that returned, plus a per-iteration description of which call raises, which prerequisite message comes back, and which results are loaded.
- `Iterate` (`iterate.dfy`):
  - `_calculate_single_shot` and `_calculate`, as methods of `MainWindow`;
  - the specification functions they are proved equal to: `SingleShot`, `RunLoop` and `Calculation`.
- `IterateProperties` (`properties.dfy`): what the controller guarantees, proved over those specification functions.

The model follows the code where the documented behaviour and the code disagree:

- **When `orig` is recorded.** It is taken when the table is read (`FEMIterateGui.py:372`), not when a run starts. Restoring writes those recorded values, whatever the document held when `_calculate` began.
- **No `finally`.** An exception can come from `getattr`, `setattr`, `Units.Quantity`, a solver call after the setup, or `eval`. Any of these leaves `_calculate` without the rollback, and `_calculation_running` stays set (`Calculation` returns `Escaped`).
- **Unsupported change types.** A change whose type is not `Unit` is skipped with only a console message, but `getattr` is still called on its property first.

## Model

| member | source | states |
|---|---|---|
| FreeCadDocument.FindObjectByTypeid | FEMIterateGui.py:35-40 | Returns the first object whose type id matches and, when a label is given, whose label matches. No earlier object matches. It returns None exactly when no object matches. |
| Changes.ApplyDeltaChanges | FEMIterateGui.py:387-397 | The nested loops leave the document and the raised exception exactly as `ApplyChanges` gives them. That is, the entries are applied in table order and the run stops at the first exception. |
| Changes.RevertDeltaChanges | FEMIterateGui.py:400-404 | The nested loops leave the document and the raised exception exactly as `RevertChanges` gives them. |
| Changes.ApplyRaisesIff | FEMIterateGui.py:390-395 | Applying raises exactly when some entry names a missing property, or some unit entry's quantity fails. |
| Changes.ApplyAddsIncrement | FEMIterateGui.py:393-395 | A clean application adds to every property the sum of the unit deltas listed for it. |
| Changes.ApplyTimesAccumulates | FEMIterateGui.py:387-397 | `n` clean applications give start + n·delta on every property. |
| Changes.ApplyTouchesOnlyListed | FEMIterateGui.py:390-397 | Applying, even when it raises partway, changes no property that no entry names, and adds or removes no property. |
| Changes.IncrementOfUnlisted | FEMIterateGui.py:393-397 | A property whose entries are all of a non-`Unit` type gets nothing added. |
| Changes.IncrementOfUnitEntry | FEMIterateGui.py:393-395 | With unique keys, a unit entry's property gets exactly that entry's quantity. |
| Changes.ApplyStopsAtRaise | FEMIterateGui.py:390-395 | Once an entry raises, the entries after it have no effect. |
| Changes.RevertStopsAtRaise | FEMIterateGui.py:402-404 | Once `setattr` raises, the entries after it have no effect. |
| Changes.RevertShape | FEMIterateGui.py:400-404 | Reverting writes the recorded originals of the entries before the first missing property, and raises there if there is one. |
| Changes.RevertRaisesIff | FEMIterateGui.py:402-404 | Reverting raises exactly when some entry names a missing property. |
| Changes.RevertWritesOrig | FEMIterateGui.py:402-404 | When every listed property exists and keys are unique, every listed property gets its `orig`. Every other property keeps its value. |
| Changes.RevertIdempotent | FEMIterateGui.py:400-404 | Reverting twice gives the same document and the same exception as reverting once. |
| Changes.RevertForgetsListedValues | FEMIterateGui.py:400-404 | When every listed property exists, two documents that differ only on listed properties revert to the same document. |
| Changes.TableKeysUnique | FEMIterateGui.py:364-373 | A table built as nested dictionaries names each (object, property) pair at most once. |
| Results.FirstUnlabelledResult | FEMIterateGui.py:409-413 | The position of the first result object whose label does not start with "Iteration". None exactly when there is no such object. |
| Results.DecimalString | FEMIterateGui.py:411 | Python's `str` of a natural number: decimal digits with no leading zero. |
| Results.DecimalRoundTrip | FEMIterateGui.py:411 | Reading the decimal string back gives the number. |
| Results.IterationLabel | FEMIterateGui.py:411 | The new label starts with "Iteration", so a later scan skips the result. |
| Results.IterationLabelInjective | FEMIterateGui.py:411 | Different iterations give different labels. |
| Results.Analysis.FindRenameLatestResult | FEMIterateGui.py:406-413 | The scan returns the first unlabelled result and renames it `Iteration{i}`. When there is none, it returns None and changes nothing. |
| Results.RelabelChangesOnlyChosen | FEMIterateGui.py:409-412 | Only the chosen result's label changes. The group is unchanged exactly when nothing was found. |
| Results.RelabelClaimsOne | FEMIterateGui.py:409-412 | Each rename claims exactly one unlabelled result. |
| Results.RelabelMovesOn | FEMIterateGui.py:409-412 | After a rename, the next scan finds a strictly later result, or none. |
| Results.FindsAppendedResult | FEMIterateGui.py:409-413 | When every older result is claimed, the scan finds the first result that `load_results` appended. |
| Checks.EvalChecks | FEMIterateGui.py:416-425 | All-true exactly when every check is exactly True; the empty list is all-true. Otherwise it stops at the first check that is not True: that check either returned something else or raised, and every earlier check was True. |
| Checks.EvalStopsAtFirst | FEMIterateGui.py:419-424 | Checks after the first that is not True are never looked at. |
| Checks.EvalAfterAllTrue | FEMIterateGui.py:418-425 | After an all-True prefix, the result is that of the rest, shifted by the prefix length. |
| Solver.Toolchain.Invoke | FEMIterateGui.py:444-446 | A tool call that returns is added to the trace. One that raises is not, and it reports the exception. |
| Solver.Toolchain.Recompute | FEMIterateGui.py:440 | `doc.recompute()` sees the document's current properties. |
| Solver.Toolchain.CheckPrerequisites | FEMIterateGui.py:447 | Returns the tools' prerequisite message. |
| Solver.Toolchain.LoadResults | FEMIterateGui.py:452 | The new results join the analysis group, unless the call raises. |
| Iterate.Completed | FEMIterateGui.py:440-452 | The number of tool calls that return never exceeds the number of calls the step reaches, which is at most nine. |
| Iterate.Mesh | FEMIterateGui.py:440-441 | Recompute, then `create_mesh`, stopping at an exception. |
| Iterate.SetUpSolver | FEMIterateGui.py:444-447 | The three setup calls and `check_prerequisites`, stopping at an exception. When nothing raises, it returns the tools' message. |
| Iterate.RunSolver | FEMIterateGui.py:450-452 | `write_inp_file`, `ccx_run` and `load_results`, stopping at an exception. |
| Iterate.CalculateSingleShot | FEMIterateGui.py:428-457 | The method leaves the document, the group, the trace and its return value exactly as `SingleShot` says. |
| Iterate.MainWindow.RunPass | FEMIterateGui.py:510-520 | One pass of the loop leaves the world and records the step exactly as `Pass` gives them: the single shot, then, when it returned None, the rename and the checks. |
| Iterate.MainWindow.RunIterations | FEMIterateGui.py:505-524 | The `while` loop ends with the world, `iteration`, `condition_fail` and the escaping exception exactly as `LoopFrom` says. |
| Iterate.MainWindow.Calculate | FEMIterateGui.py:459-545 | `_calculate` ends with the outcome, the world and `_calculation_running` exactly as `Calculation` says. |
| IterateProperties.ShotFailsIff | FEMIterateGui.py:447-455 | A step returns False exactly when the deltas apply, no call up to `check_prerequisites` raises, and the message is non-empty. |
| IterateProperties.ShotFailureSkipsSolve | FEMIterateGui.py:449-455 | After a False step exactly the first six calls were made. `write_inp_file`, `ccx_run` and `load_results` are not among them, and the group is unchanged. |
| IterateProperties.ShotLoopsAgainIff | FEMIterateGui.py:449-457 | A step returns None exactly when the deltas apply, the message is empty and no call raises. Its world then holds all nine calls, the loaded results and one recompute with the applied values. |
| IterateProperties.ShotAppliesBeforeMeshing | FEMIterateGui.py:435-441 | The deltas are applied before meshing: when they raise, no tool runs; otherwise the recompute sees the changed values. |
| IterateProperties.LoopShape | FEMIterateGui.py:505-524 | Every pass but the last goes on. `iteration` counts the passes that went on. A loop no pass ended stopped at the limit, and a pass that ends the loop lies below it. |
| IterateProperties.LoopBound | FEMIterateGui.py:505 | At most `max_iterations` passes, and none when the limit is not positive. |
| IterateProperties.LoopFlags | FEMIterateGui.py:512-515 | `condition_fail` is set exactly by a False step. An exception leaves exactly from the last pass. |
| IterateProperties.LoopVerdicts | FEMIterateGui.py:518-520 | Each pass evaluates the checks against the result it renamed, with `i` bound to its own iteration. `condition_fail` implies a non-empty message. |
| IterateProperties.LoopStopsAtFirstPass | FEMIterateGui.py:520-522 | The first pass whose checks are all True is the last one. `iteration` stays at it, with no failure flag and no exception. |
| IterateProperties.LoopLimitIff | FEMIterateGui.py:526-527 | When the loop starts at or below the limit (for a run: a non-negative `max_iterations`), `iteration == max_iterations` after the loop exactly when every pass went on. |
| IterateProperties.PassApplies | FEMIterateGui.py:435-440 | A pass over a cleanly applying table adds the deltas once, and the recompute saw them. |
| IterateProperties.LoopAccumulates | FEMIterateGui.py:505-524 | With a clean table, the document after the loop holds start + n·delta for `n` passes. The `k`-th recompute saw `k` deltas. |
| IterateProperties.LoopKeepsUnlisted | FEMIterateGui.py:505-524 | Properties no entry names keep their values through the loop. |
| IterateProperties.RunMissingChangesNothing | FEMIterateGui.py:464-472 | A missing mesh, solver or analysis, checked in that order, ends the run before anything is changed, called or restored. |
| IterateProperties.RunFinishedIff | FEMIterateGui.py:505-536 | With the mesh, solver and analysis set, the run reaches the rollback after the loop and ends normally exactly when every listed property exists and no pass raised. That covers convergence, the limit, a False step and a failed setup. |
| IterateProperties.RunRestores | FEMIterateGui.py:535-545 | A normal end restores the document to what one rollback of the starting document gives, whatever the passes added, and clears `_calculation_running`. |
| IterateProperties.RunWritesOrig | FEMIterateGui.py:535-536 | After a normal end, every listed property holds its `orig`, and every other property holds its starting value. |
| IterateProperties.RunSetupFailure | FEMIterateGui.py:495-503 | When creating the tools or purging raises, no pass runs and no further tool is called. The error is reported and the originals are still written back. |
| IterateProperties.RunEscapeKeepsDeltas | FEMIterateGui.py:505-536 | With a table that applies cleanly, an exception in the loop skips the rollback: one delta per pass stays in the document, and the run stays marked running. |
| IterateProperties.RunLimitHitIff | FEMIterateGui.py:526-527 | The limit message is logged exactly when `max_iterations` passes were made and each went on. |
| IterateProperties.ReportedIterationsOverstate | FEMIterateGui.py:543 | The reported count is one more than the passes made when the loop ended at or past the limit (the limit was hit, or a negative limit allowed no pass) or setup failed. It is exact when a pass ended the loop. |
| IterateProperties.ReportAtLimitExample | FEMIterateGui.py:543 | With limit 1 and a check that is always False, one pass is made and 2 is reported. |
| IterateProperties.ReportNegativeLimitExample | FEMIterateGui.py:505-543 | Limit -1: no pass is made, the limit message is not logged, and the message reports 1 iteration. |
| IterateProperties.ComputedIterationsCounts | FEMIterateGui.py:543 | The corrected count equals the number of passes made on every normal end. |

## Left out

- No tool call writes a document property in the model: `doc.recompute()`, `create_mesh` and the `FemToolsCcx` calls only record themselves. `IterateProperties.LoopAccumulates`, `IterateProperties.LoopKeepsUnlisted` and `IterateProperties.RunRestores` depend on this. A recompute that changed a listed or unlisted property through an expression or constraint is not captured.
- The Qt window, dialogs, tables, progress bar and log text are not modelled. The log messages survive only as fields of the final report: limit hit, error, setup failure.
- Saving and loading the settings (`Settings.save`/`load`, JSON) is not modelled. The change table, checks and limit are fields of `MainWindow`.
- Python `eval` of the checks is an oracle. It maps (expression, result position, iteration) to True, another value, or an exception.
- FreeCAD's recompute, the Gmsh mesher and `FemToolsCcx` are described per iteration by which call raises, the prerequisite message, and the results loaded. Their numerical work is not modelled.
- The effect of `purge_results` on the analysis group is not modelled; only the call is recorded.
- `Units.Quantity` parsing and float arithmetic are replaced by integers. Each change carries its parsed quantity, or None when parsing raises, the addition raises, or the `setattr` of the sum raises (for example a `Unit` entry on a plain float property).
- `orig` is recorded as `str(getattr(objref, prop))` (FEMIterateGui.py:372), and line 404 writes that string back whatever the entry's type. The model keeps it as the integer value.
- Changes.RevertDeltaChanges: the model assumes `setattr` of the recorded string succeeds on every existing property. A `Number` or `Python expr.` entry whose property is a plain float or integer would make FreeCAD refuse the string and raise. `RevertEntry` raises only for a missing property, so this type error is not modelled. `IterateProperties.RunFinishedIff`, `IterateProperties.RunRestores`, `IterateProperties.RunWritesOrig` and `Changes.RevertRaisesIff` rely on this assumption.
- Elapsed time and the progress percentage are not modelled.
- `_find_mesh_and_analysis_objects` and `_set_objects_tab_val` are not modelled. Whether the mesh, solver and analysis are set are inputs to `_calculate`.
- `Iterate.MainWindow.Calculate`: the exception from creating the tools is not distinguished from one raised by `purge_results`. Both only set `condition_fail`, as in the source.
- The trace in `Solver.Toolchain` records only the calls that returned. A call that raises is visible only as the exception.

## Findings

| source | as written | input that shows it | evidently intended | confidence | as-written member | corrected member |
|---|---|---|---|---|---|---|
| FEMIterateGui.py:543 | The final progress text reports `iteration + 1` as the number of computed iterations. | `iteration_limit` 1 with a check that never returns True: one pass runs and 2 is reported. A failure to create the CalculiX tools runs no pass and reports 1. `iteration_limit` -1 runs no pass, logs no limit message and reports 1. | Report the number of passes made: `iteration` when the loop ended at or past the limit (`iteration >= max_iterations`), 0 after a setup failure, otherwise `iteration + 1`. | not executed | IterateProperties.ReportedIterationsOverstate | IterateProperties.ComputedIterationsCounts |
