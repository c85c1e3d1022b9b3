/** The iterate-until-converged controller: `_calculate_single_shot` and
    `_calculate` of the FEMIterate main window. Each iteration adds the deltas
    to the document, meshes and solves, renames the new result and evaluates
    the checks; the loop ends when the checks pass, a step fails, the
    iteration limit is reached, or an exception escapes. After the loop the
    original values are written back. */
module Iterate {
  import opened Base
  import opened FreeCadDocument
  import opened Changes
  import opened Results
  import opened Checks
  import opened Solver

  /** Everything the controller changes: the document properties, the
      analysis group, and the calls made to the tools. */
  datatype World = World(store: Store, group: seq<GroupItem>, calls: seq<Call>, recomputed: seq<Store>)

  /** The outside world of one run: whether creating the CalculiX tools
      raises, whether `purge_results` raises, what the tools do in each
      iteration, and what each check expression evaluates to. */
  datatype Env = Env(feaRaises: bool, purgeRaises: bool, shots: nat -> Shot, eval: Evaluator)

  // ---------------------------------------------------------------- one step

  /** The tri-state value of `_calculate_single_shot` (None, False), or the
      exception that leaves it. */
  datatype ShotReturn = LoopAgain | ShotFailed | ShotRaised(e: Exception)

  datatype ShotEnd = ShotEnd(world: World, ret: ShotReturn)

  /** How many PIPELINE calls the step makes when none raises: all of them
      when the prerequisite message is empty, up to `check_prerequisites`
      otherwise. */
  function Reached(shot: Shot): nat {
    if shot.prerequisiteMessage == "" then |PIPELINE| else PREREQ_STEPS
  }

  /** How many PIPELINE calls return: the calls before the raising one, if
      that one is reached. */
  function Completed(shot: Shot): (n: nat)
    ensures n <= Reached(shot) <= |PIPELINE|
  {
    if shot.raisesAt.Some? && shot.raisesAt.value < Reached(shot) then shot.raisesAt.value else Reached(shot)
  }

  /** `_calculate_single_shot`: apply the deltas, then recompute, mesh, set
      up and check the solver; only with an empty prerequisite message write
      the input file, run CalculiX and load the results. */
  function SingleShot(w: World, changes: ChangeTable, shot: Shot): ShotEnd {
    var a := ApplyChanges(w.store, changes);
    if a.raised.Some? then ShotEnd(w.(store := a.store), ShotRaised(a.raised.value))
    else
      var n := Completed(shot);
      var w1 := w.(store := a.store, calls := w.calls + PIPELINE[..n], recomputed := w.recomputed + [a.store]);
      if n < Reached(shot) then ShotEnd(w1, ShotRaised(ToolError(PIPELINE[n])))
      else if shot.prerequisiteMessage != "" then ShotEnd(w1, ShotFailed)
      else ShotEnd(w1.(group := w.group + shot.newResults), LoopAgain)
  }

  /** The step when the deltas raise: no tool is called. */
  lemma ShotWhenApplyRaises(w: World, changes: ChangeTable, shot: Shot)
    requires ApplyChanges(w.store, changes).raised.Some?
    ensures var a := ApplyChanges(w.store, changes);
            SingleShot(w, changes, shot) == ShotEnd(w.(store := a.store), ShotRaised(a.raised.value))
  {
  }

  /** The step when the `k`-th call raises: the calls before it returned. */
  lemma ShotWhenCallRaises(w: World, changes: ChangeTable, shot: Shot, k: nat)
    requires ApplyChanges(w.store, changes).raised.None?
    requires RaisesAt(shot, k) && k < Reached(shot)
    ensures var a := ApplyChanges(w.store, changes);
            SingleShot(w, changes, shot) ==
              ShotEnd(w.(store := a.store, calls := w.calls + PIPELINE[..k], recomputed := w.recomputed + [a.store]),
                      ShotRaised(ToolError(PIPELINE[k])))
  {
  }

  /** The step when the prerequisite message is not empty. */
  lemma ShotWhenPrerequisitesFail(w: World, changes: ChangeTable, shot: Shot)
    requires ApplyChanges(w.store, changes).raised.None?
    requires shot.prerequisiteMessage != ""
    requires shot.raisesAt.None? || shot.raisesAt.value >= PREREQ_STEPS
    ensures var a := ApplyChanges(w.store, changes);
            SingleShot(w, changes, shot) ==
              ShotEnd(w.(store := a.store, calls := w.calls + PIPELINE[..PREREQ_STEPS], recomputed := w.recomputed + [a.store]),
                      ShotFailed)
  {
  }

  /** The step when every call returns and the message is empty. */
  lemma ShotWhenAllReturn(w: World, changes: ChangeTable, shot: Shot)
    requires ApplyChanges(w.store, changes).raised.None?
    requires shot.prerequisiteMessage == ""
    requires shot.raisesAt.None? || shot.raisesAt.value >= |PIPELINE|
    ensures var a := ApplyChanges(w.store, changes);
            SingleShot(w, changes, shot) ==
              ShotEnd(World(a.store, w.group + shot.newResults, w.calls + PIPELINE, w.recomputed + [a.store]), LoopAgain)
  {
    assert PIPELINE[..|PIPELINE|] == PIPELINE;
  }

  /** Consecutive stretches of PIPELINE join up. */
  lemma PipelineJoin(calls: seq<Call>, l: nat, m: nat)
    requires l <= m <= |PIPELINE|
    ensures calls + PIPELINE[..l] + PIPELINE[l..m] == calls + PIPELINE[..m]
  {
    assert PIPELINE[..l] + PIPELINE[l..m] == PIPELINE[..m];
  }

  /** The calls of PIPELINE from `lo` up to `hi` ran: all returned, or the
      one at `shot.raisesAt` raised after the ones before it returned. */
  predicate CallsRan(before: seq<Call>, after: seq<Call>, raised: Option<Exception>, shot: Shot, lo: nat, hi: nat)
    requires lo <= hi <= |PIPELINE|
  {
    if shot.raisesAt.Some? && lo <= shot.raisesAt.value < hi then
      raised == Some(ToolError(PIPELINE[shot.raisesAt.value])) && after == before + PIPELINE[lo..shot.raisesAt.value]
    else
      raised.None? && after == before + PIPELINE[lo..hi]
  }

  /** The "Meshing..." part: `doc.recompute()` and `fem_mesh.create_mesh()`. */
  method Mesh(doc: Document, pipe: Toolchain, shot: Shot) returns (raised: Option<Exception>)
    modifies pipe
    ensures CallsRan(old(pipe.calls), pipe.calls, raised, shot, 0, 2)
    ensures pipe.recomputed == old(pipe.recomputed) + [doc.props]
  {
    raised := pipe.Recompute(doc, RaisesAt(shot, 0));
    if raised.Some? {
      return;
    }
    raised := pipe.Invoke(CreateMesh, RaisesAt(shot, 1));
  }

  /** The "Solving..." part up to `fea.check_prerequisites()`. */
  method SetUpSolver(pipe: Toolchain, shot: Shot) returns (raised: Option<Exception>, message: string)
    modifies pipe
    ensures CallsRan(old(pipe.calls), pipe.calls, raised, shot, 2, PREREQ_STEPS)
    ensures pipe.recomputed == old(pipe.recomputed)
    ensures raised.None? ==> message == shot.prerequisiteMessage
  {
    message := "";
    raised := pipe.Invoke(UpdateObjects, RaisesAt(shot, 2));
    if raised.Some? {
      return;
    }
    raised := pipe.Invoke(SetupWorkingDir, RaisesAt(shot, 3));
    if raised.Some? {
      return;
    }
    raised := pipe.Invoke(SetupCcx, RaisesAt(shot, 4));
    if raised.Some? {
      return;
    }
    raised, message := pipe.CheckPrerequisites(shot.prerequisiteMessage, RaisesAt(shot, 5));
  }

  /** The solve proper: `write_inp_file`, `ccx_run`, `load_results`. */
  method RunSolver(pipe: Toolchain, analysis: Analysis, shot: Shot) returns (raised: Option<Exception>)
    modifies pipe, analysis
    ensures CallsRan(old(pipe.calls), pipe.calls, raised, shot, PREREQ_STEPS, |PIPELINE|)
    ensures pipe.recomputed == old(pipe.recomputed)
    ensures analysis.group == (if raised.None? then old(analysis.group) + shot.newResults else old(analysis.group))
  {
    raised := pipe.Invoke(WriteInpFile, RaisesAt(shot, 6));
    if raised.Some? {
      return;
    }
    raised := pipe.Invoke(CcxRun, RaisesAt(shot, 7));
    if raised.Some? {
      return;
    }
    raised := pipe.LoadResults(analysis, shot.newResults, RaisesAt(shot, 8));
  }

  /** The method `_calculate_single_shot`. */
  method CalculateSingleShot(doc: Document, pipe: Toolchain, analysis: Analysis, changes: ChangeTable, shot: Shot)
    returns (ret: ShotReturn)
    modifies doc, pipe, analysis
    ensures ShotEnd(World(doc.props, analysis.group, pipe.calls, pipe.recomputed), ret)
            == SingleShot(old(World(doc.props, analysis.group, pipe.calls, pipe.recomputed)), changes, shot)
  {
    ghost var w := World(doc.props, analysis.group, pipe.calls, pipe.recomputed);
    var raised := ApplyDeltaChanges(doc, changes);
    if raised.Some? {
      ShotWhenApplyRaises(w, changes, shot);
      return ShotRaised(raised.value);
    }
    assert w.calls + PIPELINE[..0] == w.calls;
    raised := Mesh(doc, pipe, shot);
    if raised.Some? {
      ShotWhenCallRaises(w, changes, shot, shot.raisesAt.value);
      return ShotRaised(raised.value);
    }
    var message;
    raised, message := SetUpSolver(pipe, shot);
    PipelineJoin(w.calls, 2, if raised.Some? then shot.raisesAt.value else PREREQ_STEPS);
    if raised.Some? {
      ShotWhenCallRaises(w, changes, shot, shot.raisesAt.value);
      return ShotRaised(raised.value);
    }
    if message == "" {
      raised := RunSolver(pipe, analysis, shot);
      PipelineJoin(w.calls, PREREQ_STEPS, if raised.Some? then shot.raisesAt.value else |PIPELINE|);
      if raised.Some? {
        ShotWhenCallRaises(w, changes, shot, shot.raisesAt.value);
        return ShotRaised(raised.value);
      }
      ShotWhenAllReturn(w, changes, shot);
    } else {
      ShotWhenPrerequisitesFail(w, changes, shot);
      return ShotFailed;
    }
    return LoopAgain;
  }

  // ---------------------------------------------------------------- the loop

  /** One pass of the loop: either the step stopped the loop (False or an
      exception), or the result was renamed and the checks evaluated. */
  datatype Step = Stopped(ret: ShotReturn) | Checked(result: Option<nat>, verdict: CheckResult)

  /** The state after the loop: the world, `iteration`, `condition_fail`, an
      exception that left the loop, and the passes made. */
  datatype LoopEnd = LoopEnd(world: World, iteration: nat, conditionFail: bool, raised: Option<Exception>, steps: seq<Step>)

  /** `e` with `steps` made before it. */
  function Prepend(steps: seq<Step>, e: LoopEnd): LoopEnd {
    e.(steps := steps + e.steps)
  }

  /** One pass of the loop at `iteration`: the step it records and the world
      it leaves. When the step returns None, the first unclaimed result is
      renamed and the checks are evaluated against it. */
  function Pass(w: World, changes: ChangeTable, checks: seq<string>, env: Env, iteration: nat): (p: (Step, World))
    ensures p.0.Stopped? ==> !p.0.ret.LoopAgain?
    ensures p.0.Checked? ==> p.0.verdict == EvalChecks(checks, p.0.result, iteration, env.eval)
  {
    var se := SingleShot(w, changes, env.shots(iteration));
    if se.ret.LoopAgain? then
      var result := FirstUnlabelledResult(se.world.group);
      (Checked(result, EvalChecks(checks, result, iteration, env.eval)), se.world.(group := Relabel(se.world.group, iteration)))
    else (Stopped(se.ret), se.world)
  }

  /** The exception that leaves the loop with the pass that recorded `step`:
      one raised in `_calculate_single_shot`, or one raised by a check. */
  function Escape(step: Step, checks: seq<string>): Option<Exception>
    requires step.Checked? && step.verdict.CheckRaised? ==> step.verdict.at < |checks|
  {
    match step
    case Stopped(ret) => if ret.ShotRaised? then Some(ret.e) else None
    case Checked(_, verdict) => if verdict.CheckRaised? then Some(EvalError(checks[verdict.at])) else None
  }

  lemma PrependTwice(a: seq<Step>, b: seq<Step>, e: LoopEnd)
    ensures Prepend(a + b, e) == Prepend(a, Prepend(b, e))
  {
    assert (a + b) + e.steps == a + (b + e.steps);
  }

  /** The loop of `_calculate` from `iteration` on, `condition_fail` being
      false: a pass whose checks returned a value other than True goes on;
      any other pass ends the loop. */
  function RunLoop(w: World, changes: ChangeTable, checks: seq<string>, env: Env, iteration: nat, limit: int): LoopEnd
    decreases if iteration < limit then limit - iteration else 0
  {
    if limit <= iteration then LoopEnd(w, iteration, false, None, [])
    else
      var (step, w2) := Pass(w, changes, checks, env, iteration);
      if step.Checked? && step.verdict.NotTrue? then Prepend([step], RunLoop(w2, changes, checks, env, iteration + 1, limit))
      else LoopEnd(w2, iteration, step == Stopped(ShotFailed), Escape(step, checks), [step])
  }

  /** Below the limit, the loop is one pass and then, when that pass goes
      on, the rest of the loop. */
  lemma RunLoopStep(w: World, changes: ChangeTable, checks: seq<string>, env: Env, i: nat, limit: int)
    requires i < limit
    ensures var p := Pass(w, changes, checks, env, i);
            RunLoop(w, changes, checks, env, i, limit) ==
              if p.0.Checked? && p.0.verdict.NotTrue? then Prepend([p.0], RunLoop(p.1, changes, checks, env, i + 1, limit))
              else LoopEnd(p.1, i, p.0 == Stopped(ShotFailed), Escape(p.0, checks), [p.0])
  {
  }

  // ---------------------------------------------------------------- the run

  /** The object references `_calculate` requires. */
  datatype Reference = FemMesh | FemSolver | FemAnalysis

  /** What the finished run reports: the final `iteration`, whether the
      iteration-limit message was logged, whether the error message was
      logged, and whether creating the CalculiX tools failed. */
  datatype Report = Report(iteration: nat, limitHit: bool, hadError: bool, setupFailed: bool)

  /** How `_calculate` ends: an early return for a missing reference, an
      exception that escapes, or the normal end after the values were
      restored. */
  datatype Outcome = Missing(ref: Reference) | Escaped(e: Exception) | Finished(report: Report)

  /** The outcome, the final world, `_calculation_running`, and the passes. */
  datatype Run = Run(outcome: Outcome, world: World, running: bool, steps: seq<Step>)

  /** Creating the CalculiX tools or purging the old results raised. */
  predicate SetupFails(env: Env) {
    env.feaRaises || env.purgeRaises
  }

  /** The world after `FemToolsCcx(...)` and `purge_results()`. */
  function AfterSetup(w: World, env: Env): World {
    if SetupFails(env) then w else w.(calls := w.calls + [PurgeResults])
  }

  /** The loop as `_calculate` enters it, with `iteration` 0: skipped when
      `condition_fail` is already set. */
  function LoopFrom(w: World, conditionFail: bool, changes: ChangeTable, checks: seq<string>, env: Env, limit: int): LoopEnd {
    if conditionFail then LoopEnd(w, 0, true, None, []) else RunLoop(w, changes, checks, env, 0, limit)
  }

  /** The end of `_calculate` after the loop: no restore when an exception
      left the loop, otherwise `_revert_delta_changes`. */
  function Finish(e: LoopEnd, changes: ChangeTable, limit: int, setupFailed: bool): Run {
    if e.raised.Some? then Run(Escaped(e.raised.value), e.world, true, e.steps)
    else
      var r := RevertChanges(e.world.store, changes);
      var w := e.world.(store := r.store);
      if r.raised.Some? then Run(Escaped(r.raised.value), w, true, e.steps)
      else Run(Finished(Report(e.iteration, e.iteration == limit, e.conditionFail, setupFailed)), w, false, e.steps)
  }

  /** `_calculate`. */
  function Calculation(w: World, meshSet: bool, solverSet: bool, analysisSet: bool, changes: ChangeTable,
                       checks: seq<string>, limit: int, env: Env, running: bool): Run
  {
    if !meshSet then Run(Missing(FemMesh), w, running, [])
    else if !solverSet then Run(Missing(FemSolver), w, running, [])
    else if !analysisSet then Run(Missing(FemAnalysis), w, running, [])
    else Finish(LoopFrom(AfterSetup(w, env), SetupFails(env), changes, checks, env, limit), changes, limit, SetupFails(env))
  }

  // ---------------------------------------------------------------- the window

  /** The parts of the FEMIterate main window `_calculate` uses. */
  class MainWindow {
    const doc: Document
    const pipe: Toolchain
    /** `_fem_analysis`, null while none is chosen. */
    var analysis: Analysis?
    /** `_fem_mesh` and `_fem_solver` are set. */
    var meshSet: bool
    var solverSet: bool
    /** The settings: the change table, the check expressions, the limit. */
    var changes: ChangeTable
    var checks: seq<string>
    var iterationLimit: int
    var calculationRunning: bool

    constructor (doc: Document, pipe: Toolchain, changes: ChangeTable, checks: seq<string>, iterationLimit: int)
      ensures this.doc == doc && this.pipe == pipe
      ensures this.changes == changes && this.checks == checks && this.iterationLimit == iterationLimit
      ensures analysis == null && !meshSet && !solverSet && !calculationRunning
    {
      this.doc := doc;
      this.pipe := pipe;
      this.changes := changes;
      this.checks := checks;
      this.iterationLimit := iterationLimit;
      analysis := null;
      meshSet := false;
      solverSet := false;
      calculationRunning := false;
    }

    /** The part of the world `_calculate` acts on. */
    function Snapshot(): World
      reads this, doc, pipe, analysis
    {
      World(doc.props, if analysis != null then analysis.group else [], pipe.calls, pipe.recomputed)
    }

    /** The method `_calculate`. */
    method Calculate(env: Env) returns (outcome: Outcome)
      modifies this`calculationRunning, doc, pipe, analysis
      ensures var run := Calculation(old(Snapshot()), meshSet, solverSet, analysis != null, changes, checks,
                                     iterationLimit, env, old(calculationRunning));
              (outcome, Snapshot(), calculationRunning) == (run.outcome, run.world, run.running)
    {
      if !meshSet {
        return Missing(FemMesh);
      }
      if !solverSet {
        return Missing(FemSolver);
      }
      if analysis == null {
        return Missing(FemAnalysis);
      }
      ghost var w0 := Snapshot();
      calculationRunning := true;
      var limit := iterationLimit;
      var conditionFail := false;

      if env.feaRaises {
        conditionFail := true;
      } else {
        var raised := pipe.Invoke(PurgeResults, env.purgeRaises);
        if raised.Some? {
          conditionFail := true;
        }
      }
      assert Snapshot() == AfterSetup(w0, env) && conditionFail == SetupFails(env);

      var iteration, raised;
      ghost var steps;
      iteration, conditionFail, raised, steps := RunIterations(env, limit, conditionFail);
      if raised.Some? {
        return Escaped(raised.value);
      }

      raised := RevertDeltaChanges(doc, changes);
      if raised.Some? {
        return Escaped(raised.value);
      }
      calculationRunning := false;
      return Finished(Report(iteration, iteration == limit, conditionFail, SetupFails(env)));
    }

    /** One pass of the `while` loop: `_calculate_single_shot`, then, when it
        returns None, `_find_rename_latest_result` and `_eval_checks`. */
    method RunPass(env: Env, iteration: nat) returns (step: Step)
      requires analysis != null
      modifies doc, pipe, analysis
      ensures (step, Snapshot()) == Pass(old(Snapshot()), changes, checks, env, iteration)
    {
      var an: Analysis := analysis;
      var ret := CalculateSingleShot(doc, pipe, an, changes, env.shots(iteration));
      if !ret.LoopAgain? {
        return Stopped(ret);
      }
      var result := an.FindRenameLatestResult(iteration);
      var verdict := EvalChecks(checks, result, iteration, env.eval);
      return Checked(result, verdict);
    }

    /** The `while` loop of `_calculate`, from `iteration` 0 on. */
    method RunIterations(env: Env, limit: int, conditionFail0: bool)
      returns (iteration: nat, conditionFail: bool, raised: Option<Exception>, ghost steps: seq<Step>)
      requires analysis != null
      modifies doc, pipe, analysis
      ensures LoopEnd(Snapshot(), iteration, conditionFail, raised, steps)
              == LoopFrom(old(Snapshot()), conditionFail0, changes, checks, env, limit)
    {
      ghost var spec := LoopFrom(Snapshot(), conditionFail0, changes, checks, env, limit);
      iteration := 0;
      conditionFail := conditionFail0;
      raised := None;
      steps := [];

      while !conditionFail && iteration < limit
        invariant analysis != null && raised.None?
        invariant !conditionFail ==> Prepend(steps, RunLoop(Snapshot(), changes, checks, env, iteration, limit)) == spec
        invariant conditionFail ==> spec == LoopEnd(Snapshot(), iteration, true, None, steps)
        decreases limit - iteration
      {
        ghost var before := Snapshot();
        var step := RunPass(env, iteration);
        RunLoopStep(before, changes, checks, env, iteration, limit);
        PrependTwice(steps, [step], RunLoop(Snapshot(), changes, checks, env, iteration + 1, limit));
        steps := steps + [step];
        if step.Stopped? {
          // `_calculate_single_shot` returned False, or raised
          conditionFail := step.ret == ShotFailed;
          raised := Escape(step, checks);
          break;
        }
        if !step.verdict.NotTrue? {
          // every check returned True, or one raised
          raised := Escape(step, checks);
          break;
        }
        iteration := iteration + 1;
      }
    }
  }
}
