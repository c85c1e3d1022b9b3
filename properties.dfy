/** What the controller guarantees, stated over the specification functions
    of the Iterate module: how one step ends, the shape and bound of the loop,
    how the deltas accumulate, where the original values are restored, and
    what the final report says. */
module IterateProperties {
  import opened Base
  import opened Changes
  import opened Results
  import opened Checks
  import opened Solver
  import opened Iterate

  // ---------------------------------------------------------------- one step

  /** `_calculate_single_shot` returns False exactly when the deltas apply,
      no call up to `check_prerequisites` raises, and the prerequisite
      message is not empty. */
  lemma ShotFailsIff(w: World, changes: ChangeTable, shot: Shot)
    ensures SingleShot(w, changes, shot).ret == ShotFailed <==>
              AppliesCleanly(w.store, Flatten(changes)) && shot.prerequisiteMessage != ""
              && (shot.raisesAt.None? || shot.raisesAt.value >= PREREQ_STEPS)
  {
    ApplyRaisesIff(w.store, Flatten(changes));
  }

  /** After a False step the input file was not written, CalculiX did not
      run, no results were loaded, and the analysis group is unchanged. */
  lemma ShotFailureSkipsSolve(w: World, changes: ChangeTable, shot: Shot)
    requires SingleShot(w, changes, shot).ret == ShotFailed
    ensures var e := SingleShot(w, changes, shot).world;
            e.calls == w.calls + PIPELINE[..PREREQ_STEPS]
            && WriteInpFile !in e.calls[|w.calls|..] && CcxRun !in e.calls[|w.calls|..]
            && LoadResults !in e.calls[|w.calls|..]
            && e.group == w.group
  {
    var e := SingleShot(w, changes, shot).world;
    assert e.calls[|w.calls|..] == PIPELINE[..PREREQ_STEPS];
  }

  /** `_calculate_single_shot` returns None exactly when the deltas apply,
      the prerequisite message is empty and no call raises; then every call
      was made in order and the loaded results joined the group. */
  lemma ShotLoopsAgainIff(w: World, changes: ChangeTable, shot: Shot)
    ensures SingleShot(w, changes, shot).ret == LoopAgain <==>
              AppliesCleanly(w.store, Flatten(changes)) && shot.prerequisiteMessage == ""
              && (shot.raisesAt.None? || shot.raisesAt.value >= |PIPELINE|)
    ensures SingleShot(w, changes, shot).ret == LoopAgain ==>
              var a := ApplyChanges(w.store, changes).store;
              SingleShot(w, changes, shot).world == World(a, w.group + shot.newResults, w.calls + PIPELINE, w.recomputed + [a])
  {
    ApplyRaisesIff(w.store, Flatten(changes));
    assert PIPELINE[..|PIPELINE|] == PIPELINE;
  }

  /** The deltas are applied before anything is meshed or solved: when they
      raise no tool is called, and otherwise the document is recomputed with
      the changed values. */
  lemma ShotAppliesBeforeMeshing(w: World, changes: ChangeTable, shot: Shot)
    ensures var a := ApplyChanges(w.store, changes);
            var e := SingleShot(w, changes, shot);
            e.world.store == a.store
            && (a.raised.Some? ==> e.ret == ShotRaised(a.raised.value) && e.world.calls == w.calls
                                   && e.world.recomputed == w.recomputed)
            && (a.raised.None? ==> e.world.recomputed == w.recomputed + [a.store]
                                   && |e.world.calls| >= |w.calls| && e.world.calls[..|w.calls|] == w.calls)
  {
    var a := ApplyChanges(w.store, changes);
    var e := SingleShot(w, changes, shot);
    if a.raised.None? {
      assert e.world.calls[..|w.calls|] == w.calls;
    }
  }

  // ---------------------------------------------------------------- the loop

  /** The pass found the checks not all True: the loop goes on. */
  predicate Continues(s: Step) {
    s.Checked? && s.verdict.NotTrue?
  }

  /** The last pass ended the loop (converged, False, or an exception). */
  predicate Ended(steps: seq<Step>) {
    steps != [] && !Continues(steps[|steps| - 1])
  }

  /** The pass raised: in the step, or in a check. */
  predicate Raises(s: Step) {
    (s.Stopped? && s.ret.ShotRaised?) || (s.Checked? && s.verdict.CheckRaised?)
  }

  /** The loop below the limit is one pass, followed by the rest of the loop
      when that pass goes on. */
  lemma RunLoopUnfold(w: World, changes: ChangeTable, checks: seq<string>, env: Env, i: nat, limit: int)
    requires i < limit
    ensures var p := Pass(w, changes, checks, env, i);
            var e := RunLoop(w, changes, checks, env, i, limit);
            (Continues(p.0) ==> e == Prepend([p.0], RunLoop(p.1, changes, checks, env, i + 1, limit)))
            && (!Continues(p.0) ==> e.steps == [p.0] && e.world == p.1 && e.iteration == i
                                    && (e.conditionFail <==> p.0 == Stopped(ShotFailed))
                                    && (e.raised.Some? <==> Raises(p.0)))
  {
  }

  /** The shape of the loop from `i`: it goes on after every pass but the
      last; `iteration` counts the passes that went on; a loop that no pass
      ended stopped at the limit; a pass that ends it happens below the
      limit. */
  predicate Shaped(e: LoopEnd, i: nat, limit: int) {
    (forall k :: 0 <= k < |e.steps| - 1 ==> Continues(e.steps[k]))
    && e.iteration + (if Ended(e.steps) then 1 else 0) == i + |e.steps|
    && (!Ended(e.steps) ==> limit <= e.iteration)
    && (Ended(e.steps) ==> e.iteration < limit)
    && (i <= limit ==> e.iteration <= limit)
  }

  lemma ShapedPrepend(step: Step, rest: LoopEnd, i: nat, limit: int)
    requires i < limit && Continues(step) && Shaped(rest, i + 1, limit)
    ensures Shaped(Prepend([step], rest), i, limit)
  {
    var e := Prepend([step], rest);
    assert e.steps == [step] + rest.steps;
    assert forall k :: 1 <= k < |e.steps| ==> e.steps[k] == rest.steps[k - 1];
  }

  /** Every run of the loop has that shape. */
  lemma {:induction false} LoopShape(w: World, changes: ChangeTable, checks: seq<string>, env: Env, i: nat, limit: int)
    ensures Shaped(RunLoop(w, changes, checks, env, i, limit), i, limit)
    decreases if i < limit then limit - i else 0
  {
    if i < limit {
      RunLoopUnfold(w, changes, checks, env, i, limit);
      var p := Pass(w, changes, checks, env, i);
      if Continues(p.0) {
        LoopShape(p.1, changes, checks, env, i + 1, limit);
        ShapedPrepend(p.0, RunLoop(p.1, changes, checks, env, i + 1, limit), i, limit);
      }
    }
  }

  /** The loop makes at most `max_iterations` passes. */
  lemma LoopBound(w: World, changes: ChangeTable, checks: seq<string>, env: Env, limit: int)
    ensures |RunLoop(w, changes, checks, env, 0, limit).steps| <= (if 0 < limit then limit else 0)
  {
    LoopShape(w, changes, checks, env, 0, limit);
  }

  /** `condition_fail` is set exactly by a False step, and an exception
      leaves the loop exactly from the pass that raised it. */
  predicate Flagged(e: LoopEnd) {
    (e.conditionFail <==> e.steps != [] && e.steps[|e.steps| - 1] == Stopped(ShotFailed))
    && (e.raised.Some? <==> e.steps != [] && Raises(e.steps[|e.steps| - 1]))
  }

  lemma FlaggedPrepend(step: Step, rest: LoopEnd)
    requires Continues(step) && Flagged(rest)
    ensures Flagged(Prepend([step], rest))
  {
    var e := Prepend([step], rest);
    assert e.steps == [step] + rest.steps;
    assert rest.steps != [] ==> e.steps[|e.steps| - 1] == rest.steps[|rest.steps| - 1];
  }

  /** Every run of the loop sets its flags that way. */
  lemma {:induction false} LoopFlags(w: World, changes: ChangeTable, checks: seq<string>, env: Env, i: nat, limit: int)
    ensures Flagged(RunLoop(w, changes, checks, env, i, limit))
    decreases if i < limit then limit - i else 0
  {
    if i < limit {
      RunLoopUnfold(w, changes, checks, env, i, limit);
      var p := Pass(w, changes, checks, env, i);
      if Continues(p.0) {
        LoopFlags(p.1, changes, checks, env, i + 1, limit);
        FlaggedPrepend(p.0, RunLoop(p.1, changes, checks, env, i + 1, limit));
      }
    }
  }

  /** Each pass of a loop from `i` evaluated the checks against the result
      it renamed, with `i` bound to its own iteration; a False step had a
      non-empty prerequisite message in the iteration where the loop
      stopped. */
  predicate Verdicted(e: LoopEnd, checks: seq<string>, env: Env, i: nat) {
    (forall k :: 0 <= k < |e.steps| && e.steps[k].Checked? ==>
       e.steps[k].verdict == EvalChecks(checks, e.steps[k].result, i + k, env.eval))
    && (e.conditionFail ==> env.shots(e.iteration).prerequisiteMessage != "")
  }

  lemma VerdictedPrepend(step: Step, rest: LoopEnd, checks: seq<string>, env: Env, i: nat)
    requires step.Checked? ==> step.verdict == EvalChecks(checks, step.result, i, env.eval)
    requires Verdicted(rest, checks, env, i + 1)
    ensures Verdicted(Prepend([step], rest), checks, env, i)
  {
    var e := Prepend([step], rest);
    assert e.steps == [step] + rest.steps;
    assert forall k :: 1 <= k < |e.steps| ==> e.steps[k] == rest.steps[k - 1];
  }

  /** Every run of the loop evaluates its checks that way. */
  lemma {:induction false} LoopVerdicts(w: World, changes: ChangeTable, checks: seq<string>, env: Env, i: nat, limit: int)
    ensures Verdicted(RunLoop(w, changes, checks, env, i, limit), checks, env, i)
    decreases if i < limit then limit - i else 0
  {
    if i < limit {
      RunLoopUnfold(w, changes, checks, env, i, limit);
      var p := Pass(w, changes, checks, env, i);
      if Continues(p.0) {
        LoopVerdicts(p.1, changes, checks, env, i + 1, limit);
        VerdictedPrepend(p.0, RunLoop(p.1, changes, checks, env, i + 1, limit), checks, env, i);
      } else {
        ShotFailsIff(w, changes, env.shots(i));
      }
    }
  }

  /** The loop stops at the first pass whose checks all return True, leaving
      `iteration` at that pass. */
  lemma LoopStopsAtFirstPass(w: World, changes: ChangeTable, checks: seq<string>, env: Env, i: nat, limit: int, k: nat)
    requires var e := RunLoop(w, changes, checks, env, i, limit);
             k < |e.steps| && e.steps[k].Checked? && e.steps[k].verdict.AllTrue?
    ensures var e := RunLoop(w, changes, checks, env, i, limit);
            k == |e.steps| - 1 && e.iteration == i + k && !e.conditionFail && e.raised.None?
            && forall j :: 0 <= j < k ==> Continues(e.steps[j])
  {
    LoopShape(w, changes, checks, env, i, limit);
    LoopFlags(w, changes, checks, env, i, limit);
    StopsAt(RunLoop(w, changes, checks, env, i, limit), i, limit, k);
  }

  lemma StopsAt(e: LoopEnd, i: nat, limit: int, k: nat)
    requires Shaped(e, i, limit) && Flagged(e)
    requires k < |e.steps| && e.steps[k].Checked? && e.steps[k].verdict.AllTrue?
    ensures k == |e.steps| - 1 && e.iteration == i + k && !e.conditionFail && e.raised.None?
  {
  }

  /** `iteration == max_iterations` after the loop exactly when every pass
      went on. */
  lemma LoopLimitIff(w: World, changes: ChangeTable, checks: seq<string>, env: Env, i: nat, limit: int)
    requires i <= limit
    ensures var e := RunLoop(w, changes, checks, env, i, limit);
            e.iteration == limit <==> forall k :: 0 <= k < |e.steps| ==> Continues(e.steps[k])
  {
    LoopShape(w, changes, checks, env, i, limit);
  }

  // ---------------------------------------------------------------- accumulation

  /** The stores the document holds after 1, 2, ..., n applications. */
  function Schedule(s: Store, es: seq<Entry>, n: nat): (r: seq<Store>)
    ensures |r| == n
  {
    seq(n, k requires 0 <= k < n => Shifted(s, es, k + 1))
  }

  lemma ScheduleStep(s: Store, es: seq<Entry>, n: nat)
    ensures [Shifted(s, es, 1)] + Schedule(Shifted(s, es, 1), es, n) == Schedule(s, es, n + 1)
  {
    var a := [Shifted(s, es, 1)] + Schedule(Shifted(s, es, 1), es, n);
    var b := Schedule(s, es, n + 1);
    forall k | 1 <= k < n + 1
      ensures a[k] == b[k]
    {
      ShiftedCompose(s, es, 1, k);
    }
  }

  /** A pass over a cleanly applying table leaves the deltas added once, and
      the document was recomputed with them. */
  lemma PassApplies(w: World, changes: ChangeTable, checks: seq<string>, env: Env, i: nat)
    requires AppliesCleanly(w.store, Flatten(changes))
    ensures var s1 := Shifted(w.store, Flatten(changes), 1);
            var p := Pass(w, changes, checks, env, i);
            p.1.store == s1 && p.1.recomputed == w.recomputed + [s1]
  {
    ApplyAddsIncrement(w.store, Flatten(changes));
    ShotAppliesBeforeMeshing(w, changes, env.shots(i));
  }

  /** The loop ended with one delta added per pass, and the `n`-th recompute
      saw `n` deltas. */
  predicate Accumulated(e: LoopEnd, s: Store, recomputed: seq<Store>, es: seq<Entry>) {
    e.world.store == Shifted(s, es, |e.steps|) && e.world.recomputed == recomputed + Schedule(s, es, |e.steps|)
  }

  lemma AccumulatedPrepend(step: Step, rest: LoopEnd, s: Store, recomputed: seq<Store>, es: seq<Entry>)
    requires Accumulated(rest, Shifted(s, es, 1), recomputed + [Shifted(s, es, 1)], es)
    ensures Accumulated(Prepend([step], rest), s, recomputed, es)
  {
    var n := |rest.steps|;
    ShiftedCompose(s, es, 1, n);
    ScheduleStep(s, es, n);
  }

  /** When the table applies cleanly, every pass adds the deltas once more:
      after the loop each property holds its start value plus the number of
      passes times its delta, and the `n`-th recompute saw `n` deltas. */
  lemma {:induction false} LoopAccumulates(w: World, changes: ChangeTable, checks: seq<string>, env: Env, i: nat, limit: int)
    requires AppliesCleanly(w.store, Flatten(changes))
    ensures Accumulated(RunLoop(w, changes, checks, env, i, limit), w.store, w.recomputed, Flatten(changes))
    decreases if i < limit then limit - i else 0
  {
    var es := Flatten(changes);
    if limit <= i {
      ShiftedZero(w.store, es);
    } else {
      RunLoopUnfold(w, changes, checks, env, i, limit);
      PassApplies(w, changes, checks, env, i);
      var p := Pass(w, changes, checks, env, i);
      var s1 := Shifted(w.store, es, 1);
      if Continues(p.0) {
        CleanByKeys(w.store, s1, es);
        LoopAccumulates(p.1, changes, checks, env, i + 1, limit);
        AccumulatedPrepend(p.0, RunLoop(p.1, changes, checks, env, i + 1, limit), w.store, w.recomputed, es);
      } else {
        assert Schedule(w.store, es, 1) == [s1];
      }
    }
  }

  /** Properties no entry names keep their values through the whole loop. */
  lemma {:induction false} LoopKeepsUnlisted(w: World, changes: ChangeTable, checks: seq<string>, env: Env, i: nat, limit: int)
    ensures SameOffListed(w.store, RunLoop(w, changes, checks, env, i, limit).world.store, Flatten(changes))
    decreases if i < limit then limit - i else 0
  {
    var es := Flatten(changes);
    if i < limit {
      ApplyTouchesOnlyListed(w.store, es);
      var se := SingleShot(w, changes, env.shots(i));
      if se.ret == LoopAgain {
        var result := FirstUnlabelledResult(se.world.group);
        var w2 := se.world.(group := Relabel(se.world.group, i));
        var verdict := EvalChecks(checks, result, i, env.eval);
        if verdict.NotTrue? {
          LoopKeepsUnlisted(w2, changes, checks, env, i + 1, limit);
          SameOffListedTrans(w.store, w2.store, RunLoop(w2, changes, checks, env, i + 1, limit).world.store, es);
        }
      }
    }
  }

  // ---------------------------------------------------------------- the run

  /** A missing mesh, solver or analysis (checked in that order) ends the run
      before anything is changed, run or restored. */
  lemma RunMissingChangesNothing(w: World, meshSet: bool, solverSet: bool, analysisSet: bool, changes: ChangeTable,
                                 checks: seq<string>, limit: int, env: Env, running: bool)
    ensures var run := Calculation(w, meshSet, solverSet, analysisSet, changes, checks, limit, env, running);
            (run.outcome.Missing? <==> !(meshSet && solverSet && analysisSet))
            && (run.outcome.Missing? ==> run.world == w && run.running == running && run.steps == [])
            && (run.outcome == Missing(FemMesh) <==> !meshSet)
            && (run.outcome == Missing(FemSolver) <==> meshSet && !solverSet)
            && (run.outcome == Missing(FemAnalysis) <==> meshSet && solverSet && !analysisSet)
  {
    var run := Calculation(w, meshSet, solverSet, analysisSet, changes, checks, limit, env, running);
    if meshSet && solverSet && analysisSet {
      var e := LoopFrom(AfterSetup(w, env), SetupFails(env), changes, checks, env, limit);
      assert run == Finish(e, changes, limit, SetupFails(env));
    }
  }

  /** With the mesh, solver and analysis set, the run reaches its normal end
      (the rollback after the loop) exactly when every listed property exists
      and no pass raised: converged, at the limit, after a False step, or
      after a failed setup. */
  lemma RunFinishedIff(w: World, changes: ChangeTable, checks: seq<string>, limit: int, env: Env, running: bool)
    ensures var run := Calculation(w, true, true, true, changes, checks, limit, env, running);
            run.outcome.Finished? <==>
              AllPresent(w.store, Flatten(changes))
              && (run.steps == [] || !Raises(run.steps[|run.steps| - 1]))
  {
    var es := Flatten(changes);
    var w1 := AfterSetup(w, env);
    var e := LoopFrom(w1, SetupFails(env), changes, checks, env, limit);
    if !SetupFails(env) {
      LoopKeepsUnlisted(w1, changes, checks, env, 0, limit);
      LoopFlags(w1, changes, checks, env, 0, limit);
    }
    assert SameOffListed(w.store, e.world.store, es);
    assert AllPresent(w.store, es) <==> AllPresent(e.world.store, es);
    RevertRaisesIff(e.world.store, es);
  }

  /** A normal end restores the document: every property holds what a
      single rollback of the starting document would give, whatever the
      passes added in between. */
  lemma RunRestores(w: World, changes: ChangeTable, checks: seq<string>, limit: int, env: Env, running: bool)
    requires Calculation(w, true, true, true, changes, checks, limit, env, running).outcome.Finished?
    ensures var run := Calculation(w, true, true, true, changes, checks, limit, env, running);
            RevertChanges(w.store, changes).raised.None?
            && run.world.store == RevertChanges(w.store, changes).store && !run.running
  {
    var es := Flatten(changes);
    var w1 := AfterSetup(w, env);
    var e := LoopFrom(w1, SetupFails(env), changes, checks, env, limit);
    if !SetupFails(env) {
      LoopKeepsUnlisted(w1, changes, checks, env, 0, limit);
    }
    assert SameOffListed(w.store, e.world.store, es);
    RevertRaisesIff(e.world.store, es);
    RevertForgetsListedValues(w.store, e.world.store, es);
  }

  /** After a normal end every named property holds its recorded `orig` and
      every other property its starting value. */
  lemma RunWritesOrig(w: World, changes: ChangeTable, checks: seq<string>, limit: int, env: Env, running: bool)
    requires Calculation(w, true, true, true, changes, checks, limit, env, running).outcome.Finished?
    requires UniqueKeys(Flatten(changes))
    ensures var s := Calculation(w, true, true, true, changes, checks, limit, env, running).world.store;
            var es := Flatten(changes);
            (forall i :: 0 <= i < |es| ==> es[i].key in s && s[es[i].key] == es[i].change.orig)
            && (forall k :: k in w.store && !Listed(es, k) ==> k in s && s[k] == w.store[k])
  {
    var es := Flatten(changes);
    RunRestores(w, changes, checks, limit, env, running);
    RevertRaisesIff(w.store, es);
    RevertWritesOrig(w.store, es);
  }

  /** When creating the tools or purging fails, no pass runs, the error is
      reported, and the original values are still written back. */
  lemma RunSetupFailure(w: World, changes: ChangeTable, checks: seq<string>, limit: int, env: Env, running: bool)
    requires SetupFails(env)
    ensures var run := Calculation(w, true, true, true, changes, checks, limit, env, running);
            var r := RevertChanges(w.store, changes);
            run.steps == [] && run.world.calls == w.calls && run.world.store == r.store
            && (r.raised.None? ==> run.outcome == Finished(Report(0, limit == 0, true, true)))
            && (r.raised.Some? ==> run.outcome == Escaped(r.raised.value))
  {
  }

  /** An exception from the deltas, a tool or a check leaves `_calculate`
      without the rollback: with a cleanly applying table, the document keeps
      one delta per pass made and the run stays marked as running. */
  lemma RunEscapeKeepsDeltas(w: World, changes: ChangeTable, checks: seq<string>, limit: int, env: Env, running: bool)
    requires AppliesCleanly(w.store, Flatten(changes))
    requires Calculation(w, true, true, true, changes, checks, limit, env, running).outcome.Escaped?
    ensures var run := Calculation(w, true, true, true, changes, checks, limit, env, running);
            run.world.store == Shifted(w.store, Flatten(changes), |run.steps|) && run.running && |run.steps| >= 1
  {
    var es := Flatten(changes);
    var w1 := AfterSetup(w, env);
    var e := LoopFrom(w1, SetupFails(env), changes, checks, env, limit);
    if SetupFails(env) || e.raised.None? {
      assert SameOffListed(w.store, e.world.store, es) by {
        if !SetupFails(env) {
          LoopKeepsUnlisted(w1, changes, checks, env, 0, limit);
        }
      }
      assert AllPresent(e.world.store, es);
      RevertRaisesIff(e.world.store, es);
      assert false;
    }
    LoopAccumulates(w1, changes, checks, env, 0, limit);
    LoopFlags(w1, changes, checks, env, 0, limit);
  }

  /** The limit message is logged exactly when `max_iterations` passes were
      made and every one of them went on. */
  lemma RunLimitHitIff(w: World, changes: ChangeTable, checks: seq<string>, limit: int, env: Env, running: bool)
    requires Calculation(w, true, true, true, changes, checks, limit, env, running).outcome.Finished?
    ensures var run := Calculation(w, true, true, true, changes, checks, limit, env, running);
            run.outcome.report.limitHit <==>
              |run.steps| == limit && forall k :: 0 <= k < |run.steps| ==> Continues(run.steps[k])
  {
    if !SetupFails(env) {
      LoopShape(AfterSetup(w, env), changes, checks, env, 0, limit);
    }
  }

  // ---------------------------------------------------------------- the report

  /** The count in "computed {iteration+1} iterations", as written. */
  function ReportedIterations(r: Report): int {
    r.iteration + 1
  }

  /** The number of passes the loop made, which the message means to show. */
  function ComputedIterations(r: Report, limit: int): nat {
    if r.setupFailed then 0 else if limit <= r.iteration then r.iteration else r.iteration + 1
  }

  /** The corrected count is the number of passes made. */
  lemma ComputedIterationsCounts(w: World, changes: ChangeTable, checks: seq<string>, limit: int, env: Env, running: bool)
    requires Calculation(w, true, true, true, changes, checks, limit, env, running).outcome.Finished?
    ensures var run := Calculation(w, true, true, true, changes, checks, limit, env, running);
            ComputedIterations(run.outcome.report, limit) == |run.steps|
  {
    if !SetupFails(env) {
      LoopShape(AfterSetup(w, env), changes, checks, env, 0, limit);
    }
  }

  /** The message as written counts one pass too many when the loop ends at
      or past the limit (a negative limit makes no pass at all) and when the
      tools could not be created. */
  lemma ReportedIterationsOverstate(w: World, changes: ChangeTable, checks: seq<string>, limit: int, env: Env, running: bool)
    requires Calculation(w, true, true, true, changes, checks, limit, env, running).outcome.Finished?
    ensures var run := Calculation(w, true, true, true, changes, checks, limit, env, running);
            var r := run.outcome.report;
            (r.limitHit || r.setupFailed || limit <= r.iteration ==> ReportedIterations(r) == |run.steps| + 1)
            && (!r.setupFailed && r.iteration < limit ==> ReportedIterations(r) == |run.steps|)
  {
    ComputedIterationsCounts(w, changes, checks, limit, env, running);
  }

  /** A concrete run: limit 1, one check that returns False. One pass is
      made, and the message says 2. */
  lemma ReportAtLimitExample()
    ensures var env := Env(false, false, (_: nat) => Shot(None, "", []), (_: string, _: Option<nat>, _: nat) => Returned(PyFalse));
            var run := Calculation(World(map[], [], [], []), true, true, true, [], ["r is not None"], 1, env, false);
            run.outcome.Finished? && |run.steps| == 1 && ReportedIterations(run.outcome.report) == 2
  {
    var env := Env(false, false, (_: nat) => Shot(None, "", []), (_: string, _: Option<nat>, _: nat) => Returned(PyFalse));
    var w1 := World(map[], [], [PurgeResults], []);
    var se := SingleShot(w1, [], env.shots(0));
    assert ApplyChanges(map[], []) == Applied(map[], None);
    assert se.ret == LoopAgain;
    var w2 := se.world.(group := Relabel(se.world.group, 0));
    assert EvalChecks(["r is not None"], None, 0, env.eval) == NotTrue(0);
    assert RunLoop(w2, [], ["r is not None"], env, 1, 1).steps == [];
    assert RevertChanges(map[], []) == Applied(map[], None);
  }

  /** A concrete run with limit -1: the loop makes no pass, the limit
      message is not logged, and the message says 1. */
  lemma ReportNegativeLimitExample()
    ensures var env := Env(false, false, (_: nat) => Shot(None, "", []), (_: string, _: Option<nat>, _: nat) => Returned(PyTrue));
            var run := Calculation(World(map[], [], [], []), true, true, true, [], [], -1, env, false);
            run.outcome.Finished? && run.steps == [] && !run.outcome.report.limitHit
            && ReportedIterations(run.outcome.report) == 1
  {
  }
}
