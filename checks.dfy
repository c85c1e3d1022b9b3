/** `_eval_checks`: the user's check expressions, evaluated in order against
    the current result and iteration. Python's `eval` is an oracle here. */
module Checks {
  import opened Base

  /** The value an expression evaluates to, as far as `ret is not True` can
      tell: the object True, or anything else. */
  datatype PyValue = PyTrue | PyFalse | PyNone | PyOther

  /** `eval(expr)` either returns a value or raises. */
  datatype EvalOutcome = Returned(value: PyValue) | Raised

  /** Python's `eval` of a check with `r` bound to the current result (the
      position of the renamed result object, or None) and `i` to the
      iteration. */
  type Evaluator = (string, Option<nat>, nat) -> EvalOutcome

  /** How a run of the checks ends: every check returned True; the check at
      `at` returned something other than True (the method returns False);
      or the check at `at` raised (the exception leaves the method). */
  datatype CheckResult = AllTrue | NotTrue(at: nat) | CheckRaised(at: nat)

  /** The check `expr` returned exactly the object True. */
  predicate IsTrue(eval: Evaluator, expr: string, result: Option<nat>, iteration: nat) {
    eval(expr, result, iteration) == Returned(PyTrue)
  }

  /** `_eval_checks(checks, result, iteration)`. */
  function EvalChecks(checks: seq<string>, result: Option<nat>, iteration: nat, eval: Evaluator): (r: CheckResult)
    ensures r.AllTrue? <==> forall k :: 0 <= k < |checks| ==> IsTrue(eval, checks[k], result, iteration)
    ensures !r.AllTrue? ==> r.at < |checks| && forall k :: 0 <= k < r.at ==> IsTrue(eval, checks[k], result, iteration)
    ensures r.NotTrue? ==> eval(checks[r.at], result, iteration).Returned? && !IsTrue(eval, checks[r.at], result, iteration)
    ensures r.CheckRaised? ==> eval(checks[r.at], result, iteration).Raised?
  {
    EvalFrom(checks, result, iteration, eval, 0)
  }

  /** The checks from position `from` on, all earlier ones having returned True. */
  function EvalFrom(checks: seq<string>, result: Option<nat>, iteration: nat, eval: Evaluator, from: nat): (r: CheckResult)
    requires from <= |checks|
    requires forall k :: 0 <= k < from ==> IsTrue(eval, checks[k], result, iteration)
    ensures r.AllTrue? <==> forall k :: 0 <= k < |checks| ==> IsTrue(eval, checks[k], result, iteration)
    ensures !r.AllTrue? ==> from <= r.at < |checks| && forall k :: 0 <= k < r.at ==> IsTrue(eval, checks[k], result, iteration)
    ensures r.NotTrue? ==> eval(checks[r.at], result, iteration).Returned? && !IsTrue(eval, checks[r.at], result, iteration)
    ensures r.CheckRaised? ==> eval(checks[r.at], result, iteration).Raised?
    decreases |checks| - from
  {
    if from == |checks| then AllTrue
    else
      match eval(checks[from], result, iteration)
      case Raised => CheckRaised(from)
      case Returned(v) =>
        if v != PyTrue then NotTrue(from)
        else EvalFrom(checks, result, iteration, eval, from + 1)
  }

  /** The evaluation stops at the first check that is not True: nothing after
      it is looked at. */
  lemma EvalStopsAtFirst(checks: seq<string>, rest: seq<string>, result: Option<nat>, iteration: nat, eval: Evaluator)
    requires !EvalChecks(checks, result, iteration, eval).AllTrue?
    ensures EvalChecks(checks + rest, result, iteration, eval) == EvalChecks(checks, result, iteration, eval)
  {
    var r := EvalChecks(checks, result, iteration, eval);
    var r' := EvalChecks(checks + rest, result, iteration, eval);
    var all := checks + rest;
    assert forall k :: 0 <= k < |checks| ==> all[k] == checks[k];
    assert !r'.AllTrue?;
    assert !IsTrue(eval, all[r.at], result, iteration);
    assert !IsTrue(eval, checks[r'.at], result, iteration);
  }

  /** A check list that all returned True passes on to the checks after it. */
  lemma EvalAfterAllTrue(checks: seq<string>, rest: seq<string>, result: Option<nat>, iteration: nat, eval: Evaluator)
    requires EvalChecks(checks, result, iteration, eval).AllTrue?
    ensures EvalChecks(checks + rest, result, iteration, eval) ==
              match EvalChecks(rest, result, iteration, eval)
              case AllTrue => AllTrue
              case NotTrue(k) => NotTrue(|checks| + k)
              case CheckRaised(k) => CheckRaised(|checks| + k)
  {
    var all := checks + rest;
    assert forall k :: 0 <= k < |checks| ==> all[k] == checks[k];
    assert forall k :: 0 <= k < |rest| ==> all[|checks| + k] == rest[k];
    var r := EvalChecks(rest, result, iteration, eval);
    var r' := EvalChecks(all, result, iteration, eval);
    if r.AllTrue? {
      assert forall k :: |checks| <= k < |all| ==> all[k] == rest[k - |checks|];
    } else {
      assert !r'.AllTrue?;
      assert !IsTrue(eval, all[|checks| + r.at], result, iteration);
      assert r'.at >= |checks|;
      assert !IsTrue(eval, rest[r'.at - |checks|], result, iteration);
    }
  }
}
