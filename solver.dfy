/** The mesher and the CalculiX tools as the controller drives them. Their
    work is outside the model; what is kept is which calls were made, in
    which order, what the document held when it was recomputed, which call
    raised, the prerequisite message, and the result objects that
    `load_results` adds to the analysis. */
module Solver {
  import opened Base
  import opened FreeCadDocument
  import opened Results

  /** The calls of one `_calculate_single_shot`, in order. */
  const PIPELINE: seq<Call> := [Recompute, CreateMesh, UpdateObjects, SetupWorkingDir, SetupCcx,
                                CheckPrerequisites, WriteInpFile, CcxRun, LoadResults]

  /** The number of calls up to and including `check_prerequisites`. */
  const PREREQ_STEPS := 6

  /** What the tools do in one iteration: the position in PIPELINE of the
      call that raises, if any; the message `check_prerequisites` returns
      (empty when the setup is fine); the result objects `load_results`
      adds. */
  datatype Shot = Shot(raisesAt: Option<nat>, prerequisiteMessage: string, newResults: seq<GroupItem>)

  /** The call at position `step` of PIPELINE raises in this iteration. */
  predicate RaisesAt(shot: Shot, step: nat) {
    shot.raisesAt == Some(step)
  }

  /** The mesher and the solver tools, seen through the calls made to them. */
  class Toolchain {
    /** The calls that returned, oldest first. */
    var calls: seq<Call>
    /** The document properties at each `doc.recompute()`, oldest first. */
    var recomputed: seq<Store>

    constructor ()
      ensures calls == [] && recomputed == []
    {
      calls := [];
      recomputed := [];
    }

    /** A call that returns nothing the controller looks at. */
    method Invoke(c: Call, raises: bool) returns (raised: Option<Exception>)
      modifies this
      ensures raised == (if raises then Some(ToolError(c)) else None)
      ensures calls == (if raises then old(calls) else old(calls) + [c])
      ensures recomputed == old(recomputed)
    {
      if raises {
        return Some(ToolError(c));
      }
      calls := calls + [c];
      return None;
    }

    /** `doc.recompute()`: the document is rebuilt from its current properties. */
    method Recompute(doc: Document, raises: bool) returns (raised: Option<Exception>)
      modifies this
      ensures raised == (if raises then Some(ToolError(Call.Recompute)) else None)
      ensures calls == (if raises then old(calls) else old(calls) + [Call.Recompute])
      ensures recomputed == old(recomputed) + [doc.props]
    {
      recomputed := recomputed + [doc.props];
      raised := Invoke(Call.Recompute, raises);
    }

    /** `fea.check_prerequisites()`: the setup problems found, empty if none. */
    method CheckPrerequisites(message: string, raises: bool) returns (raised: Option<Exception>, msg: string)
      modifies this
      ensures raised == (if raises then Some(ToolError(Call.CheckPrerequisites)) else None)
      ensures calls == (if raises then old(calls) else old(calls) + [Call.CheckPrerequisites])
      ensures recomputed == old(recomputed)
      ensures raised.None? ==> msg == message
    {
      raised := Invoke(Call.CheckPrerequisites, raises);
      msg := message;
    }

    /** `fea.load_results()`: the new result objects join the analysis group. */
    method LoadResults(analysis: Analysis, results: seq<GroupItem>, raises: bool) returns (raised: Option<Exception>)
      modifies this, analysis
      ensures raised == (if raises then Some(ToolError(Call.LoadResults)) else None)
      ensures calls == (if raises then old(calls) else old(calls) + [Call.LoadResults])
      ensures recomputed == old(recomputed)
      ensures analysis.group == (if raises then old(analysis.group) else old(analysis.group) + results)
    {
      raised := Invoke(Call.LoadResults, raises);
      if raised.None? {
        analysis.group := analysis.group + results;
      }
    }
  }
}
