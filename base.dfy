/** Shared vocabulary of the FEMIterate model: optional values, the keys and
    values of the parameter store, Python's str.startswith, and the exceptions
    that can leave the controller. */
module Base {

  datatype Option<+T> = None | Some(value: T)

  /** A property of a document object: (object name, property name). */
  type Key = (string, string)

  /** The properties the controller reads and writes, each holding an integer
      quantity (FreeCAD quantities are floats with units; see README). */
  type Store = map<Key, int>

  /** Python's `s.startswith(prefix)`. */
  predicate StartsWith(s: string, prefix: string) {
    |prefix| <= |s| && s[..|prefix|] == prefix
  }

  /** The calls the controller makes into the mesher (GmshTools), the document
      and the CalculiX tools (ccxtools.FemToolsCcx). */
  datatype Call =
    | Recompute | CreateMesh
    | UpdateObjects | SetupWorkingDir | SetupCcx | CheckPrerequisites
    | WriteInpFile | CcxRun | LoadResults
    | PurgeResults

  /** The Python exceptions the model tracks. Only a failure while creating
      the CalculiX tools or purging old results is caught; every other one
      ends `_calculate` where it is raised. */
  datatype Exception =
    | AttributeError(key: Key)      // getattr/setattr on a missing object or property
    | QuantityError(key: Key)       // Units.Quantity(val) could not parse, or prev + quantity failed
    | ToolError(call: Call)         // the mesher, the document or the solver raised in this call
    | EvalError(expr: string)       // eval of a check expression raised
}
