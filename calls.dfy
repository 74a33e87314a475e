/**
 * Shared vocabulary of the fuzz harness: the values a generator hands to a
 * target, the auxiliary cleanup metadata that travels with them, the outcome
 * of a call, and the foreign functions the harness relies on but does not
 * define (the five targets, `ast.parse`, `repr`, `traceback.format_exception`).
 */
module Calls {

  datatype Option<T> = None | Some(value: T)

  /** A raised Python exception: its class name, its message and its stack. */
  datatype Fault = Fault(kind: string, msg: string, trace: string)

  /** Either a value, or the exception raised while computing it. */
  datatype Result<T> = Success(value: T) | Failure(error: Fault)

  /** How a call to a target ended; a normal return value is discarded. */
  datatype Outcome = Ok | Raised(fault: Fault)

  /** A parsed module as `ast.parse` returns it, known only by identity. */
  datatype Tree = Module(id: nat)

  /** A positional argument passed to a target. */
  datatype Value = Str(s: string) | StrList(items: seq<string>) | TreeArg(tree: Tree)

  /**
   * The keyword arguments a generator returns: nothing, `{"_tmp_dir": d}`
   * or `{"_tmp_dirs": ds}`.  They name what the wrapper must clean up.
   */
  datatype Aux = NoAux | TmpDir(dir: string) | TmpDirs(dirs: seq<string>)

  /** One `(args, kwargs)` pair produced by a generator. */
  datatype Call = Call(args: seq<Value>, aux: Aux)

  /** The five functions under test, in the order the harness runs them. */
  datatype Target =
    | GetPythonParseObject
    | CheckLoggingPerData
    | GetDataLoadCount
    | GetAllPythonFilesinRepo
    | GetCSVData

  /** The live directories of the file system, each with its files' contents. */
  type Dirs = map<string, map<string, string>>

  /**
   * The foreign functions the harness calls.  A target sees its positional
   * arguments and the file system as it is at the moment of the call.
   */
  datatype Env = Env(
    target: (Target, seq<Value>, Dirs) -> Outcome,
    parse: string -> Option<Tree>,
    reprArgs: seq<Value> -> string,
    reprKwargs: Aux -> string,
    formatException: Fault -> string)

  /** The display name the harness logs for each target. */
  function TargetName(t: Target): string
  {
    match t
    case GetPythonParseObject => "py_parser.getPythonParseObject"
    case CheckLoggingPerData => "py_parser.checkLoggingPerData"
    case GetDataLoadCount => "lint_engine.getDataLoadCount"
    case GetAllPythonFilesinRepo => "main.getAllPythonFilesinRepo"
    case GetCSVData => "main.getCSVData"
  }

  /** The display names tell the five targets apart. */
  lemma TargetNameInjective(t: Target, u: Target)
    ensures TargetName(t) == TargetName(u) ==> t == u
  {
    var a, b := TargetName(t), TargetName(u);
    if a == b {
      assert |a| == |b| && a[0] == b[0] && a[10] == b[10];
    }
  }

  /** The directories a call's metadata hands over for cleanup. */
  function AuxDirs(aux: Aux): seq<string>
  {
    match aux
    case NoAux => []
    case TmpDir(d) => [d]
    case TmpDirs(ds) => ds
  }

  /**
   * Whether a call binds to the target's parameters: the wrappers take one
   * path (two arguments for the CSV target) and an optional `_tmp_dir`
   * (`_tmp_dirs`); `checkLoggingPerData` takes a tree and a name only.
   */
  predicate Fits(t: Target, call: Call)
  {
    match t
    case CheckLoggingPerData => |call.args| == 2 && call.aux.NoAux?
    case GetCSVData => |call.args| == 2 && !call.aux.TmpDir?
    case _ => |call.args| == 1 && !call.aux.TmpDirs?
  }

  /** The most temporary directories one generated call of `t` creates. */
  function MaxDirs(t: Target): nat
  {
    match t
    case CheckLoggingPerData => 0
    case GetCSVData => 4
    case _ => 1
  }
}
