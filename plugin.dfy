/**
 * `add_function`: load one plugin and prepare its registration
 * (src/lib.rs:93-103).
 */
module Plugin {
  import opened Wrappers
  import opened Bytes
  import opened Paths
  import opened Dynlib

  /** The command every plugin must export. */
  const CustomFunction: string := "rl_custom_function"

  /**
   * The outcome of loading one path: a command to register under the file
   * stem, an error to report, or a loaded plugin whose path has no file name
   * (the `unwrap` at src/lib.rs:99 fails).
   */
  datatype Loaded = Ready(command: seq<byte>, func: nat) | Failed(error: string) | Unnamed

  /**
   * Open the path, then look up `rl_custom_function` in it; only when both
   * succeed is a command produced, named after the path's file stem.
   */
  function AddFunction(l: Linker, path: seq<byte>): (r: Loaded)
    ensures !r.Failed? <==> Dlopen(l, path).Ok? && Dlsym(l, Dlopen(l, path).value, CustomFunction).Ok?
    ensures r.Ready? <==> !r.Failed? && FileStem(path).Some?
    ensures r.Ready? ==> r.command == FileStem(path).value
    ensures r.Ready? ==> r.func == l.dlsym(Dlopen(l, path).value, CustomFunction).ptr && r.func != 0
    ensures Dlopen(l, path).Err? ==> r == Failed(Dlopen(l, path).error)
    ensures Dlopen(l, path).Ok? && r.Failed? ==> r.error == Dlsym(l, Dlopen(l, path).value, CustomFunction).error
  {
    match Dlopen(l, path)
    case Err(e) => Failed(e)
    case Ok(lib) =>
      match Dlsym(l, lib, CustomFunction)
      case Err(e) => Failed(e)
      case Ok(func) =>
        match FileStem(path)
        case None => Unnamed
        case Some(command) => Ready(command, func)
  }

  /**
   * A failed open short-circuits the lookup: the outcome is the same whatever
   * the linker would have answered to `dlsym`.
   */
  lemma OpenFailureSkipsLookup(l1: Linker, l2: Linker, path: seq<byte>)
    requires l1.dlopen(path) == l2.dlopen(path)
    requires Dlopen(l1, path).Err?
    ensures AddFunction(l1, path) == AddFunction(l2, path) == Failed(Dlopen(l1, path).error)
  {
  }
}
