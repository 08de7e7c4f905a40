/**
 * The dynamic linker as seen by the shim: `dlopen` and `dlsym` are an oracle
 * (the `Linker`), and `dynlib_call!` turns their raw C results into a Result
 * (src/lib.rs:10-45).
 */
module Dynlib {
  import opened Wrappers
  import opened Bytes

  /** A handle passed to `dlsym`: one of the two pseudo-handles, or a library `dlopen` returned. */
  datatype Handle = RtldDefault | RtldNext | Library(addr: nat)

  /** What a foreign call left behind: the returned pointer (0 is null) and the text `dlerror` then reports. */
  datatype Raw = Raw(ptr: nat, dlerror: Option<string>)

  /** The linker's answers: what opening a path and looking up a symbol in a handle return. */
  datatype Linker = Linker(dlopen: seq<byte> -> Raw, dlsym: (Handle, string) -> Raw)

  /**
   * `dynlib_call!`: a null pointer is an error carrying `dlerror`'s text, or a
   * fixed message naming the call when `dlerror` has none; any other pointer is the result.
   */
  function DynlibCall(callee: string, raw: Raw): (r: Result<nat, string>)
    ensures r.Ok? <==> raw.ptr != 0
    ensures r.Ok? ==> r.value == raw.ptr
    ensures r.Err? && raw.dlerror.Some? ==> r.error == raw.dlerror.value
    ensures r.Err? && raw.dlerror.None? ==> r.error == "unknown error calling: " + callee
  {
    if raw.ptr == 0 then
      match raw.dlerror
      case None => Err("unknown error calling: " + callee)
      case Some(text) => Err(text)
    else Ok(raw.ptr)
  }

  /** `dlopen!`: open a shared object; on success the handle is a real library, never a pseudo-handle. */
  function Dlopen(l: Linker, path: seq<byte>): (r: Result<Handle, string>)
    ensures r.Ok? <==> l.dlopen(path).ptr != 0
    ensures r.Ok? ==> r.value == Library(l.dlopen(path).ptr)
    ensures r.Err? ==> r.error == DynlibCall("dlopen", l.dlopen(path)).error
  {
    match DynlibCall("dlopen", l.dlopen(path))
    case Ok(ptr) => Ok(Library(ptr))
    case Err(e) => Err(e)
  }

  /** `dlsym!`: look a symbol up in a handle; a found symbol is never null. */
  function Dlsym(l: Linker, h: Handle, symbol: string): (r: Result<nat, string>)
    ensures r.Ok? <==> l.dlsym(h, symbol).ptr != 0
    ensures r.Ok? ==> r.value == l.dlsym(h, symbol).ptr && r.value != 0
    ensures r.Err? && l.dlsym(h, symbol).dlerror.Some? ==> r.error == l.dlsym(h, symbol).dlerror.value
    ensures r.Err? && l.dlsym(h, symbol).dlerror.None? ==> r.error == "unknown error calling: dlsym"
  {
    DynlibCall("dlsym", l.dlsym(h, symbol))
  }
}
