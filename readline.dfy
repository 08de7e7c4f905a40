/**
 * The `readline` module of the shim: which handle the real readline exports
 * are looked up in, and the two lookups the shim needs (src/lib.rs:69-89).
 */
module Readline {
  import opened Wrappers
  import opened Bytes
  import opened Dynlib

  /** A failed `unwrap` of a lazy lookup: the process cannot go on. */
  datatype Fatal = LibraryMissing(error: string) | SymbolMissing(symbol: string, error: string)

  /** `libreadline.so`, opened when readline is not already visible. */
  const LibreadlineSo: seq<byte> := [108, 105, 98, 114, 101, 97, 100, 108, 105, 110, 101, 46, 115, 111]

  /**
   * `libreadline`: the default scope when `rl_initialize` resolves there,
   * otherwise the handle of a freshly opened `libreadline.so`.
   */
  function LibReadline(l: Linker): (r: Result<Handle, Fatal>)
    ensures r == Ok(RtldDefault) <==> Dlsym(l, RtldDefault, "rl_initialize").Ok?
    ensures r.Ok? && r.value != RtldDefault ==> Dlopen(l, LibreadlineSo) == Ok(r.value) && r.value.Library?
    ensures r.Err? <==> Dlsym(l, RtldDefault, "rl_initialize").Err? && Dlopen(l, LibreadlineSo).Err?
    ensures r.Err? ==> r.error == LibraryMissing(Dlopen(l, LibreadlineSo).error)
  {
    if Dlsym(l, RtldDefault, "rl_initialize").Ok? then Ok(RtldDefault)
    else
      match Dlopen(l, LibreadlineSo)
      case Ok(h) => Ok(h)
      case Err(e) => Err(LibraryMissing(e))
  }

  /** `readline_lookup!`: a symbol that must be found, or the process fails. */
  function Lookup(l: Linker, h: Handle, symbol: string): (r: Result<nat, Fatal>)
    ensures r.Ok? <==> l.dlsym(h, symbol).ptr != 0
    ensures r.Ok? ==> r.value == l.dlsym(h, symbol).ptr
    ensures r.Err? ==> r.error == SymbolMissing(symbol, Dlsym(l, h, symbol).error)
  {
    match Dlsym(l, h, symbol)
    case Ok(addr) => Ok(addr)
    case Err(e) => Err(SymbolMissing(symbol, e))
  }

  /**
   * Where the real `rl_initialize_funmap` is looked up. The shim exports that
   * name itself, so in the default scope it asks for the next definition instead.
   */
  function InitFunmapScope(h: Handle): (scope: Handle)
    ensures scope != RtldDefault
    ensures h == RtldDefault ==> scope == RtldNext
    ensures h != RtldDefault ==> scope == h
  {
    if h == RtldDefault then RtldNext else h
  }

  /** The real `rl_initialize_funmap`. */
  function RealInitFunmap(l: Linker): (r: Result<nat, Fatal>)
    ensures LibReadline(l).Err? ==> r == Err(LibReadline(l).error)
    ensures r.Ok? ==> r.value != 0
    ensures r.Err? && LibReadline(l).Ok? ==> r.error.SymbolMissing? && r.error.symbol == "rl_initialize_funmap"
  {
    match LibReadline(l)
    case Err(f) => Err(f)
    case Ok(h) => Lookup(l, InitFunmapScope(h), "rl_initialize_funmap")
  }

  /** `rl_add_funmap_entry`, looked up in the readline handle itself. */
  function AddFunmapEntry(l: Linker): (r: Result<nat, Fatal>)
    ensures LibReadline(l).Err? ==> r == Err(LibReadline(l).error)
    ensures r.Ok? ==> r.value != 0
    ensures r.Err? && LibReadline(l).Ok? ==> r.error.SymbolMissing? && r.error.symbol == "rl_add_funmap_entry"
  {
    match LibReadline(l)
    case Err(f) => Err(f)
    case Ok(h) => Lookup(l, h, "rl_add_funmap_entry")
  }

  /**
   * The real `rl_initialize_funmap` is the next definition after the shim's
   * when readline is in the default scope, and the one in `libreadline.so`
   * otherwise; `rl_add_funmap_entry` is taken from the readline handle.
   */
  lemma LookupScopes(l: Linker)
    ensures LibReadline(l) == Ok(RtldDefault) ==>
      RealInitFunmap(l) == Lookup(l, RtldNext, "rl_initialize_funmap")
      && AddFunmapEntry(l) == Lookup(l, RtldDefault, "rl_add_funmap_entry")
    ensures LibReadline(l).Ok? && LibReadline(l) != Ok(RtldDefault) ==>
      LibReadline(l).value == Dlopen(l, LibreadlineSo).value
      && RealInitFunmap(l) == Lookup(l, LibReadline(l).value, "rl_initialize_funmap")
      && AddFunmapEntry(l) == Lookup(l, LibReadline(l).value, "rl_add_funmap_entry")
  {
  }

  /**
   * The shim never calls its own export: what `rl_initialize_funmap` means in
   * the default scope (the shim's definition) does not affect which function it forwards to.
   */
  lemma ForwardIgnoresOwnExport(l1: Linker, l2: Linker)
    requires forall p :: l1.dlopen(p) == l2.dlopen(p)
    requires forall h, s :: (h != RtldDefault || s != "rl_initialize_funmap") ==> l1.dlsym(h, s) == l2.dlsym(h, s)
    ensures RealInitFunmap(l1) == RealInitFunmap(l2)
  {
    assert l1.dlsym(RtldDefault, "rl_initialize") == l2.dlsym(RtldDefault, "rl_initialize");
    assert LibReadline(l1) == LibReadline(l2);
    match LibReadline(l1)
    case Err(_) =>
    case Ok(h) =>
      assert InitFunmapScope(h) != RtldDefault;
      assert l1.dlsym(InitFunmapScope(h), "rl_initialize_funmap") == l2.dlsym(InitFunmapScope(h), "rl_initialize_funmap");
  }
}
