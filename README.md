# rl_custom_function in Dafny

`rl_custom_function` is a shared library that is preloaded into a program
that uses GNU readline. It interposes readline's `rl_initialize_funmap`.
On the first call, it reads the colon-separated list of shared objects in
the environment variable READLINE_CUSTOM_FUNCTION_LIBS. For each entry it
does three things:

- it opens the object with `dlopen`;
- it looks up the symbol `rl_custom_function`;
- it adds that function to readline's funmap, using the file stem of the path as the command name.

When an entry fails, the library prints an error and moves on to the next
one. On every call it then forwards to readline's own
`rl_initialize_funmap`.

This project models that behaviour in Dafny, one module per concern.

- `Bytes` (bytes.dfy): byte strings, and the split of the list on every `:` byte, keeping empty pieces.
- `Paths` (paths.dfy): Unix `Path::file_name` and `Path::file_stem` on raw bytes.
- `Dynlib` (dynlib.dfy): the dynamic linker as an oracle (`Linker`), and the `dynlib_call!` mapping of a null result to an error.
- `Readline` (readline.dfy): choosing the readline handle, and the lazy lookups of `rl_initialize_funmap` and `rl_add_funmap_entry`.
- `Plugin` (plugin.dfy): `add_function`, which takes one path to a command or an error.
- `Shim` (shim.dfy) holds the exported hook, in two forms.
  - As specification functions: the step for one segment, the loop over all segments, and a call of the hook with the `INIT` guard.
  - As a `Process` class, whose fields the methods update in place. These are the `Once` flag, the write-once lazy statics, and the trace of effects. Its methods are proved against those functions.

Everything the shim does outside itself is one ordered trace of effects:

- a funmap entry is added (`Registered`);
- a line goes to standard error (`Reported`);
- the real `rl_initialize_funmap` is called (`Forwarded`).

`Registry`, `Log` and `Forwards` project that trace.

A failed `unwrap` ends the process, and is modelled as an explicit `Panic`
outcome. These are the unwraps of the readline handle, of a readline
symbol, and of a missing file stem.

The list is sometimes described as "each non-empty segment". The code at
src/lib.rs:113-114 hands every segment to `add_function`, empty ones
included. The model follows the code, and `Shim.EmptySegmentIsAttempted`
states it.

## Model

| member | source | states |
|---|---|---|
| Bytes.Split | src/lib.rs:113 | splitting on `:` always yields at least one segment, even for an empty value |
| Bytes.SplitPiecesHaveNoSeparator | src/lib.rs:113 | no segment contains the separator byte |
| Bytes.SplitJoin | src/lib.rs:113 | joining the segments with `:` gives back the value exactly, so splitting loses no byte |
| Bytes.JoinSplit | src/lib.rs:113 | a non-empty list of separator-free segments is recovered by splitting their join |
| Bytes.SplitCount | src/lib.rs:113 | there is one segment more than there are `:` bytes in the value |
| Bytes.SplitAppend | src/lib.rs:113 | a `:` between two values separates the segments of the first from those of the second |
| Bytes.SplitThree | src/lib.rs:113 | `a:m:b` with separator-free parts splits into exactly `[a, m, b]` |
| Bytes.KeepsEmptyPiece | src/lib.rs:113 | two adjacent `:` produce an empty segment between the neighbours' segments, which is kept |
| Paths.Keep | src/lib.rs:99 | the kept pieces are exactly the pieces that name something (non-empty, not `.`), each one as in the path |
| Paths.Components | src/lib.rs:99 | every path component is non-empty, is not `.`, and holds no `/` |
| Paths.ComponentsAppend | src/lib.rs:99 | appending `/piece` appends `piece` to the components when it names something, and adds nothing for an empty piece or `.`; so the components are the path's named pieces, in order |
| Paths.IgnoredSuffixes | src/lib.rs:99 | a trailing `/`, `//` or `/.` adds no component |
| Paths.FileName | src/lib.rs:99 | a file name, when present, is a single component that is neither `.` nor `..` |
| Paths.Stem | src/lib.rs:99 | the stem is a prefix of the name; it is the whole name exactly when there is no dot, or the only dot is the leading one; otherwise a dot follows it and no later dot exists; a non-empty name has a non-empty stem |
| Paths.FileStem | src/lib.rs:99 | the file stem exists exactly when the file name exists, and is then `Stem` of that file name: a non-empty, slash-free prefix of it |
| Paths.FileNameIsLastComponent | src/lib.rs:99 | the file name of `name`, `dir/name`, `dir/name/`, `dir/name//` and `dir/name/.` is `name`, whatever `dir` is |
| Paths.NoFileName | src/lib.rs:99 | the empty path, `..` and any path ending in `/..` have no file name, so the `unwrap` fails |
| Paths.StemOfPluginPath | src/lib.rs:98-100 | `/plugins/foo.so` gives the command name `foo` |
| Dynlib.DynlibCall | src/lib.rs:10-27 | a null pointer gives an error, and only a null one; the error is `dlerror`'s text or `unknown error calling: ` plus the callee; otherwise the pointer is the result |
| Dynlib.Dlopen | src/lib.rs:29-32 | opening succeeds exactly when `dlopen` returns non-null, and the handle is then that library, never a pseudo-handle; a failure carries `dynlib_call!`'s error |
| Dynlib.Dlsym | src/lib.rs:34-45 | a lookup succeeds exactly when `dlsym` returns non-null, and the symbol is then that non-null address; a null result fails with `dlerror`'s text, or with `unknown error calling: dlsym` when there is none |
| Readline.LibReadline | src/lib.rs:69-77 | the handle is RTLD_DEFAULT exactly when `rl_initialize` resolves there; otherwise it is the opened `libreadline.so`; it fails exactly when both fail, carrying the `dlopen` error |
| Readline.Lookup | src/lib.rs:78-85 | a readline symbol resolves exactly when `dlsym` returns non-null in the given handle, to that address; otherwise the failed `unwrap` carries the symbol's name and the `dlsym` error |
| Readline.InitFunmapScope | src/lib.rs:87-88 | the real `rl_initialize_funmap` is looked up in RTLD_NEXT when readline is in the default scope, and never in the default scope; any other handle is used as is |
| Readline.RealInitFunmap | src/lib.rs:87-88 | a missing readline gives the handle's own error; a resolved function is non-null; otherwise the failure names `rl_initialize_funmap` |
| Readline.AddFunmapEntry | src/lib.rs:89 | a missing readline gives the handle's own error; a resolved function is non-null; otherwise the failure names `rl_add_funmap_entry` |
| Readline.LookupScopes | src/lib.rs:78-89 | with readline in the default scope, `rl_initialize_funmap` is looked up in RTLD_NEXT and `rl_add_funmap_entry` in RTLD_DEFAULT; otherwise both are looked up in the `libreadline.so` handle |
| Readline.ForwardIgnoresOwnExport | src/lib.rs:87-88 | what `rl_initialize_funmap` resolves to in the default scope, which is the shim itself, has no effect on the function the shim forwards to |
| Plugin.AddFunction | src/lib.rs:93-103 | the path loads exactly when both `dlopen` and the `rl_custom_function` lookup succeed; then the command is the file stem and the function is the non-null symbol; a `dlopen` error is returned unchanged, and otherwise the `dlsym` error is; the missing-stem case is distinguished |
| Plugin.OpenFailureSkipsLookup | src/lib.rs:96-97 | after a failed `dlopen`, the outcome does not depend on anything `dlsym` would answer |
| Shim.SegmentStep | src/lib.rs:114-117 | one segment is registered exactly when it loads and `rl_add_funmap_entry` resolves, under its file stem; it is reported with its own text and error exactly when loading fails; it never forwards |
| Shim.Run | src/lib.rs:113-118 | the loop has at most one effect per step, and exactly one per step when nothing panics |
| Shim.LoadAll | src/lib.rs:113-118 | the loop over the segments has at most one effect per segment, and exactly one per segment when nothing panics |
| Shim.Body | src/lib.rs:109-120 | with the variable unset the body does nothing; otherwise, without a panic, it has one effect per `:` in the value plus one |
| Shim.Call | src/lib.rs:108-123 | a call does not panic exactly when the body is skipped or runs without a panic, and the real function resolves; it then ends by forwarding to it; an unresolved real function is the panic |
| Shim.Runs | src/lib.rs:105-123 | `n` calls without a panic need the real function to resolve and the body to run cleanly, and forward at least once per call |
| Shim.EachStepOnce | src/lib.rs:113-118 | the loop does not panic exactly when every step has an effect; it then yields one effect per segment, in segment order |
| Shim.StopsAtPanic | src/lib.rs:113-118 | a panicking step ends the loop: the effects are those of the steps before it |
| Shim.LoadingNeverForwards | src/lib.rs:113-118 | the loop never calls the real `rl_initialize_funmap`, for any attempt that never does |
| Shim.BodyNeverForwards | src/lib.rs:109-120 | the guarded body never calls the real `rl_initialize_funmap` |
| Shim.SegmentsInOrder | src/lib.rs:110-118 | without a panic, every segment, empty ones included, is attempted once and in order, so there is one effect per `:` plus one |
| Shim.UnsetLoadsNothing | src/lib.rs:110 | with the variable unset, no call registers or reports anything |
| Shim.OnlyForwards | src/lib.rs:109-122 | a call that does not run the body registers and reports nothing |
| Shim.ForwardsOnceAfterBody | src/lib.rs:108-123 | every call without a panic forwards exactly once, as its last effect, to the resolved real function, after the body; only a first call runs the body |
| Shim.LaterCallsLoadNothing | src/lib.rs:105-109 | once `INIT` has completed, a call neither registers nor reports |
| Shim.CallProjections | src/lib.rs:105-123 | one call adds the body's registrations and diagnostics (none if `INIT` completed) and exactly one forward |
| Shim.RepeatedCalls | src/lib.rs:105-123 | `n` calls register and report exactly what one run of the body does, and forward `n` times to the same function |
| Shim.ThreeSegments | src/lib.rs:113-118 | the outcome of one segment never stops the others: `a:m:b` gives the three effects in order |
| Shim.MissingPluginIsReported | src/lib.rs:113-118 | for `a:missing:b`, `a` and `b` are registered under their stems in order, and the missing library is reported once with its `dlopen` error |
| Shim.RegisteredReportedRegistered | src/lib.rs:113-118 | segments that register, report and register give exactly those two entries and that one diagnostic, in order |
| Shim.EmptySegmentIsAttempted | src/lib.rs:113-114 | in `a::b`, the empty segment is attempted between its neighbours like any other |
| Shim.Process.ReadlineHandle | src/lib.rs:69-77 | the lazy handle is `LibReadline`'s answer and is cached on success; no lazy static already set is ever replaced |
| Shim.Process.RealInitFunmapFn | src/lib.rs:87-88 | the lazy `rl_initialize_funmap` is `RealInitFunmap`'s answer and is cached on success; a first resolution also caches a resolvable readline handle; set lazy statics are kept |
| Shim.Process.AddFunmapEntryFn | src/lib.rs:89 | the lazy `rl_add_funmap_entry` is `AddFunmapEntry`'s answer and is cached on success; a first resolution also caches a resolvable readline handle; set lazy statics are kept |
| Shim.Process.RegisterCommand | src/lib.rs:50-55 | the command is appended to the funmap exactly when `rl_add_funmap_entry` resolves, which is then cached; otherwise the failure is returned; set lazy statics are kept |
| Shim.Process.AttemptSegment | src/lib.rs:114-117 | one turn of the loop takes exactly `SegmentStep`, and appends its effect when it has one; set lazy statics are kept |
| Shim.Process.LoadSegments | src/lib.rs:113-118 | the loop appends exactly the loop specification's effects, and panics exactly when that specification does; set lazy statics are kept |
| Shim.Process.Forward | src/lib.rs:122 | the call to the real function does not panic exactly when it resolves; it then appends exactly one forward to it and caches it; otherwise the panic carries the lookup's error and the trace is unchanged |
| Shim.Process.InitializeFunmap | src/lib.rs:105-123 | each call appends exactly the effects of `Call` on the body, the resolved real function and the old `INIT` state, and panics exactly when `Call` does; `INIT` completes once the body has run without a panic; after a call without a panic the real function is cached; set lazy statics are kept |

## Left out

- `dlopen` and `dlsym` are not modelled as code. They are an arbitrary oracle, `Dynlib.Linker`, that maps a path or a handle and symbol to a raw pointer and the text `dlerror` would then give. Loading libraries, symbol scopes and `RTLD_LAZY` belong to the C library.
- Concurrency is left out. This covers `Once`'s blocking of other threads and the thread-safety of `lazy_static`. The model is single-threaded: the `initialized` flag and the write-once cache fields.
- Poisoning of `INIT` after a panic is left out. A panic is modelled as the end of the process: every `Process` method (all but the constructor) requires that no panic has happened.
- Reading the environment is a constructor parameter (`env`). It is not a call.
- The exact text written by `eprintln!` is left out. A diagnostic records the segment and the error string that would be printed.
- The interior-NUL `unwrap`s when building C strings (src/lib.rs:51 and src/lib.rs:94) are left out. A value taken from the environment cannot contain a NUL byte, and a command name is a slice of it.
- The UTF-8 `unwrap` on `dlerror`'s text (src/lib.rs:21) is left out. `Dynlib.Raw` carries that text already decoded.
- The `transmute` of symbol addresses to function pointers is left out. Functions are their addresses (`nat`), and calling the real `rl_initialize_funmap` is recorded as the `Forwarded` effect.
- A hook that adds commands from readline configuration lines is not part of this model. No such code exists in src/lib.rs.
- Paths.Components: does not represent the root or a leading `.` as components of their own. `Path::file_name` answers the same either way, because neither is ever the last normal component.
