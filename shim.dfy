/**
 * The interposed `rl_initialize_funmap` (src/lib.rs:105-123): on its first
 * call it loads every plugin named in READLINE_CUSTOM_FUNCTION_LIBS, and on
 * every call it forwards to readline's own `rl_initialize_funmap`.
 */
module Shim {
  import opened Wrappers
  import opened Bytes
  import opened Paths
  import opened Dynlib
  import opened Readline
  import opened Plugin

  /** A command in readline's funmap: its name and its function. */
  datatype Entry = Entry(name: seq<byte>, func: nat)

  /** A line on standard error: the segment that failed and the error text. */
  datatype Diagnostic = Diagnostic(segment: seq<byte>, error: string)

  /**
   * What the shim does to the world outside it, in order: add a funmap entry
   * (handing the name over to readline for good), report a failed segment,
   * or call the real `rl_initialize_funmap` at the given address.
   */
  datatype Effect = Registered(entry: Entry) | Reported(diagnostic: Diagnostic) | Forwarded(realInit: nat)

  /** Why the process stops: an `unwrap` that failed. */
  datatype Panic = Unresolved(fatal: Fatal) | NoFileName(segment: seq<byte>)

  /** The effects of a run and the panic that ended it, if any. */
  datatype Outcome = Outcome(effects: seq<Effect>, panic: Option<Panic>)

  /** Processing one segment either has one effect or panics. */
  datatype Step = Emit(effect: Effect) | Abort(reason: Panic)

  /** The funmap entries added, in order. */
  function Registry(es: seq<Effect>): seq<Entry>
    decreases |es|
  {
    if |es| == 0 then []
    else Registry(es[..|es| - 1]) + (if es[|es| - 1].Registered? then [es[|es| - 1].entry] else [])
  }

  /** The diagnostics written, in order. */
  function Log(es: seq<Effect>): seq<Diagnostic>
    decreases |es|
  {
    if |es| == 0 then []
    else Log(es[..|es| - 1]) + (if es[|es| - 1].Reported? then [es[|es| - 1].diagnostic] else [])
  }

  /** The calls made to the real `rl_initialize_funmap`, by address. */
  function Forwards(es: seq<Effect>): seq<nat>
    decreases |es|
  {
    if |es| == 0 then []
    else Forwards(es[..|es| - 1]) + (if es[|es| - 1].Forwarded? then [es[|es| - 1].realInit] else [])
  }

  /** Each projection of a trace is the projection of its parts, concatenated. */
  lemma ProjectionsAppend(a: seq<Effect>, b: seq<Effect>)
    ensures Registry(a + b) == Registry(a) + Registry(b)
    ensures Log(a + b) == Log(a) + Log(b)
    ensures Forwards(a + b) == Forwards(a) + Forwards(b)
  {
    RegistryAppend(a, b);
    LogAppend(a, b);
    ForwardsAppend(a, b);
  }

  lemma {:induction false} RegistryAppend(a: seq<Effect>, b: seq<Effect>)
    ensures Registry(a + b) == Registry(a) + Registry(b)
    decreases |b|
  {
    if |b| == 0 {
      assert a + b == a;
    } else {
      var front := b[..|b| - 1];
      RegistryAppend(a, front);
      assert (a + b)[..|a + b| - 1] == a + front;
      assert (a + b)[|a + b| - 1] == b[|b| - 1];
    }
  }

  lemma {:induction false} LogAppend(a: seq<Effect>, b: seq<Effect>)
    ensures Log(a + b) == Log(a) + Log(b)
    decreases |b|
  {
    if |b| == 0 {
      assert a + b == a;
    } else {
      var front := b[..|b| - 1];
      LogAppend(a, front);
      assert (a + b)[..|a + b| - 1] == a + front;
      assert (a + b)[|a + b| - 1] == b[|b| - 1];
    }
  }

  lemma {:induction false} ForwardsAppend(a: seq<Effect>, b: seq<Effect>)
    ensures Forwards(a + b) == Forwards(a) + Forwards(b)
    decreases |b|
  {
    if |b| == 0 {
      assert a + b == a;
    } else {
      var front := b[..|b| - 1];
      ForwardsAppend(a, front);
      assert (a + b)[..|a + b| - 1] == a + front;
      assert (a + b)[|a + b| - 1] == b[|b| - 1];
    }
  }

  /**
   * One segment of the list (src/lib.rs:114-117): a loaded plugin is added to
   * the funmap under its file stem; a failure is reported with the segment
   * and its error; a missing file name or a missing `rl_add_funmap_entry` panics.
   */
  function SegmentStep(l: Linker, segment: seq<byte>): (s: Step)
    ensures s.Emit? ==> !s.effect.Forwarded?
    ensures (s.Emit? && s.effect.Registered?) <==> AddFunction(l, segment).Ready? && AddFunmapEntry(l).Ok?
    ensures s.Emit? && s.effect.Registered? ==>
      s.effect.entry == Entry(FileStem(segment).value, AddFunction(l, segment).func)
    ensures (s.Emit? && s.effect.Reported?) <==> AddFunction(l, segment).Failed?
    ensures s.Emit? && s.effect.Reported? ==>
      s.effect.diagnostic == Diagnostic(segment, AddFunction(l, segment).error)
  {
    match AddFunction(l, segment)
    case Failed(e) => Emit(Reported(Diagnostic(segment, e)))
    case Unnamed => Abort(NoFileName(segment))
    case Ready(command, func) =>
      match AddFunmapEntry(l)
      case Ok(_) => Emit(Registered(Entry(command, func)))
      case Err(f) => Abort(Unresolved(f))
  }

  /** The step the shim takes for each segment, as a function of the segment. */
  function Attempts(l: Linker): seq<byte> -> Step
  {
    segment => SegmentStep(l, segment)
  }

  /** No segment's step calls the real `rl_initialize_funmap`. */
  ghost predicate NeverForwards(attempt: seq<byte> -> Step)
  {
    forall segment :: attempt(segment).Emit? ==> !attempt(segment).effect.Forwarded?
  }

  /** The loop over the steps, in order, stopping at the first panic. */
  function Run(steps: seq<Step>): (o: Outcome)
    ensures |o.effects| <= |steps|
    ensures o.panic.None? ==> |o.effects| == |steps|
    decreases |steps|
  {
    if |steps| == 0 then Outcome([], None)
    else
      var before := Run(steps[..|steps| - 1]);
      if before.panic.Some? then before
      else
        match steps[|steps| - 1]
        case Abort(p) => Outcome(before.effects, Some(p))
        case Emit(e) => Outcome(before.effects + [e], None)
  }

  /** The step of each segment, in order. */
  function Steps(attempt: seq<byte> -> Step, segments: seq<seq<byte>>): (steps: seq<Step>)
    ensures |steps| == |segments|
    ensures forall i :: 0 <= i < |segments| ==> steps[i] == attempt(segments[i])
  {
    seq(|segments|, i requires 0 <= i < |segments| => attempt(segments[i]))
  }

  /** The loop of src/lib.rs:113-118 over the given segments. */
  function LoadAll(attempt: seq<byte> -> Step, segments: seq<seq<byte>>): (o: Outcome)
    ensures |o.effects| <= |segments|
    ensures o.panic.None? ==> |o.effects| == |segments|
  {
    Run(Steps(attempt, segments))
  }

  /**
   * The guarded body: nothing when the variable is unset, else the loop over
   * its `:`-separated segments. The shim's own body is `Body(Attempts(l), env)`.
   */
  function Body(attempt: seq<byte> -> Step, env: Option<seq<byte>>): (o: Outcome)
    ensures env.None? ==> o == Outcome([], None)
    ensures env.Some? && o.panic.None? ==> |o.effects| == Count(env.value, Colon) + 1
  {
    match env
    case None => Outcome([], None)
    case Some(value) =>
      SplitCount(value, Colon);
      LoadAll(attempt, Split(value, Colon))
  }

  /**
   * One call of the hook, given what the guarded body does and what resolving
   * the real `rl_initialize_funmap` gives: the body unless `INIT` already
   * completed, then the forwarding call.
   */
  function Call(body: Outcome, resolved: Result<nat, Fatal>, initialized: bool): (o: Outcome)
    ensures o.panic.None? <==> (initialized || body.panic.None?) && resolved.Ok?
    ensures o.panic.None? ==> |o.effects| >= 1 && o.effects[|o.effects| - 1] == Forwarded(resolved.value)
    ensures resolved.Err? && (initialized || body.panic.None?) ==> o.panic == Some(Unresolved(resolved.error))
  {
    var ran := if initialized then Outcome([], None) else body;
    if ran.panic.Some? then ran
    else
      match resolved
      case Ok(addr) => Outcome(ran.effects + [Forwarded(addr)], None)
      case Err(f) => Outcome(ran.effects, Some(Unresolved(f)))
  }

  /** `n` successive calls of the hook in a fresh process, up to the first panic. */
  function Runs(body: Outcome, resolved: Result<nat, Fatal>, n: nat): (o: Outcome)
    ensures o.panic.None? && n >= 1 ==> resolved.Ok? && body.panic.None?
    ensures o.panic.None? ==> |o.effects| >= n
    ensures o.panic.None? ==> |Forwards(o.effects)| >= n
  {
    if n == 0 then Outcome([], None)
    else
      var before := Runs(body, resolved, n - 1);
      if before.panic.Some? then before
      else
        var call := Call(body, resolved, n > 1);
        ForwardsAppend(before.effects, call.effects);
        EndsWithForward(call.effects);
        Outcome(before.effects + call.effects, call.panic)
  }

  /** A trace whose last effect is a forward holds at least one forward. */
  lemma EndsWithForward(es: seq<Effect>)
    ensures |es| >= 1 && es[|es| - 1].Forwarded? ==> |Forwards(es)| >= 1
  {
  }

  /**
   * Without a panic, every step is taken once, in order, and has exactly one
   * effect; a panic happens exactly when some step aborts.
   */
  lemma {:induction false} EachStepOnce(steps: seq<Step>)
    ensures Run(steps).panic.None? <==> forall i :: 0 <= i < |steps| ==> steps[i].Emit?
    ensures Run(steps).panic.None? ==>
      |Run(steps).effects| == |steps| && forall i :: 0 <= i < |steps| ==> steps[i] == Emit(Run(steps).effects[i])
    decreases |steps|
  {
    if |steps| > 0 {
      var n := |steps| - 1;
      var front := steps[..n];
      EachStepOnce(front);
      assert forall i :: 0 <= i < n ==> front[i] == steps[i];
      if Run(front).panic.Some? {
        var j :| 0 <= j < n && !front[j].Emit?;
        assert !steps[j].Emit?;
      }
    }
  }

  /** A step with an effect after a run without a panic adds that effect. */
  lemma EmitStep(steps: seq<Step>, k: nat)
    requires k < |steps|
    requires Run(steps[..k]).panic.None?
    requires steps[k].Emit?
    ensures Run(steps[..k + 1]) == Outcome(Run(steps[..k]).effects + [steps[k].effect], None)
  {
    assert steps[..k + 1][..k] == steps[..k];
  }

  /** A step that aborts ends the loop: later steps are not taken. */
  lemma {:induction false} StopsAtPanic(steps: seq<Step>, k: nat)
    requires k < |steps|
    requires Run(steps[..k]).panic.None?
    requires steps[k].Abort?
    ensures Run(steps) == Outcome(Run(steps[..k]).effects, Some(steps[k].reason))
    decreases |steps|
  {
    var front := steps[..|steps| - 1];
    if |steps| == k + 1 {
      assert front == steps[..k];
    } else {
      assert front[..k] == steps[..k];
      StopsAtPanic(front, k);
    }
  }

  /** The loop never calls the real `rl_initialize_funmap`: only the segments' own effects appear. */
  lemma {:induction false} LoadingNeverForwards(attempt: seq<byte> -> Step, segments: seq<seq<byte>>)
    requires NeverForwards(attempt)
    ensures Forwards(LoadAll(attempt, segments).effects) == []
    decreases |segments|
  {
    if |segments| > 0 {
      var steps := Steps(attempt, segments);
      var front := segments[..|segments| - 1];
      LoadingNeverForwards(attempt, front);
      assert Steps(attempt, front) == steps[..|steps| - 1];
      var before := Run(steps[..|steps| - 1]);
      var last := steps[|steps| - 1];
      if before.panic.None? && last.Emit? {
        var es := Run(steps).effects;
        assert es == before.effects + [last.effect];
        assert es[..|es| - 1] == before.effects;
        assert last == attempt(segments[|segments| - 1]);
      }
    }
  }

  /** The guarded body never calls the real `rl_initialize_funmap`. */
  lemma BodyNeverForwards(l: Linker, env: Option<seq<byte>>)
    ensures Forwards(Body(Attempts(l), env).effects) == []
  {
    assert NeverForwards(Attempts(l));
    if env.Some? {
      LoadingNeverForwards(Attempts(l), Split(env.value, Colon));
    }
  }

  /**
   * Every segment of the value, empty ones included, is attempted exactly
   * once and in order: there is one effect per `:` plus one.
   */
  lemma SegmentsInOrder(attempt: seq<byte> -> Step, value: seq<byte>)
    requires Body(attempt, Some(value)).panic.None?
    ensures |Body(attempt, Some(value)).effects| == |Split(value, Colon)| == Count(value, Colon) + 1
    ensures forall i :: 0 <= i < |Split(value, Colon)| ==>
      attempt(Split(value, Colon)[i]) == Emit(Body(attempt, Some(value)).effects[i])
  {
    EachStepOnce(Steps(attempt, Split(value, Colon)));
    SplitCount(value, Colon);
  }

  /** An unset variable loads, registers and reports nothing, on any call. */
  lemma UnsetLoadsNothing(attempt: seq<byte> -> Step, resolved: Result<nat, Fatal>, initialized: bool)
    ensures Body(attempt, None) == Outcome([], None)
    ensures Registry(Call(Body(attempt, None), resolved, initialized).effects) == []
    ensures Log(Call(Body(attempt, None), resolved, initialized).effects) == []
  {
    assert Body(attempt, None) == Outcome([], None);
    OnlyForwards(Body(attempt, None), resolved, initialized);
  }

  /**
   * Every call that does not panic calls the real `rl_initialize_funmap`
   * exactly once, as its last effect, after the body (which only a first call runs).
   */
  lemma ForwardsOnceAfterBody(body: Outcome, resolved: Result<nat, Fatal>, initialized: bool)
    requires Forwards(body.effects) == []
    requires Call(body, resolved, initialized).panic.None?
    ensures resolved.Ok?
    ensures var es := Call(body, resolved, initialized).effects;
      |es| >= 1 && es[|es| - 1] == Forwarded(resolved.value)
      && es[..|es| - 1] == (if initialized then [] else body.effects)
      && Forwards(es) == [resolved.value]
  {
    var ran := if initialized then [] else body.effects;
    var f := Forwarded(resolved.value);
    var es := Call(body, resolved, initialized).effects;
    assert es == ran + [f];
    assert es[..|es| - 1] == ran;
    assert Forwards(ran) == [] by {
      if initialized {
        assert ran == [];
      }
    }
    ForwardsAppend(ran, [f]);
    assert [f][..0] == [];
  }

  /** A call after the first loads nothing: the funmap and the log are left as they were. */
  lemma LaterCallsLoadNothing(body: Outcome, resolved: Result<nat, Fatal>)
    ensures Registry(Call(body, resolved, true).effects) == []
    ensures Log(Call(body, resolved, true).effects) == []
  {
    OnlyForwards(body, resolved, true);
  }

  /** A call that does not run the body at most forwards. */
  lemma OnlyForwards(body: Outcome, resolved: Result<nat, Fatal>, initialized: bool)
    requires initialized || body == Outcome([], None)
    ensures Registry(Call(body, resolved, initialized).effects) == []
    ensures Log(Call(body, resolved, initialized).effects) == []
  {
    var es := Call(body, resolved, initialized).effects;
    assert es == (if resolved.Ok? then [Forwarded(resolved.value)] else []);
    ForwardOnly(resolved);
  }

  /** A trace holding at most one forward has no entry and no diagnostic. */
  lemma ForwardOnly(resolved: Result<nat, Fatal>)
    ensures var es := if resolved.Ok? then [Forwarded(resolved.value)] else [];
      Registry(es) == [] && Log(es) == []
  {
    if resolved.Ok? {
      var f := Forwarded(resolved.value);
      assert [f][..0] == [];
    }
  }

  /** What one call adds to the funmap, the log and the forwarded calls. */
  lemma CallProjections(body: Outcome, resolved: Result<nat, Fatal>, initialized: bool)
    requires Forwards(body.effects) == []
    requires Call(body, resolved, initialized).panic.None?
    ensures resolved.Ok?
    ensures Registry(Call(body, resolved, initialized).effects) == (if initialized then [] else Registry(body.effects))
    ensures Log(Call(body, resolved, initialized).effects) == (if initialized then [] else Log(body.effects))
    ensures Forwards(Call(body, resolved, initialized).effects) == [resolved.value]
  {
    ForwardsOnceAfterBody(body, resolved, initialized);
    var ran := if initialized then [] else body.effects;
    var es := Call(body, resolved, initialized).effects;
    assert es == ran + [Forwarded(resolved.value)];
    ProjectionsAppend(ran, [Forwarded(resolved.value)]);
    assert [Forwarded(resolved.value)][..0] == [];
  }

  /** `n` copies of `a`. */
  function Repeat(a: nat, n: nat): (r: seq<nat>)
    ensures |r| == n
  {
    if n == 0 then [] else Repeat(a, n - 1) + [a]
  }

  /**
   * Calling the hook `n` times runs the loading body once and forwards `n`
   * times: the funmap and the log are those of one run of the body.
   */
  lemma {:induction false} RepeatedCalls(body: Outcome, resolved: Result<nat, Fatal>, n: nat)
    requires Forwards(body.effects) == []
    requires n >= 1
    requires Runs(body, resolved, n).panic.None?
    ensures resolved.Ok?
    ensures Registry(Runs(body, resolved, n).effects) == Registry(body.effects)
    ensures Log(Runs(body, resolved, n).effects) == Log(body.effects)
    ensures Forwards(Runs(body, resolved, n).effects) == Repeat(resolved.value, n)
  {
    var before := Runs(body, resolved, n - 1);
    var call := Call(body, resolved, n > 1);
    assert before.panic.None? && call.panic.None?;
    assert Runs(body, resolved, n).effects == before.effects + call.effects;
    CallProjections(body, resolved, n > 1);
    ProjectionsAppend(before.effects, call.effects);
    if n > 1 {
      RepeatedCalls(body, resolved, n - 1);
    } else {
      assert before.effects == [];
    }
  }

  /** Three steps that each have an effect produce those effects, in order. */
  lemma ThreeSteps(x: Step, y: Step, z: Step)
    requires x.Emit? && y.Emit? && z.Emit?
    ensures Run([x, y, z]) == Outcome([x.effect, y.effect, z.effect], None)
  {
    assert [x][..0] == [];
    assert Run([x]) == Outcome([x.effect], None);
    assert [x, y][..1] == [x];
    assert Run([x, y]) == Outcome([x.effect, y.effect], None);
    assert [x, y, z][..2] == [x, y];
  }

  /**
   * Three segments, each loaded or reported on its own: the outcome of one
   * never stops the others.
   */
  lemma ThreeSegments(attempt: seq<byte> -> Step, a: seq<byte>, m: seq<byte>, b: seq<byte>)
    requires Colon !in a && Colon !in m && Colon !in b
    requires attempt(a).Emit? && attempt(m).Emit? && attempt(b).Emit?
    ensures Body(attempt, Some(a + [Colon] + m + [Colon] + b))
         == Outcome([attempt(a).effect, attempt(m).effect, attempt(b).effect], None)
  {
    SplitThree(a, m, b, Colon);
    var steps := Steps(attempt, [a, m, b]);
    assert steps == [attempt(a), attempt(m), attempt(b)];
    ThreeSteps(steps[0], steps[1], steps[2]);
  }

  /**
   * `a.so:/missing.so:b.so`: `a` and `b` are registered under their file
   * stems and the missing library is reported, once, with its error.
   */
  lemma MissingPluginIsReported(l: Linker, a: seq<byte>, missing: seq<byte>, b: seq<byte>)
    requires Colon !in a && Colon !in missing && Colon !in b
    requires AddFunction(l, a).Ready? && AddFunction(l, b).Ready? && AddFunmapEntry(l).Ok?
    requires Dlopen(l, missing).Err?
    ensures var es := Body(Attempts(l), Some(a + [Colon] + missing + [Colon] + b)).effects;
      Registry(es) == [Entry(FileStem(a).value, AddFunction(l, a).func), Entry(FileStem(b).value, AddFunction(l, b).func)]
      && Log(es) == [Diagnostic(missing, Dlopen(l, missing).error)]
  {
    var ea := Entry(FileStem(a).value, AddFunction(l, a).func);
    var em := Diagnostic(missing, Dlopen(l, missing).error);
    var eb := Entry(FileStem(b).value, AddFunction(l, b).func);
    assert Attempts(l)(a) == Emit(Registered(ea));
    assert Attempts(l)(missing) == Emit(Reported(em));
    assert Attempts(l)(b) == Emit(Registered(eb));
    RegisteredReportedRegistered(Attempts(l), a, missing, b, ea, em, eb);
  }

  /** The trace of a list whose segments register, report and register, in that order. */
  lemma RegisteredReportedRegistered(attempt: seq<byte> -> Step, a: seq<byte>, m: seq<byte>, b: seq<byte>,
                                     ea: Entry, em: Diagnostic, eb: Entry)
    requires Colon !in a && Colon !in m && Colon !in b
    requires attempt(a) == Emit(Registered(ea))
    requires attempt(m) == Emit(Reported(em))
    requires attempt(b) == Emit(Registered(eb))
    ensures var es := Body(attempt, Some(a + [Colon] + m + [Colon] + b)).effects;
      Registry(es) == [ea, eb] && Log(es) == [em]
  {
    ThreeSegments(attempt, a, m, b);
    var x, y, z := Registered(ea), Reported(em), Registered(eb);
    assert [x, y, z] == [x] + [y] + [z];
    ProjectionsAppend([x] + [y], [z]);
    ProjectionsAppend([x], [y]);
    assert [x][..0] == [] && [y][..0] == [] && [z][..0] == [];
  }

  /** An empty segment (`a::b`) is attempted like any other, between its neighbours. */
  lemma EmptySegmentIsAttempted(attempt: seq<byte> -> Step, a: seq<byte>, b: seq<byte>)
    requires Colon !in a && Colon !in b
    requires attempt(a).Emit? && attempt([]).Emit? && attempt(b).Emit?
    ensures Body(attempt, Some(a + [Colon, Colon] + b))
         == Outcome([attempt(a).effect, attempt([]).effect, attempt(b).effect], None)
  {
    assert a + [Colon, Colon] + b == a + [Colon] + [] + [Colon] + b;
    ThreeSegments(attempt, a, [], b);
  }

  /**
   * The process the shim lives in: the `INIT` guard, the lazily resolved
   * readline handle and symbols (each written at most once), and the trace
   * of effects on readline and standard error.
   */
  class Process {
    const linker: Linker
    /** The value of READLINE_CUSTOM_FUNCTION_LIBS, if set. */
    const env: Option<seq<byte>>
    /** `INIT` has completed its body. */
    var initialized: bool
    var libreadline: Option<Handle>
    var realInitFunmap: Option<nat>
    var addFunmapEntry: Option<nat>
    var effects: seq<Effect>
    /** Set when an `unwrap` failed: the process is gone. */
    var panicked: Option<Panic>

    /** Every cached lookup holds what resolving it would give. */
    ghost predicate Valid()
      reads this
    {
      && (libreadline.Some? ==> LibReadline(linker) == Ok(libreadline.value))
      && (realInitFunmap.Some? ==> RealInitFunmap(linker) == Ok(realInitFunmap.value))
      && (addFunmapEntry.Some? ==> AddFunmapEntry(linker) == Ok(addFunmapEntry.value))
    }

    /** A lazy static, once initialised, is never initialised again. */
    twostate predicate CachesKept()
      reads this
    {
      && (old(libreadline).Some? ==> libreadline == old(libreadline))
      && (old(realInitFunmap).Some? ==> realInitFunmap == old(realInitFunmap))
      && (old(addFunmapEntry).Some? ==> addFunmapEntry == old(addFunmapEntry))
    }

    constructor (linker: Linker, env: Option<seq<byte>>)
      ensures Valid() && this.linker == linker && this.env == env
      ensures !initialized && effects == [] && panicked.None?
      ensures libreadline.None? && realInitFunmap.None? && addFunmapEntry.None?
    {
      this.linker := linker;
      this.env := env;
      initialized := false;
      libreadline, realInitFunmap, addFunmapEntry := None, None, None;
      effects := [];
      panicked := None;
    }

    /** The `libreadline` lazy static: resolved on first use, then kept. */
    method ReadlineHandle() returns (r: Result<Handle, Fatal>)
      requires Valid() && panicked.None?
      modifies this`libreadline
      ensures Valid() && CachesKept()
      ensures r == LibReadline(linker)
      ensures r.Ok? ==> libreadline == Some(r.value)
    {
      if libreadline.Some? {
        r := Ok(libreadline.value);
      } else {
        r := LibReadline(linker);
        if r.Ok? {
          libreadline := Some(r.value);
        }
      }
    }

    /** The `rl_initialize_funmap` lazy static. */
    method RealInitFunmapFn() returns (r: Result<nat, Fatal>)
      requires Valid() && panicked.None?
      modifies this`libreadline, this`realInitFunmap
      ensures Valid() && CachesKept()
      ensures r == RealInitFunmap(linker)
      ensures r.Ok? ==> realInitFunmap == Some(r.value)
      ensures old(realInitFunmap).None? && LibReadline(linker).Ok? ==> libreadline == Some(LibReadline(linker).value)
    {
      if realInitFunmap.Some? {
        return Ok(realInitFunmap.value);
      }
      var h := ReadlineHandle();
      match h {
        case Err(f) =>
          r := Err(f);
        case Ok(handle) =>
          r := Lookup(linker, InitFunmapScope(handle), "rl_initialize_funmap");
          if r.Ok? {
            realInitFunmap := Some(r.value);
          }
      }
    }

    /** The `rl_add_funmap_entry` lazy static. */
    method AddFunmapEntryFn() returns (r: Result<nat, Fatal>)
      requires Valid() && panicked.None?
      modifies this`libreadline, this`addFunmapEntry
      ensures Valid() && CachesKept()
      ensures r == AddFunmapEntry(linker)
      ensures r.Ok? ==> addFunmapEntry == Some(r.value)
      ensures old(addFunmapEntry).None? && LibReadline(linker).Ok? ==> libreadline == Some(LibReadline(linker).value)
    {
      if addFunmapEntry.Some? {
        return Ok(addFunmapEntry.value);
      }
      var h := ReadlineHandle();
      match h {
        case Err(f) =>
          r := Err(f);
        case Ok(handle) =>
          r := Lookup(linker, handle, "rl_add_funmap_entry");
          if r.Ok? {
            addFunmapEntry := Some(r.value);
          }
      }
    }

    /**
     * `readline::add_function`: add the command to the funmap. The name is
     * appended and never taken back: readline owns it from here on.
     */
    method RegisterCommand(name: seq<byte>, func: nat) returns (failure: Option<Fatal>)
      requires Valid() && panicked.None?
      modifies this`libreadline, this`addFunmapEntry, this`effects
      ensures Valid() && CachesKept()
      ensures failure.None? ==> AddFunmapEntry(linker).Ok? && addFunmapEntry == Some(AddFunmapEntry(linker).value)
      ensures failure.None? <==> AddFunmapEntry(linker).Ok?
      ensures failure.Some? ==> failure.value == AddFunmapEntry(linker).error
      ensures effects == old(effects) + (if failure.None? then [Registered(Entry(name, func))] else [])
    {
      var entry := AddFunmapEntryFn();
      match entry {
        case Err(f) =>
          failure := Some(f);
        case Ok(_) =>
          effects := effects + [Registered(Entry(name, func))];
          failure := None;
      }
    }

    /**
     * One turn of the loop (src/lib.rs:114-117): load the segment, then
     * register its command or report its error. The step says what happened.
     */
    method AttemptSegment(segment: seq<byte>) returns (step: Step)
      requires Valid() && panicked.None?
      modifies this`libreadline, this`addFunmapEntry, this`effects
      ensures Valid() && CachesKept()
      ensures step == SegmentStep(linker, segment)
      ensures effects == old(effects) + (if step.Emit? then [step.effect] else [])
    {
      match AddFunction(linker, segment) {
        case Failed(e) =>
          step := Emit(Reported(Diagnostic(segment, e)));
          effects := effects + [step.effect];
        case Unnamed =>
          step := Abort(NoFileName(segment));
        case Ready(command, func) =>
          var failure := RegisterCommand(command, func);
          if failure.Some? {
            step := Abort(Unresolved(failure.value));
          } else {
            step := Emit(Registered(Entry(command, func)));
          }
      }
    }

    /**
     * The loop of the guarded body: attempt each segment in order; register
     * what loads, report what fails, and stop at a panic.
     */
    method LoadSegments(parts: seq<seq<byte>>)
      requires Valid() && panicked.None?
      modifies this`libreadline, this`addFunmapEntry, this`effects, this`panicked
      ensures Valid() && CachesKept()
      ensures effects == old(effects) + LoadAll(Attempts(linker), parts).effects
      ensures panicked == LoadAll(Attempts(linker), parts).panic
    {
      ghost var steps := Steps(Attempts(linker), parts);
      var i := 0;
      while i < |parts|
        invariant 0 <= i <= |parts|
        invariant Valid() && panicked.None? && CachesKept()
        invariant effects == old(effects) + Run(steps[..i]).effects
        invariant Run(steps[..i]).panic.None?
      {
        var step := AttemptSegment(parts[i]);
        assert steps[i] == step;
        if step.Abort? {
          StopsAtPanic(steps, i);
          panicked := Some(step.reason);
          return;
        }
        EmitStep(steps, i);
        i := i + 1;
      }
      assert steps[..i] == steps;
    }

    /**
     * The exported `rl_initialize_funmap`. The body runs only while `INIT` has
     * not completed; the real function is called on every call, after it.
     */
    method InitializeFunmap()
      requires Valid() && panicked.None?
      modifies this
      ensures Valid() && CachesKept()
      ensures panicked.None? ==> RealInitFunmap(linker).Ok? && realInitFunmap == Some(RealInitFunmap(linker).value)
      ensures effects == old(effects) + Call(Body(Attempts(linker), env), RealInitFunmap(linker), old(initialized)).effects
      ensures panicked == Call(Body(Attempts(linker), env), RealInitFunmap(linker), old(initialized)).panic
      ensures initialized == (old(initialized) || Body(Attempts(linker), env).panic.None?)
    {
      ghost var body := Body(Attempts(linker), env);
      ghost var ran := if initialized then Outcome([], None) else body;
      if !initialized {
        if env.Some? {
          LoadSegments(Split(env.value, Colon));
          if panicked.Some? {
            return;
          }
        }
        initialized := true;
      }
      assert effects == old(effects) + ran.effects && ran.panic.None?;
      Forward();
    }

    /**
     * The call to the real `rl_initialize_funmap` (src/lib.rs:122): resolving
     * it may panic; otherwise the call is appended to the trace.
     */
    method Forward()
      requires Valid() && panicked.None?
      modifies this`libreadline, this`realInitFunmap, this`effects, this`panicked
      ensures Valid() && CachesKept()
      ensures panicked.None? <==> RealInitFunmap(linker).Ok?
      ensures panicked.None? ==>
        realInitFunmap == Some(RealInitFunmap(linker).value)
        && effects == old(effects) + [Forwarded(RealInitFunmap(linker).value)]
      ensures panicked.Some? ==> panicked == Some(Unresolved(RealInitFunmap(linker).error)) && effects == old(effects)
    {
      var resolved := RealInitFunmapFn();
      match resolved {
        case Err(f) =>
          panicked := Some(Unresolved(f));
        case Ok(addr) =>
          effects := effects + [Forwarded(addr)];
      }
    }
  }
}
