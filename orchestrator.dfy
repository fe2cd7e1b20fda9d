/** The setup class `ecoSetup` (ecosys3D/ecosys3D.py): its constructor, which
    gives the state its timers, and its run loop, which advances the clock,
    consults the restart policy, the sanity check and the diagnostics
    scheduler on every iteration, rotates the time levels, and ends through
    the `try/except/else/finally` protocol. */
module Orchestrator {
  import opened PyValues
  import opened Schedule
  import opened TimeLevels
  import opened EcoState
  import opened Diagnostics

  /** The calls of one iteration into code outside the model that may raise:
      the subclass's `set_forcing` and `after_timestep`, the boundary kernel on
      each velocity field, and the streamfunction diagnostic. */
  datatype Hook = SetForcing | EnforceBoundaries(field: string) | AfterTimestep | Streamfunction

  /** What the model does not compute itself: the iterations at which the
      finiteness check of `sanity_check` fails, and the exception message
      (if any) that a foreign call raises at a given iteration. */
  datatype Env = Env(diverged: iset<int>, faults: imap<(int, Hook), string>)
  {
    /** The solution is finite after iteration `itt`. */
    predicate Sane(itt: int)
    {
      itt !in diverged
    }

    /** What the call `h` raises at iteration `itt`, if anything. */
    function Fault(itt: int, h: Hook): Option<string>
    {
      if (itt, h) in faults then Some(faults[(itt, h)]) else None
    }
  }

  /** How `run` ends: normally, or by (re-)raising an exception. */
  datatype Outcome = Completed | Raised(error: PyError)

  /** How one iteration of the run loop ends, and whether it got as far as
      advancing the clock. */
  datatype StepResult = StepResult(err: Option<PyError>, advanced: bool)

  /** `vs.enable_neutral_diffusion and vs.enable_skew_diffusion` evaluates to a
      true value. */
  predicate StreamfunctionOn(m: map<string, Value>)
  {
    && "enable_neutral_diffusion" in m && Truthy(m["enable_neutral_diffusion"])
    && "enable_skew_diffusion" in m && Truthy(m["enable_skew_diffusion"])
  }

  /** The first exception of the part of an iteration before the clock
      advances: the `'diagnostics'` timer lookup around the restart write,
      the `'main'` timer lookup, then the forcing and the boundary kernel on
      `u` and on `v`. */
  function PrologueError(timers: map<string, Timer>, itt: int, env: Env): Option<PyError>
  {
    if "diagnostics" !in timers then Some(KeyError("diagnostics"))
    else if "main" !in timers then Some(KeyError("main"))
    else ForcingError(itt, env)
  }

  /** The exceptions the part before the advance can raise: a missing timer
      names its key, and only foreign calls raise otherwise. */
  lemma PrologueErrorCases(timers: map<string, Timer>, itt: int, env: Env)
    ensures var r := PrologueError(timers, itt, env);
      && (r == Some(KeyError("diagnostics")) <==> "diagnostics" !in timers)
      && (r == Some(KeyError("main")) <==> "diagnostics" in timers && "main" !in timers)
      && (r.Some? ==> r.value.KeyError? || r.value.External?)
  {
  }

  /** The first exception of the part of an iteration after the clock has
      advanced to `itt`: the user hook, the sanity check, the two attributes
      of the streamfunction condition (read left to right, the second only
      when the first is true), and the streamfunction diagnostic. */
  function EpilogueError(m: map<string, Value>, itt: int, env: Env): Option<PyError>
  {
    if AfterStepError(itt, env).Some? then AfterStepError(itt, env)
    else StreamfunctionError(m, itt, env)
  }

  /** The exceptions the part after the advance to `itt` can raise, and what
      each says about the sanity check and the settings. */
  lemma EpilogueErrorCases(m: map<string, Value>, itt: int, env: Env)
    ensures var r := EpilogueError(m, itt, env);
      && (r.None? ==> env.Sane(itt))
      && (r.Some? ==> r.value.External? || r.value.Diverged? || r.value.AttributeError?)
      && (r.Some? && r.value.Diverged? ==> r.value.itt == itt && !env.Sane(itt))
      && (r.Some? && r.value.AttributeError? ==>
            env.Sane(itt) && r.value.attr in {"enable_neutral_diffusion", "enable_skew_diffusion"})
      && (r == Some(AttributeError("enable_neutral_diffusion")) ==> "enable_neutral_diffusion" !in m)
  {
  }

  /** The exception of the user hook, else of the sanity check of `itt`. */
  function AfterStepError(itt: int, env: Env): Option<PyError>
  {
    if env.Fault(itt, AfterTimestep).Some? then Some(External(env.Fault(itt, AfterTimestep).value))
    else if !env.Sane(itt) then Some(Diverged(itt))
    else None
  }

  /** The calls of the user hook and the sanity check: the check is not
      reached when the hook raises. */
  function AfterStepCalls(itt: int, env: Env): seq<Event>
  {
    if env.Fault(itt, AfterTimestep).Some? then [StepHookRan] else [StepHookRan, SanityChecked(itt)]
  }

  /** The exception of the streamfunction stage: an unset attribute of the
      condition (the second is read only when the first is true), else the
      diagnostic itself when the condition holds. */
  function StreamfunctionError(m: map<string, Value>, itt: int, env: Env): Option<PyError>
  {
    if "enable_neutral_diffusion" !in m then Some(AttributeError("enable_neutral_diffusion"))
    else if Truthy(m["enable_neutral_diffusion"]) && "enable_skew_diffusion" !in m then
      Some(AttributeError("enable_skew_diffusion"))
    else if StreamfunctionOn(m) && env.Fault(itt, Streamfunction).Some? then
      Some(External(env.Fault(itt, Streamfunction).value))
    else None
  }

  function StreamfunctionCalls(m: map<string, Value>): seq<Event>
  {
    if StreamfunctionOn(m) then [StreamfunctionDiagnosed] else []
  }

  /** How an iteration that starts at iteration `itt` ends: the first
      exception it meets, in the order the loop body makes its calls, and
      whether it got as far as advancing the clock. */
  function StepOutcome(timers: map<string, Timer>, m: map<string, Value>, itt: int, env: Env): StepResult
  {
    var pre := PrologueError(timers, itt, env);
    if pre.Some? then StepResult(pre, false)
    else StepResult(EpilogueError(m, itt + 1, env), true)
  }

  /** How an iteration that starts at iteration `itt` can end: a missing
      timer stops it before anything runs; a divergence names the already
      incremented `itt`; an unset attribute or a foreign exception can
      follow the advance; a successful iteration has passed the sanity check
      of `itt + 1`. */
  lemma StepOutcomeCases(timers: map<string, Timer>, m: map<string, Value>, itt: int, env: Env)
    ensures var r := StepOutcome(timers, m, itt, env);
      && (r.err.None? ==> r.advanced && env.Sane(itt + 1))
      && (!r.advanced ==> r.err.Some?)
      && (r.err == Some(KeyError("diagnostics")) <==> "diagnostics" !in timers)
      && (r.err == Some(KeyError("main")) <==> "diagnostics" in timers && "main" !in timers)
      && (r.err.Some? && r.err.value.KeyError? ==> !r.advanced)
      && (r.err.Some? && r.err.value.Diverged? ==> r.err.value.itt == itt + 1 && r.advanced && !env.Sane(itt + 1))
      && (r.err.Some? && r.err.value.AttributeError? ==>
            r.advanced && env.Sane(itt + 1) && r.err.value.attr in {"enable_neutral_diffusion", "enable_skew_diffusion"})
      && (r.err.Some? ==>
            r.err.value.KeyError? || r.err.value.External? || r.err.value.Diverged? || r.err.value.AttributeError?)
  {
    PrologueErrorCases(timers, itt, env);
    EpilogueErrorCases(m, itt + 1, env);
  }

  /** The calls of one completed iteration that starts from `v` with time
      levels `lv`, in the order the loop body makes them: those before the
      clock advances, the advance itself, and those after it. */
  function StepEvents(v: Vars, ds: seq<Diagnostic>, lv: Levels, started: bool, fmt: Formatter): seq<Event>
  {
    StepBefore(v, ds, lv, started, fmt) + [Advanced(v.itt + 1, v.time + Dt(v.settings))] + StepAfter(Next(v), ds)
  }

  /** The clock one step on: `vs.itt += 1`, `vs.time += dt`. */
  function Next(v: Vars): (u: Vars)
    ensures u.settings == v.settings
    ensures u.itt == v.itt + 1 && u.time == v.time + Dt(v.settings)
  {
    Vars(v.settings, v.itt + 1, v.time + Dt(v.settings))
  }

  /** Before the advance: the periodic restart write (decided on the clock
      before it advances), the profiler start if this is the warm-up
      iteration, then forcing and boundaries on the `taup1` level. */
  function StepBefore(v: Vars, ds: seq<Diagnostic>, lv: Levels, started: bool, fmt: Formatter): seq<Event>
  {
    WriteRestartCalls(v, ds, false, fmt)
    + (if started then [ProfilerStarted] else [])
    + ForcingCalls(lv.taup1)
  }

  /** Forcing, then boundaries on `u` and on `v` at the `taup1` level. */
  function ForcingCalls(taup1: int): (r: seq<Event>)
    ensures |r| == 3 && ProfilerStarted !in r
  {
    [ForcingSet, BoundariesEnforced("u", taup1), BoundariesEnforced("v", taup1)]
  }

  /** The exception of forcing and boundaries: the first foreign call that
      raises. */
  function ForcingError(itt: int, env: Env): (r: Option<PyError>)
    ensures r.Some? ==> r.value.External?
  {
    if env.Fault(itt, SetForcing).Some? then Some(External(env.Fault(itt, SetForcing).value))
    else if env.Fault(itt, EnforceBoundaries("u")).Some? then Some(External(env.Fault(itt, EnforceBoundaries("u")).value))
    else if env.Fault(itt, EnforceBoundaries("v")).Some? then Some(External(env.Fault(itt, EnforceBoundaries("v")).value))
    else None
  }

  /** How many of the forcing calls are made: up to and including the first
      that raises. */
  function ForcingReached(itt: int, env: Env): (n: nat)
    ensures 1 <= n <= 3
    ensures n < 3 ==> ForcingError(itt, env).Some?
    ensures n == 1 <==> env.Fault(itt, SetForcing).Some?
    ensures n == 2 <==> env.Fault(itt, SetForcing).None? && env.Fault(itt, EnforceBoundaries("u")).Some?
  {
    if env.Fault(itt, SetForcing).Some? then 1
    else if env.Fault(itt, EnforceBoundaries("u")).Some? then 2
    else 3
  }

  /** After the advance to `u`: the user hook, the sanity check of the new
      iteration, the streamfunction diagnostic, then sampling and output on
      the advanced clock. */
  function StepAfter(u: Vars, ds: seq<Diagnostic>): seq<Event>
  {
    [StepHookRan, SanityChecked(u.itt)]
    + StreamfunctionCalls(u.settings)
    + ScheduledCalls(u, ds)
  }

  /** Sampling then output on the clock `u`. */
  function ScheduledCalls(u: Vars, ds: seq<Diagnostic>): seq<Event>
  {
    DueCalls(ds, Sample, u.time, Dt(u.settings)) + DueCalls(ds, Emit, u.time, Dt(u.settings))
  }

  /** The prefixes of the calls after the advance at which an exception can
      stop them. */
  lemma StepAfterPrefixes(u: Vars, ds: seq<Diagnostic>)
    ensures var full := StepAfter(u, ds);
      var head := [StepHookRan, SanityChecked(u.itt)];
      var sf := StreamfunctionCalls(u.settings);
      && [StepHookRan] <= full && head <= full && head + sf <= full
      && full == head + sf + ScheduledCalls(u, ds)
  {
  }

  /** The calls the part of an iteration after the advance to `u` actually
      makes: all of `StepAfter` when nothing raises, and up to and including
      the call that raises otherwise. */
  function EpilogueCalls(u: Vars, ds: seq<Diagnostic>, env: Env): seq<Event>
  {
    var a := AfterStepCalls(u.itt, env);
    if AfterStepError(u.itt, env).Some? then a
    else if StreamfunctionError(u.settings, u.itt, env).Some? then a + StreamfunctionCalls(u.settings)
    else a + StreamfunctionCalls(u.settings) + ScheduledCalls(u, ds)
  }

  /** What the part after the advance makes is a prefix of its full call
      sequence, and all of it when nothing raises. */
  lemma EpilogueCallsPrefix(u: Vars, ds: seq<Diagnostic>, env: Env)
    ensures EpilogueCalls(u, ds, env) <= StepAfter(u, ds)
    ensures EpilogueError(u.settings, u.itt, env).None? ==> EpilogueCalls(u, ds, env) == StepAfter(u, ds)
  {
    StepAfterPrefixes(u, ds);
  }

  /** The calls the part of an iteration before the advance actually makes,
      from `v` with time levels `lv` and timers `timers`: nothing when the
      `'diagnostics'` timer is missing, the restart write and the profiler
      start when `'main'` is missing, and otherwise the forcing calls up to
      and including the one that raises. */
  function PrologueCalls(v: Vars, ds: seq<Diagnostic>, lv: Levels, timers: map<string, Timer>,
                         started: bool, fmt: Formatter, env: Env): seq<Event>
  {
    if "diagnostics" !in timers then []
    else
      WriteRestartCalls(v, ds, false, fmt) + (if started then [ProfilerStarted] else [])
      + (if "main" !in timers then [] else ForcingCalls(lv.taup1)[..ForcingReached(v.itt, env)])
  }

  /** What the part before the advance makes is a prefix of `StepBefore`,
      all of it when nothing raises, and holds the profiler start exactly
      when the profiler was started. */
  lemma PrologueCallsPrefix(v: Vars, ds: seq<Diagnostic>, lv: Levels, timers: map<string, Timer>,
                            started: bool, fmt: Formatter, env: Env)
    requires started ==> "diagnostics" in timers
    ensures PrologueCalls(v, ds, lv, timers, started, fmt, env) <= StepBefore(v, ds, lv, started, fmt)
    ensures PrologueError(timers, v.itt, env).None? ==>
      PrologueCalls(v, ds, lv, timers, started, fmt, env) == StepBefore(v, ds, lv, started, fmt)
    ensures ProfilerStarted in PrologueCalls(v, ds, lv, timers, started, fmt, env) <==> started
  {
    var w := WriteRestartCalls(v, ds, false, fmt);
    var wp := w + (if started then [ProfilerStarted] else []);
    WriteRestartCallsAreWrites(v, ds, false, fmt);
    assert ProfilerStarted in wp <==> started;
    var k := if "main" !in timers then 0 else ForcingReached(v.itt, env);
    if "diagnostics" in timers {
      assert PrologueCalls(v, ds, lv, timers, started, fmt, env) == wp + ForcingCalls(lv.taup1)[..k];
      StepCut(wp, ForcingCalls(lv.taup1), k, started);
    }
  }

  /** The calls one iteration from `v` actually makes: the part before the
      advance, and when that raised nothing the advance and the part after
      it. */
  function StepCalls(v: Vars, ds: seq<Diagnostic>, lv: Levels, timers: map<string, Timer>,
                     started: bool, fmt: Formatter, env: Env): seq<Event>
  {
    var p := PrologueCalls(v, ds, lv, timers, started, fmt, env);
    if PrologueError(timers, v.itt, env).Some? then p
    else p + [Advanced(v.itt + 1, v.time + Dt(v.settings))] + EpilogueCalls(Next(v), ds, env)
  }

  /** An iteration makes a prefix of its full call sequence, all of it
      when it raises nothing, and starts the profiler exactly when
      `started`. */
  lemma StepCallsPrefix(v: Vars, ds: seq<Diagnostic>, lv: Levels, timers: map<string, Timer>,
                        started: bool, fmt: Formatter, env: Env)
    requires started ==> "diagnostics" in timers
    ensures var c := StepCalls(v, ds, lv, timers, started, fmt, env);
      && c <= StepEvents(v, ds, lv, started, fmt)
      && (StepOutcome(timers, v.settings, v.itt, env).err.None? ==> c == StepEvents(v, ds, lv, started, fmt))
      && (ProfilerStarted in c <==> started)
  {
    var fullBefore := StepBefore(v, ds, lv, started, fmt);
    var adv := Advanced(v.itt + 1, v.time + Dt(v.settings));
    var fullAfter := StepAfter(Next(v), ds);
    PrologueCallsPrefix(v, ds, lv, timers, started, fmt, env);
    if PrologueError(timers, v.itt, env).Some? {
      JoinBefore(PrologueCalls(v, ds, lv, timers, started, fmt, env), fullBefore, [adv] + fullAfter);
    } else {
      EpilogueCallsPrefix(Next(v), ds, env);
      StepAfterNoProfiler(Next(v), ds);
      JoinAfter(fullBefore, adv, EpilogueCalls(Next(v), ds, env), fullAfter, started);
    }
  }

  /** The part after the advance never starts the profiler. */
  lemma StepAfterNoProfiler(u: Vars, ds: seq<Diagnostic>)
    ensures ProfilerStarted !in StepAfter(u, ds)
  {
    DueCallsAreCalls(ds, Sample, u.time, Dt(u.settings));
    DueCallsAreCalls(ds, Emit, u.time, Dt(u.settings));
  }

  /** Within an iteration the restart write and the profiler start precede
      the clock advance; the sanity check, sampling and output follow it; the
      clock advances exactly once. */
  lemma StepOrder(v: Vars, ds: seq<Diagnostic>, lv: Levels, started: bool, fmt: Formatter)
    ensures forall e :: e in StepBefore(v, ds, lv, started, fmt) ==>
      !e.Advanced? && !e.SanityChecked? && !e.Sampled? && !e.Emitted?
    ensures forall e :: e in StepAfter(Next(v), ds) ==>
      !e.Advanced? && !e.RestartWritten? && !e.ProfilerStarted?
    ensures forall e :: e in StepEvents(v, ds, lv, started, fmt) && e.RestartWritten? ==>
      e in WriteRestartCalls(v, ds, false, fmt)
  {
    var u := Next(v);
    WriteRestartCallsAreWrites(v, ds, false, fmt);
    DueCallsAreCalls(ds, Sample, u.time, Dt(u.settings));
    DueCallsAreCalls(ds, Emit, u.time, Dt(u.settings));
  }

  /** The restart writer only writes restarts. */
  lemma WriteRestartCallsAreWrites(v: Vars, ds: seq<Diagnostic>, force: bool, fmt: Formatter)
    ensures forall i :: 0 <= i < |WriteRestartCalls(v, ds, force, fmt)| ==>
      WriteRestartCalls(v, ds, force, fmt)[i].RestartWritten?
  {
  }

  /** The clock advances recorded in `s`, in order. */
  function Clock(s: seq<Event>): (r: seq<Event>)
    ensures forall k :: 0 <= k < |r| ==> r[k].Advanced?
    ensures |r| <= |s|
  {
    if s == [] then []
    else
      var last := s[|s| - 1];
      Clock(s[..|s| - 1]) + (if last.Advanced? then [last] else [])
  }

  lemma {:induction false} ClockAppend(a: seq<Event>, b: seq<Event>)
    ensures Clock(a + b) == Clock(a) + Clock(b)
  {
    if b == [] {
      assert a + b == a;
    } else {
      ClockAppend(a, b[..|b| - 1]);
      assert (a + b)[..|a + b| - 1] == a + b[..|b| - 1];
    }
  }

  lemma {:induction false} ClockNone(s: seq<Event>)
    requires forall e :: e in s ==> !e.Advanced?
    ensures Clock(s) == []
  {
    if s != [] {
      assert forall e :: e in s[..|s| - 1] ==> e in s;
      ClockNone(s[..|s| - 1]);
    }
  }

  /** How often `e` occurs in `s`. */
  function Count(s: seq<Event>, e: Event): (n: nat)
    ensures n <= |s|
    ensures n == 0 <==> e !in s
  {
    if s == [] then 0
    else
      Count(s[..|s| - 1], e) + (if s[|s| - 1] == e then 1 else 0)
  }

  lemma {:induction false} CountAppend(a: seq<Event>, b: seq<Event>, e: Event)
    ensures Count(a + b, e) == Count(a, e) + Count(b, e)
  {
    if b == [] {
      assert a + b == a;
    } else {
      CountAppend(a, b[..|b| - 1], e);
      assert (a + b)[..|a + b| - 1] == a + b[..|b| - 1];
    }
  }

  /** A single clock event between two stretches without one is the whole
      clock. */
  lemma ClockSingle(a: seq<Event>, x: Event, b: seq<Event>)
    requires forall e :: e in a ==> !e.Advanced?
    requires forall e :: e in b ==> !e.Advanced?
    requires x.Advanced?
    ensures Clock(a + [x] + b) == [x]
  {
    ClockNone(a);
    ClockNone(b);
    ClockAppend(a, [x]);
    ClockAppend(a + [x], b);
    assert [x][..0] == [];
  }

  /** One iteration advances the clock exactly once, by `dt`. */
  lemma StepClock(v: Vars, ds: seq<Diagnostic>, lv: Levels, started: bool, fmt: Formatter)
    ensures Clock(StepEvents(v, ds, lv, started, fmt)) == [Advanced(v.itt + 1, v.time + Dt(v.settings))]
  {
    StepOrder(v, ds, lv, started, fmt);
    ClockSingle(StepBefore(v, ds, lv, started, fmt), Advanced(v.itt + 1, v.time + Dt(v.settings)), StepAfter(Next(v), ds));
  }

  /** Counting one event across the five parts of an iteration when only the
      second can hold it. */
  lemma CountInSecond(w: seq<Event>, p: seq<Event>, f: seq<Event>, x: Event, b: seq<Event>, e: Event)
    requires e !in w && e !in f && e != x && e !in b
    ensures Count(w + p + f + [x] + b, e) == Count(p, e)
  {
    CountAppend(w, p, e);
    CountAppend(w + p, f, e);
    CountAppend(w + p + f, [x], e);
    CountAppend(w + p + f + [x], b, e);
  }

  /** One iteration starts the profiler exactly when it is the warm-up
      iteration. */
  lemma StepProfiler(v: Vars, ds: seq<Diagnostic>, lv: Levels, started: bool, fmt: Formatter)
    ensures Count(StepEvents(v, ds, lv, started, fmt), ProfilerStarted) == if started then 1 else 0
  {
    var w := WriteRestartCalls(v, ds, false, fmt);
    var p: seq<Event> := if started then [ProfilerStarted] else [];
    var forcing := ForcingCalls(lv.taup1);
    var adv := Advanced(v.itt + 1, v.time + Dt(v.settings));
    var after := StepAfter(Next(v), ds);
    assert StepEvents(v, ds, lv, started, fmt) == w + p + forcing + [adv] + after;
    StepOrder(v, ds, lv, started, fmt);
    assert ProfilerStarted !in after;
    WriteRestartCallsAreWrites(v, ds, false, fmt);
    assert ProfilerStarted !in w;
    CountInSecond(w, p, forcing, adv, after, ProfilerStarted);
    if started {
      assert p[..0] == [];
    }
  }

  /** The state at the start of the `i`-th iteration of a run that began
      at `v0`: `i` more iterations, `i` steps of `dt` later. */
  function VarsAt(v0: Vars, i: nat): (v: Vars)
    ensures v.settings == v0.settings
    ensures v.itt - v0.itt == i
    ensures v.time == v0.time + Multiple(v.itt - v0.itt, Dt(v0.settings))
  {
    Vars(v0.settings, v0.itt + i, v0.time + Multiple(i, Dt(v0.settings)))
  }

  /** Whether the run profiles: `rs.profile_mode` on rank 0, with the
      `'diagnostics'` timer present so that the warm-up test is reached. */
  predicate Profiling(timers: map<string, Timer>, profileMode: bool, procRank: int)
  {
    "diagnostics" in timers && profileMode && procRank == 0
  }

  /** The calls of `n` iterations one after another, iteration `i` making
      the calls `f(i)`. */
  function Concat(n: nat, f: nat -> seq<Event>): seq<Event>
  {
    if n == 0 then [] else Concat(n - 1, f) + f(n - 1)
  }

  /** When every iteration advances the clock exactly once, the clock of `n`
      iterations is their advances in order. */
  lemma {:induction false} ConcatClock(n: nat, f: nat -> seq<Event>, g: nat -> Event)
    requires forall i: nat :: i < n ==> Clock(f(i)) == [g(i)]
    ensures |Clock(Concat(n, f))| == n
    ensures forall i: nat :: i < n ==> Clock(Concat(n, f))[i] == g(i)
  {
    if n > 0 {
      ConcatClock(n - 1, f, g);
      ClockAppend(Concat(n - 1, f), f(n - 1));
    }
  }

  /** When only iteration `j` makes the call `e`, and makes it once, `n`
      iterations make it once if they include `j` and never otherwise. */
  lemma {:induction false} ConcatCountOnce(n: nat, f: nat -> seq<Event>, e: Event, j: int)
    requires forall i: nat :: i < n ==> Count(f(i), e) == if i == j then 1 else 0
    ensures Count(Concat(n, f), e) == if 0 <= j < n then 1 else 0
  {
    if n > 0 {
      ConcatCountOnce(n - 1, f, e, j);
      CountAppend(Concat(n - 1, f), f(n - 1), e);
    }
  }

  /** The calls of iteration `i` of a run that began at `v0` with time levels
      `l0`: it starts at `VarsAt(v0, i)` with the levels rotated `i` times,
      and it is the one that starts the profiler when
      `itt - start_iteration == 3`. */
  function StepAt(v0: Vars, ds: seq<Diagnostic>, l0: Levels, profiling: bool, fmt: Formatter, i: nat): seq<Event>
  {
    StepEvents(VarsAt(v0, i), ds, RotateN(l0, i), profiling && i == 3, fmt)
  }

  function StepsOf(v0: Vars, ds: seq<Diagnostic>, l0: Levels, profiling: bool, fmt: Formatter): nat -> seq<Event>
  {
    (i: nat) => StepAt(v0, ds, l0, profiling, fmt, i)
  }

  /** The calls of the first `n` completed iterations of a run. */
  function RunEvents(v0: Vars, ds: seq<Diagnostic>, l0: Levels, profiling: bool, fmt: Formatter, n: nat): seq<Event>
  {
    Concat(n, StepsOf(v0, ds, l0, profiling, fmt))
  }

  /** The clock after `i + 1` completed iterations of a run that began at
      `v0`: `i + 1` iterations on, `i + 1` steps of `dt` later. */
  function Tick(v0: Vars, i: nat): Event
  {
    Advanced(v0.itt + i + 1, v0.time + Multiple(i + 1, Dt(v0.settings)))
  }

  lemma StepAtClock(v0: Vars, ds: seq<Diagnostic>, l0: Levels, profiling: bool, fmt: Formatter, i: nat)
    ensures Clock(StepAt(v0, ds, l0, profiling, fmt, i)) == [Tick(v0, i)]
  {
    var dt := Dt(v0.settings);
    var v := VarsAt(v0, i);
    StepClock(v, ds, RotateN(l0, i), profiling && i == 3, fmt);
    assert v.time + dt == v0.time + Multiple(i + 1, dt) by {
      assert Multiple(i + 1, dt) == Multiple(i, dt) + dt;
    }
    assert Advanced(v.itt + 1, v.time + dt) == Tick(v0, i);
  }

  /** Counter lockstep over a whole run: the `i`-th completed iteration
      advances the clock to `itt0 + i + 1` and `time0 + (i + 1) * dt`, and
      nothing else moves it. */
  lemma RunClock(v0: Vars, ds: seq<Diagnostic>, l0: Levels, profiling: bool, fmt: Formatter, n: nat)
    ensures var c := Clock(RunEvents(v0, ds, l0, profiling, fmt, n));
      |c| == n && forall i: nat :: i < n ==> c[i] == Tick(v0, i)
  {
    var f := StepsOf(v0, ds, l0, profiling, fmt);
    var g: nat -> Event := (i: nat) => Tick(v0, i);
    forall i: nat | i < n
      ensures Clock(f(i)) == [g(i)]
    {
      StepAtClock(v0, ds, l0, profiling, fmt, i);
    }
    ConcatClock(n, f, g);
  }

  /** The profiler is started at most once per run: by the fourth iteration,
      and only when the run profiles. */
  lemma RunProfilerOnce(v0: Vars, ds: seq<Diagnostic>, l0: Levels, profiling: bool, fmt: Formatter, n: nat)
    ensures Count(RunEvents(v0, ds, l0, profiling, fmt, n), ProfilerStarted) == if profiling && n >= 4 then 1 else 0
  {
    var f := StepsOf(v0, ds, l0, profiling, fmt);
    var j := if profiling then 3 else -1;
    forall i: nat | i < n
      ensures Count(f(i), ProfilerStarted) == if i == j then 1 else 0
    {
      StepProfiler(VarsAt(v0, i), ds, RotateN(l0, i), profiling && i == 3, fmt);
    }
    ConcatCountOnce(n, f, ProfilerStarted, j);
  }

  /** How many iterations `while vs.time - start_time < vs.runlen` makes
      when none raises: the least `n` with `n * dt >= runlen`. */
  function Planned(m: map<string, Value>): nat
  {
    if Dt(m) > 0.0 then StepsToCover(Runlen(m), Dt(m)) else 0
  }

  /** The loop condition after `i` iterations holds exactly for the planned
      ones. With a step that is not positive the loop is only ever entered
      when the run length is positive, where it would not end; that case is
      excluded. */
  lemma PlannedExact(m: map<string, Value>, i: nat)
    requires Dt(m) > 0.0 || Runlen(m) <= 0.0
    requires Dt(m) <= 0.0 ==> i == 0
    ensures Multiple(i, Dt(m)) < Runlen(m) <==> i < Planned(m)
  {
    if Dt(m) > 0.0 {
      StepsToCoverExact(Runlen(m), Dt(m), i);
    }
  }

  /** The iterations, from the `i`-th on, that a run of `total` planned
      iterations completes: up to the first that raises. */
  function CompletedFrom(timers: map<string, Timer>, m: map<string, Value>, itt0: int, env: Env,
                     total: nat, i: nat): (n: nat)
    requires i <= total
    ensures i <= n <= total
    ensures n < total ==> StepOutcome(timers, m, itt0 + n, env).err.Some?
    decreases total - i
  {
    if i == total then total
    else if StepOutcome(timers, m, itt0 + i, env).err.Some? then i
    else CompletedFrom(timers, m, itt0, env, total, i + 1)
  }

  /** An iteration that raises nothing does not end the count. */
  lemma CompletedFromSkips(timers: map<string, Timer>, m: map<string, Value>, itt0: int, env: Env,
                           total: nat, i: nat)
    requires i < total && StepOutcome(timers, m, itt0 + i, env).err.None?
    ensures CompletedFrom(timers, m, itt0, env, total, i) == CompletedFrom(timers, m, itt0, env, total, i + 1)
  {
  }

  /** An iteration that raises, or the end of the planned ones, ends the count. */
  lemma CompletedFromStops(timers: map<string, Timer>, m: map<string, Value>, itt0: int, env: Env,
                           total: nat, i: nat)
    requires i <= total
    requires i == total || StepOutcome(timers, m, itt0 + i, env).err.Some?
    ensures CompletedFrom(timers, m, itt0, env, total, i) == i
  {
  }

  /** The count stops at the first iteration that raises: none of the
      iterations it passes over raised. */
  lemma {:induction false} CompletedFromClean(timers: map<string, Timer>, m: map<string, Value>, itt0: int,
                                              env: Env, total: nat, i: nat)
    requires i <= total
    ensures var n := CompletedFrom(timers, m, itt0, env, total, i);
      forall itt :: itt0 + i <= itt < itt0 + n ==> StepOutcome(timers, m, itt, env).err.None?
    decreases total - i
  {
    if i == total || StepOutcome(timers, m, itt0 + i, env).err.Some? {
      CompletedFromStops(timers, m, itt0, env, total, i);
    } else {
      var n := CompletedFrom(timers, m, itt0, env, total, i + 1);
      CompletedFromSkips(timers, m, itt0, env, total, i);
      CompletedFromClean(timers, m, itt0, env, total, i + 1);
      forall itt | itt0 + i <= itt < itt0 + n
        ensures StepOutcome(timers, m, itt, env).err.None?
      {
        if itt == itt0 + i {
        }
      }
    }
  }

  /** How the loop of a run ends: the iterations it completed, the exception
      that stopped it (if any), the clock, the time levels, and every call
      made so far. */
  datatype LoopEnd = LoopEnd(completed: nat, failure: Option<PyError>, vars: Vars, levels: Levels, calls: seq<Event>)

  /** The exception a loop that completed `n` iterations stopped with: that
      of iteration `n` if it is a planned one. */
  function EndFailure(timers: map<string, Timer>, m: map<string, Value>, itt0: int, env: Env, n: nat): Option<PyError>
  {
    if n < Planned(m) then StepOutcome(timers, m, itt0 + n, env).err else None
  }

  /** The clock of a loop from `v0` that completed `n` iterations: `n` steps
      on, and one more if iteration `n` raised after advancing it. */
  function EndVars(v0: Vars, timers: map<string, Timer>, env: Env, n: nat): Vars
  {
    if EndFailure(timers, v0.settings, v0.itt, env, n).Some? && StepOutcome(timers, v0.settings, v0.itt + n, env).advanced
    then Next(VarsAt(v0, n)) else VarsAt(v0, n)
  }

  /** The calls of a loop entered with the calls `t` that completed `n`
      iterations: theirs, then what iteration `n` made if it raised. */
  function EndCalls(v0: Vars, ds: seq<Diagnostic>, l0: Levels, timers: map<string, Timer>, profiling: bool,
                    fmt: Formatter, env: Env, t: seq<Event>, n: nat): seq<Event>
  {
    t + RunEvents(v0, ds, l0, profiling, fmt, n)
    + (if EndFailure(timers, v0.settings, v0.itt, env, n).Some?
       then StepCalls(VarsAt(v0, n), ds, RotateN(l0, n), timers, profiling && n == 3, fmt, env)
       else [])
  }

  /** The exception of a loop that completed the count of iterations
      `CompletedFrom` gives: none exactly when all planned iterations ran,
      otherwise that of the iteration it stopped at. */
  lemma EndFailureAt(timers: map<string, Timer>, m: map<string, Value>, itt0: int, env: Env)
    ensures var n := CompletedFrom(timers, m, itt0, env, Planned(m), 0); var f := EndFailure(timers, m, itt0, env, n);
      && n <= Planned(m)
      && (f.None? <==> n == Planned(m))
      && (f.Some? ==> f == StepOutcome(timers, m, itt0 + n, env).err)
  {
  }

  /** The loop of a run from `v0` with time levels `l0`, entered once the
      calls `calls` have been made: it completes the planned iterations up
      to the first that raises, and stops with that iteration's exception;
      it ends without one exactly when it ran all the planned iterations. */
  function Loop(v0: Vars, ds: seq<Diagnostic>, l0: Levels, timers: map<string, Timer>, profiling: bool,
                fmt: Formatter, env: Env, calls: seq<Event>): (e: LoopEnd)
    ensures e.completed <= Planned(v0.settings)
    ensures e.failure.None? <==> e.completed == Planned(v0.settings)
    ensures e.failure.Some? ==> e.failure == StepOutcome(timers, v0.settings, v0.itt + e.completed, env).err
  {
    var n := CompletedFrom(timers, v0.settings, v0.itt, env, Planned(v0.settings), 0);
    EndFailureAt(timers, v0.settings, v0.itt, env);
    LoopEnd(n, EndFailure(timers, v0.settings, v0.itt, env, n), EndVars(v0, timers, env, n), RotateN(l0, n),
            EndCalls(v0, ds, l0, timers, profiling, fmt, env, calls, n))
  }

  /** Counter lockstep at the end of the loop: the clock has advanced one
      step of `dt` per iteration count, once per completed iteration and once
      more when the iteration that raised had advanced it; a divergence names
      the iteration the clock stopped at. */
  lemma LoopClock(v0: Vars, ds: seq<Diagnostic>, l0: Levels, timers: map<string, Timer>, profiling: bool,
                  fmt: Formatter, env: Env, calls: seq<Event>)
    ensures var e := Loop(v0, ds, l0, timers, profiling, fmt, env, calls);
      && e.vars.settings == v0.settings
      && e.vars.time == v0.time + Multiple(e.vars.itt - v0.itt, Dt(v0.settings))
      && (e.vars.itt - v0.itt == e.completed || (e.failure.Some? && e.vars.itt - v0.itt == e.completed + 1))
      && (e.failure.Some? && e.failure.value.Diverged? ==> e.failure.value.itt == e.vars.itt)
  {
    var e := Loop(v0, ds, l0, timers, profiling, fmt, env, calls);
    EndClock(v0, timers, env, e.completed);
  }

  /** The clock a loop that completed `n` iterations ends with, in lockstep
      with the iteration count. */
  lemma EndClock(v0: Vars, timers: map<string, Timer>, env: Env, n: nat)
    ensures var v := EndVars(v0, timers, env, n); var f := EndFailure(timers, v0.settings, v0.itt, env, n);
      && v.settings == v0.settings
      && v.time == v0.time + Multiple(v.itt - v0.itt, Dt(v0.settings))
      && (v.itt - v0.itt == n || (f.Some? && v.itt - v0.itt == n + 1))
      && (f.Some? && f.value.Diverged? ==> f.value.itt == v.itt)
  {
    VarsAtNext(v0, n);
    StepOutcomeCases(timers, v0.settings, v0.itt + n, env);
  }

  /** The time levels at the end of the loop: rotated once per completed
      iteration (the iteration that raised does not rotate), so only the
      count modulo 3 matters, and they stay pairwise distinct. */
  lemma LoopLevels(v0: Vars, ds: seq<Diagnostic>, l0: Levels, timers: map<string, Timer>, profiling: bool,
                   fmt: Formatter, env: Env, calls: seq<Event>)
    ensures var e := Loop(v0, ds, l0, timers, profiling, fmt, env, calls);
      && e.levels == RotateN(l0, e.completed % 3)
      && (Distinct(e.levels) <==> Distinct(l0))
  {
    var e := Loop(v0, ds, l0, timers, profiling, fmt, env, calls);
    RotateNPeriodic(l0, e.completed);
    RotateNDistinct(l0, e.completed);
  }

  /** The loop condition held before every completed iteration, and a loop
      that ends without an exception has covered the run length:
      `time - start_time >= runlen`. */
  lemma LoopCoversRunlen(v0: Vars, ds: seq<Diagnostic>, l0: Levels, timers: map<string, Timer>, profiling: bool,
                         fmt: Formatter, env: Env, calls: seq<Event>)
    requires Dt(v0.settings) > 0.0 || Runlen(v0.settings) <= 0.0
    ensures var e := Loop(v0, ds, l0, timers, profiling, fmt, env, calls);
      && (forall j: nat :: j < e.completed ==> Multiple(j, Dt(v0.settings)) < Runlen(v0.settings))
      && (e.failure.None? ==> e.vars.time - v0.time >= Runlen(v0.settings))
  {
    var e := Loop(v0, ds, l0, timers, profiling, fmt, env, calls);
    forall j: nat | j < e.completed
      ensures Multiple(j, Dt(v0.settings)) < Runlen(v0.settings)
    {
      PlannedExact(v0.settings, j);
    }
    if e.failure.None? {
      PlannedExact(v0.settings, e.completed);
      LoopClock(v0, ds, l0, timers, profiling, fmt, env, calls);
    }
  }

  /** The exception the loop ends with is that of the first iteration that
      raised: every iteration it completed raised nothing (and, by `Loop`'s
      contract, the one it stopped at raised). */
  lemma LoopFirstFailure(v0: Vars, ds: seq<Diagnostic>, l0: Levels, timers: map<string, Timer>, profiling: bool,
                         fmt: Formatter, env: Env, calls: seq<Event>)
    ensures var e := Loop(v0, ds, l0, timers, profiling, fmt, env, calls);
      forall itt :: v0.itt <= itt < v0.itt + e.completed ==> StepOutcome(timers, v0.settings, itt, env).err.None?
  {
    CompletedFromClean(timers, v0.settings, v0.itt, env, Planned(v0.settings), 0);
  }

  /** A step of 0.5 s over a run of 2.0 s plans four iterations. */
  lemma PlannedExample(m: map<string, Value>)
    requires Dt(m) == 0.5 && Runlen(m) == 2.0
    ensures Planned(m) == 4
  {
    StepsToCoverExact(2.0, 0.5, 3);
    StepsToCoverExact(2.0, 0.5, 4);
  }

  /** A run with a step of 0.5 s and a run length of 2.0 s whose four
      planned iterations raise nothing: the loop ends without an exception
      after four iterations, the iteration count four and the clock 2.0 s
      on, and the time levels rotated four times, which is once. */
  lemma FourStepRun(v0: Vars, ds: seq<Diagnostic>, l0: Levels, timers: map<string, Timer>, profiling: bool,
                    fmt: Formatter, env: Env, calls: seq<Event>)
    requires Dt(v0.settings) == 0.5 && Runlen(v0.settings) == 2.0
    requires forall itt :: v0.itt <= itt < v0.itt + 4 ==> StepOutcome(timers, v0.settings, itt, env).err.None?
    ensures var e := Loop(v0, ds, l0, timers, profiling, fmt, env, calls);
      && e.completed == 4 && e.failure.None?
      && e.vars.itt == v0.itt + 4 && e.vars.time == v0.time + 2.0
      && e.levels == Rotate(l0)
  {
    PlannedExample(v0.settings);
    var m, itt0 := v0.settings, v0.itt;
    CompletedFromSkips(timers, m, itt0, env, 4, 0);
    CompletedFromSkips(timers, m, itt0, env, 4, 1);
    CompletedFromSkips(timers, m, itt0, env, 4, 2);
    CompletedFromSkips(timers, m, itt0, env, 4, 3);
    LoopClock(v0, ds, l0, timers, profiling, fmt, env, calls);
    LoopLevels(v0, ds, l0, timers, profiling, fmt, env, calls);
    assert RotateN(l0, 1) == Rotate(RotateN(l0, 0));
  }

  /** A completed iteration makes the calls of `StepAt`, and the calls of the
      run grow by them. */
  lemma StepCompletes(v0: Vars, ds: seq<Diagnostic>, l0: Levels, timers: map<string, Timer>,
                      profiling: bool, fmt: Formatter, env: Env, i: nat, started: bool)
    requires started == (profiling && i == 3)
    requires StepOutcome(timers, v0.settings, v0.itt + i, env).err.None?
    ensures StepCalls(VarsAt(v0, i), ds, RotateN(l0, i), timers, started, fmt, env) == StepAt(v0, ds, l0, profiling, fmt, i)
    ensures RunEvents(v0, ds, l0, profiling, fmt, i + 1) == RunEvents(v0, ds, l0, profiling, fmt, i) + StepAt(v0, ds, l0, profiling, fmt, i)
  {
    StepCallsPrefix(VarsAt(v0, i), ds, RotateN(l0, i), timers, started, fmt, env);
  }

  /** The loop ends at iteration `i` when no earlier iteration raised and
      `i` is past the planned ones or raises. */
  lemma LoopEndsAt(v0: Vars, ds: seq<Diagnostic>, l0: Levels, timers: map<string, Timer>, profiling: bool,
                   fmt: Formatter, env: Env, t: seq<Event>, i: nat)
    requires i <= Planned(v0.settings)
    requires CompletedFrom(timers, v0.settings, v0.itt, env, Planned(v0.settings), i)
          == CompletedFrom(timers, v0.settings, v0.itt, env, Planned(v0.settings), 0)
    requires i == Planned(v0.settings) || StepOutcome(timers, v0.settings, v0.itt + i, env).err.Some?
    ensures Loop(v0, ds, l0, timers, profiling, fmt, env, t) ==
      LoopEnd(i, EndFailure(timers, v0.settings, v0.itt, env, i), EndVars(v0, timers, env, i), RotateN(l0, i),
              EndCalls(v0, ds, l0, timers, profiling, fmt, env, t, i))
  {
    CompletedFromStops(timers, v0.settings, v0.itt, env, Planned(v0.settings), i);
  }

  /** The loop of a run that began at clock `v0`, time levels `l0` and
      calls `t` after `i` planned iterations, none of which raised: the
      clock, time levels and calls are those the `i` iterations leave. */
  ghost predicate Reached(v0: Vars, ds: seq<Diagnostic>, l0: Levels, timers: map<string, Timer>, profiling: bool,
                          fmt: Formatter, env: Env, t: seq<Event>, i: nat, vars: Vars, levels: Levels, trace: seq<Event>)
  {
    && i <= Planned(v0.settings)
    && CompletedFrom(timers, v0.settings, v0.itt, env, Planned(v0.settings), i)
       == CompletedFrom(timers, v0.settings, v0.itt, env, Planned(v0.settings), 0)
    && vars == VarsAt(v0, i) && levels == RotateN(l0, i)
    && trace == t + RunEvents(v0, ds, l0, profiling, fmt, i)
  }

  /** Before the first iteration nothing has changed. */
  lemma ReachedStart(v0: Vars, ds: seq<Diagnostic>, l0: Levels, timers: map<string, Timer>, profiling: bool,
                     fmt: Formatter, env: Env, t: seq<Event>)
    ensures Reached(v0, ds, l0, timers, profiling, fmt, env, t, 0, v0, l0, t)
  {
    assert VarsAt(v0, 0) == v0;
    assert t + RunEvents(v0, ds, l0, profiling, fmt, 0) == t;
  }

  /** The loop condition of `run`, evaluated on the clock after `i`
      iterations, holds exactly while planned iterations remain. */
  lemma GuardAt(v0: Vars, i: nat, vars: Vars)
    requires Dt(v0.settings) > 0.0 || Runlen(v0.settings) <= 0.0
    requires i <= Planned(v0.settings) && vars == VarsAt(v0, i)
    ensures vars.time - v0.time < Runlen(vars.settings) <==> i < Planned(v0.settings)
  {
    PlannedExact(v0.settings, i);
  }

  /** All planned iterations completed: the loop ends there without an
      exception. */
  lemma LoopRunsOut(v0: Vars, ds: seq<Diagnostic>, l0: Levels, timers: map<string, Timer>, profiling: bool,
                    fmt: Formatter, env: Env, t: seq<Event>, i: nat, vars: Vars, levels: Levels, trace: seq<Event>)
    requires Reached(v0, ds, l0, timers, profiling, fmt, env, t, i, vars, levels, trace)
    requires i == Planned(v0.settings)
    ensures Loop(v0, ds, l0, timers, profiling, fmt, env, t) == LoopEnd(i, None, vars, levels, trace)
  {
    LoopEndsAt(v0, ds, l0, timers, profiling, fmt, env, t, i);
    assert trace == EndCalls(v0, ds, l0, timers, profiling, fmt, env, t, i);
  }

  /** Iteration `i` of a run that began at `v0` starts at iteration
      `v0.itt + i` with the settings of `v0`. */
  lemma OutcomeAt(v0: Vars, timers: map<string, Timer>, env: Env, i: nat)
    ensures StepOutcome(timers, VarsAt(v0, i).settings, VarsAt(v0, i).itt, env) == StepOutcome(timers, v0.settings, v0.itt + i, env)
  {
    var v := VarsAt(v0, i);
    assert v.settings == v0.settings && v.itt == v0.itt + i;
  }

  /** An iteration that raises nothing has advanced the clock one step. */
  lemma CompletedVars(v0: Vars, timers: map<string, Timer>, env: Env, i: nat, vars: Vars)
    requires var v := VarsAt(v0, i); var r := StepOutcome(timers, v.settings, v.itt, env);
      r.err.None? && vars == (if r.advanced then Next(v) else v)
    ensures vars == VarsAt(v0, i + 1)
  {
    VarsAtNext(v0, i);
  }

  /** The calls of an iteration that raises nothing extend those of the
      completed iterations to one more. */
  lemma CompletedTrace(v0: Vars, ds: seq<Diagnostic>, l0: Levels, timers: map<string, Timer>, profiling: bool,
                       fmt: Formatter, env: Env, t: seq<Event>, i: nat, started: bool, trace: seq<Event>)
    requires started == (profiling && i == 3)
    requires StepOutcome(timers, v0.settings, v0.itt + i, env).err.None?
    requires trace == t + RunEvents(v0, ds, l0, profiling, fmt, i) + StepCalls(VarsAt(v0, i), ds, RotateN(l0, i), timers, started, fmt, env)
    ensures trace == t + RunEvents(v0, ds, l0, profiling, fmt, i + 1)
  {
    StepCompletes(v0, ds, l0, timers, profiling, fmt, env, i, started);
    Grown(t, RunEvents(v0, ds, l0, profiling, fmt, i), StepAt(v0, ds, l0, profiling, fmt, i));
  }

  /** Planned iteration `i`, entered at the state and calls of `i`
      completed iterations with none raised, raises nothing: the same then
      holds of iteration `i + 1`. */
  lemma IterationCompletes(v0: Vars, ds: seq<Diagnostic>, l0: Levels, timers: map<string, Timer>, profiling: bool,
                           fmt: Formatter, env: Env, t: seq<Event>, i: nat, started: bool, vars: Vars, trace: seq<Event>)
    requires i < Planned(v0.settings)
    requires CompletedFrom(timers, v0.settings, v0.itt, env, Planned(v0.settings), i)
          == CompletedFrom(timers, v0.settings, v0.itt, env, Planned(v0.settings), 0)
    requires started == (profiling && i == 3)
    requires var v := VarsAt(v0, i); var r := StepOutcome(timers, v.settings, v.itt, env);
      && r.err.None?
      && vars == (if r.advanced then Next(v) else v)
      && trace == t + RunEvents(v0, ds, l0, profiling, fmt, i) + StepCalls(v, ds, RotateN(l0, i), timers, started, fmt, env)
    ensures CompletedFrom(timers, v0.settings, v0.itt, env, Planned(v0.settings), i + 1)
         == CompletedFrom(timers, v0.settings, v0.itt, env, Planned(v0.settings), 0)
    ensures vars == VarsAt(v0, i + 1) && RotateN(l0, i + 1) == Rotate(RotateN(l0, i))
    ensures trace == t + RunEvents(v0, ds, l0, profiling, fmt, i + 1)
  {
    OutcomeAt(v0, timers, env, i);
    CompletedFromSkips(timers, v0.settings, v0.itt, env, Planned(v0.settings), i);
    CompletedVars(v0, timers, env, i, vars);
    CompletedTrace(v0, ds, l0, timers, profiling, fmt, env, t, i, started, trace);
  }

  /** The clock a loop ends with when planned iteration `i` raises: one
      step on if that iteration had advanced it. */
  lemma RaisedVars(v0: Vars, timers: map<string, Timer>, env: Env, i: nat)
    requires i < Planned(v0.settings) && StepOutcome(timers, v0.settings, v0.itt + i, env).err.Some?
    ensures EndVars(v0, timers, env, i) ==
      if StepOutcome(timers, v0.settings, v0.itt + i, env).advanced then Next(VarsAt(v0, i)) else VarsAt(v0, i)
  {
  }

  /** The calls a loop ends with when planned iteration `i` raises: those of
      the completed iterations, then what iteration `i` made. */
  lemma RaisedCalls(v0: Vars, ds: seq<Diagnostic>, l0: Levels, timers: map<string, Timer>, profiling: bool,
                    fmt: Formatter, env: Env, t: seq<Event>, i: nat)
    requires i < Planned(v0.settings) && StepOutcome(timers, v0.settings, v0.itt + i, env).err.Some?
    ensures EndCalls(v0, ds, l0, timers, profiling, fmt, env, t, i) ==
      t + RunEvents(v0, ds, l0, profiling, fmt, i) + StepCalls(VarsAt(v0, i), ds, RotateN(l0, i), timers, profiling && i == 3, fmt, env)
  {
    assert EndFailure(timers, v0.settings, v0.itt, env, i).Some?;
  }

  /** Planned iteration `i`, entered at the state and calls of `i`
      completed iterations with none raised, raises: the loop ends there. */
  lemma IterationRaises(v0: Vars, ds: seq<Diagnostic>, l0: Levels, timers: map<string, Timer>, profiling: bool,
                        fmt: Formatter, env: Env, t: seq<Event>, i: nat, started: bool, vars: Vars, trace: seq<Event>)
    requires i < Planned(v0.settings)
    requires CompletedFrom(timers, v0.settings, v0.itt, env, Planned(v0.settings), i)
          == CompletedFrom(timers, v0.settings, v0.itt, env, Planned(v0.settings), 0)
    requires started == (profiling && i == 3)
    requires var v := VarsAt(v0, i); var r := StepOutcome(timers, v.settings, v.itt, env);
      && r.err.Some?
      && vars == (if r.advanced then Next(v) else v)
      && trace == t + RunEvents(v0, ds, l0, profiling, fmt, i) + StepCalls(v, ds, RotateN(l0, i), timers, started, fmt, env)
    ensures Loop(v0, ds, l0, timers, profiling, fmt, env, t) ==
      LoopEnd(i, StepOutcome(timers, v0.settings, v0.itt + i, env).err, vars, RotateN(l0, i), trace)
  {
    OutcomeAt(v0, timers, env, i);
    LoopEndsAt(v0, ds, l0, timers, profiling, fmt, env, t, i);
    RaisedVars(v0, timers, env, i);
    RaisedCalls(v0, ds, l0, timers, profiling, fmt, env, t, i);
  }
  /** One pass of the loop body from the state `Reached` after `i`
      iterations, in the terms the body's own contract gives: it either
      reaches the state after `i + 1` iterations or ends the loop. */
  lemma Iteration(v0: Vars, ds: seq<Diagnostic>, l0: Levels, timers: map<string, Timer>, profiling: bool,
                  fmt: Formatter, env: Env, t: seq<Event>, i: nat, startItt: int,
                  err: Option<PyError>, started: bool, vars: Vars, levels: Levels, trace: seq<Event>)
    requires i < Planned(v0.settings) && startItt == v0.itt
    requires CompletedFrom(timers, v0.settings, v0.itt, env, Planned(v0.settings), i)
          == CompletedFrom(timers, v0.settings, v0.itt, env, Planned(v0.settings), 0)
    requires var v := VarsAt(v0, i); var r := StepOutcome(timers, v.settings, v.itt, env);
      && err == r.err && vars == (if r.advanced then Next(v) else v)
      && (started <==> profiling && v.itt - startItt == 3)
      && levels == (if err.None? then Rotate(RotateN(l0, i)) else RotateN(l0, i))
      && trace == t + RunEvents(v0, ds, l0, profiling, fmt, i) + StepCalls(v, ds, RotateN(l0, i), timers, started, fmt, env)
    ensures started == (profiling && i == 3)
    ensures err.None? ==> Reached(v0, ds, l0, timers, profiling, fmt, env, t, i + 1, vars, levels, trace)
    ensures err.Some? ==> Loop(v0, ds, l0, timers, profiling, fmt, env, t) == LoopEnd(i, err, vars, levels, trace)
  {
    OutcomeAt(v0, timers, env, i);
    if err.None? {
      IterationCompletes(v0, ds, l0, timers, profiling, fmt, env, t, i, started, vars, trace);
    } else {
      IterationRaises(v0, ds, l0, timers, profiling, fmt, env, t, i, started, vars, trace);
    }
  }


  /** One more step of `dt`. */
  lemma VarsAtNext(v0: Vars, i: nat)
    ensures VarsAt(v0, i + 1) == Next(VarsAt(v0, i))
  {
    assert Multiple(i + 1, Dt(v0.settings)) == Multiple(i, Dt(v0.settings)) + Dt(v0.settings);
  }

  /** The tail `run` adds once the loop is over: the critical message naming
      the iteration when the loop raised, the success message otherwise; then
      the `finally` block, whose timer lookups raise when `'setup'` or
      `'main'` is missing, so that neither the timing summary nor the
      profiler stop happens. No restart is forced at the end. */
  function Closing(raised: bool, itt: int, timers: map<string, Timer>, profiled: bool): (r: seq<Event>)
    ensures |r| >= 1 && r[0] == if raised then Critical(itt) else Succeeded
    ensures TimingSummary in r <==> "setup" in timers && "main" in timers
    ensures ProfilerStopped in r <==> "setup" in timers && "main" in timers && profiled
    ensures forall e :: e in r ==> !e.RestartWritten?
    ensures |r| == 1 + (if "setup" in timers && "main" in timers then (if profiled then 2 else 1) else 0)
    ensures "setup" in timers && "main" in timers ==> r[1] == TimingSummary
    ensures "setup" in timers && "main" in timers && profiled ==> r[2] == ProfilerStopped
  {
    [if raised then Critical(itt) else Succeeded]
    + (if "setup" in timers && "main" in timers
       then [TimingSummary] + (if profiled then [ProfilerStopped] else [])
       else [])
  }

  /** The exception `run` ends with: one raised by the `finally` block
      replaces the loop's. */
  function RunOutcome(failure: Option<PyError>, timers: map<string, Timer>): (o: Outcome)
    ensures o == Completed <==> failure.None? && "setup" in timers && "main" in timers
    ensures "setup" !in timers ==> o == Raised(KeyError("setup"))
    ensures "setup" in timers && "main" !in timers ==> o == Raised(KeyError("main"))
    ensures "setup" in timers && "main" in timers && failure.Some? ==> o == Raised(failure.value)
  {
    if "setup" !in timers then Raised(KeyError("setup"))
    else if "main" !in timers then Raised(KeyError("main"))
    else if failure.Some? then Raised(failure.value)
    else Completed
  }

  /** The two timers `__init__` creates. */
  function InitialTimers(): (t: map<string, Timer>)
    ensures t.Keys == {"setup", "main"}
    ensures forall k :: k in t ==> t[k] == Timer(k)
  {
    map["setup" := Timer("setup"), "main" := Timer("main")]
  }

  /** With only the timers `__init__` creates, every iteration stops at the
      lookup of the `'diagnostics'` timer before any work, and the `finally`
      block completes. */
  lemma InitialTimersStopFirstStep(m: map<string, Value>, itt: int, env: Env)
    ensures StepOutcome(InitialTimers(), m, itt, env) == StepResult(Some(KeyError("diagnostics")), false)
    ensures RunOutcome(Some(KeyError("diagnostics")), InitialTimers()) == Raised(KeyError("diagnostics"))
  {
  }

  /** The catalog does not define `enable_neutral_diffusion`, which every
      iteration reads after the advance. So a state that holds only the
      defaults, even with all its timers, stops every iteration that gets past
      the hook and the sanity check with that `AttributeError`, once the clock
      has advanced. */
  lemma DefaultsRaiseAfterAdvance(timers: map<string, Timer>, itt: int, env: Env)
    requires "diagnostics" in timers && "main" in timers
    requires ForcingError(itt, env).None? && AfterStepError(itt + 1, env).None?
    ensures StepOutcome(timers, Settings.Defaults(), itt, env) ==
      StepResult(Some(AttributeError("enable_neutral_diffusion")), true)
  {
    Settings.CatalogWellFormed();
    assert "enable_neutral_diffusion" !in Settings.KeySet(Settings.Catalog());
    Settings.InstallKeys(map[], Settings.Catalog());
  }

  /** An iteration cut short after `k` of the calls that follow the restart
      write and the profiler start has made a prefix of its calls, and has
      started the profiler exactly when a full iteration would. */
  lemma StepCut(wp: seq<Event>, rest: seq<Event>, k: nat, started: bool)
    requires k <= |rest|
    requires ProfilerStarted in wp <==> started
    requires ProfilerStarted !in rest
    ensures wp + rest[..k] <= wp + rest
    ensures ProfilerStarted in wp + rest[..k] <==> started
  {
    assert (wp + rest)[..|wp| + k] == wp + rest[..k];
    assert forall e :: e in rest[..k] ==> e in rest;
  }

  /** Appending in two steps is appending the two parts at once. */
  lemma Grown(t: seq<Event>, a: seq<Event>, b: seq<Event>)
    ensures t + a + b == t + (a + b)
  {
  }

  /** An iteration stopped in its first part has made a prefix of its calls. */
  lemma JoinBefore(b: seq<Event>, fb: seq<Event>, rest: seq<Event>)
    requires b <= fb
    ensures b <= fb + rest
  {
    assert (fb + rest)[..|b|] == fb[..|b|];
  }

  /** An iteration stopped in its second part has made all of its first part,
      the advance, and a prefix of its second part; the profiler start, if
      any, is in the first part. */
  lemma JoinAfter(fb: seq<Event>, x: Event, a: seq<Event>, fa: seq<Event>, started: bool)
    requires a <= fa
    requires ProfilerStarted in fb <==> started
    requires x != ProfilerStarted && ProfilerStarted !in fa
    ensures fb + [x] + a <= fb + [x] + fa
    ensures ProfilerStarted in fb + [x] + a <==> started
  {
    assert (fb + [x] + fa)[..|fb| + 1 + |a|] == fb + [x] + a;
    assert forall e :: e in a ==> e in fa;
  }

  class Sim {
    const state: State
    var overrideSettings: map<string, Value>

    /** `ecoSetup(state=None, override)`: a fresh state whose timer map holds
        exactly `'setup'` and `'main'`; `override or {}` is kept for setup. */
    constructor (override: Option<map<string, Value>>)
      ensures overrideSettings == if override.Some? then override.value else map[]
      ensures fresh(state)
      ensures state.timers == InitialTimers() && "diagnostics" !in state.timers
      ensures state.settings == Settings.Defaults() && Configured(state.settings)
      ensures state.itt == 0 && state.time == 0.0 && state.CurrentLevels() == Levels(0, 1, 2)
      ensures state.diagnostics == [] && state.trace == []
    {
      overrideSettings := if override.Some? then override.value else map[];
      var vs := new State();
      vs.timers := InitialTimers();
      state := vs;
    }

    /** `diagnostics.write_restart(vs)` inside the `'diagnostics'` timer, then
        the profiler start on the fourth iteration of this run when profiling
        is requested on rank 0 (ecosys3D/ecosys3D.py:132-137). The ghost `v`
        names the clock this happens on. */
    method Warmup(startItt: int, profileMode: bool, procRank: int, fmt: Formatter, ghost v: Vars)
      returns (started: bool)
      requires v == state.CurrentVars() && Configured(v.settings)
      modifies state`trace
      ensures started <==> v.itt - startItt == 3 && profileMode && procRank == 0
      ensures state.trace == old(state.trace) + WriteRestartCalls(v, state.diagnostics, false, fmt)
        + (if started then [ProfilerStarted] else [])
    {
      var vs := state;
      WriteRestart(vs, false, fmt);
      started := false;
      if vs.itt - startItt == 3 && profileMode && procRank == 0 {
        var profiler := StartProfiler(vs);
        started := true;
      }
    }

    /** Inside the `'main'` timer: `set_forcing`, then the boundary kernel on
        `u` and on `v` at `taup1` (ecosys3D/ecosys3D.py:139-143); the first
        call that raises ends the sequence. */
    method Forcing(env: Env) returns (err: Option<PyError>)
      modifies state`trace
      ensures err == ForcingError(state.itt, env)
      ensures state.trace == old(state.trace) + ForcingCalls(state.taup1)[..ForcingReached(state.itt, env)]
    {
      var vs := state;
      vs.trace := vs.trace + [ForcingSet];
      var cause := env.Fault(vs.itt, SetForcing);
      if cause.Some? {
        return Some(External(cause.value));
      }
      vs.trace := vs.trace + [BoundariesEnforced("u", vs.taup1)];
      cause := env.Fault(vs.itt, EnforceBoundaries("u"));
      if cause.Some? {
        return Some(External(cause.value));
      }
      vs.trace := vs.trace + [BoundariesEnforced("v", vs.taup1)];
      cause := env.Fault(vs.itt, EnforceBoundaries("v"));
      err := if cause.Some? then Some(External(cause.value)) else None;
    }

    /** The loop body up to the clock advance (ecosys3D/ecosys3D.py:132-143):
        the `'diagnostics'` timer looked up around the restart write, the
        warm-up profiler start, and the `'main'` timer looked up around
        forcing and boundaries. */
    method Prologue(startItt: int, profileMode: bool, procRank: int, env: Env, fmt: Formatter,
                    ghost v: Vars, ghost ds: seq<Diagnostic>, ghost lv: Levels)
      returns (err: Option<PyError>, started: bool)
      requires v == state.CurrentVars() && ds == state.diagnostics && lv == state.CurrentLevels()
      requires Configured(v.settings)
      modifies state`trace
      ensures err == PrologueError(state.timers, v.itt, env)
      ensures started <==> "diagnostics" in state.timers && v.itt - startItt == 3 && profileMode && procRank == 0
      ensures state.trace == old(state.trace) + PrologueCalls(v, ds, lv, state.timers, started, fmt, env)
    {
      var vs := state;
      if "diagnostics" !in vs.timers {
        return Some(KeyError("diagnostics")), false;
      }
      started := Warmup(startItt, profileMode, procRank, fmt, v);
      if "main" !in vs.timers {
        return Some(KeyError("main")), started;
      }
      err := Forcing(env);
    }

    /** `vs.itt += 1`, `vs.time += dt`, and the progress bar advanced
        (ecosys3D/ecosys3D.py:145-147). */
    method Advance()
      modifies state`itt, state`time, state`trace
      ensures state.itt == old(state.itt) + 1 && state.time == old(state.time) + Dt(state.settings)
      ensures state.trace == old(state.trace) + [Advanced(state.itt, state.time)]
    {
      state.itt := state.itt + 1;
      state.time := state.time + Dt(state.settings);
      state.trace := state.trace + [Advanced(state.itt, state.time)];
    }

    /** `self.after_timestep(vs)`, then the sanity check of the advanced
        iteration (ecosys3D/ecosys3D.py:149-153). */
    method AfterStep(env: Env) returns (err: Option<PyError>)
      modifies state`trace
      ensures err == AfterStepError(state.itt, env)
      ensures state.trace == old(state.trace) + AfterStepCalls(state.itt, env)
    {
      var vs := state;
      vs.trace := vs.trace + [StepHookRan];
      var cause := env.Fault(vs.itt, AfterTimestep);
      if cause.Some? {
        return Some(External(cause.value));
      }
      var ok := SanityCheck(vs, env.diverged);
      err := if ok then None else Some(Diverged(vs.itt));
    }

    /** `if vs.enable_neutral_diffusion and vs.enable_skew_diffusion:` the
        streamfunction diagnostic (ecosys3D/ecosys3D.py:155-156). Reading an
        unset attribute raises before anything is called. */
    method StreamfunctionStage(env: Env) returns (err: Option<PyError>)
      modifies state`trace
      ensures err == StreamfunctionError(state.settings, state.itt, env)
      ensures state.trace == old(state.trace) + StreamfunctionCalls(state.settings)
    {
      var vs := state;
      if "enable_neutral_diffusion" !in vs.settings {
        return Some(AttributeError("enable_neutral_diffusion"));
      }
      if !Truthy(vs.settings["enable_neutral_diffusion"]) {
        return None;
      }
      if "enable_skew_diffusion" !in vs.settings {
        return Some(AttributeError("enable_skew_diffusion"));
      }
      if !Truthy(vs.settings["enable_skew_diffusion"]) {
        return None;
      }
      vs.trace := vs.trace + [StreamfunctionDiagnosed];
      var cause := env.Fault(vs.itt, Streamfunction);
      err := if cause.Some? then Some(External(cause.value)) else None;
    }

    /** `diagnostics.diagnose(vs)` then `diagnostics.output(vs)` on the
        advanced clock (ecosys3D/ecosys3D.py:158-159). */
    method Sampling(ghost u: Vars)
      requires u == state.CurrentVars()
      modifies state`trace
      ensures state.trace == old(state.trace) + ScheduledCalls(u, state.diagnostics)
    {
      Diagnose(state);
      Output(state);
    }

    /** The loop body after the clock advance (ecosys3D/ecosys3D.py:149-159):
        the user hook, then inside the `'diagnostics'` timer the sanity check,
        the streamfunction diagnostic when both diffusion switches are on,
        sampling and output. The ghost `u` and `ds` name the advanced clock
        and the registry. */
    method Epilogue(env: Env, ghost u: Vars, ghost ds: seq<Diagnostic>) returns (err: Option<PyError>)
      requires u == state.CurrentVars() && ds == state.diagnostics
      modifies state`trace
      ensures err == EpilogueError(u.settings, u.itt, env)
      ensures state.trace == old(state.trace) + EpilogueCalls(u, ds, env)
    {
      ghost var t0 := state.trace;
      ghost var a := AfterStepCalls(u.itt, env);
      err := AfterStep(env);
      if err.Some? {
        return;
      }
      ghost var sf := StreamfunctionCalls(u.settings);
      err := StreamfunctionStage(env);
      Grown(t0, a, sf);
      if err.Some? {
        return;
      }
      Sampling(u);
      Grown(t0, a + sf, ScheduledCalls(u, ds));
    }

    /** The loop body from the clock advance on (ecosys3D/ecosys3D.py:145-165):
        the advance, the part after it, and the rotation of the time levels
        when that raised nothing. The ghost `v` and `ds` name the clock
        before the advance and the registry. */
    method Proceed(env: Env, ghost v: Vars, ghost ds: seq<Diagnostic>) returns (err: Option<PyError>)
      requires v == state.CurrentVars() && ds == state.diagnostics
      modifies state`itt, state`time, state`trace, state`taum1, state`tau, state`taup1
      ensures err == EpilogueError(v.settings, v.itt + 1, env)
      ensures state.itt == v.itt + 1 && state.time == v.time + Dt(v.settings)
      ensures state.CurrentLevels() == if err.None? then Rotate(old(state.CurrentLevels())) else old(state.CurrentLevels())
      ensures state.trace == old(state.trace) + [Advanced(v.itt + 1, v.time + Dt(v.settings))]
        + EpilogueCalls(Next(v), ds, env)
    {
      var vs := state;
      Advance();
      err := Epilogue(env, Next(v), ds);
      if err.Some? {
        return;
      }
      vs.taum1, vs.tau, vs.taup1 := vs.tau, vs.taup1, vs.taum1;
    }

    /** One pass of the loop body of `run` (ecosys3D/ecosys3D.py:132-165):
        the trace grows by exactly the calls the iteration makes, the clock
        advances when the part before the advance raised nothing, and the
        time levels rotate when nothing raised. Calls into code outside the
        model are recorded on the trace; the exceptions they raise come from
        `env`. */
    method Step(startItt: int, profileMode: bool, procRank: int, env: Env, fmt: Formatter,
                ghost v: Vars, ghost lv: Levels, ghost ds: seq<Diagnostic>, ghost timers: map<string, Timer>,
                ghost t: seq<Event>)
      returns (err: Option<PyError>, started: bool)
      requires Configured(v.settings)
      requires state.CurrentVars() == v && state.CurrentLevels() == lv && state.diagnostics == ds
      requires state.timers == timers && state.trace == t
      modifies state
      ensures state.settings == v.settings && state.timers == timers && state.diagnostics == ds
      ensures var r := StepOutcome(timers, v.settings, v.itt, env);
        && err == r.err
        && state.CurrentVars() == if r.advanced then Next(v) else v
      ensures started <==> Profiling(timers, profileMode, procRank) && v.itt - startItt == 3
      ensures state.CurrentLevels() == if err.None? then Rotate(lv) else lv
      ensures state.trace == t + StepCalls(v, ds, lv, timers, started, fmt, env)
    {
      err, started := Prologue(startItt, profileMode, procRank, env, fmt, v, ds, lv);
      if err.Some? {
        return;
      }
      ghost var p := PrologueCalls(v, ds, lv, timers, started, fmt, env);
      ghost var adv := [Advanced(v.itt + 1, v.time + Dt(v.settings))];
      err := Proceed(env, v, ds);
      Grown(t, p, adv);
      Grown(t, p + adv, EpilogueCalls(Next(v), ds, env));
    }

    /** The state of `run`'s loop after `i` iterations of a run that began
        at clock `v0`, time levels `l0` and calls `t`, none of them having
        raised: the settings, timers and registry are untouched, and the
        clock, levels and calls are those `Reached` gives. */
    ghost predicate Midway(v0: Vars, l0: Levels, ds: seq<Diagnostic>, timers: map<string, Timer>, profiling: bool,
                           fmt: Formatter, env: Env, t: seq<Event>, i: nat)
      reads state
    {
      && state.settings == v0.settings && state.timers == timers && state.diagnostics == ds
      && Reached(v0, ds, l0, timers, profiling, fmt, env, t, i, state.CurrentVars(), state.CurrentLevels(), state.trace)
    }

    /** Planned iteration `i` of a run, no earlier iteration having raised:
        `Step` from the clock, levels and calls of that iteration. When it
        raises nothing the loop is `Midway` after `i + 1` iterations; when it
        raises, the state is how the loop ends. */
    method Iterate(startItt: int, profileMode: bool, procRank: int, env: Env, fmt: Formatter,
                   ghost v0: Vars, ghost l0: Levels, ghost ds: seq<Diagnostic>, ghost timers: map<string, Timer>,
                   ghost t: seq<Event>, ghost i: nat)
      returns (err: Option<PyError>, started: bool)
      requires Configured(v0.settings) && startItt == v0.itt && i < Planned(v0.settings)
      requires Midway(v0, l0, ds, timers, Profiling(timers, profileMode, procRank), fmt, env, t, i)
      modifies state
      ensures started == (Profiling(timers, profileMode, procRank) && i == 3)
      ensures err.None? ==> Midway(v0, l0, ds, timers, Profiling(timers, profileMode, procRank), fmt, env, t, i + 1)
      ensures err.Some? ==>
        && state.settings == v0.settings && state.timers == timers && state.diagnostics == ds
        && Loop(v0, ds, l0, timers, Profiling(timers, profileMode, procRank), fmt, env, t) ==
             LoopEnd(i, err, state.CurrentVars(), state.CurrentLevels(), state.trace)
    {
      ghost var profiling := Profiling(timers, profileMode, procRank);
      err, started := Step(startItt, profileMode, procRank, env, fmt, VarsAt(v0, i), RotateN(l0, i), ds, timers,
                           t + RunEvents(v0, ds, l0, profiling, fmt, i));
      Iteration(v0, ds, l0, timers, profiling, fmt, env, t, i, startItt,
                err, started, state.CurrentVars(), state.CurrentLevels(), state.trace);
    }

    /** The `try` body of `run` (ecosys3D/ecosys3D.py:129-165): iterations
        while `vs.time - start_time < vs.runlen`, until one raises.
        `profiled` says whether `profiler` is no longer `None`. */
    method Integrate(profileMode: bool, procRank: int, env: Env, fmt: Formatter,
                     ghost v0: Vars, ghost l0: Levels, ghost ds: seq<Diagnostic>, ghost timers: map<string, Timer>,
                     ghost t0: seq<Event>)
      returns (failure: Option<PyError>, profiled: bool)
      requires Configured(v0.settings)
      requires Dt(v0.settings) > 0.0 || Runlen(v0.settings) <= 0.0
      requires state.CurrentVars() == v0 && state.CurrentLevels() == l0 && state.diagnostics == ds
      requires state.timers == timers && state.trace == t0
      modifies state
      ensures state.settings == v0.settings && state.timers == timers && state.diagnostics == ds
      ensures var e := Loop(v0, ds, l0, timers, Profiling(timers, profileMode, procRank), fmt, env, t0);
        && LoopEnd(e.completed, failure, state.CurrentVars(), state.CurrentLevels(), state.trace) == e
        && (profiled <==> Profiling(timers, profileMode, procRank) &&
                          (e.completed >= 4 || (e.completed == 3 && e.failure.Some?)))
    {
      var vs := state;
      var startTime, startItt := vs.time, vs.itt;
      ghost var profiling := Profiling(timers, profileMode, procRank);
      ReachedStart(v0, ds, l0, timers, profiling, fmt, env, t0);
      failure, profiled := None, false;
      var i: nat := 0;
      while vs.time - startTime < Runlen(vs.settings)
        invariant Midway(v0, l0, ds, timers, profiling, fmt, env, t0, i)
        invariant profiled <==> profiling && i >= 4
        decreases Planned(v0.settings) - i
      {
        GuardAt(v0, i, vs.CurrentVars());
        var err, started := Iterate(startItt, profileMode, procRank, env, fmt, v0, l0, ds, timers, t0, i);
        profiled := profiled || started;
        if err.Some? {
          failure := err;
          break;
        }
        assert err.None?;
        assert Midway(v0, l0, ds, timers, profiling, fmt, env, t0, i + 1);
        i := i + 1;
      }
      if failure.None? {
        GuardAt(v0, i, vs.CurrentVars());
        LoopRunsOut(v0, ds, l0, timers, profiling, fmt, env, t0, i, vs.CurrentVars(), vs.CurrentLevels(), vs.trace);
      }
    }

    /** `run()` (ecosys3D/ecosys3D.py:109-182): the loop, then the critical
        or the success message, then the `finally` block, whose timer lookups
        can replace the loop's exception and which stops a started profiler. */
    method Run(profileMode: bool, procRank: int, env: Env, fmt: Formatter) returns (outcome: Outcome)
      requires Configured(state.settings)
      requires Dt(state.settings) > 0.0 || Runlen(state.settings) <= 0.0
      modifies state
      ensures state.settings == old(state.settings) && state.timers == old(state.timers)
      ensures state.diagnostics == old(state.diagnostics)
      ensures var profiling := Profiling(old(state.timers), profileMode, procRank);
        var e := Loop(old(state.CurrentVars()), old(state.diagnostics), old(state.CurrentLevels()), old(state.timers),
                      profiling, fmt, env, old(state.trace));
        var profiled := profiling && (e.completed >= 4 || (e.completed == 3 && e.failure.Some?));
        && outcome == RunOutcome(e.failure, old(state.timers))
        && state.CurrentVars() == e.vars && state.CurrentLevels() == e.levels
        && state.trace == e.calls + Closing(e.failure.Some?, e.vars.itt, old(state.timers), profiled)
    {
      var failure, profiled := Integrate(profileMode, procRank, env, fmt, state.CurrentVars(), state.CurrentLevels(),
                                         state.diagnostics, state.timers, state.trace);
      var vs := state;
      vs.trace := vs.trace + Closing(failure.Some?, vs.itt, vs.timers, profiled);
      outcome := RunOutcome(failure, vs.timers);
    }
  }
}
