/** The diagnostics package (ecosys3D/diagnostics/__init__.py): the registry
    of diagnostic units, the scheduler that decides which of them sample and
    which emit on a tick, the restart reader and writer with their guards,
    and the profiler switch. */
module Diagnostics {
  import opened PyValues
  import opened Schedule
  import opened EcoState

  /** The two periodic actions of a diagnostic unit. */
  datatype Action = Sample | Emit

  /** The period an action runs at. */
  function Period(d: Diagnostic, a: Action): real
  {
    match a
    case Sample => d.samplingFrequency
    case Emit => d.outputFrequency
  }

  /** The call the action makes on a unit: `diagnose` or `output`. */
  function CallOf(a: Action, name: string): (e: Event)
    ensures e.Sampled? || e.Emitted?
  {
    match a
    case Sample => Sampled(name)
    case Emit => Emitted(name)
  }

  /** The registry is a dict keyed by name: no name twice. */
  predicate UniqueNames(ds: seq<Diagnostic>)
  {
    forall i, j :: 0 <= i < j < |ds| ==> ds[i].name != ds[j].name
  }

  /** `create_diagnostics`: one unit for each of the four diagnostic classes,
      keyed by the class's name. The classes' own constructors are not part
      of the model; every unit starts with both periods at 0 (disabled) until
      the model's `set_diagnostics` hook configures it. */
  function CreateDiagnostics(): (r: seq<Diagnostic>)
    ensures |r| == 4 && UniqueNames(r)
    ensures forall i :: 0 <= i < |r| ==> Period(r[i], Sample) == 0.0 && Period(r[i], Emit) == 0.0
  {
    [ Diagnostic("averages", 0.0, 0.0),
      Diagnostic("cfl_monitor", 0.0, 0.0),
      Diagnostic("snapshot", 0.0, 0.0),
      Diagnostic("tracer_monitor", 0.0, 0.0) ]
  }

  /** The positions, in registry order, of the units whose action `a` is due
      at `time`: each due unit once, and nothing else. */
  function DueIndices(ds: seq<Diagnostic>, a: Action, time: real, dt: real): (r: seq<int>)
    ensures forall k :: 0 <= k < |r| ==> 0 <= r[k] < |ds| && IsDue(Period(ds[r[k]], a), time, dt)
    ensures forall k, l :: 0 <= k < l < |r| ==> r[k] < r[l]
    ensures forall i :: 0 <= i < |ds| && IsDue(Period(ds[i], a), time, dt) ==> i in r
  {
    if ds == [] then []
    else
      var n := |ds| - 1;
      DueIndices(ds[..n], a, time, dt) + (if IsDue(Period(ds[n], a), time, dt) then [n] else [])
  }

  /** The calls made for the units at the given positions, in that order. */
  function CallsAt(ds: seq<Diagnostic>, a: Action, idx: seq<int>): seq<Event>
    requires forall k :: 0 <= k < |idx| ==> 0 <= idx[k] < |ds|
  {
    seq(|idx|, k requires 0 <= k < |idx| => CallOf(a, ds[idx[k]].name))
  }

  /** What `diagnose` (for `Sample`) or `output` (for `Emit`) calls at
      `time`. */
  function DueCalls(ds: seq<Diagnostic>, a: Action, time: real, dt: real): seq<Event>
  {
    if ds == [] then []
    else
      var d := ds[|ds| - 1];
      DueCalls(ds[..|ds| - 1], a, time, dt) + (if IsDue(Period(d, a), time, dt) then [CallOf(a, d.name)] else [])
  }

  /** The calls are those of the due positions, in order. */
  lemma {:induction false} DueCallsAtIndices(ds: seq<Diagnostic>, a: Action, time: real, dt: real)
    ensures DueCalls(ds, a, time, dt) == CallsAt(ds, a, DueIndices(ds, a, time, dt))
  {
    if ds != [] {
      var n := |ds| - 1;
      var init := ds[..n];
      DueCallsAtIndices(init, a, time, dt);
      var idx := DueIndices(init, a, time, dt);
      assert CallsAt(init, a, idx) == CallsAt(ds, a, idx);
      if IsDue(Period(ds[n], a), time, dt) {
        CallsAtExtend(ds, a, idx, n);
      }
    }
  }

  /** The scheduler only samples (for `Sample`) or only emits (for `Emit`). */
  lemma {:induction false} DueCallsAreCalls(ds: seq<Diagnostic>, a: Action, time: real, dt: real)
    ensures forall e :: e in DueCalls(ds, a, time, dt) ==>
      (a == Sample ==> e.Sampled?) && (a == Emit ==> e.Emitted?)
  {
    if ds != [] {
      DueCallsAreCalls(ds[..|ds| - 1], a, time, dt);
    }
  }

  /** A unit's action is called iff the unit is due: both directions. */
  lemma DueCallsExactlyDue(ds: seq<Diagnostic>, a: Action, time: real, dt: real, name: string)
    ensures CallOf(a, name) in DueCalls(ds, a, time, dt) <==>
      exists i :: 0 <= i < |ds| && ds[i].name == name && IsDue(Period(ds[i], a), time, dt)
  {
    var idx := DueIndices(ds, a, time, dt);
    var calls := DueCalls(ds, a, time, dt);
    DueCallsAtIndices(ds, a, time, dt);
    if CallOf(a, name) in calls {
      var k :| 0 <= k < |calls| && calls[k] == CallOf(a, name);
      assert ds[idx[k]].name == name;
    }
    if i :| 0 <= i < |ds| && ds[i].name == name && IsDue(Period(ds[i], a), time, dt) {
      var k :| 0 <= k < |idx| && idx[k] == i;
      assert calls[k] == CallOf(a, name);
    }
  }

  /** In a registry with unique names no unit is called twice on one tick. */
  lemma DueCallsOnce(ds: seq<Diagnostic>, a: Action, time: real, dt: real)
    requires UniqueNames(ds)
    ensures var calls := DueCalls(ds, a, time, dt);
      forall k, l :: 0 <= k < l < |calls| ==> calls[k] != calls[l]
  {
    var idx := DueIndices(ds, a, time, dt);
    var calls := DueCalls(ds, a, time, dt);
    DueCallsAtIndices(ds, a, time, dt);
    forall k, l | 0 <= k < l < |calls| ensures calls[k] != calls[l] {
      assert idx[k] < idx[l];
      assert ds[idx[k]].name != ds[idx[l]].name;
    }
  }

  /** A registry whose periods are all zero never calls anything; in
      particular a registry straight from `create_diagnostics`. */
  lemma {:induction false} DisabledRegistryIdle(ds: seq<Diagnostic>, a: Action, time: real, dt: real)
    requires forall i :: 0 <= i < |ds| ==> Period(ds[i], a) == 0.0
    ensures DueIndices(ds, a, time, dt) == [] && DueCalls(ds, a, time, dt) == []
  {
    if ds != [] {
      DisabledRegistryIdle(ds[..|ds| - 1], a, time, dt);
    }
  }

  /** The positions a unit contributes: itself when it is due. */
  function DueHere(ds: seq<Diagnostic>, a: Action, time: real, dt: real, i: int): seq<int>
    requires 0 <= i < |ds|
  {
    if IsDue(Period(ds[i], a), time, dt) then [i] else []
  }

  /** The due positions of a four-unit registry, unit by unit. */
  lemma DueIndicesOfFour(ds: seq<Diagnostic>, a: Action, time: real, dt: real)
    requires |ds| == 4
    ensures DueIndices(ds, a, time, dt) ==
      DueHere(ds, a, time, dt, 0) + DueHere(ds, a, time, dt, 1) +
      DueHere(ds, a, time, dt, 2) + DueHere(ds, a, time, dt, 3)
  {
    assert ds[..0] == [] && ds[..4] == ds;
    var h0, h1, h2, h3 := DueHere(ds, a, time, dt, 0), DueHere(ds, a, time, dt, 1),
      DueHere(ds, a, time, dt, 2), DueHere(ds, a, time, dt, 3);
    DueIndicesExtend(ds, a, time, dt, 0);
    assert DueIndices(ds[..1], a, time, dt) == h0;
    DueIndicesExtend(ds, a, time, dt, 1);
    assert DueIndices(ds[..2], a, time, dt) == h0 + h1;
    DueIndicesExtend(ds, a, time, dt, 2);
    assert DueIndices(ds[..3], a, time, dt) == h0 + h1 + h2;
    DueIndicesExtend(ds, a, time, dt, 3);
  }

  /** The registry test.py configures: averages sampled every ten steps of
      43200 s and written every ten days, the snapshot written every ten
      days, the monitors left off. */
  function TestRegistry(): seq<Diagnostic>
  {
    [ Diagnostic("averages", 432000.0, 864000.0),
      Diagnostic("cfl_monitor", 0.0, 0.0),
      Diagnostic("snapshot", 0.0, 864000.0),
      Diagnostic("tracer_monitor", 0.0, 0.0) ]
  }

  /** On the tenth step (time 432000 s) only the averages sample. */
  lemma TestRegistrySamplesOnTenthStep()
    ensures DueCalls(TestRegistry(), Sample, 432000.0, 43200.0) == [Sampled("averages")]
  {
    var ds := TestRegistry();
    FloorModBy(432000.0, 432000.0, 1);
    DueIndicesOfFour(ds, Sample, 432000.0, 43200.0);
    DueCallsAtIndices(ds, Sample, 432000.0, 43200.0);
    assert DueHere(ds, Sample, 432000.0, 43200.0, 0) == [0];
    assert DueIndices(ds, Sample, 432000.0, 43200.0) == [0];
  }

  /** On the tenth step nothing is written yet: ten days have not passed. */
  lemma TestRegistryQuietOnTenthStep()
    ensures DueCalls(TestRegistry(), Emit, 432000.0, 43200.0) == []
  {
    var ds := TestRegistry();
    FloorModBy(432000.0, 864000.0, 0);
    DueIndicesOfFour(ds, Emit, 432000.0, 43200.0);
    DueCallsAtIndices(ds, Emit, 432000.0, 43200.0);
    assert DueHere(ds, Emit, 432000.0, 43200.0, 0) == [];
    assert DueHere(ds, Emit, 432000.0, 43200.0, 2) == [];
  }

  /** On the eleventh step nothing samples. */
  lemma TestRegistryIdleOnEleventhStep()
    ensures DueCalls(TestRegistry(), Sample, 475200.0, 43200.0) == []
  {
    var ds := TestRegistry();
    FloorModBy(475200.0, 432000.0, 1);
    DueIndicesOfFour(ds, Sample, 475200.0, 43200.0);
    DueCallsAtIndices(ds, Sample, 475200.0, 43200.0);
    assert DueHere(ds, Sample, 475200.0, 43200.0, 0) == [];
  }

  /** On the twentieth step (ten days) the averages and the snapshot both
      write output, in registry order. */
  lemma TestRegistryTenthDay()
    ensures DueCalls(TestRegistry(), Emit, 864000.0, 43200.0) == [Emitted("averages"), Emitted("snapshot")]
  {
    var ds := TestRegistry();
    FloorModBy(864000.0, 864000.0, 1);
    DueIndicesOfFour(ds, Emit, 864000.0, 43200.0);
    DueCallsAtIndices(ds, Emit, 864000.0, 43200.0);
    assert DueHere(ds, Emit, 864000.0, 43200.0, 0) == [0];
    assert DueHere(ds, Emit, 864000.0, 43200.0, 2) == [2];
    assert DueIndices(ds, Emit, 864000.0, 43200.0) == [0, 2];
  }

  /** One more unit scanned: its position is added iff it is due. */
  lemma DueIndicesExtend(ds: seq<Diagnostic>, a: Action, time: real, dt: real, i: int)
    requires 0 <= i < |ds|
    ensures DueIndices(ds[..i + 1], a, time, dt) == DueIndices(ds[..i], a, time, dt) + DueHere(ds, a, time, dt, i)
  {
    assert ds[..i + 1][..i] == ds[..i];
  }

  lemma CallsAtExtend(ds: seq<Diagnostic>, a: Action, idx: seq<int>, i: int)
    requires forall k :: 0 <= k < |idx| ==> 0 <= idx[k] < |ds|
    requires 0 <= i < |ds|
    ensures CallsAt(ds, a, idx + [i]) == CallsAt(ds, a, idx) + [CallOf(a, ds[i].name)]
  {
  }

  /** Calling action `a` on every due unit, in registry order. Shared by
      `diagnose` and `output`, which differ only in the period and the call. */
  method CallDue(vs: State, a: Action)
    modifies vs`trace
    ensures vs.trace == old(vs.trace) + DueCalls(vs.diagnostics, a, vs.time, Dt(vs.settings))
  {
    var ds, time, dt := vs.diagnostics, vs.time, Dt(vs.settings);
    var i := 0;
    while i < |ds|
      invariant 0 <= i <= |ds|
      invariant vs.trace == old(vs.trace) + DueCalls(ds[..i], a, time, dt)
    {
      var d := ds[i];
      assert ds[..i + 1][..i] == ds[..i];
      if IsDue(Period(d, a), time, dt) {
        vs.trace := vs.trace + [CallOf(a, d.name)];
      }
      i := i + 1;
    }
    assert ds[..i] == ds;
  }

  /** `diagnose(vs)`: every due unit samples; the clock is not touched. */
  method Diagnose(vs: State)
    modifies vs`trace
    ensures vs.trace == old(vs.trace) + DueCalls(vs.diagnostics, Sample, vs.time, Dt(vs.settings))
  {
    CallDue(vs, Sample);
  }

  /** `output(vs)`: every due unit writes its output; the clock is not
      touched. */
  method Output(vs: State)
    modifies vs`trace
    ensures vs.trace == old(vs.trace) + DueCalls(vs.diagnostics, Emit, vs.time, Dt(vs.settings))
  {
    CallDue(vs, Emit);
  }

  /** `initialize(vs)`: every unit is initialised once, in registry order.
      The log lines announcing each period are not modelled. */
  method Initialize(vs: State)
    modifies vs`trace
    ensures |vs.trace| == |old(vs.trace)| + |vs.diagnostics|
    ensures vs.trace[..|old(vs.trace)|] == old(vs.trace)
    ensures forall i :: 0 <= i < |vs.diagnostics| ==>
      vs.trace[|old(vs.trace)| + i] == Initialized(vs.diagnostics[i].name)
  {
    var ds := vs.diagnostics;
    var i := 0;
    while i < |ds|
      invariant 0 <= i <= |ds|
      invariant |vs.trace| == |old(vs.trace)| + i
      invariant vs.trace[..|old(vs.trace)|] == old(vs.trace)
      invariant forall j :: 0 <= j < i ==> vs.trace[|old(vs.trace)| + j] == Initialized(ds[j].name)
    {
      vs.trace := vs.trace + [Initialized(ds[i].name)];
      i := i + 1;
    }
  }

  /** One restart call per unit, in registry order, all on the same file. */
  function PerUnit(ds: seq<Diagnostic>, file: string, write: bool): (r: seq<Event>)
  {
    seq(|ds|, i requires 0 <= i < |ds| =>
      if write then RestartWritten(ds[i].name, file) else RestartRead(ds[i].name, file))
  }

  /** The decision of `write_restart`: nothing in diskless mode (even when
      forced), nothing without an output filename, otherwise a write when
      forced or when the restart period is due. */
  predicate WritesRestart(m: map<string, Value>, time: real, force: bool)
    ensures WritesRestart(m, time, force) ==> !Flag(m, "diskless_mode") && Text(m, "restart_output_filename") != ""
    ensures force && !Flag(m, "diskless_mode") && Text(m, "restart_output_filename") != "" ==>
      WritesRestart(m, time, force)
  {
    if Flag(m, "diskless_mode") then false
    else if Text(m, "restart_output_filename") == "" then false
    else force || IsDue(RestartFrequency(m), time, Dt(m))
  }

  /** The guard order of `write_restart`, and its two ways to fire. */
  lemma WriteRestartGuards(m: map<string, Value>, time: real, force: bool)
    ensures Flag(m, "diskless_mode") ==> !WritesRestart(m, time, force)
    ensures Text(m, "restart_output_filename") == "" ==> !WritesRestart(m, time, force)
    ensures !Flag(m, "diskless_mode") && Text(m, "restart_output_filename") != "" ==>
      (WritesRestart(m, time, force) <==> force || IsDue(RestartFrequency(m), time, Dt(m)))
    ensures RestartFrequency(m) == 0.0 && !force ==> !WritesRestart(m, time, force)
  {
  }

  /** With the catalog's defaults no restart is ever written periodically:
      the restart period is 0. */
  lemma DefaultsNeverWritePeriodically(time: real)
    ensures Configured(Settings.Defaults())
    ensures !WritesRestart(Settings.Defaults(), time, false)
  {
    DefaultsConfigured();
  }

  /** What `write_restart(vs, force)` writes: every unit's restart, into the
      file the output template names for the current state. */
  function WriteRestartCalls(v: Vars, ds: seq<Diagnostic>, force: bool, fmt: Formatter): (r: seq<Event>)
    ensures !WritesRestart(v.settings, v.time, force) ==> r == []
    ensures WritesRestart(v.settings, v.time, force) ==>
      |r| == |ds| &&
      forall i :: 0 <= i < |ds| ==> r[i] == RestartWritten(ds[i].name, fmt(Text(v.settings, "restart_output_filename"), v))
  {
    if WritesRestart(v.settings, v.time, force)
    then PerUnit(ds, fmt(Text(v.settings, "restart_output_filename"), v), true)
    else []
  }

  /** `write_restart(vs, force)`. The HDF5 writer and its lock are not
      modelled; each unit's `write_restart` is recorded with the file name. */
  method WriteRestart(vs: State, force: bool, fmt: Formatter)
    requires Configured(vs.settings)
    modifies vs`trace
    ensures vs.trace == old(vs.trace) + WriteRestartCalls(vs.CurrentVars(), vs.diagnostics, force, fmt)
  {
    if Truthy(vs.settings["diskless_mode"]) {
      return;
    }
    if vs.settings["restart_output_filename"].s == "" {
      return;
    }
    if force || IsDue(RestartFrequency(vs.settings), vs.time, Dt(vs.settings)) {
      var file := fmt(vs.settings["restart_output_filename"].s, vs.CurrentVars());
      RestartEach(vs, file, true);
    }
  }

  /** What `read_restart(vs)` does: nothing without an input filename (even
      with `force_overwrite`), the data-loss error when `force_overwrite` is
      set, and otherwise one read per unit from the formatted input file. */
  function ReadRestartCalls(v: Vars, ds: seq<Diagnostic>, fmt: Formatter): (r: Result<seq<Event>>)
    ensures Text(v.settings, "restart_input_filename") == "" ==> r == Ok([])
    ensures Text(v.settings, "restart_input_filename") != "" && Flag(v.settings, "force_overwrite") ==>
      r == Err(DataLossGuard)
    ensures Text(v.settings, "restart_input_filename") != "" && !Flag(v.settings, "force_overwrite") ==>
      r.Ok? && |r.value| == |ds| &&
      forall i :: 0 <= i < |ds| ==> r.value[i] == RestartRead(ds[i].name, fmt(Text(v.settings, "restart_input_filename"), v))
  {
    var name := Text(v.settings, "restart_input_filename");
    if name == "" then Ok([])
    else if Flag(v.settings, "force_overwrite") then Err(DataLossGuard)
    else Ok(PerUnit(ds, fmt(name, v), false))
  }

  /** `read_restart(vs)`: on the data-loss error nothing has been read. */
  method ReadRestart(vs: State, fmt: Formatter) returns (err: Option<PyError>)
    requires Configured(vs.settings)
    modifies vs`trace
    ensures match ReadRestartCalls(vs.CurrentVars(), vs.diagnostics, fmt)
      case Ok(calls) => err.None? && vs.trace == old(vs.trace) + calls
      case Err(e) => err == Some(e) && vs.trace == old(vs.trace)
  {
    if vs.settings["restart_input_filename"].s == "" {
      return None;
    }
    if Truthy(vs.settings["force_overwrite"]) {
      return Some(DataLossGuard);
    }
    var file := fmt(vs.settings["restart_input_filename"].s, vs.CurrentVars());
    RestartEach(vs, file, false);
    err := None;
  }

  /** The loop of `read_restart` and of `write_restart` over the registry. */
  method RestartEach(vs: State, file: string, write: bool)
    modifies vs`trace
    ensures vs.trace == old(vs.trace) + PerUnit(vs.diagnostics, file, write)
  {
    var ds := vs.diagnostics;
    var i := 0;
    while i < |ds|
      invariant 0 <= i <= |ds|
      invariant vs.trace == old(vs.trace) + PerUnit(ds[..i], file, write)
    {
      assert PerUnit(ds[..i + 1], file, write) == PerUnit(ds[..i], file, write) + PerUnit([ds[i]], file, write);
      vs.trace := vs.trace + PerUnit([ds[i]], file, write);
      i := i + 1;
    }
    assert ds[..i] == ds;
  }

  /** A running profiler. */
  datatype Profiler = Profiler

  /** `start_profiler()`. */
  method StartProfiler(vs: State) returns (p: Profiler)
    modifies vs`trace
    ensures vs.trace == old(vs.trace) + [ProfilerStarted]
  {
    vs.trace := vs.trace + [ProfilerStarted];
    p := Profiler;
  }

  /** `stop_profiler(profiler)`: a no-op for `None`. Writing the HTML report
      is not modelled. */
  method StopProfiler(vs: State, p: Option<Profiler>)
    modifies vs`trace
    ensures vs.trace == old(vs.trace) + (if p.Some? then [ProfilerStopped] else [])
  {
    if p.None? {
      return;
    }
    vs.trace := vs.trace + [ProfilerStopped];
  }

  /** `sanity_check(vs)`: the global verdict of the finiteness check, which
      the model takes from an oracle: the iterations at which the solution
      holds a non-finite value. */
  method SanityCheck(vs: State, diverged: iset<int>) returns (ok: bool)
    modifies vs`trace
    ensures ok <==> vs.itt !in diverged
    ensures vs.trace == old(vs.trace) + [SanityChecked(vs.itt)]
  {
    vs.trace := vs.trace + [SanityChecked(vs.itt)];
    ok := vs.itt !in diverged;
  }
}
