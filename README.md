# ecosys3D integration bookkeeping, modelled in Dafny

This project models the control core of ecosys3D, a time-stepping simulation
engine for an ocean and marine-ecosystem model. The model covers three parts of
it:

- **The run loop** of the setup class `ecoSetup`: its constructor and `run`.
  - `run` loops while `time - start_time < runlen`.
  - Each iteration writes a periodic restart, starts the profiler after a
    warm-up of three iterations, and calls forcing and boundaries.
  - It then advances the clock (`itt += 1`, `time += dt`) and runs the user
    hook, the sanity check, the streamfunction diagnostic, and diagnostic
    sampling and output.
  - Last, it rotates the time levels `taum1, tau, taup1` as a 3-cycle.
  - The run ends through `try/except/else/finally`.
- **The diagnostics package**:
  - the registry of diagnostic units;
  - the due-predicate `freq and time % freq < dt` and the scheduler built on it;
  - the restart reader and writer with their guard clauses;
  - `initialize`, the sanity check and the profiler switch.
- **The settings catalog**: the ordered table of defaults, `set_default_settings`
  and `check_setting_conflicts`.

Files:

- `pyvalues.dfy` (module `PyValues`): the Python values the core handles.
  - Scalars, truthiness, and the `str`/`int`/`float`/`bool` conversions.
  - The exceptions that can leave the core.
- `settings.dfy` (module `Settings`): the catalog and how installing it assigns
  each attribute, plus the conflict guard.
- `state.dfy` (module `EcoState`): the state object `vs` as a class.
  - Fields: the settings, the clock, the time levels, the timers, the registry,
    and a trace of the calls the core makes into code outside the model.
  - `set_default_settings` as a loop.
- `timelevels.dfy` (module `TimeLevels`): the 3-cycle of the time-level indices.
- `schedule.dfy` (module `Schedule`): Python's floored `%` on exact reals, the
  due-predicate, and the step count that covers a run length.
- `diagnostics.dfy` (module `Diagnostics`): the diagnostics package.
  - Its loops are methods over the state.
  - Each method is proved against a function of the registry and the clock.
- `orchestrator.dfy` (module `Orchestrator`): the setup class `Sim`.
  - The loop body is split into the same stages as the source, each a method
    on the state.
  - `Integrate` is the `while` loop, proved against the function `Loop`.
  - `Loop` says how a run's loop ends: iterations completed, the exception,
    the clock, the time levels, and every call made.
  - `Run` adds the `except/else/finally` tail.

Calls into code outside the model are recorded in order on the state's
`trace`. These are the physics kernels, the user hooks, each diagnostic's
`diagnose`, `output` and restart methods, the profiler, and the log messages
that mark how the run ended. The exceptions such calls raise come from an oracle
`Env`:

- the iterations at which the finiteness check fails;
- the message a given hook raises at a given iteration.

Time, the step and the periods are exact reals. Python's `%` is the floored
modulo.

Deliberate readings of the code:

- **The clock advances by `dt`.** The loop adds `vs.dt_tracer`
  (ecosys3D/ecosys3D.py:146). No setting defines `dt_tracer`, and the scheduler
  compares against `dt` (ecosys3D/diagnostics/__init__.py:37,60,67). The model
  has one step, the `dt` setting.
- **Missing imports are taken as present.** `ecosys3D/ecosys3D.py` uses
  `diagnostics` and `isoneutral` without importing them, and the diagnostics
  package uses `np`. Without these names nothing in the loop would run.
- **The `'diagnostics'` timer is modelled as written.** The constructor creates
  only the timers `'setup'` and `'main'` (ecosys3D/ecosys3D.py:54-56). The loop
  looks up `'diagnostics'` (ecosys3D/ecosys3D.py:132,151).
  - Timers are a map, and a missing key is a `KeyError` outcome, not a
    precondition.
  - So a run with the constructor's timers stops at the first iteration with
    `KeyError('diagnostics')`, before any work (`InitialTimersStopFirstStep`).
  - A state whose timers were completed elsewhere runs normally.
- **The restart write uses the clock before the advance.** `diagnose` and
  `output` use the clock after it (ecosys3D/ecosys3D.py:132-159). So within
  one iteration the restart test and the sampling and output tests see clocks
  one step apart.
- **The restart-write guard follows the code.** It is `restart_frequency and
  time % restart_frequency < dt`, behind the `diskless_mode` and empty-filename
  guards (ecosys3D/diagnostics/__init__.py:33-37). A negative frequency is
  truthy, so it passes the first test, and its floored remainder is never
  positive, so with a positive `dt` it writes on every iteration.
- **The `force_overwrite` guard only fires with an input file.**
  `read_restart` returns on an empty input filename before the guard
  (ecosys3D/diagnostics/__init__.py:22-25), so without an input file a set
  `force_overwrite` raises nothing.
- **No final forced restart is written.** The `finally` block only logs the
  timing summary of `'setup'` and `'main'` and stops a started profiler
  (ecosys3D/ecosys3D.py:172-182). The forced write
  `write_restart(vs, force=True)` is commented out (ecosys3D/ecosys3D.py:173). Those timer lookups can themselves
  raise `KeyError`, which replaces the loop's exception.
- **Exceptions keep their own types.** A divergence is a `RuntimeError` naming
  the already incremented `itt` (`Diverged(itt)`). Foreign exceptions pass
  through unchanged (`External(cause)`). There is no separate outcome type.

## Model

| member | source | states |
|---|---|---|
| PyValues.AsReal | ecosys3D/diagnostics/__init__.py:37 | a numeric attribute read as a number is 0 exactly when it is falsy, so `freq and …` and `freq != 0` agree |
| PyValues.Truncate | ecosys3D/settings.py:44 | `int(x)` of a float truncates toward zero: within one unit of `x`, on the side of zero |
| PyValues.Convert | ecosys3D/settings.py:44 | `type(default)` yields a value of that type or nothing; `str` of a string, `int` and `float` of a number, and `bool` of anything succeed; `float` of a number keeps its value; `bool` gives truthiness; `str` of a non-string and `int`/`float` of a string give nothing (see Left out) |
| PyValues.ConvertIdempotent | ecosys3D/settings.py:44 | converting an already converted value changes nothing, and a value of the target type converts to itself |
| Settings.Installed | ecosys3D/settings.py:44 | the value a catalog row installs has the row's declared type |
| Settings.InstallKeys | ecosys3D/settings.py:42-44 | installing rows adds exactly their keys to the attributes |
| Settings.InstallAssigns | ecosys3D/settings.py:42-44 | with unique keys, every row's key holds that row's converted default afterwards |
| Settings.InstallKeepsOthers | ecosys3D/settings.py:42-44 | attributes whose key is not in the table keep their presence and value |
| Settings.Install | ecosys3D/settings.py:42-44 | installing keeps every existing attribute and sets every row's key |
| Settings.CatalogWellFormed | ecosys3D/settings.py:5-39 | the catalog has 18 rows, starts with `identifier`, has unique keys, and every default converts |
| Settings.Catalog | ecosys3D/settings.py:5-39 | the table has 18 rows, and every default already has its declared type except the float settings written with an integer literal |
| Settings.CatalogUnique | ecosys3D/settings.py:5-39 | no key occurs twice in the catalog |
| Settings.CatalogInstallable | ecosys3D/settings.py:5-39 | every row's `type(default)` succeeds |
| Settings.DefaultsAreCatalog | ecosys3D/settings.py:5-44 | the defaults hold exactly the catalog's keys, each with its converted default |
| Settings.DefaultRestartValues | ecosys3D/settings.py:32-37 | by default no restart is read (empty input name), none is written periodically (frequency 0.0), `force_overwrite` and `diskless_mode` are off, and the output template is as declared |
| Settings.DefaultNumbers | ecosys3D/settings.py:12-29 | `io_timeout` declared as the int 20 with type `float` becomes the float 20.0; `dt` and `runlen` default to 0.0 |
| Settings.CheckSettingConflicts | ecosys3D/settings.py:47-50 | the conflict is raised iff `enable_tke` is true and `enable_implicit_vert_friction` is set and false; it passes iff `enable_tke` is set and false, or both are set and the friction flag is true; an unset `enable_tke` raises `AttributeError('enable_tke')`, and a true `enable_tke` with an unset friction flag raises `AttributeError('enable_implicit_vert_friction')` |
| Settings.ConflictCheckOnDefaults | ecosys3D/settings.py:5-50 | on a state that holds only the defaults the guard raises `AttributeError('enable_tke')`, since neither flag is in the catalog |
| EcoState.DefaultsConfigured | ecosys3D/settings.py:5-44 | the defaults provide every attribute the scheduler and the restart code read, with usable types, and `dt`, `runlen` and `restart_frequency` are 0 |
| EcoState.State.constructor | ecosys3D/ecosys3D.py:51-52 | a fresh state holds the catalog's defaults, clock 0, time levels 0, 1, 2, no timers, no diagnostics |
| EcoState.SetDefaultSettings | ecosys3D/settings.py:42-44 | the attributes become the catalog installed over the old ones, gaining exactly the catalog's keys |
| EcoState.InstallRows | ecosys3D/settings.py:43-44 | the `setattr` loop over a table leaves the attributes equal to the table installed in order |
| TimeLevels.Rotate | ecosys3D/ecosys3D.py:165 | `taum1` takes `tau`, `tau` takes `taup1`, `taup1` takes `taum1`; distinctness is kept both ways; the rotation is a fixed point only when all three labels are equal |
| TimeLevels.RotateNPermutes | ecosys3D/ecosys3D.py:165 | any number of rotations is a permutation: each index is held by as many labels as before |
| TimeLevels.RotateNDistinct | ecosys3D/ecosys3D.py:165 | labels stay pairwise distinct under any number of rotations, and only distinct labels do |
| TimeLevels.RotateNPeriodic | ecosys3D/ecosys3D.py:165 | `n` rotations equal `n % 3` rotations |
| TimeLevels.RotateThrice | ecosys3D/ecosys3D.py:165 | three rotations restore the original assignment |
| TimeLevels.RotateNSplit | ecosys3D/ecosys3D.py:165 | `n + m` rotations are `m` rotations after `n` |
| Schedule.FloorMod | ecosys3D/diagnostics/__init__.py:60 | Python's `time % freq` lies in `[0, freq)` for a positive period and in `(freq, 0]` for a negative one, and `time` is it plus a whole multiple of `freq` |
| Schedule.IsDue | ecosys3D/diagnostics/__init__.py:60 | a due period is non-zero; a positive period is never due with a non-positive step; a negative period (truthy) is due on every tick of a positive step |
| Schedule.DisabledNeverDue | ecosys3D/diagnostics/__init__.py:60 | a zero period is never due, whatever the clock |
| Schedule.DueIffCrossing | ecosys3D/diagnostics/__init__.py:60 | for a positive period, due iff the tick `(time - dt, time]` contains a multiple of the period (both directions) |
| Schedule.DueEveryTickWhenPeriodWithinStep | ecosys3D/diagnostics/__init__.py:60 | a period no longer than `dt` is due on every tick |
| Schedule.CrossingOnce | ecosys3D/diagnostics/__init__.py:60 | two ticks at least `dt` apart never catch the same multiple, so each multiple fires at most once |
| Schedule.NoMissedMultiple | ecosys3D/diagnostics/__init__.py:60 | every multiple of the period passed by `n` ticks of `dt` is caught by one of those ticks |
| Schedule.HalfStepUnitPeriodExample | ecosys3D/diagnostics/__init__.py:60 | period 1.0 with step 0.5 is due on the ticks ending at 1.0, 2.0 and 3.0 and on no tick between |
| Schedule.StepsToCoverExact | ecosys3D/ecosys3D.py:131 | fewer than `StepsToCover(span, dt)` steps fall short of `span`, and that many or more reach it |
| Schedule.CeilingBounds | ecosys3D/ecosys3D.py:131 | for a positive span the step count is the ceiling of `span / dt` |
| Diagnostics.CreateDiagnostics | ecosys3D/diagnostics/__init__.py:9-11 | four units with unique names, all periods 0 until configured |
| Diagnostics.DueIndices | ecosys3D/diagnostics/__init__.py:58-61 | the due positions are valid, strictly increasing, and include every due unit |
| Diagnostics.DueCallsAtIndices | ecosys3D/diagnostics/__init__.py:58-68 | the calls a pass makes are those of the due positions, in registry order |
| Diagnostics.DueCallsAreCalls | ecosys3D/diagnostics/__init__.py:58-68 | `diagnose` only samples and `output` only emits |
| Diagnostics.DueCallsExactlyDue | ecosys3D/diagnostics/__init__.py:58-68 | a unit is called iff it is due, both directions |
| Diagnostics.DueCallsOnce | ecosys3D/diagnostics/__init__.py:58-68 | with unique names no unit is called twice in one pass |
| Diagnostics.DisabledRegistryIdle | ecosys3D/diagnostics/__init__.py:58-68 | a registry whose periods are all 0 makes no call |
| Diagnostics.TestRegistrySamplesOnTenthStep | test.py:42-46 | with the test model's registry and `dt` = 43200 s, only `averages` samples at 432000 s |
| Diagnostics.TestRegistryQuietOnTenthStep | test.py:42-46 | nothing writes output at 432000 s |
| Diagnostics.TestRegistryIdleOnEleventhStep | test.py:42-46 | nothing samples at 475200 s |
| Diagnostics.TestRegistryTenthDay | test.py:42-46 | at 864000 s `averages` then `snapshot` write output |
| Diagnostics.CallDue | ecosys3D/diagnostics/__init__.py:57-68 | the loop over the registry appends exactly the due calls, in order |
| Diagnostics.Diagnose | ecosys3D/diagnostics/__init__.py:57-61 | `diagnose(vs)` appends the sampling calls due at the current time and leaves the clock alone |
| Diagnostics.Output | ecosys3D/diagnostics/__init__.py:64-68 | `output(vs)` appends the output calls due at the current time and leaves the clock alone |
| Diagnostics.Initialize | ecosys3D/diagnostics/__init__.py:45-54 | every unit is initialised exactly once, in registry order, after the earlier calls |
| Diagnostics.WriteRestartGuards | ecosys3D/diagnostics/__init__.py:31-37 | diskless mode writes nothing even when forced; an empty output name writes nothing; past both guards it writes iff forced or the restart period is due; period 0 without force never writes |
| Diagnostics.WritesRestart | ecosys3D/diagnostics/__init__.py:33-37 | a write happens only outside diskless mode with a non-empty output name, and always then when forced |
| Diagnostics.WriteRestartCalls | ecosys3D/diagnostics/__init__.py:31-42 | when the guards stop the write there are no calls; otherwise one `write_restart` per unit, in registry order, each to the output name formatted from the state |
| Diagnostics.DefaultsNeverWritePeriodically | ecosys3D/diagnostics/__init__.py:31-37 | with the catalog's defaults no restart is ever written unless forced |
| Diagnostics.WriteRestart | ecosys3D/diagnostics/__init__.py:31-42 | `write_restart(vs, force)` appends one restart write per unit, to the formatted output file, exactly when the guards allow it |
| Diagnostics.ReadRestartCalls | ecosys3D/diagnostics/__init__.py:20-28 | no input name: no reads, even with `force_overwrite`; input name and `force_overwrite`: the data-loss error; otherwise one read per unit, in order, from the same formatted file |
| Diagnostics.ReadRestart | ecosys3D/diagnostics/__init__.py:20-28 | the method makes exactly those reads, and on the data-loss error it has read nothing |
| Diagnostics.RestartEach | ecosys3D/diagnostics/__init__.py:27-28 | the per-unit loop appends one restart call per unit, in registry order, on one file |
| Diagnostics.StartProfiler | ecosys3D/diagnostics/__init__.py:71-75 | starting the profiler records exactly one start |
| Diagnostics.StopProfiler | ecosys3D/diagnostics/__init__.py:78-84 | `None` is a no-op; a profiler is stopped once |
| Diagnostics.SanityCheck | ecosys3D/diagnostics/__init__.py:14-17 | the verdict is true iff the oracle finds the solution finite at the current iteration; the check is recorded with that iteration |
| Orchestrator.WriteRestartCallsAreWrites | ecosys3D/diagnostics/__init__.py:38-42 | the restart writer makes restart writes only |
| Orchestrator.PrologueErrorCases | ecosys3D/ecosys3D.py:132-143 | before the advance, a missing `'diagnostics'` timer raises `KeyError('diagnostics')` and a missing `'main'` timer `KeyError('main')`, each iff that timer is the first missing; otherwise only foreign calls raise |
| Orchestrator.EpilogueErrorCases | ecosys3D/ecosys3D.py:149-156 | after the advance: no exception implies the sanity check passed; a divergence names the advanced iteration and means the check failed; an `AttributeError` names one of the two diffusion flags and comes after a passed check |
| Orchestrator.ForcingError | ecosys3D/ecosys3D.py:139-143 | forcing and boundaries raise only foreign exceptions |
| Orchestrator.ForcingReached | ecosys3D/ecosys3D.py:139-143 | the forcing stage makes its calls up to and including the first that raises: one call iff forcing raised, two iff forcing passed and the boundary call on `u` raised, all three otherwise |
| Orchestrator.StepOutcomeCases | ecosys3D/ecosys3D.py:131-165 | an iteration that raises nothing advanced the clock and passed the sanity check of `itt + 1`; a timer `KeyError` stops it before the advance; a divergence names `itt + 1` |
| Orchestrator.DefaultsRaiseAfterAdvance | ecosys3D/ecosys3D.py:155-156 | the catalog lacks both diffusion flags, so from the defaults an iteration that reaches the streamfunction stage raises `AttributeError('enable_neutral_diffusion')` after the advance |
| Orchestrator.StepAfterPrefixes | ecosys3D/ecosys3D.py:149-159 | the calls after the advance are hook and sanity check, then the streamfunction diagnostic, then sampling and output, each a prefix at which an exception can stop them |
| Orchestrator.EpilogueCallsPrefix | ecosys3D/ecosys3D.py:149-159 | the part after the advance makes a prefix of its calls, and all of them when nothing raises |
| Orchestrator.PrologueCallsPrefix | ecosys3D/ecosys3D.py:132-143 | the part before the advance makes a prefix of its calls, all of them when nothing raises, and starts the profiler exactly when it was due to |
| Orchestrator.StepCallsPrefix | ecosys3D/ecosys3D.py:132-165 | an iteration makes a prefix of its full call sequence, all of it when it raises nothing, and starts the profiler exactly when due |
| Orchestrator.StepAfterNoProfiler | ecosys3D/ecosys3D.py:149-159 | nothing after the advance starts the profiler |
| Orchestrator.StepOrder | ecosys3D/ecosys3D.py:132-159 | the restart write and profiler start come before the advance; the sanity check, sampling and output come after it; every restart write of an iteration is the periodic one |
| Orchestrator.StepClock | ecosys3D/ecosys3D.py:145-147 | one iteration advances the clock exactly once, to `itt + 1` and `time + dt` |
| Orchestrator.StepProfiler | ecosys3D/ecosys3D.py:135-137 | one iteration starts the profiler once if it is the warm-up iteration and never otherwise |
| Orchestrator.VarsAtNext | ecosys3D/ecosys3D.py:145-146 | the clock after `i + 1` iterations is one advance (`itt + 1`, `time + dt`) after the clock after `i` |
| Orchestrator.StepAtClock | ecosys3D/ecosys3D.py:145-147 | iteration `i` of a run advances the clock to `itt0 + i + 1`, `time0 + (i + 1) * dt` |
| Orchestrator.RunClock | ecosys3D/ecosys3D.py:131-147 | over `n` completed iterations the clock advances exactly `n` times, the `i`-th to `itt0 + i + 1` and `time0 + (i + 1) * dt` (counter lockstep) |
| Orchestrator.RunProfilerOnce | ecosys3D/ecosys3D.py:135-137 | over a run the profiler is started once if it profiles and reaches the fourth iteration, never otherwise |
| Orchestrator.PlannedExact | ecosys3D/ecosys3D.py:131 | the loop condition after `i` iterations holds exactly for `i` below the planned count `ceil(runlen / dt)` |
| Orchestrator.PlannedExample | ecosys3D/ecosys3D.py:131 | `dt` = 0.5 and `runlen` = 2.0 plan four iterations |
| Orchestrator.CompletedFrom | ecosys3D/ecosys3D.py:131-165 | the count of completed iterations stays within the planned ones and stops only at one that raises |
| Orchestrator.CompletedFromClean | ecosys3D/ecosys3D.py:131-165 | every iteration the count passes over raised nothing |
| Orchestrator.Loop | ecosys3D/ecosys3D.py:129-165 | the loop completes at most the planned iterations, ends without an exception exactly when it completed all of them, and otherwise with the exception of the iteration it stopped at |
| Orchestrator.LoopFirstFailure | ecosys3D/ecosys3D.py:131-165 | every iteration the loop completed raised nothing, so the exception it ends with is that of the first iteration that raised |
| Orchestrator.LoopClock | ecosys3D/ecosys3D.py:145-165 | at the end of the loop `time` is `itt` steps of `dt` on; `itt` counts the completed iterations, plus one when the raising iteration had advanced; a divergence names the final `itt` |
| Orchestrator.LoopLevels | ecosys3D/ecosys3D.py:165 | the time levels end rotated once per completed iteration (the raising one does not rotate), which is `completed % 3` rotations, and stay distinct iff they started distinct |
| Orchestrator.LoopCoversRunlen | ecosys3D/ecosys3D.py:131 | the loop condition held before every completed iteration, and a loop that ends without an exception has `time - start_time >= runlen` |
| Orchestrator.FourStepRun | ecosys3D/ecosys3D.py:131-165 | with `dt` = 0.5, `runlen` = 2.0 and no exception, the loop ends after four iterations, `itt` four on, `time` 2.0 on, the levels rotated four times |
| Orchestrator.StepCompletes | ecosys3D/ecosys3D.py:132-165 | an iteration that raises nothing makes its full calls, which extend the run's calls by one iteration |
| Orchestrator.LoopEndsAt | ecosys3D/ecosys3D.py:131-165 | the loop ends at the first planned iteration that raises, or after the last planned one |
| Orchestrator.ReachedStart | ecosys3D/ecosys3D.py:123 | before the first iteration the clock, levels and calls are those the run started with |
| Orchestrator.GuardAt | ecosys3D/ecosys3D.py:131 | `vs.time - start_time < vs.runlen` after `i` iterations holds iff planned iterations remain |
| Orchestrator.LoopRunsOut | ecosys3D/ecosys3D.py:131 | after all planned iterations with none raising, the loop ends there without an exception, with the current clock, levels and calls |
| Orchestrator.IterationCompletes | ecosys3D/ecosys3D.py:131-165 | an iteration that raises nothing leaves the clock, levels and calls of one more completed iteration |
| Orchestrator.IterationRaises | ecosys3D/ecosys3D.py:131-169 | an iteration that raises ends the loop with its exception, its clock, unrotated levels and its calls |
| Orchestrator.Iteration | ecosys3D/ecosys3D.py:131-165 | one pass of the loop body either reaches the state after one more iteration or is how the loop ends, and it starts the profiler exactly on the fourth iteration when profiling |
| Orchestrator.Closing | ecosys3D/ecosys3D.py:167-182 | the tail is the critical message naming `itt` after an exception, else the success message; when the `'setup'` and `'main'` lookups succeed it is followed by exactly the timing summary and then, only if the profiler was started, the profiler stop; nothing else, and no restart is written |
| Orchestrator.RunOutcome | ecosys3D/ecosys3D.py:167-182 | `run` completes iff the loop raised nothing and both timers exist; a `finally` `KeyError` replaces the loop's exception; otherwise the loop's exception is re-raised unchanged |
| Orchestrator.InitialTimers | ecosys3D/ecosys3D.py:54-56 | the constructor's timer map holds exactly `'setup'` and `'main'`, each named after its key |
| Orchestrator.InitialTimersStopFirstStep | ecosys3D/ecosys3D.py:54-56 | with only those timers every iteration raises `KeyError('diagnostics')` before any call (line 132), and `run` re-raises it |
| Orchestrator.Sim.constructor | ecosys3D/ecosys3D.py:47-56 | `override or {}` is kept; a fresh state with the defaults whose timers are exactly `'setup'` and `'main'` (no `'diagnostics'`) |
| Orchestrator.Sim.Warmup | ecosys3D/ecosys3D.py:132-137 | the periodic restart write on the current clock, then a profiler start iff this is iteration 3 of the run with profiling on rank 0 |
| Orchestrator.Sim.Forcing | ecosys3D/ecosys3D.py:139-143 | forcing, then boundaries on `u` and `v` at `taup1`, up to and including the first call that raises, with that exception |
| Orchestrator.Sim.Prologue | ecosys3D/ecosys3D.py:132-143 | the part before the advance raises the first timer `KeyError` or forcing exception and makes exactly the calls up to it |
| Orchestrator.Sim.Advance | ecosys3D/ecosys3D.py:145-147 | `itt` one up, `time` one `dt` on, the progress bar told the new clock |
| Orchestrator.Sim.AfterStep | ecosys3D/ecosys3D.py:149-153 | the user hook, then the sanity check unless the hook raised; a failed check raises the divergence of the current `itt` |
| Orchestrator.Sim.StreamfunctionStage | ecosys3D/ecosys3D.py:155-156 | the diagnostic runs iff both diffusion flags are true; an unset flag that is read raises `AttributeError` first |
| Orchestrator.Sim.Sampling | ecosys3D/ecosys3D.py:158-159 | sampling then output, each on the units due at the advanced clock |
| Orchestrator.Sim.Epilogue | ecosys3D/ecosys3D.py:149-159 | the part after the advance raises its first exception and makes exactly the calls up to it |
| Orchestrator.Sim.Proceed | ecosys3D/ecosys3D.py:145-165 | the clock advances by one step; the levels rotate iff nothing after the advance raised; the calls are the advance and the part after it |
| Orchestrator.Sim.Step | ecosys3D/ecosys3D.py:132-165 | one iteration: its exception, the clock advanced iff the part before the advance passed, the levels rotated iff nothing raised, the calls it makes appended, settings, timers and registry untouched |
| Orchestrator.Sim.Iterate | ecosys3D/ecosys3D.py:131-165 | iteration `i` either leaves the loop's state after `i + 1` iterations or is how the loop ends |
| Orchestrator.Sim.Integrate | ecosys3D/ecosys3D.py:129-165 | the `while` loop ends in exactly the state `Loop` gives (iterations, exception, clock, levels, calls); the profiler is started iff the run profiles and reaches its fourth iteration |
| Orchestrator.Sim.Run | ecosys3D/ecosys3D.py:109-182 | the outcome, final clock, levels and calls are those of `Loop` followed by the closing tail; settings, timers and registry are unchanged |

## Left out

- Orchestrator.Sim.Run: requires `dt > 0` or `runlen <= 0`. With `dt <= 0 < runlen` the source ends only when an iteration raises; that case is not modelled.
- Orchestrator.Sim.Integrate: has the same requirement on `dt` and `runlen`. With `dt <= 0 < runlen` the `while` loop ends only when an iteration raises; that case is not modelled.
- Orchestrator.Sim.constructor: models `state=None` only. With another `state` the source leaves `self.state` unset and the next line raises `AttributeError`.
- EcoState.State.constructor: the `ecoState` class is not part of this model. A fresh state is taken to hold the catalog's defaults, clock 0 and time levels 0, 1, 2.
- Diagnostics.SanityCheck: `np.isfinite` over the velocity field and the MPI `global_and` reduction are an oracle of diverged iterations.
- Diagnostics.CreateDiagnostics: the four diagnostic classes' constructors are not part of this model. Every unit starts with both periods at 0.
- Floating point: time, `dt`, `runlen` and the periods are exact reals, so no round-off is modelled.
- Strings: `str.format(**vars(vs))` for the restart file names is an opaque function of the template and the clock.
- PyValues.Convert: `str` of a number (Python formats it) and `int()`/`float()` of a string (Python parses it) are not modelled and give nothing; no catalog row needs either.
- Foreign code: forcing, the boundary kernel, the user hook `after_timestep` and the streamfunction diagnostic are calls recorded on the trace.
  - Their exceptions come from an oracle.
  - Their effect on the fields is not modelled.
  - They are assumed never to change the settings (`dt`, `runlen`), the timers or the registry.
  - Each diagnostic's own `initialize`, `diagnose`, `output`, `read_restart` and `write_restart` are recorded calls that do not raise.
- Restart I/O: the HDF5 writer `h5tools.threaded_io`, its lock and `io_timeout` are not part of this model.
- Signals: `handlers.signals_to_exception` is not part of this model. An interrupt can only be represented as a foreign exception at the four hooks: forcing, the boundary calls on `u` and `v`, `after_timestep` and the streamfunction diagnostic. An interrupt during the advance, the sanity check, `diagnose`/`output` or `write_restart` is not represented.
- Timers: the `Timer` class and its readings are not part of this model. A timer is present or missing in the map, and the `with` lookups raise `KeyError` when it is missing.
- Logging and progress: loguru messages are left out, apart from the critical, success and timing-summary messages of `run`, which are recorded. Also left out are the tqdm progress bar (only its advance is recorded), `time.format_time`, and the log lines of `initialize`.
- Profiling: the pyinstrument profiler and the `profile.html` report are not part of this model. A started profiler is recorded.
- `eco_method` and the process broadcast it adds are not part of this model. The rank and `profile_mode` are parameters.
- `setup()`: its body is commented out in the source, so reading restarts, creating the registry and the user's setup hooks are not run by `Sim`. Those operations are modelled on their own in `Diagnostics`.
- The checkpoint round trip (write, then read back into a fresh state) is not modelled. The diagnostic units' serialisation is foreign code, so only the calls are recorded.
