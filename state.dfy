/** The simulation state object `vs` the core reads and updates: its setting
    attributes, the clock, the time-level indices, the timers, the
    diagnostics registry, and a record of the calls the core makes into code
    outside the model. */
module EcoState {
  import opened PyValues
  import opened Settings
  import opened TimeLevels

  /** A diagnostic unit as the scheduler sees it: its registry key and its two
      periods in seconds (0 disables). Its accumulators and file formats are
      outside the model. */
  datatype Diagnostic = Diagnostic(name: string, samplingFrequency: real, outputFrequency: real)

  /** A named stopwatch; its readings are outside the model. */
  datatype Timer = Timer(name: string)

  /** `vars(vs)` as a restart filename template sees it. */
  datatype Vars = Vars(settings: map<string, Value>, itt: int, time: real)

  /** `template.format(**vars(vs))`: the expansion itself is not modelled. */
  type Formatter = (string, Vars) -> string

  /** The calls the core makes into code outside the model, in the order it
      makes them. */
  datatype Event =
    | Initialized(diag: string)                    // diagnostic.initialize(vs)
    | RestartRead(diag: string, file: string)      // diagnostic.read_restart(vs, file)
    | RestartWritten(diag: string, file: string)   // diagnostic.write_restart(vs, outfile)
    | Sampled(diag: string)                        // diagnostic.diagnose(vs)
    | Emitted(diag: string)                        // diagnostic.output(vs)
    | ForcingSet                                   // self.set_forcing(vs)
    | BoundariesEnforced(field: string, level: int) // utilities.enforce_boundaries on vs.<field>[..., level]
    | Advanced(itt: int, time: real)               // the progress bar advanced; the clock it observes
    | StepHookRan                                  // self.after_timestep(vs)
    | SanityChecked(itt: int)                      // diagnostics.sanity_check(vs)
    | StreamfunctionDiagnosed                      // isoneutral.isoneutral_diag_streamfunction(vs)
    | ProfilerStarted
    | ProfilerStopped
    | Critical(itt: int)                           // 'Stopping integration at iteration {itt}'
    | Succeeded                                    // 'Integration done'
    | TimingSummary                                // the timing summary of the finally block

  /** The attributes the scheduler and the restart code read are set and
      usable: numbers where they compute, strings where they format a
      filename. A state given the catalog's defaults satisfies this
      (DefaultsConfigured). The two diffusion flags the run loop reads are not
      among them and are not in the catalog (DefaultsRaiseAfterAdvance). */
  predicate Configured(m: map<string, Value>)
  {
    && "dt" in m && IsNumber(m["dt"])
    && "runlen" in m && IsNumber(m["runlen"])
    && "restart_frequency" in m && IsNumber(m["restart_frequency"])
    && "restart_input_filename" in m && m["restart_input_filename"].Str?
    && "restart_output_filename" in m && m["restart_output_filename"].Str?
    && "force_overwrite" in m
    && "diskless_mode" in m
  }

  /** A numeric attribute as a real. The core reads attributes only from a
      configured state, so the 0.0 for a missing or textual one is never
      observed. */
  function Number(m: map<string, Value>, key: string): (r: real)
    ensures key in m && IsNumber(m[key]) ==> r == AsReal(m[key])
  {
    if key in m && IsNumber(m[key]) then AsReal(m[key]) else 0.0
  }

  /** A string attribute; "" when missing, which a configured state rules
      out. */
  function Text(m: map<string, Value>, key: string): (r: string)
    ensures key in m && m[key].Str? ==> r == m[key].s
  {
    if key in m && m[key].Str? then m[key].s else ""
  }

  /** Whether an attribute is present and true in Python's sense. */
  predicate Flag(m: map<string, Value>, key: string)
  {
    key in m && Truthy(m[key])
  }

  function Dt(m: map<string, Value>): real
  {
    Number(m, "dt")
  }

  function Runlen(m: map<string, Value>): real
  {
    Number(m, "runlen")
  }

  function RestartFrequency(m: map<string, Value>): real
  {
    Number(m, "restart_frequency")
  }

  lemma DefaultsConfigured()
    ensures Configured(Defaults())
    ensures Dt(Defaults()) == 0.0 && Runlen(Defaults()) == 0.0 && RestartFrequency(Defaults()) == 0.0
  {
    DefaultRestartValues();
    DefaultNumbers();
  }

  class State {
    var settings: map<string, Value>
    var itt: int
    var time: real
    var taum1: int
    var tau: int
    var taup1: int
    var timers: map<string, Timer>
    var diagnostics: seq<Diagnostic>
    var trace: seq<Event>

    function CurrentLevels(): Levels
      reads this
    {
      Levels(taum1, tau, taup1)
    }

    function CurrentVars(): Vars
      reads this
    {
      Vars(settings, itt, time)
    }

    /** A fresh state: the catalog's defaults installed, the clock at zero,
        the time levels 0, 1, 2, no timers and no diagnostics yet. */
    constructor ()
      ensures settings == Defaults() && Configured(settings)
      ensures itt == 0 && time == 0.0 && CurrentLevels() == Levels(0, 1, 2)
      ensures timers == map[] && diagnostics == [] && trace == []
    {
      settings := map[];
      itt, time := 0, 0.0;
      taum1, tau, taup1 := 0, 1, 2;
      timers := map[];
      diagnostics := [];
      trace := [];
      new;
      SetDefaultSettings(this);
      DefaultsConfigured();
    }
  }

  /** `set_default_settings(vs)`: one `setattr(vs, key, type(default))` per
      catalog row, in catalog order. */
  method SetDefaultSettings(vs: State)
    modifies vs`settings
    ensures vs.settings == Install(old(vs.settings), Catalog())
    ensures vs.settings.Keys == old(vs.settings.Keys) + KeySet(Catalog())
  {
    CatalogWellFormed();
    InstallRows(vs, Catalog());
    InstallKeys(old(vs.settings), Catalog());
  }

  /** The loop of `set_default_settings` over the rows of a table. */
  method InstallRows(vs: State, es: seq<Entry>)
    requires Installable(es)
    modifies vs`settings
    ensures vs.settings == Install(old(vs.settings), es)
  {
    var i := 0;
    while i < |es|
      invariant 0 <= i <= |es|
      invariant vs.settings == Install(old(vs.settings), es[..i])
    {
      var (key, setting) := es[i];
      vs.settings := vs.settings[key := Convert(setting.kind, setting.default).value];
      assert es[..i + 1][..i] == es[..i];
      i := i + 1;
    }
    assert es[..i] == es;
  }
}
