/** The settings catalog (ecosys3D/settings.py): the ordered table of
    defaults a fresh state is given, how installing it assigns each attribute,
    and the conflict guard between two settings. */
module Settings {
  import opened PyValues

  /** One catalog row: the default and the constructor that `type(default)`
      applies. The free-text description column is documentation only and is
      not modelled. */
  datatype Setting = Setting(default: Value, kind: Kind)

  type Entry = (string, Setting)

  /** The catalog, in declaration order (ecosys3D/settings.py:5-39). Every
      default already has its declared type, except the float settings whose
      default is written as an integer literal. */
  function Catalog(): (r: seq<Entry>)
    ensures |r| == 18
    ensures forall i :: 0 <= i < |r| ==>
      KindOf(r[i].1.default) == r[i].1.kind || (r[i].1.kind == FloatKind && r[i].1.default.Int?)
  {
    [ ("identifier", Setting(Str("UNNAMED"), StrKind)),
      ("nx", Setting(Int(0), IntKind)),
      ("ny", Setting(Int(0), IntKind)),
      ("nz", Setting(Int(0), IntKind)),
      ("dt", Setting(Float(0.0), FloatKind)),
      ("runlen", Setting(Float(0.0), FloatKind)),
      ("AB_eps", Setting(Float(0.1), FloatKind)),
      ("use_io_threads", Setting(Bool(false), BoolKind)),
      ("io_timeout", Setting(Int(20), FloatKind)),
      ("enable_netcdf_zlib_compression", Setting(Bool(true), BoolKind)),
      ("enable_hdf5_gzip_compression", Setting(Bool(true), BoolKind)),
      ("restart_input_filename", Setting(Str(""), StrKind)),
      ("restart_output_filename", Setting(Str("{identifier}_{itt:0>4d}.restart.h5"), StrKind)),
      ("restart_frequency", Setting(Int(0), FloatKind)),
      ("force_overwrite", Setting(Bool(false), BoolKind)),
      ("pyom_compatibility_mode", Setting(Bool(false), BoolKind)),
      ("diskless_mode", Setting(Bool(false), BoolKind)),
      ("default_float_type", Setting(Str("float64"), StrKind)) ]
  }

  /** Every row's `type(default)` succeeds. */
  predicate Installable(es: seq<Entry>)
  {
    forall i :: 0 <= i < |es| ==> Convert(es[i].1.kind, es[i].1.default).Some?
  }

  /** No key appears twice, as in the `OrderedDict` the catalog is. */
  predicate UniqueKeys(es: seq<Entry>)
  {
    forall i, j :: 0 <= i < j < |es| ==> es[i].0 != es[j].0
  }

  function KeySet(es: seq<Entry>): set<string>
  {
    set i | 0 <= i < |es| :: es[i].0
  }

  /** The value a row installs: `setting.type(setting.default)`. */
  function Installed(s: Setting): (v: Value)
    requires Convert(s.kind, s.default).Some?
    ensures KindOf(v) == s.kind
  {
    Convert(s.kind, s.default).value
  }

  /** The attributes after `setattr(vs, key, type(default))` has run for the
      rows of `es` in order, starting from the attributes `m`. */
  function Install(m: map<string, Value>, es: seq<Entry>): (r: map<string, Value>)
    requires Installable(es)
    ensures m.Keys <= r.Keys
    ensures forall i :: 0 <= i < |es| ==> es[i].0 in r
  {
    if es == [] then m
    else
      var last := es[|es| - 1];
      Install(m, es[..|es| - 1])[last.0 := Installed(last.1)]
  }

  /** Installing adds exactly the catalog's keys. */
  lemma {:induction false} InstallKeys(m: map<string, Value>, es: seq<Entry>)
    requires Installable(es)
    ensures Install(m, es).Keys == m.Keys + KeySet(es)
  {
    if es != [] {
      var init := es[..|es| - 1];
      InstallKeys(m, init);
      assert KeySet(es) == KeySet(init) + {es[|es| - 1].0} by {
        forall k | k in KeySet(es) ensures k in KeySet(init) + {es[|es| - 1].0} {
          var i :| 0 <= i < |es| && es[i].0 == k;
          if i < |es| - 1 { assert init[i].0 == k; }
        }
        forall k | k in KeySet(init) ensures k in KeySet(es) {
          var i :| 0 <= i < |init| && init[i].0 == k;
          assert es[i].0 == k;
        }
      }
    }
  }

  /** With unique keys, every row's key ends up holding that row's converted
      default. */
  lemma {:induction false} InstallAssigns(m: map<string, Value>, es: seq<Entry>, i: int)
    requires Installable(es) && UniqueKeys(es)
    requires 0 <= i < |es|
    ensures es[i].0 in Install(m, es)
    ensures Install(m, es)[es[i].0] == Installed(es[i].1)
  {
    if i < |es| - 1 {
      var init := es[..|es| - 1];
      assert init[i] == es[i];
      InstallAssigns(m, init, i);
    }
  }

  /** Attributes whose key is not in the catalog are left as they were. */
  lemma {:induction false} InstallKeepsOthers(m: map<string, Value>, es: seq<Entry>, k: string)
    requires Installable(es)
    requires k !in KeySet(es)
    ensures k in Install(m, es) <==> k in m
    ensures k in m ==> Install(m, es)[k] == m[k]
  {
    if es != [] {
      var init := es[..|es| - 1];
      assert k != es[|es| - 1].0;
      assert KeySet(init) <= KeySet(es) by {
        forall x | x in KeySet(init) ensures x in KeySet(es) {
          var j :| 0 <= j < |init| && init[j].0 == x;
          assert es[j].0 == x;
        }
      }
      InstallKeepsOthers(m, init, k);
    }
  }

  /** The catalog is a well-formed ordered table: eighteen rows, unique keys,
      `identifier` first, and every default converts. */
  lemma CatalogWellFormed()
    ensures |Catalog()| == 18 && Catalog()[0].0 == "identifier"
    ensures UniqueKeys(Catalog())
    ensures Installable(Catalog())
  {
    CatalogUnique();
    CatalogInstallable();
  }

  /** The keys are told apart by their length and their first two
      characters. */
  lemma CatalogUnique()
    ensures UniqueKeys(Catalog())
  {
    var c := Catalog();
    forall i, j | 0 <= i < j < |c|
      ensures c[i].0 != c[j].0
    {
      var a, b := c[i].0, c[j].0;
      assert (|a|, a[0], a[1]) != (|b|, b[0], b[1]);
    }
  }

  lemma CatalogInstallable()
    ensures Installable(Catalog())
  {
  }

  /** The attributes a fresh state holds: the catalog installed on nothing. */
  function Defaults(): map<string, Value>
  {
    CatalogWellFormed();
    Install(map[], Catalog())
  }

  /** Every catalog key, and only those, gets its converted default. */
  lemma DefaultsAreCatalog(i: int)
    requires 0 <= i < |Catalog()|
    ensures Defaults().Keys == KeySet(Catalog())
    ensures Catalog()[i].0 in Defaults()
    ensures Convert(Catalog()[i].1.kind, Catalog()[i].1.default) == Some(Defaults()[Catalog()[i].0])
  {
    CatalogWellFormed();
    InstallKeys(map[], Catalog());
    InstallAssigns(map[], Catalog(), i);
  }

  /** The defaults of the restart policy: no restart is read, none is
      written periodically, the data-loss guard is not tripped and disk
      output is on. */
  lemma DefaultRestartValues()
    ensures "restart_frequency" in Defaults() && Defaults()["restart_frequency"] == Float(0.0)
    ensures "restart_input_filename" in Defaults() && Defaults()["restart_input_filename"] == Str("")
    ensures "restart_output_filename" in Defaults() && Defaults()["restart_output_filename"] == Str("{identifier}_{itt:0>4d}.restart.h5")
    ensures "force_overwrite" in Defaults() && Defaults()["force_overwrite"] == Bool(false)
    ensures "diskless_mode" in Defaults() && Defaults()["diskless_mode"] == Bool(false)
  {
    DefaultsAreCatalog(13);
    DefaultsAreCatalog(11);
    DefaultsAreCatalog(12);
    DefaultsAreCatalog(14);
    DefaultsAreCatalog(16);
  }

  /** The numeric defaults: `float(20)` gives the float 20.0, and the step
      and the run length are 0. */
  lemma DefaultNumbers()
    ensures "io_timeout" in Defaults() && Defaults()["io_timeout"] == Float(20.0)
    ensures "dt" in Defaults() && Defaults()["dt"] == Float(0.0)
    ensures "runlen" in Defaults() && Defaults()["runlen"] == Float(0.0)
  {
    DefaultsAreCatalog(8);
    DefaultsAreCatalog(4);
    DefaultsAreCatalog(5);
  }

  /** `check_setting_conflicts`: TKE without implicit vertical friction is
      refused. The attributes are read left to right with Python's
      short-circuit `and`, so an unset attribute raises `AttributeError` only
      when it is actually read. */
  function CheckSettingConflicts(m: map<string, Value>): (r: Option<PyError>)
    ensures r == Some(SettingConflict) <==>
      "enable_tke" in m && Truthy(m["enable_tke"]) &&
      "enable_implicit_vert_friction" in m && !Truthy(m["enable_implicit_vert_friction"])
    ensures r.None? <==>
      "enable_tke" in m &&
      (!Truthy(m["enable_tke"]) ||
       ("enable_implicit_vert_friction" in m && Truthy(m["enable_implicit_vert_friction"])))
    ensures "enable_tke" !in m ==> r == Some(AttributeError("enable_tke"))
    ensures "enable_tke" in m && Truthy(m["enable_tke"]) && "enable_implicit_vert_friction" !in m ==>
      r == Some(AttributeError("enable_implicit_vert_friction"))
  {
    if "enable_tke" !in m then Some(AttributeError("enable_tke"))
    else if !Truthy(m["enable_tke"]) then None
    else if "enable_implicit_vert_friction" !in m then Some(AttributeError("enable_implicit_vert_friction"))
    else if Truthy(m["enable_implicit_vert_friction"]) then None
    else Some(SettingConflict)
  }

  /** Neither attribute the guard reads is in the catalog, so on a state that
      holds only the defaults the guard raises `AttributeError`. */
  lemma ConflictCheckOnDefaults()
    ensures CheckSettingConflicts(Defaults()) == Some(AttributeError("enable_tke"))
  {
    CatalogWellFormed();
    assert "enable_tke" !in KeySet(Catalog());
    InstallKeys(map[], Catalog());
  }
}
