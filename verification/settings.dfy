/** The lazily configured settings object. Its one piece of state is the
    wrapped settings namespace: absent until the instance is configured,
    then a map from setting names to values. A module's namespace, and a
    configuration dict, are ordered lists of (name, value) pairs. */
module Settings {
  import opened Values
  import opened Exceptions

  /** The names a settings namespace holds. */
  type Namespace = map<string, Value>

  /** The argument of `configure`. */
  datatype Config = NoConfig | Path(path: string) | DictConfig(items: seq<(string, Value)>) | OtherConfig

  const AlreadyConfigured: string :=
    "Settings have already been configured. You either called configure twice or are trying to configure the settings after they have already been accessed. If you suspect the latter, try configuring the settings earlier in your application's lifecycle."

  const InvalidConfig: string :=
    "Invalid configuration object, you must provide a dict or string representing the path to a configuration file"

  /** The package's default settings module, in `dir()` order. */
  const PackageDefaults: seq<(string, Value)> := [
    ("DB_BACKEND", Str("SQLAlchemy")),
    ("DEBUG", Bool(false)),
    ("DEFAULT_BUNDLE_SIZE", Int(20)),
    ("MAX_BUNDLE_SIZE", Int(100)),
    ("MODELS_PATH", Str("models")),
    ("__name__", Str("default_settings"))]

  /** `base` with every pair of `items` whose name is upper-case written
      over it, in order. */
  function Overlay(base: Namespace, items: seq<(string, Value)>): Namespace
  {
    if items == [] then base
    else
      var init := Overlay(base, items[..|items| - 1]);
      var (k, v) := items[|items| - 1];
      if IsUpper(k) then init[k := v] else init
  }

  /** The value the last pair named `k` gives, if any: an independent
      statement of which write wins. */
  function LastValue(items: seq<(string, Value)>, k: string): Option<Value>
  {
    if items == [] then None
    else if items[|items| - 1].0 == k then Some(items[|items| - 1].1)
    else LastValue(items[..|items| - 1], k)
  }

  function Get(m: Namespace, k: string): Option<Value>
  {
    if k in m then Some(m[k]) else None
  }

  /** After the overlay, an upper-case name holds its last value in
      `items` if it occurs there; every other name keeps its value in
      `base`, so lower-case names are ignored. */
  lemma {:induction false} OverlayLookup(base: Namespace, items: seq<(string, Value)>, k: string)
    ensures Get(Overlay(base, items), k) ==
            if IsUpper(k) && LastValue(items, k).Some? then LastValue(items, k) else Get(base, k)
  {
    if items != [] {
      OverlayLookup(base, items[..|items| - 1], k);
    }
  }

  /** The settings the defaults module installs: its upper-case names. */
  function DefaultsOf(names: seq<(string, Value)>): Namespace
  {
    Overlay(map[], names)
  }

  /** Which names of the package defaults `isupper()` accepts. */
  lemma PackageDefaultNames()
    ensures IsUpper("DB_BACKEND") && IsUpper("DEBUG") && IsUpper("DEFAULT_BUNDLE_SIZE")
    ensures IsUpper("MAX_BUNDLE_SIZE") && IsUpper("MODELS_PATH") && !IsUpper("__name__")
  {
    assert "DB_BACKEND"[0] == 'D' && "DEBUG"[0] == 'D' && "DEFAULT_BUNDLE_SIZE"[0] == 'D';
    assert "MAX_BUNDLE_SIZE"[0] == 'M' && "MODELS_PATH"[0] == 'M' && "__name__"[2] == 'n';
  }

  /** One more pair on the end of the overlaid items. */
  lemma OverlaySnoc(base: Namespace, items: seq<(string, Value)>, k: string, v: Value)
    ensures Overlay(base, items + [(k, v)]) == if IsUpper(k) then Overlay(base, items)[k := v] else Overlay(base, items)
  {
    assert (items + [(k, v)])[..|items|] == items;
  }

  /** The namespace the package defaults install, pair by pair. */
  lemma PackageDefaultsMap()
    ensures DefaultsOf(PackageDefaults) ==
            map["DB_BACKEND" := Str("SQLAlchemy"), "DEBUG" := Bool(false), "DEFAULT_BUNDLE_SIZE" := Int(20),
                "MAX_BUNDLE_SIZE" := Int(100), "MODELS_PATH" := Str("models")]
  {
    var d := PackageDefaults;
    PackageDefaultNames();
    var p1 := [d[0]];
    var p2 := p1 + [d[1]];
    var p3 := p2 + [d[2]];
    var p4 := p3 + [d[3]];
    var p5 := p4 + [d[4]];
    assert p5 + [d[5]] == d;
    OverlaySnoc(map[], [], d[0].0, d[0].1);
    assert [] + [d[0]] == p1;
    OverlaySnoc(map[], p1, d[1].0, d[1].1);
    OverlaySnoc(map[], p2, d[2].0, d[2].1);
    OverlaySnoc(map[], p3, d[3].0, d[3].1);
    OverlaySnoc(map[], p4, d[4].0, d[4].1);
    OverlaySnoc(map[], p5, d[5].0, d[5].1);
  }

  /** The package defaults hold exactly the five upper-case settings,
      among them the bundle sizes 20 and 100. */
  lemma PackageDefaultsInstalled()
    ensures DefaultsOf(PackageDefaults).Keys == {"DB_BACKEND", "DEBUG", "DEFAULT_BUNDLE_SIZE", "MAX_BUNDLE_SIZE", "MODELS_PATH"}
    ensures DefaultsOf(PackageDefaults)["DEFAULT_BUNDLE_SIZE"] == Int(20)
    ensures DefaultsOf(PackageDefaults)["MAX_BUNDLE_SIZE"] == Int(100)
    ensures DefaultsOf(PackageDefaults)["DEBUG"] == Bool(false)
  {
    PackageDefaultsMap();
  }

  /** `configure` called with a dict whose keys are `TEST`, `SOME` and
      `ignored`: the two upper-case keys are added to the defaults and
      `ignored` is not. */
  lemma DictKeysFiltered(defaults: Namespace)
    requires "ignored" !in defaults
    ensures var s := Overlay(defaults, [("TEST", Int(5)), ("SOME", Str("OTHER")), ("ignored", Bool(true))]);
            Get(s, "TEST") == Some(Int(5)) && Get(s, "SOME") == Some(Str("OTHER")) && "ignored" !in s
  {
    var items := [("TEST", Int(5)), ("SOME", Str("OTHER")), ("ignored", Bool(true))];
    assert IsUpper("TEST") by { assert "TEST"[0] == 'T'; }
    assert IsUpper("SOME") by { assert "SOME"[0] == 'S'; }
    assert !IsUpper("ignored") by { assert "ignored"[0] == 'i'; }
    OverlayLookup(defaults, items, "TEST");
    OverlayLookup(defaults, items, "SOME");
    OverlayLookup(defaults, items, "ignored");
    assert items[..2][..1] == items[..1] && items[..1][..0] == [];
  }

  /** `LazySettings`, around the settings namespace of a defaults module. */
  class LazySettings {
    /** `_wrapped`: the installed settings, if any. */
    var wrapped: Option<Namespace>
    /** The `default_settings` module's namespace, in `dir()` order. */
    const defaults: seq<(string, Value)>

    /** A fresh instance is not configured. */
    constructor (defaults: seq<(string, Value)>)
      ensures wrapped == None && this.defaults == defaults
    {
      wrapped := None;
      this.defaults := defaults;
    }

    /** `is_configured()`. */
    function IsConfigured(): (r: bool)
      reads this
      ensures r <==> wrapped.Some?
    {
      wrapped.Some?
    }

    /** `_reset()`. */
    method Reset()
      modifies this
      ensures wrapped == None
    {
      wrapped := None;
    }

    /** `_configure_from_defaults()`: copies the upper-case names of the
        defaults module and installs them, configured or not. */
    method ConfigureFromDefaults() returns (s: Namespace)
      modifies this
      ensures s == DefaultsOf(defaults) && wrapped == Some(s)
    {
      s := map[];
      var i := 0;
      while i < |defaults|
        invariant 0 <= i <= |defaults|
        invariant s == Overlay(map[], defaults[..i])
      {
        assert defaults[..i + 1][..i] == defaults[..i];
        var (name, value) := defaults[i];
        if IsUpper(name) {
          s := s[name := value];
        }
        i := i + 1;
      }
      assert defaults[..|defaults|] == defaults;
      wrapped := Some(s);
    }

    /** The loop shared by the dict and path loaders: the defaults with
        every upper-case pair of `items` written over them. */
    method CopyUpper(items: seq<(string, Value)>) returns (s: Namespace)
      modifies this
      ensures s == Overlay(DefaultsOf(defaults), items) && wrapped == Some(s)
    {
      var base := ConfigureFromDefaults();
      s := base;
      var i := 0;
      while i < |items|
        invariant 0 <= i <= |items|
        invariant s == Overlay(base, items[..i])
      {
        assert items[..i + 1][..i] == items[..i];
        var (key, value) := items[i];
        if IsUpper(key) {
          s := s[key := value];
        }
        i := i + 1;
      }
      assert items[..|items|] == items;
      wrapped := Some(s);
    }

    /** `_configure_from_dict(items)`: refused once configured; otherwise
        the defaults overlaid with the dict's upper-case keys. */
    method ConfigureFromDict(items: seq<(string, Value)>) returns (r: Result<Namespace>)
      modifies this
      ensures old(wrapped).Some? ==> r == Err(Configuration(AlreadyConfigured)) && wrapped == old(wrapped)
      ensures old(wrapped).None? ==> r == Ok(Overlay(DefaultsOf(defaults), items)) && wrapped == Some(r.value)
    {
      if wrapped.Some? {
        return Err(Configuration(AlreadyConfigured));
      }
      var s := CopyUpper(items);
      r := Ok(s);
    }

    /** `_configure_from_path(path)`: refused once configured; otherwise
        the defaults are installed, the module is imported through `load`
        (whose failure escapes with the defaults left installed), and its
        upper-case names, in `dir()` order, are written over them. */
    method ConfigureFromPath(path: string, load: string -> Result<seq<(string, Value)>>) returns (r: Result<Namespace>)
      modifies this
      ensures old(wrapped).Some? ==> r == Err(Configuration(AlreadyConfigured)) && wrapped == old(wrapped)
      ensures old(wrapped).None? && load(path).Err? ==> r == Err(load(path).error) && wrapped == Some(DefaultsOf(defaults))
      ensures old(wrapped).None? && load(path).Ok? ==>
                r == Ok(Overlay(DefaultsOf(defaults), load(path).value)) && wrapped == Some(r.value)
    {
      if wrapped.Some? {
        return Err(Configuration(AlreadyConfigured));
      }
      var base := ConfigureFromDefaults();
      var loaded := load(path);
      if loaded.Err? {
        return Err(loaded.error);
      }
      var s := CopyUpper(loaded.value);
      r := Ok(s);
    }

    /** `configure(config)`: no argument installs the defaults and still
        raises, since only a string or a dict returns; a string goes to the
        path loader, a dict to the dict loader, anything else raises. */
    method Configure(config: Config, load: string -> Result<seq<(string, Value)>>) returns (r: Result<Namespace>)
      modifies this
      ensures config.NoConfig? ==> r == Err(Configuration(InvalidConfig)) && wrapped == Some(DefaultsOf(defaults))
      ensures config.OtherConfig? ==> r == Err(Configuration(InvalidConfig)) && wrapped == old(wrapped)
      ensures config.DictConfig? && old(wrapped).None? ==>
                r == Ok(Overlay(DefaultsOf(defaults), config.items)) && wrapped == Some(r.value)
      ensures config.Path? && old(wrapped).None? && load(config.path).Ok? ==>
                r == Ok(Overlay(DefaultsOf(defaults), load(config.path).value)) && wrapped == Some(r.value)
      ensures config.Path? && old(wrapped).None? && load(config.path).Err? ==>
                r == Err(load(config.path).error) && wrapped == Some(DefaultsOf(defaults))
      ensures !config.NoConfig? && !config.OtherConfig? && old(wrapped).Some? ==>
                r == Err(Configuration(AlreadyConfigured)) && wrapped == old(wrapped)
    {
      if config.NoConfig? {
        var s := ConfigureFromDefaults();
        wrapped := Some(s);
      }
      if config.Path? {
        r := ConfigureFromPath(config.path, load);
        return;
      }
      if config.DictConfig? {
        r := ConfigureFromDict(config.items);
        return;
      }
      r := Err(Configuration(InvalidConfig));
    }

    /** `settings.NAME`: an unconfigured instance configures itself with no
        argument, which installs the defaults and raises; a configured one
        reads the name, and a missing name raises AttributeError. */
    method GetSetting(name: string) returns (r: Result<Value>)
      modifies this
      ensures old(wrapped).None? ==> r == Err(Configuration(InvalidConfig)) && wrapped == Some(DefaultsOf(defaults))
      ensures old(wrapped).Some? ==> wrapped == old(wrapped)
      ensures old(wrapped).Some? && name in old(wrapped).value ==> r == Ok(old(wrapped).value[name])
      ensures old(wrapped).Some? && name !in old(wrapped).value ==>
                r == Err(Raised(AttributeError, "'FhirSettings' object has no attribute '" + name + "'"))
    {
      if wrapped.None? {
        var s := ConfigureFromDefaults();
        return Err(Configuration(InvalidConfig));
      }
      if name in wrapped.value {
        r := Ok(wrapped.value[name]);
      } else {
        r := Err(Raised(AttributeError, "'FhirSettings' object has no attribute '" + name + "'"));
      }
    }

    /** `settings._wrapped = s`: stored directly on the instance. */
    method SetWrapped(s: Option<Namespace>)
      modifies this
      ensures wrapped == s
    {
      wrapped := s;
    }

    /** `settings.NAME = value` for any other name: on an unconfigured
        instance the lazy `configure()` installs the defaults and raises,
        so the write is lost; on a configured one the write is forwarded to
        the wrapped settings. */
    method SetSetting(name: string, value: Value) returns (r: Result<()>)
      requires name != "_wrapped"
      modifies this
      ensures old(wrapped).None? ==> r == Err(Configuration(InvalidConfig)) && wrapped == Some(DefaultsOf(defaults))
      ensures old(wrapped).Some? ==> r == Ok(()) && wrapped == Some(old(wrapped).value[name := value])
    {
      if wrapped.None? {
        var s := ConfigureFromDefaults();
        return Err(Configuration(InvalidConfig));
      }
      wrapped := Some(wrapped.value[name := value]);
      r := Ok(());
    }

    /** `del settings.NAME`: configures lazily like a write; a missing name
        raises AttributeError. */
    method DeleteSetting(name: string) returns (r: Result<()>)
      modifies this
      ensures old(wrapped).None? ==> r == Err(Configuration(InvalidConfig)) && wrapped == Some(DefaultsOf(defaults))
      ensures old(wrapped).Some? && name !in old(wrapped).value ==>
                r == Err(Raised(AttributeError, name)) && wrapped == old(wrapped)
      ensures old(wrapped).Some? && name in old(wrapped).value ==>
                r == Ok(()) && wrapped == Some(old(wrapped).value - {name})
    {
      if wrapped.None? {
        var s := ConfigureFromDefaults();
        return Err(Configuration(InvalidConfig));
      }
      if name !in wrapped.value {
        return Err(Raised(AttributeError, name));
      }
      wrapped := Some(wrapped.value - {name});
      r := Ok(());
    }
  }

  /** Configuring once with a dict and then again with anything but no
      argument leaves the first settings in place: configuration happens
      once. */
  method ConfigureTwice(defaults: seq<(string, Value)>, first: seq<(string, Value)>, second: Config,
                        load: string -> Result<seq<(string, Value)>>) returns (r: Result<Namespace>, s: Option<Namespace>)
    ensures !second.NoConfig? ==> s == Some(Overlay(DefaultsOf(defaults), first))
    ensures second.DictConfig? || second.Path? ==> r == Err(Configuration(AlreadyConfigured))
  {
    var settings := new LazySettings(defaults);
    var ok := settings.Configure(DictConfig(first), load);
    r := settings.Configure(second, load);
    s := settings.wrapped;
  }
}
