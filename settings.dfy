/**
 * `GitGlowConfig`: the configuration object, whose methods assign its
 * attributes in place. Each method's new attribute dictionary is the
 * corresponding function of `ConfigAttrs` applied to the old one. The
 * configuration files live on a `Disk`, which loading reads and saving and
 * clearing change.
 */
module Settings {
  import opened Wrappers
  import opened PyText
  import opened ConfigAttrs

  /** The files the configuration reads and writes, by path. */
  class Disk {
    var files: Files

    constructor (files: Files)
      ensures this.files == files
    {
      this.files := files;
    }
  }

  class GitGlowConfig {
    /** The instance dictionary: each dataclass field's current value. */
    var attrs: Attrs

    ghost predicate Valid()
      reads this
    {
      HasFields(attrs)
    }

    /**
     * `GitGlowConfig(token, config_file=configFile)`: the dataclass
     * defaults, `__post_init__` and the file at `config_file`. Python
     * raises in `__post_init__` unless `config_file` is `None` or a path.
     */
    constructor (token: Value, configFile: Value, home: string, disk: Disk)
      requires configFile.PyNone? || configFile.PyPath?
      ensures Valid()
      ensures attrs == Initial(token, configFile, home, disk.files)
    {
      attrs := DataclassDefaults(token, configFile);
      new;
      ghost var defaults := attrs;
      if attrs[MonitoredRepositories] == PyNone {
        attrs := attrs[MonitoredRepositories := PyList([])];
      }
      if attrs[ConfigFile] == PyNone {
        attrs := attrs[ConfigFile := PyPath(DefaultConfigFile(home))];
      }
      assert attrs == PostInit(defaults, home);
      var loaded := LoadConfiguration(disk);
    }

    /** `is_configured()`. */
    predicate IsConfigured()
      reads this
      requires Valid()
    {
      ConfigAttrs.IsConfigured(attrs)
    }

    /** `to_dict()`. */
    function ToDict(): Dict
      reads this
      requires Valid()
    {
      ConfigAttrs.ToDict(attrs)
    }

    /** `setattr(self, name, value)` for the attribute of field `f`. */
    method SetAttr(f: Field, value: Value)
      requires Valid()
      modifies this
      ensures Valid()
      ensures attrs == old(attrs)[f := value]
    {
      attrs := attrs[f := value];
    }

    /**
     * `load_configuration()`: an existing, non-empty file at `config_file`
     * is merged in; no file, or an empty one, changes nothing. The existence
     * test, outside the `try`, raises when `config_file` is not a path: `ok`
     * is false and nothing changes.
     */
    method LoadConfiguration(disk: Disk) returns (ok: bool)
      requires Valid()
      modifies this
      ensures Valid()
      ensures ok <==> old(attrs)[ConfigFile].PyPath?
      ensures attrs == Load(old(attrs), disk.files)
      ensures !ok ==> attrs == old(attrs)
    {
      var path := attrs[ConfigFile];
      if !path.PyPath? {
        return false;
      }
      ok := true;
      if path.path in disk.files {
        var data := disk.files[path.path];
        if data != map[] {
          UpdateFromDict(data);
        }
      }
    }

    /**
     * `_update_from_dict(d)`: each key of `d` that names an attribute sets
     * it, a string `config_file` becoming a path; other keys are ignored.
     * The keys are visited in an arbitrary order, and the result does not
     * depend on it.
     */
    method UpdateFromDict(d: Dict)
      requires Valid()
      modifies this
      ensures Valid()
      ensures attrs == Merge(old(attrs), d)
    {
      var pending := d.Keys;
      MergeWithoutEnds(attrs, d);
      while pending != {}
        invariant Valid()
        invariant pending <= d.Keys
        invariant attrs == Merge(old(attrs), Without(d, pending))
        decreases |pending|
      {
        var key :| key in pending;
        var field := FieldNamed(key);
        MergeStepWithout(old(attrs), d, pending, key);
        if field.Some? {
          SetAttr(field.value, Coerce(field.value, d[key]));
        }
        pending := pending - {key};
      }
    }

    /**
     * `save_configuration()`: `to_dict()` is written to the file at
     * `config_file`. Opening anything but a path raises: `saved` is false
     * and nothing is written.
     */
    method SaveConfiguration(disk: Disk) returns (saved: bool)
      requires Valid()
      modifies disk
      ensures saved <==> attrs[ConfigFile].PyPath?
      ensures saved ==> disk.files == old(disk.files)[attrs[ConfigFile].path := ToDict()]
      ensures !saved ==> disk.files == old(disk.files)
    {
      var path := attrs[ConfigFile];
      if path.PyPath? {
        disk.files := disk.files[path.path := ToDict()];
        saved := true;
      } else {
        saved := false;
      }
    }

    /** `update_github_settings(token, username, repositories)`, then a save. */
    method UpdateGithubSettings(token: string, username: string, repositories: seq<string>, disk: Disk)
      returns (saved: bool)
      requires Valid()
      modifies this, disk
      ensures Valid()
      ensures attrs == GithubSettingsApplied(old(attrs), token, username, repositories)
      ensures saved <==> attrs[ConfigFile].PyPath?
      ensures disk.files == if saved then old(disk.files)[attrs[ConfigFile].path := ToDict()] else old(disk.files)
    {
      attrs := attrs[GithubToken := PyStr(token)][GithubUsername := PyStr(username)];
      attrs := attrs[MonitoredRepositories := StrList(repositories)];
      saved := SaveConfiguration(disk);
    }

    /** `update_wifi_settings(ssid, password)`, then a save. */
    method UpdateWifiSettings(ssid: string, password: string, disk: Disk) returns (saved: bool)
      requires Valid()
      modifies this, disk
      ensures Valid()
      ensures attrs == WifiSettingsApplied(old(attrs), ssid, password)
      ensures saved <==> attrs[ConfigFile].PyPath?
      ensures disk.files == if saved then old(disk.files)[attrs[ConfigFile].path := ToDict()] else old(disk.files)
    {
      attrs := attrs[WifiSsid := PyStr(ssid)][WifiPassword := PyStr(password)];
      saved := SaveConfiguration(disk);
    }

    /** `update_led_settings(brightness, pin)`, then a save. */
    method UpdateLedSettings(brightness: Option<int>, pin: Option<int>, disk: Disk) returns (saved: bool)
      requires Valid()
      modifies this, disk
      ensures Valid()
      ensures attrs == LedSettingsApplied(old(attrs), brightness, pin)
      ensures saved <==> attrs[ConfigFile].PyPath?
      ensures disk.files == if saved then old(disk.files)[attrs[ConfigFile].path := ToDict()] else old(disk.files)
    {
      if brightness.Some? {
        attrs := attrs[LedBrightness := PyInt(Max(0, Min(255, brightness.value)))];
      }
      if pin.Some? {
        attrs := attrs[LedPin := PyInt(pin.value)];
      }
      assert attrs == LedSettingsApplied(old(attrs), brightness, pin);
      saved := SaveConfiguration(disk);
    }

    /**
     * `clear_configuration()`: credentials and repositories are dropped and
     * the file at `config_file` is removed. The existence test raises when
     * `config_file` is not a path: `ok` is false, the fields are cleared all
     * the same and no file is touched.
     */
    method ClearConfiguration(disk: Disk) returns (ok: bool)
      requires Valid()
      modifies this, disk
      ensures Valid()
      ensures attrs == Cleared(old(attrs))
      ensures ok <==> attrs[ConfigFile].PyPath?
      ensures disk.files == if ok then old(disk.files) - {attrs[ConfigFile].path} else old(disk.files)
    {
      attrs := attrs[GithubToken := PyNone][GithubUsername := PyNone][MonitoredRepositories := PyList([])];
      attrs := attrs[WifiSsid := PyNone][WifiPassword := PyNone];
      var path := attrs[ConfigFile];
      if path.PyPath? {
        disk.files := disk.files - {path.path};
        ok := true;
      } else {
        ok := false;
      }
    }

    /**
     * The assignments of `from_environment` on a configuration: the
     * credentials, then each number while the literals parse, then the log
     * level and the repositories. A bad literal stops it with an error.
     */
    method ApplyEnvironment(env: Env) returns (error: Option<EnvError>)
      requires Valid()
      modifies this
      ensures Valid()
      ensures error.Some? <==> EnvironmentApplied(old(attrs), env).Failure?
      ensures error.Some? ==> error.value == EnvironmentApplied(old(attrs), env).error
      ensures error.None? ==> attrs == EnvironmentApplied(old(attrs), env).value
    {
      SetAttr(GithubToken, Getenv(env, TokenVar));
      SetAttr(GithubUsername, Getenv(env, UsernameVar));
      SetAttr(WifiSsid, Getenv(env, SsidVar));
      SetAttr(WifiPassword, Getenv(env, PasswordVar));
      assert attrs == CredentialsFromEnv(old(attrs), env);
      ghost var credentials := attrs;
      var pin := EnvInt(env, PinVar);
      if pin.Failure? {
        return Some(pin.error);
      }
      if pin.value.Some? {
        SetAttr(LedPin, PyInt(pin.value.value));
      }
      var brightness := EnvInt(env, BrightnessVar);
      if brightness.Failure? {
        return Some(brightness.error);
      }
      if brightness.value.Some? {
        SetAttr(LedBrightness, PyInt(brightness.value.value));
      }
      var port := EnvInt(env, PortVar);
      if port.Failure? {
        return Some(port.error);
      }
      if port.value.Some? {
        SetAttr(WebPort, PyInt(port.value.value));
      }
      assert attrs == NumbersFromEnv(credentials, pin.value, brightness.value, port.value);
      ghost var numbers := attrs;
      if IsSet(env, LogLevelVar) {
        SetAttr(LogLevel, PyStr(Upper(env[LogLevelVar])));
      }
      if IsSet(env, RepositoriesVar) {
        SetAttr(MonitoredRepositories, StrList(ParseRepositories(env[RepositoriesVar])));
      }
      assert attrs == TextFromEnv(numbers, env);
      error := None;
    }

    /**
     * `GitGlowConfig.from_environment()`: a default configuration (which
     * reads the default file) with the environment's settings assigned
     * over it; a bad integer literal raises.
     */
    static method FromEnvironment(home: string, disk: Disk, env: Env) returns (r: Result<GitGlowConfig, EnvError>)
      ensures r.Success? ==> fresh(r.value) && r.value.Valid()
      ensures var applied := EnvironmentApplied(Initial(PyNone, PyNone, home, disk.files), env);
        && (r.Failure? <==> applied.Failure?)
        && (r.Failure? ==> r.error == applied.error)
        && (r.Success? ==> r.value.attrs == applied.value)
    {
      var config := new GitGlowConfig(PyNone, PyNone, home, disk);
      var error := config.ApplyEnvironment(env);
      if error.Some? {
        r := Failure(error.value);
      } else {
        r := Success(config);
      }
    }
  }
}
