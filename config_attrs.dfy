/**
 * The GitGlow configuration record as the attribute dictionary of a Python
 * object: every dataclass field mapped to the Python value it holds. One
 * function per configuration operation gives the attributes after that
 * operation; the `Settings` class implements them field by field.
 */
module ConfigAttrs {
  import opened Wrappers
  import opened PyText

  /**
   * A Python value as the configuration can hold one. Field annotations are
   * not enforced by Python, so any attribute may hold any of these.
   */
  datatype Value =
    | PyNone
    | PyBool(b: bool)
    | PyInt(i: int)
    | PyStr(s: string)
    | PyList(items: seq<Value>)
    | PyPath(path: string)

  /** Python truthiness, as `all([...])` uses it. */
  predicate Truthy(v: Value) {
    match v
    case PyNone => false
    case PyBool(b) => b
    case PyInt(i) => i != 0
    case PyStr(s) => s != ""
    case PyList(items) => items != []
    case PyPath(_) => true
  }

  /** Python's `str(v)`. */
  function ToStr(v: Value): string {
    match v
    case PyStr(s) => s
    case PyPath(p) => p
    case _ => Repr(v)
  }

  /** Python's `repr(v)`, strings always in single quotes. */
  function Repr(v: Value): string {
    match v
    case PyNone => "None"
    case PyBool(b) => if b then "True" else "False"
    case PyInt(i) => DecimalString(i)
    case PyStr(s) => "'" + s + "'"
    case PyList(items) => "[" + ReprItems(items) + "]"
    case PyPath(p) => "PosixPath('" + p + "')"
  }

  function ReprItems(items: seq<Value>): string
    decreases items
  {
    if items == [] then ""
    else if |items| == 1 then Repr(items[0])
    else Repr(items[0]) + ", " + ReprItems(items[1..])
  }

  /** The dataclass fields of `GitGlowConfig`, in declaration order. */
  datatype Field =
    | GithubToken | GithubUsername | MonitoredRepositories | WifiSsid | WifiPassword
    | LedPin | LedCount | LedBrightness | MatrixWidth | MatrixHeight | DisplayWidth | DisplayHeight
    | RateLimitStrategy | CommitUpdateInterval | PrUpdateInterval | ReviewUpdateInterval
    | ReviewUpdateIntervalOff | WorkStartHour | WorkEndHour
    | WebPort | SetupSsid | SetupPassword | LogLevel | LogFile | ConfigFile

  /** The Python attribute name of a field. */
  function Name(f: Field): string {
    match f
    case GithubToken => "github_token"
    case GithubUsername => "github_username"
    case MonitoredRepositories => "monitored_repositories"
    case WifiSsid => "wifi_ssid"
    case WifiPassword => "wifi_password"
    case LedPin => "led_pin"
    case LedCount => "led_count"
    case LedBrightness => "led_brightness"
    case MatrixWidth => "matrix_width"
    case MatrixHeight => "matrix_height"
    case DisplayWidth => "display_width"
    case DisplayHeight => "display_height"
    case RateLimitStrategy => "rate_limit_strategy"
    case CommitUpdateInterval => "commit_update_interval"
    case PrUpdateInterval => "pr_update_interval"
    case ReviewUpdateInterval => "review_update_interval"
    case ReviewUpdateIntervalOff => "review_update_interval_off"
    case WorkStartHour => "work_start_hour"
    case WorkEndHour => "work_end_hour"
    case WebPort => "web_port"
    case SetupSsid => "setup_ssid"
    case SetupPassword => "setup_password"
    case LogLevel => "log_level"
    case LogFile => "log_file"
    case ConfigFile => "config_file"
  }

  /**
   * A fingerprint of a nonempty name: its length, first and last character.
   * The field names have pairwise different fingerprints.
   */
  function Sig(s: string): int {
    if s == [] then 0 else |s| * 0x10000 + (s[0] as int) * 0x100 + s[|s| - 1] as int
  }

  /** The fingerprint of each field's name. */
  function Code(f: Field): int {
    match f
    case GithubToken => 812910
    case GithubUsername => 1009509
    case MonitoredRepositories => 1469811
    case WifiSsid => 620388
    case WifiPassword => 882532
    case LedPin => 486510
    case LedCount => 617588
    case LedBrightness => 945267
    case MatrixWidth => 814440
    case MatrixHeight => 879988
    case DisplayWidth => 877672
    case DisplayHeight => 943220
    case RateLimitStrategy => 1274489
    case CommitUpdateInterval => 1467244
    case PrUpdateInterval => 1208428
    case ReviewUpdateInterval => 1471084
    case ReviewUpdateIntervalOff => 1733222
    case WorkStartHour => 1013618
    case WorkEndHour => 882546
    case WebPort => 554868
    case SetupSsid => 684900
    case SetupPassword => 947044
    case LogLevel => 617580
    case LogFile => 552037
    case ConfigFile => 746341
  }

  lemma SigNameA(f: Field)
    requires f.GithubToken? || f.GithubUsername? || f.MonitoredRepositories? || f.WifiSsid? || f.WifiPassword?
    ensures Sig(Name(f)) == Code(f)
  {
  }

  lemma SigNameB(f: Field)
    requires f.LedPin? || f.LedCount? || f.LedBrightness? || f.MatrixWidth? || f.MatrixHeight?
    ensures Sig(Name(f)) == Code(f)
  {
  }

  lemma SigNameC(f: Field)
    requires f.DisplayWidth? || f.DisplayHeight? || f.RateLimitStrategy? || f.CommitUpdateInterval? || f.PrUpdateInterval?
    ensures Sig(Name(f)) == Code(f)
  {
  }

  lemma SigNameD(f: Field)
    requires f.ReviewUpdateInterval? || f.ReviewUpdateIntervalOff? || f.WorkStartHour? || f.WorkEndHour? || f.WebPort?
    ensures Sig(Name(f)) == Code(f)
  {
  }

  lemma SigNameE(f: Field)
    requires f.SetupSsid? || f.SetupPassword? || f.LogLevel? || f.LogFile? || f.ConfigFile?
    ensures Sig(Name(f)) == Code(f)
  {
  }

  lemma SigName(f: Field)
    ensures Sig(Name(f)) == Code(f)
  {
    match f
    case GithubToken | GithubUsername | MonitoredRepositories | WifiSsid | WifiPassword => SigNameA(f);
    case LedPin | LedCount | LedBrightness | MatrixWidth | MatrixHeight => SigNameB(f);
    case DisplayWidth | DisplayHeight | RateLimitStrategy | CommitUpdateInterval | PrUpdateInterval => SigNameC(f);
    case ReviewUpdateInterval | ReviewUpdateIntervalOff | WorkStartHour | WorkEndHour | WebPort => SigNameD(f);
    case SetupSsid | SetupPassword | LogLevel | LogFile | ConfigFile => SigNameE(f);
  }

  lemma CodeInjective(f: Field, g: Field)
    requires Code(f) == Code(g)
    ensures f == g
  {
  }

  /** Different fields have different names. */
  lemma NameInjective(f: Field, g: Field)
    requires Name(f) == Name(g)
    ensures f == g
  {
    SigName(f);
    SigName(g);
    CodeInjective(f, g);
  }

  /** The attributes of a configuration object. */
  type Attrs = map<Field, Value>

  /** A Python dictionary with string keys (YAML data, `to_dict()` output). */
  type Dict = map<string, Value>

  /** Every dataclass field is an attribute. */
  predicate HasFields(a: Attrs) {
    forall f: Field :: f in a
  }

  /** The number of dataclass fields. */
  const FieldCount: nat := 25

  /** A field's position in declaration order, the order `asdict` lists them in. */
  function Index(f: Field): (k: nat)
    ensures k < FieldCount
  {
    match f
    case GithubToken => 0
    case GithubUsername => 1
    case MonitoredRepositories => 2
    case WifiSsid => 3
    case WifiPassword => 4
    case LedPin => 5
    case LedCount => 6
    case LedBrightness => 7
    case MatrixWidth => 8
    case MatrixHeight => 9
    case DisplayWidth => 10
    case DisplayHeight => 11
    case RateLimitStrategy => 12
    case CommitUpdateInterval => 13
    case PrUpdateInterval => 14
    case ReviewUpdateInterval => 15
    case ReviewUpdateIntervalOff => 16
    case WorkStartHour => 17
    case WorkEndHour => 18
    case WebPort => 19
    case SetupSsid => 20
    case SetupPassword => 21
    case LogLevel => 22
    case LogFile => 23
    case ConfigFile => 24
  }

  /** The field at position `k` of the declaration order. */
  function FieldAt(k: nat): (f: Field)
    requires k < FieldCount
    ensures Index(f) == k
  {
    match k
    case 0 => GithubToken
    case 1 => GithubUsername
    case 2 => MonitoredRepositories
    case 3 => WifiSsid
    case 4 => WifiPassword
    case 5 => LedPin
    case 6 => LedCount
    case 7 => LedBrightness
    case 8 => MatrixWidth
    case 9 => MatrixHeight
    case 10 => DisplayWidth
    case 11 => DisplayHeight
    case 12 => RateLimitStrategy
    case 13 => CommitUpdateInterval
    case 14 => PrUpdateInterval
    case 15 => ReviewUpdateInterval
    case 16 => ReviewUpdateIntervalOff
    case 17 => WorkStartHour
    case 18 => WorkEndHour
    case 19 => WebPort
    case 20 => SetupSsid
    case 21 => SetupPassword
    case 22 => LogLevel
    case 23 => LogFile
    case _ => ConfigFile
  }

  /** Distinct fields have distinct indices. */
  lemma IndexInjective(f: Field, g: Field)
    requires Index(f) == Index(g)
    ensures f == g
  {
  }

  /** Among the first `n` fields, the one whose name is `key`, if any. */
  function FieldNamedUpTo(key: string, n: nat): (r: Option<Field>)
    requires n <= FieldCount
    ensures r.Some? ==> Name(r.value) == key && Index(r.value) < n
    ensures r.None? ==> forall f :: Index(f) < n ==> Name(f) != key
  {
    if n == 0 then None
    else
      var f := FieldAt(n - 1);
      if Name(f) == key then Some(f)
      else
        var r := FieldNamedUpTo(key, n - 1);
        assert r.None? ==> forall g :: Index(g) < n ==> Name(g) != key by {
          if r.None? {
            forall g | Index(g) < n ensures Name(g) != key {
              if Index(g) == n - 1 {
                IndexInjective(g, f);
              }
            }
          }
        }
        r
  }

  /**
   * `hasattr(self, key)`: the field a dictionary key names, if any. Only the
   * dataclass fields count as attributes in this model.
   */
  function FieldNamed(key: string): (r: Option<Field>)
    ensures r.Some? ==> Name(r.value) == key
  {
    FieldNamedUpTo(key, FieldCount)
  }

  /** Every field's own name is recognised as that field. */
  lemma NameRecognised(f: Field)
    ensures FieldNamed(Name(f)) == Some(f)
  {
    var r := FieldNamed(Name(f));
    if r.Some? {
      NameInjective(r.value, f);
    }
  }

  /** A key naming no field names none: every field is among the ones searched. */
  lemma UnnamedKey(k: string, f: Field)
    requires FieldNamed(k).None?
    ensures Name(f) != k
  {
  }

  /**
   * A field's dataclass default, with the constructor's first positional
   * argument `github_token` and the `config_file` field given (`None` unless
   * passed).
   */
  function Default(f: Field, token: Value, configFile: Value): Value {
    match f
    case GithubToken => token
    case GithubUsername => PyNone
    case MonitoredRepositories => PyNone
    case WifiSsid => PyNone
    case WifiPassword => PyNone
    case LedPin => PyInt(18)
    case LedCount => PyInt(256)
    case LedBrightness => PyInt(128)
    case MatrixWidth => PyInt(32)
    case MatrixHeight => PyInt(8)
    case DisplayWidth => PyInt(32)
    case DisplayHeight => PyInt(7)
    case RateLimitStrategy => PyStr("adaptive")
    case CommitUpdateInterval => PyInt(900)
    case PrUpdateInterval => PyInt(120)
    case ReviewUpdateInterval => PyInt(60)
    case ReviewUpdateIntervalOff => PyInt(300)
    case WorkStartHour => PyInt(9)
    case WorkEndHour => PyInt(18)
    case WebPort => PyInt(8080)
    case SetupSsid => PyStr("GitGlow-Setup")
    case SetupPassword => PyStr("")
    case LogLevel => PyStr("INFO")
    case LogFile => PyStr("/var/log/gitglow/gitglow.log")
    case ConfigFile => configFile
  }

  /** The attributes the generated `__init__` assigns: every field its default. */
  function DataclassDefaults(token: Value, configFile: Value): (r: Attrs)
    ensures HasFields(r)
    ensures forall f :: r[f] == Default(f, token, configFile)
  {
    map f: Field | true :: Default(f, token, configFile)
  }

  /** `Path.home() / ".config" / "gitglow" / "config.yaml"`. */
  function DefaultConfigFile(home: string): string {
    home + "/.config/gitglow/config.yaml"
  }

  /** The first part of `__post_init__`: `None` repositories and config file get defaults. */
  function PostInit(a: Attrs, home: string): (r: Attrs)
    requires HasFields(a)
    ensures HasFields(r)
    ensures r[MonitoredRepositories] == if a[MonitoredRepositories] == PyNone then PyList([]) else a[MonitoredRepositories]
    ensures r[ConfigFile] == if a[ConfigFile] == PyNone then PyPath(DefaultConfigFile(home)) else a[ConfigFile]
    ensures forall f :: f != MonitoredRepositories && f != ConfigFile ==> r[f] == a[f]
  {
    var withRepos := if a[MonitoredRepositories] == PyNone then a[MonitoredRepositories := PyList([])] else a;
    if withRepos[ConfigFile] == PyNone then withRepos[ConfigFile := PyPath(DefaultConfigFile(home))] else withRepos
  }

  /** `_update_from_dict` turns a string given for `config_file` into a path. */
  function Coerce(f: Field, v: Value): Value {
    if f == ConfigFile && v.PyStr? then PyPath(v.s) else v
  }

  /**
   * `_update_from_dict(d)`: every key of `d` that names an attribute sets it
   * to its (coerced) value; a key naming no attribute is ignored.
   */
  function Merge(a: Attrs, d: Dict): (r: Attrs)
    ensures r.Keys == a.Keys
    ensures forall f <- a :: r[f] == if Name(f) in d then Coerce(f, d[Name(f)]) else a[f]
  {
    map f | f in a :: if Name(f) in d then Coerce(f, d[Name(f)]) else a[f]
  }

  /** `d` with the keys in `pending` left out. */
  function Without(d: Dict, pending: set<string>): (r: Dict)
    ensures r.Keys == d.Keys - pending
    ensures forall k <- r :: r[k] == d[k]
  {
    map k | k in d && k !in pending :: d[k]
  }

  /**
   * Merging a dictionary with one more key: a key naming a field sets that
   * field alone, any other key changes nothing. So `_update_from_dict` does
   * not depend on the order of the dictionary's items.
   */
  lemma MergeStep(a: Attrs, d: Dict, k: string, v: Value)
    requires HasFields(a) && k !in d
    ensures FieldNamed(k).Some? ==> Merge(a, d[k := v]) == Merge(a, d)[FieldNamed(k).value := Coerce(FieldNamed(k).value, v)]
    ensures FieldNamed(k).None? ==> Merge(a, d[k := v]) == Merge(a, d)
  {
    var before := Merge(a, d);
    var after := Merge(a, d[k := v]);
    match FieldNamed(k)
    case Some(g) =>
      var expected := before[g := Coerce(g, v)];
      forall f ensures after[f] == expected[f] {
        MergeStepAt(a, d, k, v, f);
        if Name(f) == k {
          NameInjective(f, g);
        }
      }
      MapEqual(after, expected);
    case None =>
      forall f ensures after[f] == before[f] {
        MergeStepAt(a, d, k, v, f);
        UnnamedKey(k, f);
      }
      MapEqual(after, before);
  }

  /** One field of a merge with one more key. */
  lemma MergeStepAt(a: Attrs, d: Dict, k: string, v: Value, f: Field)
    requires HasFields(a) && k !in d
    ensures Merge(a, d[k := v])[f] == if Name(f) == k then Coerce(f, v) else Merge(a, d)[f]
  {
  }

  /** One more key of `d` taken into the merge, as `_update_from_dict` does each iteration. */
  lemma MergeStepWithout(a: Attrs, d: Dict, pending: set<string>, key: string)
    requires HasFields(a) && key in d && key in pending
    ensures var before := Merge(a, Without(d, pending));
      var after := Merge(a, Without(d, pending - {key}));
      && (FieldNamed(key).Some? ==> after == before[FieldNamed(key).value := Coerce(FieldNamed(key).value, d[key])])
      && (FieldNamed(key).None? ==> after == before)
  {
    assert Without(d, pending - {key}) == Without(d, pending)[key := d[key]];
    MergeStep(a, Without(d, pending), key, d[key]);
  }

  /** Merging none of `d` changes nothing; merging all of it is merging `d`. */
  lemma MergeWithoutEnds(a: Attrs, d: Dict)
    requires HasFields(a)
    ensures Merge(a, Without(d, d.Keys)) == a
    ensures Merge(a, Without(d, {})) == Merge(a, d)
  {
    assert Without(d, d.Keys) == map[];
    assert Without(d, {}) == d;
  }

  /** The configuration files on disk: parsed YAML contents by path. */
  type Files = map<string, Dict>

  /** The file at the configured path, if `config_file` is a path and the file exists. */
  function StoredAt(a: Attrs, files: Files): Option<Dict>
    requires HasFields(a)
  {
    if a[ConfigFile].PyPath? && a[ConfigFile].path in files then Some(files[a[ConfigFile].path]) else None
  }

  /**
   * `load_configuration`: an existing file's data is merged in unless it is
   * empty (`if config_data`); without a file nothing changes. A `config_file`
   * that is not a path makes the existence test raise before anything
   * changes, which `GitGlowConfig.LoadConfiguration` reports.
   */
  function Load(a: Attrs, files: Files): (r: Attrs)
    requires HasFields(a)
    ensures HasFields(r)
  {
    match StoredAt(a, files)
    case None => a
    case Some(d) => if d == map[] then a else Merge(a, d)
  }

  /**
   * What loading does to each field: with a file at `config_file`, each
   * field the file names takes the file's value (a string `config_file`
   * becoming a path) and every other field keeps its own; without a file
   * nothing changes.
   */
  lemma LoadFields(a: Attrs, files: Files)
    requires HasFields(a)
    ensures var p := a[ConfigFile];
      !(p.PyPath? && p.path in files) ==> Load(a, files) == a
    ensures var p := a[ConfigFile];
      forall f :: Load(a, files)[f] ==
        if p.PyPath? && p.path in files && Name(f) in files[p.path] then Coerce(f, files[p.path][Name(f)]) else a[f]
  {
  }

  /**
   * A new `GitGlowConfig(token, config_file=configFile)`: the dataclass
   * defaults, `__post_init__`, then the file at `config_file`.
   */
  function Initial(token: Value, configFile: Value, home: string, files: Files): (a: Attrs)
    ensures HasFields(a)
  {
    Load(PostInit(DataclassDefaults(token, configFile), home), files)
  }

  /** `is_configured`: token, username, SSID and repository list all truthy. */
  predicate IsConfigured(a: Attrs)
    requires HasFields(a)
  {
    && Truthy(a[GithubToken])
    && Truthy(a[GithubUsername])
    && Truthy(a[WifiSsid])
    && Truthy(a[MonitoredRepositories])
  }

  /** The value `to_dict` gives for a field: `config_file` as a string. */
  function Exported(f: Field, v: Value): Value {
    if f == ConfigFile then PyStr(ToStr(v)) else v
  }

  /** The `to_dict` entries of the first `n` fields in declaration order. */
  function DictUpTo(a: Attrs, n: nat): (d: Dict)
    requires HasFields(a) && n <= FieldCount
    ensures forall f :: Index(f) < n ==> Name(f) in d && d[Name(f)] == Exported(f, a[f])
  {
    if n == 0 then map[]
    else
      var f := FieldAt(n - 1);
      var rest := DictUpTo(a, n - 1);
      var d := rest[Name(f) := Exported(f, a[f])];
      assert forall g :: Index(g) < n ==> Name(g) in d && d[Name(g)] == Exported(g, a[g]) by {
        forall g | Index(g) < n ensures Name(g) in d && d[Name(g)] == Exported(g, a[g]) {
          if Index(g) == n - 1 {
            IndexInjective(g, f);
          } else if Name(g) == Name(f) {
            NameInjective(g, f);
          }
        }
      }
      d
  }

  /**
   * `to_dict`: `asdict(self)` with `config_file` replaced by its string
   * form; one entry per field, under the field's name.
   */
  function ToDict(a: Attrs): Dict
    requires HasFields(a)
  {
    DictUpTo(a, FieldCount)
  }

  /** Every field is exported, under its own name. */
  lemma ToDictExports(a: Attrs)
    requires HasFields(a)
    ensures forall f :: Name(f) in ToDict(a) && ToDict(a)[Name(f)] == Exported(f, a[f])
  {
  }

  /** Every key of the first `n` fields' entries names one of those fields. */
  lemma {:induction false} DictUpToKeys(a: Attrs, n: nat)
    requires HasFields(a) && n <= FieldCount
    ensures forall k <- DictUpTo(a, n) :: FieldNamedUpTo(k, n).Some?
  {
    if n > 0 {
      DictUpToKeys(a, n - 1);
      var f := FieldAt(n - 1);
      var rest := DictUpTo(a, n - 1);
      assert DictUpTo(a, n) == rest[Name(f) := Exported(f, a[f])];
      forall k <- DictUpTo(a, n) ensures FieldNamedUpTo(k, n).Some? {
        if Name(f) != k {
          assert k in rest;
        }
      }
    }
  }

  /** `to_dict` has no key but the field names. */
  lemma ToDictKeys(a: Attrs)
    requires HasFields(a)
    ensures forall k <- ToDict(a) :: FieldNamed(k).Some?
  {
    DictUpToKeys(a, FieldCount);
  }

  /** A Python list of strings. */
  function StrList(items: seq<string>): (v: Value)
    ensures v.PyList? && |v.items| == |items|
    ensures forall i :: 0 <= i < |items| ==> v.items[i] == PyStr(items[i])
  {
    PyList(StrValues(items))
  }

  function StrValues(items: seq<string>): (vs: seq<Value>)
    ensures |vs| == |items|
    ensures forall i :: 0 <= i < |items| ==> vs[i] == PyStr(items[i])
  {
    if items == [] then [] else [PyStr(items[0])] + StrValues(items[1..])
  }

  /** `update_github_settings(token, username, repositories)`. */
  function GithubSettingsApplied(a: Attrs, token: string, username: string, repositories: seq<string>): (r: Attrs)
    requires HasFields(a)
    ensures HasFields(r)
    ensures forall f :: f !in {GithubToken, GithubUsername, MonitoredRepositories} ==> r[f] == a[f]
  {
    a[GithubToken := PyStr(token)][GithubUsername := PyStr(username)][MonitoredRepositories := StrList(repositories)]
  }

  /** `update_wifi_settings(ssid, password)`. */
  function WifiSettingsApplied(a: Attrs, ssid: string, password: string): (r: Attrs)
    requires HasFields(a)
    ensures HasFields(r)
    ensures forall f :: f !in {WifiSsid, WifiPassword} ==> r[f] == a[f]
  {
    a[WifiSsid := PyStr(ssid)][WifiPassword := PyStr(password)]
  }

  function Min(x: int, y: int): int { if x <= y then x else y }
  function Max(x: int, y: int): int { if x >= y then x else y }

  /** `max(0, min(255, brightness))`: the brightness clamped to one byte. */
  function ClampBrightness(brightness: int): (r: int)
    ensures 0 <= r <= 255
    ensures 0 <= brightness <= 255 ==> r == brightness
    ensures brightness < 0 ==> r == 0
    ensures brightness > 255 ==> r == 255
  {
    Max(0, Min(255, brightness))
  }

  /** `update_led_settings(brightness, pin)`; an absent argument leaves its field alone. */
  function LedSettingsApplied(a: Attrs, brightness: Option<int>, pin: Option<int>): (r: Attrs)
    requires HasFields(a)
    ensures HasFields(r)
    ensures r[LedBrightness] == if brightness.Some? then PyInt(ClampBrightness(brightness.value)) else a[LedBrightness]
    ensures r[LedPin] == if pin.Some? then PyInt(pin.value) else a[LedPin]
    ensures forall f :: f !in {LedBrightness, LedPin} ==> r[f] == a[f]
  {
    var b := if brightness.Some? then a[LedBrightness := PyInt(ClampBrightness(brightness.value))] else a;
    if pin.Some? then b[LedPin := PyInt(pin.value)] else b
  }

  /** `clear_configuration`: credentials and repositories dropped. */
  function Cleared(a: Attrs): (r: Attrs)
    requires HasFields(a)
    ensures HasFields(r)
    ensures !IsConfigured(r)
    ensures forall f :: f !in {GithubToken, GithubUsername, MonitoredRepositories, WifiSsid, WifiPassword} ==> r[f] == a[f]
  {
    a[GithubToken := PyNone][GithubUsername := PyNone][MonitoredRepositories := PyList([])]
     [WifiSsid := PyNone][WifiPassword := PyNone]
  }

  /**
   * `save_configuration`: the file at `config_file` is overwritten with
   * `to_dict()`. Opening anything but a path raises, modelled as `None`.
   */
  function Saved(a: Attrs, files: Files): (r: Option<Files>)
    requires HasFields(a)
    ensures r.Some? <==> a[ConfigFile].PyPath?
    ensures r.Some? ==> r.value.Keys == files.Keys + {a[ConfigFile].path}
    ensures r.Some? ==> r.value[a[ConfigFile].path] == ToDict(a)
    ensures r.Some? ==> forall q <- files | q != a[ConfigFile].path :: r.value[q] == files[q]
  {
    if a[ConfigFile].PyPath? then Some(files[a[ConfigFile].path := ToDict(a)]) else None
  }

  /** `_update_from_dict(to_dict())` changes nothing while `config_file` is a path. */
  lemma MergeToDict(a: Attrs)
    requires HasFields(a) && a[ConfigFile].PyPath?
    ensures Merge(a, ToDict(a)) == a
  {
    var d := ToDict(a);
    var r := Merge(a, d);
    ToDictExports(a);
    forall f ensures r[f] == a[f] {
      MergeExportedAt(a, d, f);
    }
    MapEqual(r, a);
  }

  lemma MapEqual(r: Attrs, a: Attrs)
    requires HasFields(a) && HasFields(r)
    requires forall f :: r[f] == a[f]
    ensures r == a
  {
  }

  /** A field's exported value, merged back, is the field's value. */
  lemma MergeExportedAt(a: Attrs, d: Dict, f: Field)
    requires HasFields(a) && a[ConfigFile].PyPath?
    requires Name(f) in d && d[Name(f)] == Exported(f, a[f])
    ensures Merge(a, d)[f] == a[f]
  {
    if f == ConfigFile {
      assert Exported(f, a[f]) == PyStr(a[f].path);
    }
  }

  /** Loading the file that `save_configuration` just wrote restores every field. */
  lemma SaveThenLoad(a: Attrs, files: Files)
    requires HasFields(a) && a[ConfigFile].PyPath?
    ensures Load(a, Saved(a, files).value) == a
  {
    var written := Saved(a, files).value;
    assert StoredAt(a, written) == Some(ToDict(a));
    MergeToDict(a);
  }

  /** The part of `is_configured` about strings and lists: all four non-empty. */
  lemma ConfiguredWithStrings(a: Attrs)
    requires HasFields(a)
    requires a[GithubToken].PyStr? && a[GithubUsername].PyStr? && a[WifiSsid].PyStr?
    requires a[MonitoredRepositories].PyList?
    ensures IsConfigured(a) <==>
      a[GithubToken].s != "" && a[GithubUsername].s != "" && a[WifiSsid].s != ""
      && a[MonitoredRepositories].items != []
  {
  }

  /** The WiFi password plays no part in `is_configured`. */
  lemma PasswordNotRequired(a: Attrs, v: Value)
    requires HasFields(a)
    ensures IsConfigured(a[WifiPassword := v]) == IsConfigured(a)
  {
  }

  /** Without a configuration file a new configuration has no repositories, so is not configured. */
  lemma FreshConfigUnconfigured(token: Value, configFile: Value, home: string, files: Files)
    requires StoredAt(PostInit(DataclassDefaults(token, configFile), home), files).None?
    ensures Initial(token, configFile, home, files)[MonitoredRepositories] == PyList([])
    ensures !IsConfigured(Initial(token, configFile, home, files))
  {
  }

  /** Both setters with non-empty arguments, in either order, leave the configuration complete. */
  lemma SettersConfigure(a: Attrs, token: string, username: string, repositories: seq<string>, ssid: string, password: string)
    requires HasFields(a)
    requires token != "" && username != "" && repositories != [] && ssid != ""
    ensures IsConfigured(WifiSettingsApplied(GithubSettingsApplied(a, token, username, repositories), ssid, password))
    ensures IsConfigured(GithubSettingsApplied(WifiSettingsApplied(a, ssid, password), token, username, repositories))
  {
  }

  /** The default matrix is `led_count` pixels: 32 columns of 8. */
  lemma DefaultGeometry(token: Value, configFile: Value)
    ensures var a := DataclassDefaults(token, configFile);
      a[MatrixWidth].PyInt? && a[MatrixHeight].PyInt? && a[LedCount].PyInt?
      && a[MatrixWidth].i * a[MatrixHeight].i == a[LedCount].i
      && a[DisplayWidth].i <= a[MatrixWidth].i && a[DisplayHeight].i < a[MatrixHeight].i
  {
  }

  /**
   * `[r.strip() for r in repos.split(',')]`: one entry per comma-separated
   * piece, each without surrounding whitespace.
   */
  function ParseRepositories(repos: string): (r: seq<string>)
    ensures |r| == Count(repos, ',') + 1
    ensures forall i :: 0 <= i < |r| ==> NoOuterSpace(r[i]) && ',' !in r[i]
  {
    StripEach(Split(repos, ','))
  }

  /** Each piece stripped; stripping keeps commas out of comma-free pieces. */
  function StripEach(pieces: seq<string>): (r: seq<string>)
    requires forall p <- pieces :: ',' !in p
    ensures |r| == |pieces|
    ensures forall i :: 0 <= i < |r| ==> r[i] == Strip(pieces[i]) && NoOuterSpace(r[i]) && ',' !in r[i]
  {
    if pieces == [] then []
    else
      StripKeepsAbsent(pieces[0], ',');
      [Strip(pieces[0])] + StripEach(pieces[1..])
  }

  /** A well-formed list written with commas is read back unchanged. */
  lemma ParseJoinedRepositories(names: seq<string>)
    requires names != []
    requires forall i :: 0 <= i < |names| ==> NoOuterSpace(names[i]) && ',' !in names[i]
    ensures ParseRepositories(Join(names, ',')) == names
  {
    SplitJoin(names, ',');
    var r := StripEach(names);
    forall i | 0 <= i < |names| ensures r[i] == names[i] {
      StripKeepsUnpadded(names[i]);
    }
  }

  // The environment variables `from_environment` reads.
  const TokenVar := "GITGLOW_GITHUB_TOKEN"
  const UsernameVar := "GITGLOW_GITHUB_USERNAME"
  const SsidVar := "GITGLOW_WIFI_SSID"
  const PasswordVar := "GITGLOW_WIFI_PASSWORD"
  const PinVar := "GITGLOW_LED_PIN"
  const BrightnessVar := "GITGLOW_LED_BRIGHTNESS"
  const PortVar := "GITGLOW_WEB_PORT"
  const LogLevelVar := "GITGLOW_LOG_LEVEL"
  const RepositoriesVar := "GITGLOW_REPOSITORIES"

  /** The process environment. */
  type Env = map<string, string>

  /** `os.getenv(name)`: the variable's text, or `None` when unset. */
  function Getenv(env: Env, name: string): (v: Value)
    ensures v == PyNone <==> name !in env
  {
    if name in env then PyStr(env[name]) else PyNone
  }

  /** Whether `os.getenv(name)` is truthy: set and not empty. */
  predicate IsSet(env: Env, name: string) {
    name in env && env[name] != ""
  }

  /** The `ValueError` of `int(text)` on the value of a variable. */
  datatype EnvError = InvalidLiteral(name: string, text: string)

  /** `int(os.getenv(name))` when the variable is truthy; `None` when it is not. */
  function EnvInt(env: Env, name: string): (r: Result<Option<int>, EnvError>)
    ensures r.Failure? <==> IsSet(env, name) && ParseInt(env[name]).None?
    ensures r.Failure? ==> r.error == InvalidLiteral(name, env[name])
    ensures r.Success? ==> (r.value.Some? <==> IsSet(env, name))
    ensures r.Success? && r.value.Some? ==> ParseInt(env[name]) == Some(r.value.value)
  {
    if !IsSet(env, name) then Success(None)
    else match ParseInt(env[name])
      case None => Failure(InvalidLiteral(name, env[name]))
      case Some(i) => Success(Some(i))
  }

  /** An integer attribute set when the variable gave a number. */
  function SetInt(a: Attrs, f: Field, n: Option<int>): (r: Attrs)
    requires HasFields(a)
    ensures HasFields(r)
  {
    if n.Some? then a[f := PyInt(n.value)] else a
  }

  /** `config.x = os.getenv(...)` for the four credentials. */
  function CredentialsFromEnv(a: Attrs, env: Env): (r: Attrs)
    requires HasFields(a)
    ensures HasFields(r)
    ensures r[GithubToken] == Getenv(env, TokenVar) && r[GithubUsername] == Getenv(env, UsernameVar)
    ensures r[WifiSsid] == Getenv(env, SsidVar) && r[WifiPassword] == Getenv(env, PasswordVar)
    ensures forall f :: f !in {GithubToken, GithubUsername, WifiSsid, WifiPassword} ==> r[f] == a[f]
  {
    a[GithubToken := Getenv(env, TokenVar)][GithubUsername := Getenv(env, UsernameVar)]
      [WifiSsid := Getenv(env, SsidVar)][WifiPassword := Getenv(env, PasswordVar)]
  }

  /** The pin, brightness and port assignments, given the parsed numbers. */
  function NumbersFromEnv(a: Attrs, pin: Option<int>, brightness: Option<int>, port: Option<int>): (r: Attrs)
    requires HasFields(a)
    ensures HasFields(r)
    ensures r[LedPin] == (if pin.Some? then PyInt(pin.value) else a[LedPin])
    ensures r[LedBrightness] == (if brightness.Some? then PyInt(brightness.value) else a[LedBrightness])
    ensures r[WebPort] == (if port.Some? then PyInt(port.value) else a[WebPort])
    ensures forall f :: f !in {LedPin, LedBrightness, WebPort} ==> r[f] == a[f]
  {
    SetInt(SetInt(SetInt(a, LedPin, pin), LedBrightness, brightness), WebPort, port)
  }

  /** The log level and repository assignments, each when its variable is truthy. */
  function TextFromEnv(a: Attrs, env: Env): (r: Attrs)
    requires HasFields(a)
    ensures HasFields(r)
    ensures r[LogLevel] == (if IsSet(env, LogLevelVar) then PyStr(Upper(env[LogLevelVar])) else a[LogLevel])
    ensures r[MonitoredRepositories] == (if IsSet(env, RepositoriesVar)
      then StrList(ParseRepositories(env[RepositoriesVar])) else a[MonitoredRepositories])
    ensures forall f :: f !in {LogLevel, MonitoredRepositories} ==> r[f] == a[f]
  {
    var logged := if IsSet(env, LogLevelVar) then a[LogLevel := PyStr(Upper(env[LogLevelVar]))] else a;
    if IsSet(env, RepositoriesVar)
    then logged[MonitoredRepositories := StrList(ParseRepositories(env[RepositoriesVar]))]
    else logged
  }

  /**
   * The assignments of `from_environment` after `cls()`: the four
   * credentials are replaced by the variables (`None` when unset); pin,
   * brightness and port are parsed when set, the first bad literal raising;
   * the log level is upper-cased and the repositories parsed when set.
   */
  function EnvironmentApplied(a: Attrs, env: Env): (r: Result<Attrs, EnvError>)
    requires HasFields(a)
    ensures r.Success? ==> HasFields(r.value)
  {
    var pin := EnvInt(env, PinVar);
    var brightness := EnvInt(env, BrightnessVar);
    var port := EnvInt(env, PortVar);
    if pin.Failure? then Failure(pin.error)
    else if brightness.Failure? then Failure(brightness.error)
    else if port.Failure? then Failure(port.error)
    else Success(TextFromEnv(NumbersFromEnv(CredentialsFromEnv(a, env), pin.value, brightness.value, port.value), env))
  }

  /**
   * `from_environment` fails exactly when a set pin, brightness or port
   * variable is not an integer literal, and it reports the first of them.
   */
  lemma EnvironmentFailure(a: Attrs, env: Env)
    requires HasFields(a)
    ensures var r := EnvironmentApplied(a, env);
      var badPin := IsSet(env, PinVar) && ParseInt(env[PinVar]).None?;
      var badBrightness := IsSet(env, BrightnessVar) && ParseInt(env[BrightnessVar]).None?;
      var badPort := IsSet(env, PortVar) && ParseInt(env[PortVar]).None?;
      && (r.Failure? <==> badPin || badBrightness || badPort)
      && (badPin ==> r == Failure(InvalidLiteral(PinVar, env[PinVar])))
      && (!badPin && badBrightness ==> r == Failure(InvalidLiteral(BrightnessVar, env[BrightnessVar])))
      && (!badPin && !badBrightness && badPort ==> r == Failure(InvalidLiteral(PortVar, env[PortVar])))
  {
  }

  /**
   * What a successful `from_environment` assigns: each credential is exactly
   * the variable (`None` when unset, discarding what the file held); each
   * number and the log level only when its variable is non-empty; the
   * repositories are parsed when their variable is non-empty; nothing else
   * changes.
   */
  lemma EnvironmentFields(a: Attrs, env: Env)
    requires HasFields(a) && EnvironmentApplied(a, env).Success?
    ensures var r := EnvironmentApplied(a, env).value;
      && r[GithubToken] == Getenv(env, TokenVar)
      && r[GithubUsername] == Getenv(env, UsernameVar)
      && r[WifiSsid] == Getenv(env, SsidVar)
      && r[WifiPassword] == Getenv(env, PasswordVar)
      && r[LedPin] == (if IsSet(env, PinVar) then PyInt(ParseInt(env[PinVar]).value) else a[LedPin])
      && r[LedBrightness] == (if IsSet(env, BrightnessVar) then PyInt(ParseInt(env[BrightnessVar]).value) else a[LedBrightness])
      && r[WebPort] == (if IsSet(env, PortVar) then PyInt(ParseInt(env[PortVar]).value) else a[WebPort])
      && r[LogLevel] == (if IsSet(env, LogLevelVar) then PyStr(Upper(env[LogLevelVar])) else a[LogLevel])
      && r[MonitoredRepositories] == (if IsSet(env, RepositoriesVar)
           then StrList(ParseRepositories(env[RepositoriesVar])) else a[MonitoredRepositories])
      && forall f :: f !in EnvironmentFieldSet ==> r[f] == a[f]
  {
    var pin := EnvInt(env, PinVar);
    var brightness := EnvInt(env, BrightnessVar);
    var port := EnvInt(env, PortVar);
    var c := CredentialsFromEnv(a, env);
    var n := NumbersFromEnv(c, pin.value, brightness.value, port.value);
    assert EnvironmentApplied(a, env).value == TextFromEnv(n, env);
  }

  /** The fields `from_environment` may assign. */
  const EnvironmentFieldSet: set<Field> := {
    GithubToken, GithubUsername, WifiSsid, WifiPassword, LedPin, LedBrightness, WebPort,
    LogLevel, MonitoredRepositories}

  /**
   * The brightness from the environment is stored as given, not clamped:
   * the variable holding `str(n)` gives `led_brightness == n` for every `n`.
   */
  lemma EnvironmentBrightnessUnclamped(a: Attrs, env: Env, n: int)
    requires HasFields(a) && BrightnessVar in env && env[BrightnessVar] == DecimalString(n)
    ensures EnvironmentApplied(a, env).Failure? || EnvironmentApplied(a, env).value[LedBrightness] == PyInt(n)
  {
    DecimalStringRoundTrip(n);
    assert DecimalString(n) != "" by {
      DecimalStringUnpadded(n);
    }
    if EnvironmentApplied(a, env).Success? {
      EnvironmentFields(a, env);
    }
  }

  /** The constructor's argument `configPath` as a Python value: a path or `None`. */
  function PathArg(configPath: Option<string>): (v: Value)
    ensures v == PyNone <==> configPath.None?
    ensures configPath.Some? ==> v == PyPath(configPath.value)
  {
    if configPath.Some? then PyPath(configPath.value) else PyNone
  }

  /**
   * `GitGlowConfig(config_path)` as `GitGlowApp.__init__` writes it: the
   * path is the first positional argument, so it becomes `github_token`.
   */
  function AppConfigAsWritten(configPath: Option<string>, home: string, files: Files): (a: Attrs)
    ensures HasFields(a)
  {
    Initial(PathArg(configPath), PyNone, home, files)
  }

  /** `GitGlowConfig(config_file=config_path)`, the evidently intended call. */
  function AppConfig(configPath: Option<string>, home: string, files: Files): (a: Attrs)
    ensures HasFields(a)
  {
    Initial(PyNone, PathArg(configPath), home, files)
  }

  /**
   * As written, `--config p` with nothing at the default location gives a
   * configuration whose token is the path `p` (truthy) and whose file is
   * still the default one: the file at `p` is never read.
   */
  lemma ConfigPathBecomesToken(p: string, home: string, files: Files)
    requires DefaultConfigFile(home) !in files
    ensures var a := AppConfigAsWritten(Some(p), home, files);
      && a[GithubToken] == PyPath(p) && Truthy(a[GithubToken])
      && a[ConfigFile] == PyPath(DefaultConfigFile(home))
      && (p !in files ==> a[GithubToken] != AppConfig(Some(p), home, files)[GithubToken])
  {
  }

  /**
   * With the corrected call the token starts as `None` and the file read is
   * the one at `p`: every field it names takes the file's value.
   */
  lemma AppConfigReadsGivenPath(p: string, home: string, files: Files)
    ensures var a := AppConfig(Some(p), home, files);
      && (p !in files ==> a[ConfigFile] == PyPath(p) && a[GithubToken] == PyNone)
      && (p in files ==> forall f :: Name(f) in files[p] ==> a[f] == Coerce(f, files[p][Name(f)]))
  {
    var q := PostInit(DataclassDefaults(PyNone, PyPath(p)), home);
    assert q[ConfigFile] == PyPath(p) && q[GithubToken] == PyNone;
    assert StoredAt(q, files) == if p in files then Some(files[p]) else None;
  }

  /** Without `--config` both calls build the same configuration. */
  lemma AppConfigWithoutPath(home: string, files: Files)
    ensures AppConfigAsWritten(None, home, files) == AppConfig(None, home, files)
  {
  }
}
