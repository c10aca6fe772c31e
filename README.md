# GitGlow core in Dafny

GitGlow drives an LED matrix that shows a user's GitHub contribution graph and flashes notifications for pull request events. This project models three parts of it and proves properties about each:

- The LED interface's value types (`src/interfaces/IMatrixWriter.h`):
  - the RGB `Color` and its packing into a 32-bit word;
  - `MatrixDimensions`;
  - the `GitHubColors` table.
- The configuration object `GitGlowConfig` (`src/gitglow/config/settings.py`):
  - its dataclass fields and defaults;
  - `__post_init__` and loading;
  - the `is_configured` check;
  - the setters, the brightness clamp and `clear_configuration`;
  - `_update_from_dict` and `to_dict`;
  - `from_environment` (the environment variables, integer parsing and the comma-separated repository list).
- The application object `GitGlowApp` (`src/gitglow/main.py`):
  - construction and `initialize`;
  - the choice between setup mode and normal mode in `run`;
  - `shutdown`;
  - the two polling loops, with their fixed delays;
  - the `--setup` branch of `main`.

Modules, one per file:

- `Wrappers` (wrappers.dfy): `Option` and `Result`.
- `PyText` (pytext.dfy): the Python string builtins that the configuration code calls, as functions on `seq<char>`: `str.isspace`, `str.strip`, `str.split`, `str.upper`, `str(int)` and `int(str)`. `Join` (`sep.join`) is not called by the configuration code; it serves only to state the round trips of `Split`.
- `MatrixWriter` (matrix_writer.dfy), which covers `IMatrixWriter.h`:
  - colours are triples of `bv8`;
  - the packed word is a `bv32`;
  - the dimensions are 32-bit `int`s.

  No C++ function maps a contribution count to a colour. `ContributionLevel` and `LevelColor` are derived from the comments of the colour table (`IMatrixWriter.h:110-114`): 0, 1-3, 4-6, 7-9 and 10 or more.
- `ConfigAttrs` (config_attrs.dfy): the configuration as a map from each of the 25 dataclass fields to the Python `Value` it holds.
  - Python's annotations are not binding, so any field may hold `None`, a bool, an int, a string, a list or a path.
  - Each operation on the configuration is a function from the old attribute map to the new one, and its properties are proved as lemmas.
  - The configuration files are `Files`, a map from a path to the parsed contents of the file at that path.
- `Settings` (settings.dfy): the class `GitGlowConfig`.
  - Its methods assign the attribute map in place.
  - Each method is proved to produce the `ConfigAttrs` function of the old attributes.
  - `_update_from_dict` is a loop over the dictionary's keys, taken in an arbitrary order.
  - The class `Disk` holds the files that loading reads and that saving and clearing change.
- `App` (app.dfy): the class `GitGlowApp`.
  - The collaborators are the GitHub client, the matrix controller, the WiFi manager, the web applications and the servers. Their presence is recorded as fields, and every request made of them is appended to `effects`.
  - A background loop runs over a finite schedule of rounds. Each round records what the collaborators did: fetched or raised, displayed or raised, and whether a shutdown ran during the round.
  - The loop's requests are proved to equal a function of that schedule.

## Model

| member | source | states |
|---|---|---|
| MatrixWriter.DefaultColor | src/interfaces/IMatrixWriter.h:22 | `Color()` has all three channels 0 |
| MatrixWriter.To32Bit | src/interfaces/IMatrixWriter.h:26-28 | the packed word is below 2^24, with red in bits 16-23, green in bits 8-15 and blue in bits 0-7 |
| MatrixWriter.From32Bit | src/interfaces/IMatrixWriter.h:31-33 | packing the unpacked colour gives back the low 24 bits of the word |
| MatrixWriter.DefaultColorPacksToZero | src/interfaces/IMatrixWriter.h:22-28 | `Color().to32bit() == 0` |
| MatrixWriter.ColorRoundTrip | src/interfaces/IMatrixWriter.h:26-33 | `from32bit(c.to32bit()) == c` for every colour |
| MatrixWriter.To32BitInjective | src/interfaces/IMatrixWriter.h:26-28 | two colours pack to the same word exactly when they are equal |
| MatrixWriter.From32BitIgnoresTopByte | src/interfaces/IMatrixWriter.h:31-33 | `from32bit(x) == from32bit(x & 0xFFFFFF)` |
| MatrixWriter.PackUnpacked | src/interfaces/IMatrixWriter.h:26-33 | `from32bit(x).to32bit() == x & 0xFFFFFF` |
| MatrixWriter.Dimensions | src/interfaces/IMatrixWriter.h:39-45 | width and height are stored as given, and `totalPixels` is their product; callers keep the product within `int`, since signed overflow is undefined |
| MatrixWriter.NoContribIsBackground | src/interfaces/IMatrixWriter.h:109-110 | `NO_CONTRIB` is the background colour |
| MatrixWriter.PalettesDistinct | src/interfaces/IMatrixWriter.h:109-120 | the five contribution colours are pairwise distinct; so are the four notification colours |
| MatrixWriter.ContributionLevel | src/interfaces/IMatrixWriter.h:110-114 | level 0 iff the count is 0, level 1 iff 1-3, level 2 iff 4-6, level 3 iff 7-9, level 4 iff 10 or more |
| MatrixWriter.LevelColor | src/interfaces/IMatrixWriter.h:109-114 | the colour of a day's count: the contribution colour of its level (stated by LevelColorFaithful and NoContributionsIsBackground) |
| MatrixWriter.LevelMonotonic | src/interfaces/IMatrixWriter.h:110-114 | a larger count never gets a lower level |
| MatrixWriter.LevelColorFaithful | src/interfaces/IMatrixWriter.h:110-114 | two counts get the same colour exactly when they get the same level |
| MatrixWriter.NoContributionsIsBackground | src/interfaces/IMatrixWriter.h:109-110 | a day without contributions is drawn in the background colour |
| PyText.Strip | src/gitglow/config/settings.py:185 | the result is the infix of the input left when the whitespace on both sides is cut; it has no leading or trailing whitespace |
| PyText.StripKeepsUnpadded | src/gitglow/config/settings.py:185 | text with no whitespace at either end is left unchanged |
| PyText.StripKeepsAbsent | src/gitglow/config/settings.py:185 | stripping never introduces a character |
| PyText.StripIdempotent | src/gitglow/config/settings.py:185 | stripping twice is the same as stripping once |
| PyText.Split | src/gitglow/config/settings.py:185 | `s.split(sep)` has one more piece than `s` has separators, and no piece contains one |
| PyText.JoinSplit | src/gitglow/config/settings.py:185 | `sep.join(s.split(sep)) == s` |
| PyText.SplitJoin | src/gitglow/config/settings.py:185 | splitting the join of separator-free pieces gives the pieces back |
| PyText.Upper | src/gitglow/config/settings.py:181 | the length is kept; each lower-case ASCII letter becomes its capital (code point minus 32) and every other character is unchanged |
| PyText.UpperIdempotent | src/gitglow/config/settings.py:181 | upper-casing twice is the same as upper-casing once |
| PyText.ParseInt | src/gitglow/config/settings.py:171-177 | a number is read only from text that is a literal padded by whitespace `int()` skips, and it is the value of that literal |
| PyText.ParseIntPadded | src/gitglow/config/settings.py:171-177 | conversely, any literal padded on either side by whitespace `int()` skips reads as the literal |
| PyText.ParseIntRejectsSeparator | src/gitglow/config/settings.py:171-177 | a literal preceded by one of U+001C to U+001F, which `str.strip` would cut, is rejected |
| PyText.StripPadded | src/gitglow/config/settings.py:185 | stripping whitespace-padded text with no outer whitespace gives that text |
| PyText.ParseSigned | src/gitglow/config/settings.py:171-177 | `int()` accepts exactly an optional sign followed by a digit group; a negative result needs a leading `-` |
| PyText.ParseSignPrefix | src/gitglow/config/settings.py:171-177 | a leading `+` does not change what `int()` reads, and a leading `-` negates it |
| PyText.ParseLeadingZero | src/gitglow/config/settings.py:171-177 | a leading zero in front of a digit group does not change the number |
| PyText.ParseUnderscore | src/gitglow/config/settings.py:171-177 | a single underscore between two digit groups is accepted and does not change the number |
| PyText.DecimalStringRoundTrip | src/gitglow/config/settings.py:171-177 | `int(str(i)) == i` for every integer |
| ConfigAttrs.NameInjective | src/gitglow/config/settings.py:20-59 | different fields have different attribute names |
| ConfigAttrs.FieldNamed | src/gitglow/config/settings.py:117 | a key that `hasattr` accepts is the name of the field it finds |
| ConfigAttrs.NameRecognised | src/gitglow/config/settings.py:117 | every field name is recognised as that field |
| ConfigAttrs.UnnamedKey | src/gitglow/config/settings.py:117 | a key that `hasattr` rejects is the name of no field |
| ConfigAttrs.DataclassDefaults | src/gitglow/config/settings.py:16-59 | every field holds its declared default; `github_token` takes the first positional argument and `config_file` the value passed for it |
| ConfigAttrs.DefaultGeometry | src/gitglow/config/settings.py:30-36 | by default `matrix_width * matrix_height == led_count`, and the visible area fits in the matrix with the top row covered |
| ConfigAttrs.IsConfigured | src/gitglow/config/settings.py:75-82 | `is_configured`: token, username, SSID and repositories are all truthy (a predicate; its properties are ConfiguredWithStrings, PasswordNotRequired, FreshConfigUnconfigured, SettersConfigure and Cleared) |
| ConfigAttrs.PostInit | src/gitglow/config/settings.py:61-67 | `None` repositories become `[]` and a `None` file becomes `~/.config/gitglow/config.yaml`; every other field is unchanged |
| ConfigAttrs.Merge | src/gitglow/config/settings.py:114-121 | each field whose name is a key takes that key's value, a string `config_file` becoming a path; every other field keeps its value; no field is added |
| ConfigAttrs.MergeStep | src/gitglow/config/settings.py:114-121 | one more key sets only the field it names, or nothing; so the order of the dictionary's items does not matter |
| ConfigAttrs.Load | src/gitglow/config/settings.py:84-97 | `load_configuration`: merge a non-empty file at `config_file`, otherwise nothing (no contract of its own; stated by LoadFields and SaveThenLoad; the raise for a `config_file` that is not a path is reported by Settings.GitGlowConfig.LoadConfiguration) |
| ConfigAttrs.Initial | src/gitglow/config/settings.py:16-73 | a new configuration: the defaults, then `__post_init__`, then the load (no contract beyond all fields present; stated by FreshConfigUnconfigured and AppConfigReadsGivenPath) |
| ConfigAttrs.LoadFields | src/gitglow/config/settings.py:84-97 | with a file at `config_file`, each field the file names takes its value (coerced) and the others keep theirs; without one nothing changes |
| ConfigAttrs.ToDict | src/gitglow/config/settings.py:189-193 | `to_dict`: the fields by name, `config_file` as a string (no contract of its own; stated by ToDictExports, ToDictKeys and MergeToDict) |
| ConfigAttrs.ToDictExports | src/gitglow/config/settings.py:189-193 | `to_dict()` has every field under its own name, with `config_file` as `str(config_file)` |
| ConfigAttrs.ToDictKeys | src/gitglow/config/settings.py:189-193 | `to_dict()` has no key other than the field names |
| ConfigAttrs.MergeToDict | src/gitglow/config/settings.py:114-121 | `_update_from_dict(to_dict())` leaves every field unchanged while `config_file` is a path |
| ConfigAttrs.Saved | src/gitglow/config/settings.py:99-112 | saving succeeds exactly when `config_file` is a path; the file there then holds `to_dict()`, every other file keeps its contents, and no other path is added |
| ConfigAttrs.SaveThenLoad | src/gitglow/config/settings.py:84-112 | loading the file that saving just wrote restores every field |
| ConfigAttrs.ConfiguredWithStrings | src/gitglow/config/settings.py:75-82 | for string credentials and a list of repositories, configured iff token, username and SSID are non-empty and the list is non-empty |
| ConfigAttrs.PasswordNotRequired | src/gitglow/config/settings.py:75-82 | the WiFi password has no effect on `is_configured` |
| ConfigAttrs.FreshConfigUnconfigured | src/gitglow/config/settings.py:21-26 | without a stored file a new configuration has an empty repository list and is not configured |
| ConfigAttrs.GithubSettingsApplied | src/gitglow/config/settings.py:123-128 | only token, username and repositories change |
| ConfigAttrs.WifiSettingsApplied | src/gitglow/config/settings.py:131-134 | only SSID and password change |
| ConfigAttrs.SettersConfigure | src/gitglow/config/settings.py:123-135 | both setters with non-empty token, username, repositories and SSID, in either order, leave the configuration complete |
| ConfigAttrs.ClampBrightness | src/gitglow/config/settings.py:141 | the result is in 0..255: a value in range is kept, a negative one becomes 0 and a larger one 255 |
| ConfigAttrs.LedSettingsApplied | src/gitglow/config/settings.py:137-143 | a given brightness is stored clamped and a given pin as is; an absent argument leaves its field alone; no other field changes |
| ConfigAttrs.Cleared | src/gitglow/config/settings.py:146-152 | afterwards the configuration is not configured, and only the credentials and repositories have changed |
| ConfigAttrs.ParseRepositories | src/gitglow/config/settings.py:184-185 | one entry per comma plus one, none with surrounding whitespace or a comma |
| ConfigAttrs.StripEach | src/gitglow/config/settings.py:185 | each piece is stripped, and the number of pieces is kept |
| ConfigAttrs.ParseJoinedRepositories | src/gitglow/config/settings.py:185 | a comma-separated list of unpadded, comma-free names parses back to those names |
| ConfigAttrs.Getenv | src/gitglow/config/settings.py:164-167 | `None` exactly when the variable is unset |
| ConfigAttrs.EnvInt | src/gitglow/config/settings.py:170-177 | fails exactly when the variable is non-empty and not an integer literal, naming the variable; otherwise it gives the number exactly when the variable is non-empty |
| ConfigAttrs.CredentialsFromEnv | src/gitglow/config/settings.py:164-167 | the four credentials are the variables, and nothing else changes |
| ConfigAttrs.NumbersFromEnv | src/gitglow/config/settings.py:170-177 | pin, brightness and port are set when a number was read, and nothing else changes |
| ConfigAttrs.TextFromEnv | src/gitglow/config/settings.py:180-185 | the log level is upper-cased and the repositories parsed, each when its variable is non-empty, and nothing else changes |
| ConfigAttrs.EnvironmentApplied | src/gitglow/config/settings.py:161-187 | the assignments of `from_environment` after `cls()`, or the first bad integer literal (its contract is stated by EnvironmentFailure and EnvironmentFields) |
| ConfigAttrs.EnvironmentFailure | src/gitglow/config/settings.py:170-177 | `from_environment` raises exactly when a non-empty pin, brightness or port is not an integer literal, and reports the first such variable |
| ConfigAttrs.EnvironmentFields | src/gitglow/config/settings.py:161-187 | every field `from_environment` sets, as a function of the variables; the rest are unchanged |
| ConfigAttrs.EnvironmentBrightnessUnclamped | src/gitglow/config/settings.py:172-173 | a brightness from the environment is stored as the number given, without the clamp |
| ConfigAttrs.PathArg | src/gitglow/main.py:27 | `None` exactly when no path is given |
| ConfigAttrs.AppConfigAsWritten | src/gitglow/main.py:33 | `GitGlowConfig(config_path)` as written: the path is the first positional argument, `github_token` (stated by ConfigPathBecomesToken) |
| ConfigAttrs.AppConfig | src/gitglow/main.py:33 | `GitGlowConfig(config_file=config_path)`, the evidently intended call (stated by AppConfigReadsGivenPath and AppConfigWithoutPath) |
| ConfigAttrs.ConfigPathBecomesToken | src/gitglow/main.py:33 | as written, `--config p` gives `github_token == p`, which is truthy, and `config_file` stays the default |
| ConfigAttrs.AppConfigReadsGivenPath | src/gitglow/main.py:33 | with `config_file=p` the token starts as `None` and the file read is the one at `p` |
| ConfigAttrs.AppConfigWithoutPath | src/gitglow/main.py:33 | without `--config` the written call and the intended call build the same configuration |
| Settings.GitGlowConfig.constructor | src/gitglow/config/settings.py:16-73 | the attributes are the defaults, after `__post_init__`, with the file at `config_file` loaded |
| Settings.GitGlowConfig.IsConfigured | src/gitglow/config/settings.py:75-82 | `is_configured()` of the object: `ConfigAttrs.IsConfigured` of its attributes |
| Settings.GitGlowConfig.SetAttr | src/gitglow/config/settings.py:121 | the one attribute changes and no other |
| Settings.GitGlowConfig.LoadConfiguration | src/gitglow/config/settings.py:84-97 | the new attributes are `Load` of the old ones and the files; the existence check raises exactly when `config_file` is not a path, and then nothing changes |
| Settings.GitGlowConfig.UpdateFromDict | src/gitglow/config/settings.py:114-121 | the loop over the keys, in any order, produces `Merge` of the old attributes and the dictionary |
| Settings.GitGlowConfig.SaveConfiguration | src/gitglow/config/settings.py:99-112 | it succeeds exactly when `config_file` is a path, and then writes `to_dict()` there; otherwise the disk does not change |
| Settings.GitGlowConfig.UpdateGithubSettings | src/gitglow/config/settings.py:123-129 | the attributes become `GithubSettingsApplied` of the old ones, and then the configuration is saved |
| Settings.GitGlowConfig.UpdateWifiSettings | src/gitglow/config/settings.py:131-135 | the attributes become `WifiSettingsApplied` of the old ones, and then the configuration is saved |
| Settings.GitGlowConfig.UpdateLedSettings | src/gitglow/config/settings.py:137-144 | the attributes become `LedSettingsApplied` of the old ones, and then the configuration is saved |
| Settings.GitGlowConfig.ClearConfiguration | src/gitglow/config/settings.py:146-156 | the attributes become `Cleared` of the old ones, and the file at `config_file` is removed; the existence check raises for a `config_file` that is not a path |
| Settings.GitGlowConfig.ApplyEnvironment | src/gitglow/config/settings.py:163-185 | it fails exactly when `EnvironmentApplied` does, with the same error; otherwise the attributes are its result |
| Settings.GitGlowConfig.FromEnvironment | src/gitglow/config/settings.py:158-187 | a fresh default configuration with the environment applied, or the first bad integer literal |
| App.ContributionPass | src/gitglow/main.py:151-159 | the body of the contribution loop's `try`: its requests and whether it raised (stated by ContributionPassOutcome) |
| App.ContributionPassOutcome | src/gitglow/main.py:151-159 | a pass succeeds iff a client fetched the data and a controller displayed it; the fetch of 32 weeks comes first; the data fetched is what is displayed |
| App.ContributionRoundDelay | src/gitglow/main.py:150-166 | each round ends in exactly one sleep: 900 s after success, 60 s after an exception |
| App.Shown | src/gitglow/main.py:178-179 | `n` notifications, the i-th one for event i |
| App.NotificationsShown | src/gitglow/main.py:178-179 | the `for event in pr_events` loop: its requests and whether a call raised (stated by NotificationsInOrder) |
| App.NotificationsInOrder | src/gitglow/main.py:178-179 | every event is shown, in order, unless a call raises, in which case the events up to and including the failing one are shown; without a controller nothing is shown |
| App.PullRequestPass | src/gitglow/main.py:171-179 | the body of the pull request loop's `try`: its requests and whether it raised (stated by PullRequestPassOutcome) |
| App.PullRequestPassOutcome | src/gitglow/main.py:171-179 | the fetch of the configured repositories comes first, followed by exactly the notifications of the events fetched; the pass succeeds iff all of them do |
| App.PullRequestRoundDelay | src/gitglow/main.py:170-186 | each round ends in exactly one sleep: 120 s after success, 60 s after an exception |
| App.ShutdownEffects | src/gitglow/main.py:209-213 | the display is cleared iff there is a controller, and WiFi is cleaned up iff there is a manager |
| App.StillRunningIff | src/gitglow/main.py:150 | `running` holds after some rounds iff it held at the start and no shutdown ran in any of them |
| App.RunLoopEnds | src/gitglow/main.py:170 | once a shutdown has run, the loop makes no further requests |
| App.RunLoopRuns | src/gitglow/main.py:150-166 | without a shutdown, the rounds run one after another and their requests are concatenated |
| App.LoopStopsAfterShutdown | src/gitglow/main.py:206 | a loop that starts stopped makes no requests, and a loop's requests end with the first round in which a shutdown ran |
| App.NotRunningRunsNothing | src/gitglow/main.py:150 | a loop that starts with `running` false makes no requests |
| App.GitGlowApp.constructor | src/gitglow/main.py:27-39 | the configuration is built with `config_file` set to the path (the corrected call, see Findings); no client, controller, WiFi manager or web app exists yet, and the app is not running |
| App.GitGlowApp.Initialize | src/gitglow/main.py:53-91 | the WiFi manager always exists; unconfigured, the hotspot starts, the captive portal is set and neither client nor controller is created; configured, the client gets the token and strategy, and the controller and main web app are created |
| App.GitGlowApp.Run | src/gitglow/main.py:93-133 | setup mode iff not configured, normal mode otherwise; `running` is set and the WiFi manager exists in both; the captive portal is served on 0.0.0.0:80, or the main app on `web_port` with a client holding the configured token and rate-limit strategy |
| App.GitGlowApp.Shutdown | src/gitglow/main.py:203-215 | `running` is false, the display is cleared and WiFi cleaned up if present, and everything else is unchanged |
| App.GitGlowApp.RunContributionRound | src/gitglow/main.py:150-166 | one iteration makes exactly the round's requests, followed by a shutdown's if one ran |
| App.GitGlowApp.UpdateContributionGraph | src/gitglow/main.py:148-166 | the loop's requests are `ContributionLoop` of the schedule; it ends still running iff no shutdown ran; components are unchanged |
| App.GitGlowApp.RunPullRequestRound | src/gitglow/main.py:170-186 | one iteration makes exactly the round's requests, followed by a shutdown's if one ran |
| App.GitGlowApp.MonitorPullRequests | src/gitglow/main.py:168-186 | the loop's requests are `PullRequestLoop` of the schedule; it ends still running iff no shutdown ran; components are unchanged |
| App.ShowNotifications | src/gitglow/main.py:178-179 | the `for` loop over the events makes exactly the requests of `NotificationsShown` |
| App.Launch | src/gitglow/main.py:218-243 | without `--setup`, the app runs in setup mode iff the configuration is incomplete; with `--setup`, the configuration is cleared first and the app never takes normal mode |

## Left out

- YAML is not modelled. A file is the parsed dictionary `safe_load` returns, and saving writes `to_dict()` as that dictionary.
  - Writing and re-reading is therefore the identity here, which it is not in Python when a field other than `config_file` holds a `Path`. `yaml.dump` tags such a value `!!python/object/apply:pathlib.PosixPath` and `yaml.safe_load` refuses the tag. `load_configuration` then swallows the error (settings.py:96-97) and loads nothing. ConfigAttrs.SaveThenLoad holds in the model for such a configuration but not in the source. (ConfigAttrs.MergeToDict involves no YAML and holds in both.) This follows from reading PyYAML and was not executed.
  - A file whose YAML is not a mapping is not modelled.
  - Neither is a read that fails and is logged as a warning.
- Creating the configuration directory (`mkdir`, settings.py:70) is left out: it has no effect on the attributes.
- Paths are plain strings, joined with `/`. `Path` normalisation is not modelled. `Path.home()` is the parameter `home`.
- `hasattr` accepts only the 25 dataclass fields. This leaves out keys that name methods or dunder attributes, which Python would also overwrite.
- `Upper` folds only ASCII letters. `IsSpace` covers the code points Python's `str.isspace` accepts, and `IsIntSpace` the whitespace `int()` skips, which is the same set without U+001C to U+001F. `int()` accepts the decimal form only: non-ASCII digits, which Python reads as their ASCII values, are left out.
- PyText.ParseInt: the limit on the length of integer literals (4300 digits by default since Python 3.11, `sys.set_int_max_str_digits`) is not modelled. A longer literal parses here, where Python raises `ValueError`; this is a runtime setting of the interpreter, not part of the configuration code.
- `Repr` puts every string in single quotes. Python switches to double quotes for a string that contains a single quote.
- `__repr__` (settings.py:195-197) is left out. Its only content is `is_configured`, which is modelled.
- An integer `config_file` is left out. Python would open it as a file descriptor, but here every `config_file` that is not a path makes saving fail and makes loading and clearing raise.
- The logging setup of `GitGlowApp` (`_setup_logging`, main.py:41-51) and every log call are left out.
- asyncio is left out: the tasks, `gather`, the interleaving of the two loops and the web server, and the signal handlers. Each loop is a method over a schedule of rounds. A round's `stop` flag says a shutdown ran while the round was suspended.
- `run` is modelled up to the point where it starts serving. The final `shutdown` after the servers return is a separate call to `Shutdown`.
- The servers are requests in `effects`. They never return here, and `KeyboardInterrupt`, `sys.exit` and the printing in `main` are left out.
- The collaborators are not part of this model. They appear only as the requests made of them and the outcomes a schedule gives them:
  - `GitHubClient`, `MatrixController` and `WiFiManager`;
  - `create_web_app` and `create_setup_app`;
  - hypercorn.
- `IPlatform.h` and `__init__.py` are not part of this model. The virtual methods of `IMatrixWriter` (IMatrixWriter.h:57-103) have no implementation to model.
- The interval fields and `rate_limit_strategy` are stored and passed through, but nothing reads them. The loops use their own constant delays.
- The app-level members (App.GitGlowApp.constructor, App.GitGlowApp.Run, App.Launch and everything built on them) assume the corrected call `GitGlowConfig(config_file=config_path)` from the Findings table, not the call as written at main.py:33.
- MatrixWriter.ContributionLevel: no source function exists. The mapping follows the comments on the colour table.
- ConfigAttrs.Load, ConfigAttrs.ToDict and the pass functions of `App` carry no contract in their declarations. What they compute is stated by ConfigAttrs.LoadFields, ConfigAttrs.ToDictExports, ConfigAttrs.ToDictKeys and the `...Outcome`/`...Delay` lemmas.

## Findings

| source | as written | input that shows it | evidently intended | confidence | as-written member | corrected member |
|---|---|---|---|---|---|---|
| src/gitglow/main.py:33 | `GitGlowConfig(config_path)` passes the path positionally, so it becomes `github_token`, the first dataclass field; `config_file` keeps its default | `--config p` with no file at the default location: the token is the path `p` and the file at `p` is never read; a later save (`update_wifi_settings`, `update_led_settings`) writes that `Path` token, which `yaml.safe_load` then refuses, so the next start loads no stored setting | `GitGlowConfig(config_file=config_path)` | high, from reading; not executed | ConfigAttrs.ConfigPathBecomesToken | ConfigAttrs.AppConfigReadsGivenPath |
