# glog channel registry in Dafny

This project models the channel registry of the Go package `glog`, a thin
layer over the logrus structured-logging library. The registry turns named
channel configurations (`LogConfigs`) into logrus loggers. It caches them
(`channels`), falls back to the `"default"` entry for names it does not know,
and tracks the files it opens (`openFiles`) so that `ReloadChannels` and
`Close` can close them.

The package's process-wide variables are the fields of one immutable
`Glog.Registry` value. Each operation is a pure function from a registry to a
`Result` holding the new registry, and a Go `panic` becomes a `Panic` result.
Loggers, formatters, hooks and file handles are opaque identifiers:

- `Registry.loggers` is the logger heap. Index 0 is `logrus.StandardLogger()`,
  and `logrus.New()` appends a fresh logger.
- `Registry.openFiles` is the tracked handle list. A new handle is numbered by
  how many handles were opened before it.
- `Registry.closed` records every `Close` call on a handle, in order. A handle
  closed twice appears twice.

Three inputs the code does not control are parameters:

- The file system is a `FileSystem` value. It lists the configured paths whose
  directory cannot be created and those whose file cannot be opened.
- The order in which Go ranges over `LogConfigs` is a parameter `order`. The
  only requirement is that it visits every key exactly once (`Enumerates`).
- The host program's direct assignments to `LogConfigs`, `DefLogChannel` and
  `DefaultFormat` are record updates (`SettingsKeepValid`).

Files:

- `logrus.dfy` (module `Logrus`): the logger state the registry changes, that
  is level, formatter, caller flag, hooks and output.
- `glog.dfy` (module `Glog`): the `Log` record, the level and driver constants, the
  registry and every operation of `glog.go`.
- `glog_facts.dfy` (module `GlogFacts`): properties that relate several
  operations.

Behaviours of the code that the model keeps and proves:

- An entry that is present but nil is a cache hit. Once `"default"` is cached as
  nil, `Def` keeps returning nil even if `"default"` is configured later, until
  the next load or reload replaces the entry.
- `configDefaultLog` looks up `DefLogChannel`, but `Channel`, `Def` and
  `LoadChannels` use the literal `"default"`. Before the loop, `"default"` is
  set to the standard logger when `DefLogChannel` is configured, and to nil
  otherwise. When `"default"` is itself configured, the loop then replaces
  that entry with a fresh logger (`DefaultSingleOpensTwice`).
- When `DefLogChannel` names a single-file entry, that entry's path is opened
  twice on every load: once for the standard logger and once for the
  channel's own logger.
- `openFiles` is never emptied. A reload closes every handle ever tracked,
  including handles an earlier reload already closed.
- The daily rotation hook always has a retention of 7. The `Days` field changes
  nothing.
- Any `Driver` value other than `DAILY` takes the single-file branch.
- The standard logger is configured again from the `DefLogChannel` entry on
  every load, and logrus only ever appends hooks. When that entry is DAILY or
  lists hooks, the standard logger's hook list therefore grows with every
  reload (`StandardHooksAccumulate`). A single-file entry without hooks adds
  none.
- An unknown name resolves like `"default"` only once `"default"` is cached
  (`UnknownFollowsDefaultAfterLoad`, `UnknownAfterDef`). Before that, an
  unknown name gets nil, while `Def` may build a logger.

## Model

| member | source | states |
|---|---|---|
| `Glog.Config` | glog.go:123-157 | It panics exactly when the driver is not DAILY and the directory or the file cannot be created, and directory creation is tried first. On success the logger takes the configured level and turns caller reporting on if asked. The configured hooks are appended in order. DAILY then appends a rotation hook with retention 7 and the chosen formatter, and leaves the formatter and output alone. Any other driver sets the chosen formatter and writes to one handle newly opened on the configured path, which is appended to the tracked list. Nothing else changes. |
| `Glog.ConfigLog` | glog.go:117-121 | The logger it returns is new, numbered after every existing logger, and configured as `Config` states. Existing loggers are untouched. It panics exactly when `Config` would. |
| `Glog.ConfigDefaultLog` | glog.go:108-115 | It returns nil and changes nothing when `DefLogChannel` is unconfigured. Otherwise it configures the standard logger from that entry and returns it, or panics when that entry cannot be built. |
| `Glog.Channel` | glog.go:77-86 | A name with a cache entry, even a nil one, returns that entry and changes nothing. An uncached, configured name gets a fresh logger configured from its entry; only that cache entry is added, and it panics only if the build fails. Any other name returns the `"default"` entry (nil when absent) and changes nothing. |
| `Glog.Def` | glog.go:72-74 | It returns the cached `"default"` entry when there is one, and nil with nothing changed when `"default"` is neither cached nor configured. Otherwise it builds a fresh logger, configured from the `"default"` entry, and caches it under `"default"`; only that entry is added and only the handle the build opened is tracked. It panics exactly when that entry cannot be built, with the directory fault before the file fault. |
| `Glog.LoadEach` | glog.go:94-96 | The loop over the table panics exactly when some visited entry cannot be built, and the panic names the fault of such an entry. Otherwise the k-th visited name is cached with the k-th new logger, configured from its entry. Untouched entries and loggers stay as they were. One handle is tracked per single-file build. |
| `Glog.LoadChannels` | glog.go:90-97 | It panics exactly when some configured channel cannot be built, and the panic names the fault of such a channel. Otherwise the cache gains `"default"` and every configured name and keeps all other entries. Every configured name gets a distinct new logger configured from its entry, and no other logger is created: the logger count grows by the length of the visiting order, which is the number of configured channels (`EnumeratesCount`). An unconfigured `"default"` holds the standard logger, or nil when `DefLogChannel` is unconfigured. The standard logger is configured from the `DefLogChannel` entry, and the loop leaves it exactly as `configDefaultLog` made it. The number of opened handles equals the number of single-file builds. |
| `Glog.ReloadChannels` | glog.go:100-106 | A reload keeps the registry valid and the settings unchanged, and creates one logger per configured channel. After it, the cached names are exactly `"default"` and the configured names. Every handle tracked before the reload is closed exactly once more. The tracked list is only extended. It panics exactly when some configured channel cannot be built, and the panic names the fault of such a channel. |
| `Glog.Close` | glog.go:160-164 | Every tracked handle is closed exactly once more. The registry stays valid, and nothing but the close log changes. |
| `Glog.SetLogFields` | glog.go:166-174 | nil gives an empty map. A map gives a copy with the same keys and the same values. |
| `Glog.CountSingleIsCardinality` | glog.go:94-96 | Along any visit order without repeats, the number of single-file builds equals the number of single-file names, whatever the order. |
| `Glog.EnumeratesCount` | glog.go:94 | Ranging over the table visits each configured name once, so the loop runs exactly as many times as there are configured channels. |
| `Glog.TrackedOnce` | glog.go:154 | Handles appended once each as they are opened appear exactly once in the tracked list. |
| `GlogFacts.InitialValid` | glog.go:51-60 | The package's initial state is valid: an empty cache, no tracked handles, and `DefLogChannel` set to `"default"`. |
| `GlogFacts.SettingsKeepValid` | glog.go:51-58 | Assigning `LogConfigs`, `DefLogChannel` or `DefaultFormat` keeps the registry valid. |
| `GlogFacts.ChannelIdempotent` | glog.go:77-84 | A second lookup of the same name, with nothing in between, returns the identical logger and state. |
| `GlogFacts.ChannelKeepsEntries` | glog.go:77-86 | A lookup never changes an existing cache entry, an existing logger or the close log. |
| `GlogFacts.NilDefaultIsHit` | glog.go:78-85 | A present but nil `"default"` entry is a hit: `Def` and every unknown name return nil without building anything. |
| `GlogFacts.UnknownAfterDef` | glog_test.go:27-29 | After `Def`, an unconfigured name such as `"gin"` resolves to the same logger as `Def` and changes nothing. |
| `GlogFacts.LoadedNamesAreHits` | glog.go:90-97 | After loading, every configured name is a cache hit for a logger whose level is the configured one. |
| `GlogFacts.UnknownFollowsDefaultAfterLoad` | glog.go:77-97 | After loading, an uncached name resolves exactly as `Def` does, to the cached `"default"` entry. |
| `GlogFacts.ReloadDropsStale` | glog.go:100-106 | After a reload, a name that is neither `"default"` nor configured is no longer cached and falls back to `"default"`. |
| `GlogFacts.ReloadRebuilds` | glog.go:100-106 | A reload gives each configured channel a logger instance different from the one cached before. |
| `GlogFacts.ReloadTwiceClosesTwice` | glog.go:101-105 | When no channel fails to build, two reloads, each visiting the table in its own order, both succeed, and every handle tracked before them is closed twice more. |
| `GlogFacts.ReloadSucceeds` | glog.go:100-106 | A reload in which no channel fails succeeds, keeps the configuration table and the invariant, only extends the tracked list, and closes each tracked handle exactly once more. |
| `GlogFacts.StandardHooksAccumulate` | glog.go:109-111 | With only a DAILY `"default"` channel configured, each reload appends the configured hooks and one more rotation hook to the hooks the standard logger already has, so they accumulate over reloads. |
| `GlogFacts.DefaultSingleOpensTwice` | glog.go:90-97 | Suppose the only configured channel is a single-file `"default"`, it is also `DefLogChannel`, and its directory and file can be created. Loading then succeeds and opens two new, different handles, both on the configured path: the standard logger writes to one, and the logger cached under `"default"`, which is not the standard logger, writes to the other. |
| `GlogFacts.CloseCoversOutputs` | glog.go:154-164 | After `Close`, every file any logger writes to has been closed. |
| `GlogFacts.DaysIgnored` | glog.go:139-141 | The `Days` field does not change what `config` builds. |
| `GlogFacts.OtherDriversAreSingle` | glog.go:139-143 | Every driver value other than DAILY builds exactly what SINGLE builds. |
| `GlogFacts.LoadOrderIrrelevant` | glog.go:94-96 | The map's iteration order does not change whether loading panics, which names are cached, how many handles are opened, or what the standard logger becomes. |

## Left out

- `LocalFormatter.Format` (glog.go:66-69) is left out. It converts timestamps to local time inside the logging library, and formatters are opaque here.
- The logging library's internals are left out: level filtering, what caller reporting does, JSON encoding and writing records. The model keeps only the state the registry sets.
- The `hook` package is not part of this model. `hook.NewLfsHook` is an opaque hook value built from its path, retention and formatter.
- File-system effects are left out: creating directories and opening and closing files. Failures come from the `FileSystem` parameter, keyed by the configured path. The directory panic names that path rather than `filepath.Dir` of it.
- A panic is final in the model. The state it leaves behind is not modelled: a partly configured logger, or entries the loop cached before the failing one.
- Close errors are ignored by the code. The model records each close as an event and has no error outcome for it.
- Concurrency is left out. The cache and handle list have no locking, so reloads racing with lookups are unspecified, and the model is sequential.
- A nil element of a `Log.Hooks` list is left out: hooks are always non-nil values here. In the code, adding a nil hook panics when logrus asks it for its levels, for DAILY entries as well, so for such a table the model's `Fails` and `Config` miss that panic.
- A nil `DefaultFormat` is left out: formatters are always non-nil values here. In the code, a single-file entry without its own formatter would then install a nil formatter, and a DAILY entry would hand nil to the rotation hook.
- `Driver` is an unbounded `nat` rather than a 64-bit `uint`. The code only compares it with `DAILY`.
- Glog.LoadChannels: when several entries fail, it (like `Glog.LoadEach` and `Glog.ReloadChannels`) states that the panic names one of them but not which: the code panics on the `DefLogChannel` entry first, then on the first failing name in visiting order.
- Glog.LoadChannels: it does not state that different single-file channels get pairwise distinct handles. It states only that each handle is new and how many are opened.
- The single-file round trip in the tests (write "test", read back the JSON line) is left out. It depends on file contents and encoding, which are outside the model.
