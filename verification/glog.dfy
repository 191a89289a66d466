/**
 The channel registry: named logging channels built from a configuration
 table, memoised in a cache, and torn down and rebuilt on reload.

 The package's process-wide variables (the configuration table, the name of
 the channel that backs the standard logger, the default formatter, the
 logger cache and the list of opened files) are the fields of one immutable
 `Registry` value, and every operation is a pure transition on it.  A panic
 is a `Panic` result, after which no state survives.
 */
module Glog {
  import opened Logrus

  /** The package's names for the backend's levels, from most to least severe. */
  const PanicLevel: Level := 0
  const FatalLevel: Level := 1
  const ErrorLevel: Level := 2
  const WarnLevel: Level := 3
  const InfoLevel: Level := 4
  const DebugLevel: Level := 5
  const TraceLevel: Level := 6

  /** Values of the `Driver` field.  The field is an unsigned integer and any
      value other than DAILY takes the single-file branch. */
  const SINGLE: nat := 0
  const DAILY: nat := 1

  /** The literal cache key that lookups fall back to. */
  const DefaultChannel: string := "default"

  /** The process-wide logrus.StandardLogger(), the first logger of every registry. */
  const StandardLogger: LoggerId := 0

  /** The daily rotation hook always keeps seven days of files, whatever `days` says. */
  const DailyRetention: int := 7

  type LoggerId = nat

  /** A Go value that may be nil. */
  datatype Option<+T> = None | Some(value: T)

  /** The configuration of one channel. */
  datatype Log = Log(
    driver: nat,
    path: string,
    level: Level,
    days: int,
    logFormatter: Option<Formatter>,
    reportCall: bool,
    hooks: seq<Hook>
  )

  /** Why building a single-file channel panicked. */
  datatype Fatal = CreateDirFailed(path: string) | CreateFileFailed(path: string)

  datatype Result<+T> = Ok(value: T) | Panic(fatal: Fatal) {
    predicate IsFailure() {
      Panic?
    }

    function PropagateFailure<U>(): Result<U>
      requires Panic?
    {
      Panic(fatal)
    }

    function Extract(): T
      requires Ok?
    {
      value
    }
  }

  /** Which configured paths the file system refuses: the parent directory of a
      path in `mkdirFails` cannot be created, a path in `openFails` cannot be opened. */
  datatype FileSystem = FileSystem(mkdirFails: set<string>, openFails: set<string>)

  datatype Registry = Registry(
    logConfigs: map<string, Log>,             // LogConfigs
    defLogChannel: string,                    // DefLogChannel
    defaultFormat: Formatter,                 // DefaultFormat
    channels: map<string, Option<LoggerId>>,  // the logger cache; an entry may be nil
    loggers: seq<Logger>,                     // every logger ever created, by id
    openFiles: seq<FileId>,                   // every file handle ever tracked
    closed: seq<FileId>                       // every Close call made on a handle, in order
  ) {
    /** Cached ids name existing loggers, handles are tracked in the order they
        were opened, every file a logger writes to is a tracked one, and only
        tracked handles have ever been closed. */
    ghost predicate Valid() {
      && StandardLogger < |loggers|
      && (forall n | n in channels && channels[n].Some? :: channels[n].value < |loggers|)
      && (forall i | 0 <= i < |openFiles| :: openFiles[i] == i)
      && (forall i | 0 <= i < |loggers| && loggers[i].out.ToFile? :: loggers[i].out.file in openFiles)
      && (forall i | 0 <= i < |closed| :: closed[i] < |openFiles|)
    }
  }

  /** The package's state before any host code runs. */
  const Initial: Registry :=
    Registry(map[], "default", LocalJsonFormatter, map[], [New()], [], [])

  /** Reading a Go map: a missing key reads as nil. */
  function Cached(channels: map<string, Option<LoggerId>>, name: string): Option<LoggerId> {
    if name in channels then channels[name] else None
  }

  predicate Distinct(names: seq<string>) {
    forall i, j | 0 <= i < j < |names| :: names[i] != names[j]
  }

  /** `order` is one of the orders in which ranging over a map with key set `keys` may visit it. */
  predicate Enumerates(order: seq<string>, keys: set<string>) {
    && Distinct(order)
    && (forall n | n in order :: n in keys)
    && (forall n | n in keys :: n in order)
  }

  /** Building `c` panics: only the single-file branch touches the file system. */
  ghost predicate Fails(c: Log, fs: FileSystem) {
    c.driver != DAILY && (c.path in fs.mkdirFails || c.path in fs.openFails)
  }

  /** The panic a failing build of `c` raises: the directory is created before the file is opened. */
  ghost function FaultOf(c: Log, fs: FileSystem): Fatal {
    if c.path in fs.mkdirFails then CreateDirFailed(c.path) else CreateFileFailed(c.path)
  }

  /** The configured formatter, or the package default when the configuration has none. */
  function ChosenFormat(c: Log, defaultFormat: Formatter): Formatter {
    if c.logFormatter.Some? then c.logFormatter.value else defaultFormat
  }

  /** `after` is logger `before` once configured from `c`: level replaced, caller
      reporting switched on if asked, the configured hooks appended in order, and
      then either the rotation hook appended (DAILY) or the chosen formatter and a
      file newly opened on the configured path, not among `tracked`, installed
      (any other driver). */
  ghost predicate Configured(before: Logger, after: Logger, c: Log, defaultFormat: Formatter, tracked: seq<FileId>) {
    var format := ChosenFormat(c, defaultFormat);
    && after.level == c.level
    && after.reportCaller == (before.reportCaller || c.reportCall)
    && (if c.driver == DAILY then
          && after.hooks == before.hooks + c.hooks + [LfsHook(c.path, DailyRetention, format)]
          && after.formatter == before.formatter
          && after.out == before.out
        else
          && after.hooks == before.hooks + c.hooks
          && after.formatter == format
          && after.out.ToFile?
          && after.out.path == c.path
          && after.out.file !in tracked)
  }

  /** The handles a build of `c` that produced logger `built` adds to the tracked list. */
  function OpenedBy(built: Logger, c: Log): seq<FileId> {
    if c.driver != DAILY && built.out.ToFile? then [built.out.file] else []
  }

  /** The configuration table, the default channel name and the default formatter are untouched. */
  ghost predicate SameSettings(a: Registry, b: Registry) {
    a.logConfigs == b.logConfigs && a.defLogChannel == b.defLogChannel && a.defaultFormat == b.defaultFormat
  }

  /** `after` is `before` with logger `l` configured from `c`; besides that logger
      only the tracked handle list changes, by the handle the build opened. */
  ghost predicate ConfigStep(before: Registry, after: Registry, l: LoggerId, c: Log)
    requires l < |before.loggers|
  {
    && SameSettings(before, after)
    && after.channels == before.channels
    && after.closed == before.closed
    && |after.loggers| == |before.loggers|
    && (forall i | 0 <= i < |before.loggers| && i != l :: after.loggers[i] == before.loggers[i])
    && Configured(before.loggers[l], after.loggers[l], c, before.defaultFormat, before.openFiles)
    && after.openFiles == before.openFiles + OpenedBy(after.loggers[l], c)
  }

  /** config: apply channel configuration `c` to logger `l`. */
  function Config(reg: Registry, l: LoggerId, c: Log, fs: FileSystem): (res: Result<Registry>)
    requires reg.Valid() && l < |reg.loggers|
    ensures res.Panic? <==> Fails(c, fs)
    ensures res.Panic? ==> res.fatal == FaultOf(c, fs)
    ensures res.Ok? ==> res.value.Valid() && ConfigStep(reg, res.value, l, c)
  {
    var format := ChosenFormat(c, reg.defaultFormat);
    var before := reg.loggers[l];
    var hooked := before.(level := c.level,
                          reportCaller := before.reportCaller || c.reportCall,
                          hooks := before.hooks + c.hooks);
    if c.driver == DAILY then
      var rotating := hooked.(hooks := hooked.hooks + [LfsHook(c.path, DailyRetention, format)]);
      Ok(reg.(loggers := reg.loggers[l := rotating]))
    else if c.path in fs.mkdirFails then
      Panic(CreateDirFailed(c.path))
    else if c.path in fs.openFails then
      Panic(CreateFileFailed(c.path))
    else
      var f: FileId := |reg.openFiles|;
      var single := hooked.(formatter := format, out := ToFile(f, c.path));
      Ok(reg.(loggers := reg.loggers[l := single], openFiles := reg.openFiles + [f]))
  }

  /** A registry together with a logger it built or configured. */
  datatype Built = Built(reg: Registry, id: LoggerId)

  /** A registry together with the (possibly nil) logger a lookup returned. */
  datatype Lookup = Lookup(reg: Registry, logger: Option<LoggerId>)

  /** configLog: a fresh logger, configured from `c`. */
  function ConfigLog(reg: Registry, c: Log, fs: FileSystem): (res: Result<Built>)
    requires reg.Valid()
    ensures res.Panic? <==> Fails(c, fs)
    ensures res.Panic? ==> res.fatal == FaultOf(c, fs)
    ensures res.Ok? ==>
      var r := res.value.reg;
      && res.value.id == |reg.loggers|
      && r.Valid()
      && |r.loggers| == |reg.loggers| + 1
      && r.loggers[..|reg.loggers|] == reg.loggers
      && ConfigStep(reg.(loggers := reg.loggers + [New()]), r, res.value.id, c)
  {
    var id := |reg.loggers|;
    var r :- Config(reg.(loggers := reg.loggers + [New()]), id, c, fs);
    Ok(Built(r, id))
  }

  /** configDefaultLog: when the channel named by `defLogChannel` is configured,
      the standard logger is configured from it and returned; otherwise nil. */
  function ConfigDefaultLog(reg: Registry, fs: FileSystem): (res: Result<Lookup>)
    requires reg.Valid()
    ensures reg.defLogChannel !in reg.logConfigs ==> res == Ok(Lookup(reg, None))
    ensures reg.defLogChannel in reg.logConfigs ==>
      var c := reg.logConfigs[reg.defLogChannel];
      && (res.Panic? <==> Fails(c, fs))
      && (res.Panic? ==> res.fatal == FaultOf(c, fs))
      && (res.Ok? ==>
            && res.value.logger == Some(StandardLogger)
            && res.value.reg.Valid()
            && ConfigStep(reg, res.value.reg, StandardLogger, c))
  {
    if reg.defLogChannel in reg.logConfigs then
      var r :- Config(reg, StandardLogger, reg.logConfigs[reg.defLogChannel], fs);
      Ok(Lookup(r, Some(StandardLogger)))
    else
      Ok(Lookup(reg, None))
  }

  /** Channel: the cached logger for `name` if there is an entry, even a nil one;
      otherwise a fresh logger built from its configuration and cached; otherwise,
      without changing anything, whatever is cached under "default". */
  function Channel(reg: Registry, name: string, fs: FileSystem): (res: Result<Lookup>)
    requires reg.Valid()
    ensures name in reg.channels ==> res == Ok(Lookup(reg, reg.channels[name]))
    ensures name !in reg.channels && name !in reg.logConfigs ==>
      res == Ok(Lookup(reg, Cached(reg.channels, DefaultChannel)))
    ensures name !in reg.channels && name in reg.logConfigs ==>
      var c := reg.logConfigs[name];
      && (res.Panic? <==> Fails(c, fs))
      && (res.Panic? ==> res.fatal == FaultOf(c, fs))
      && (res.Ok? ==>
            var r := res.value.reg;
            && res.value.logger == Some(|reg.loggers|)
            && r.Valid()
            && r.channels == reg.channels[name := Some(|reg.loggers|)]
            && |r.loggers| == |reg.loggers| + 1
            && r.loggers[..|reg.loggers|] == reg.loggers
            && Configured(New(), r.loggers[|reg.loggers|], c, reg.defaultFormat, reg.openFiles)
            && r.openFiles == reg.openFiles + OpenedBy(r.loggers[|reg.loggers|], c)
            && SameSettings(reg, r) && r.closed == reg.closed)
  {
    if name in reg.channels then
      Ok(Lookup(reg, reg.channels[name]))
    else if name in reg.logConfigs then
      var b :- ConfigLog(reg, reg.logConfigs[name], fs);
      Ok(Lookup(b.reg.(channels := b.reg.channels[name := Some(b.id)]), Some(b.id)))
    else
      Ok(Lookup(reg, Cached(reg.channels, DefaultChannel)))
  }

  /** Def: the "default" channel.  When nothing is cached or configured under
      that name the result is nil. */
  function Def(reg: Registry, fs: FileSystem): (res: Result<Lookup>)
    requires reg.Valid()
    ensures DefaultChannel in reg.channels ==> res == Ok(Lookup(reg, reg.channels[DefaultChannel]))
    ensures DefaultChannel !in reg.channels && DefaultChannel !in reg.logConfigs ==> res == Ok(Lookup(reg, None))
    ensures DefaultChannel !in reg.channels && DefaultChannel in reg.logConfigs ==>
      var c := reg.logConfigs[DefaultChannel];
      && (res.Panic? <==> Fails(c, fs))
      && (res.Panic? ==> res.fatal == FaultOf(c, fs))
      && (res.Ok? ==>
            var r := res.value.reg;
            && res.value.logger == Some(|reg.loggers|)
            && r.Valid()
            && r.channels == reg.channels[DefaultChannel := Some(|reg.loggers|)]
            && |r.loggers| == |reg.loggers| + 1
            && r.loggers[..|reg.loggers|] == reg.loggers
            && Configured(New(), r.loggers[|reg.loggers|], c, reg.defaultFormat, reg.openFiles)
            && r.openFiles == reg.openFiles + OpenedBy(r.loggers[|reg.loggers|], c)
            && SameSettings(reg, r) && r.closed == reg.closed)
  {
    Channel(reg, DefaultChannel, fs)
  }

  /** The number of names among `names` whose configuration takes the single-file branch. */
  function CountSingle(names: seq<string>, cfg: map<string, Log>): nat
    requires forall n | n in names :: n in cfg
  {
    if names == [] then 0
    else (if cfg[names[0]].driver != DAILY then 1 else 0) + CountSingle(names[1..], cfg)
  }

  /** The configured channels that open a file when built. */
  ghost function SingleNames(cfg: map<string, Log>): set<string> {
    set n | n in cfg && cfg[n].driver != DAILY
  }

  /** Loading leaves the settings and the close log alone, keeps `before` valid,
      and only extends the logger list and the tracked handle list. */
  ghost predicate LoadFrame(before: Registry, after: Registry) {
    && after.Valid()
    && SameSettings(before, after)
    && after.closed == before.closed
    && |before.loggers| <= |after.loggers|
    && after.loggers[..|before.loggers|] == before.loggers
    && before.openFiles <= after.openFiles
  }

  /** The names `names` are cached, and every other entry stays as it was. */
  ghost predicate LoadCache(before: Registry, after: Registry, names: seq<string>) {
    && after.channels.Keys == before.channels.Keys + (set n | n in names)
    && (forall n | n in before.channels && n !in names :: after.channels[n] == before.channels[n])
  }

  /** The k-th name is cached with logger `|before.loggers| + k`, configured from its entry. */
  ghost predicate LoadPositions(before: Registry, after: Registry, names: seq<string>)
    requires forall n | n in names :: n in before.logConfigs && n in after.channels
    requires |before.loggers| + |names| <= |after.loggers|
  {
    forall k | 0 <= k < |names| ::
      && after.channels[names[k]] == Some(|before.loggers| + k)
      && Configured(New(), after.loggers[|before.loggers| + k], before.logConfigs[names[k]],
                    before.defaultFormat, before.openFiles)
  }

  /** Building the channels `names` one after another leaves `before` as `after`:
      each name is cached with its own fresh logger, numbered in visiting order and
      configured from its entry, while loggers and cache entries that existed and
      are not rebuilt stay as they were, and one handle is tracked per single-file build. */
  ghost predicate LoadedEach(before: Registry, after: Registry, names: seq<string>)
    requires forall n | n in names :: n in before.logConfigs
  {
    && LoadFrame(before, after)
    && |after.loggers| == |before.loggers| + |names|
    && LoadCache(before, after, names)
    && LoadPositions(before, after, names)
    && |after.openFiles| == |before.openFiles| + CountSingle(names, before.logConfigs)
  }

  /** The loop of LoadChannels: build and cache every name of `names`, in order. */
  function LoadEach(reg: Registry, names: seq<string>, fs: FileSystem): (res: Result<Registry>)
    requires reg.Valid()
    requires Distinct(names)
    requires forall n | n in names :: n in reg.logConfigs
    ensures res.Panic? <==> exists n | n in names :: Fails(reg.logConfigs[n], fs)
    ensures res.Panic? ==> exists n | n in names && Fails(reg.logConfigs[n], fs) :: res.fatal == FaultOf(reg.logConfigs[n], fs)
    ensures res.Ok? ==> LoadedEach(reg, res.value, names)
    decreases |names|
  {
    if names == [] then
      assert reg.loggers[..|reg.loggers|] == reg.loggers;
      Ok(reg)
    else
      var b :- ConfigLog(reg, reg.logConfigs[names[0]], fs);
      var cached := b.reg.(channels := b.reg.channels[names[0] := Some(b.id)]);
      var res := LoadEach(cached, names[1..], fs);
      assert forall n | n in names :: n == names[0] || n in names[1..];
      if res.Ok? then LoadedEachCons(reg, cached, res.value, names); res else res
  }

  /** Avoiding the handles of `big` means avoiding those of its prefix `small`. */
  lemma ConfiguredAvoidsFewer(before: Logger, after: Logger, c: Log, defaultFormat: Formatter,
                              small: seq<FileId>, big: seq<FileId>)
    requires small <= big
    requires Configured(before, after, c, defaultFormat, big)
    ensures Configured(before, after, c, defaultFormat, small)
  {
  }

  /** One step of the loop: the head built and cached, the rest loaded after it. */
  lemma LoadedEachCons(reg: Registry, cached: Registry, after: Registry, names: seq<string>)
    requires names != [] && Distinct(names)
    requires forall n | n in names :: n in reg.logConfigs
    requires cached.Valid() && SameSettings(reg, cached) && cached.closed == reg.closed
    requires |cached.loggers| == |reg.loggers| + 1 && cached.loggers[..|reg.loggers|] == reg.loggers
    requires cached.channels == reg.channels[names[0] := Some(|reg.loggers|)]
    requires Configured(New(), cached.loggers[|reg.loggers|], reg.logConfigs[names[0]],
                        reg.defaultFormat, reg.openFiles)
    requires cached.openFiles == reg.openFiles + OpenedBy(cached.loggers[|reg.loggers|], reg.logConfigs[names[0]])
    requires LoadedEach(cached, after, names[1..])
    ensures LoadedEach(reg, after, names)
  {
    var base := |reg.loggers|;
    assert names[0] !in names[1..];
    ConsFrame(reg, cached, after);
    ConsCache(reg, cached, after, names);
    assert after.loggers[base] == cached.loggers[base] by {
      assert after.loggers[base] == after.loggers[..base + 1][base];
    }
    ConsPositions(reg, cached, after, names);
    ConsCount(reg, cached, after, names);
  }

  lemma ConsFrame(reg: Registry, cached: Registry, after: Registry)
    requires SameSettings(reg, cached) && cached.closed == reg.closed
    requires |cached.loggers| == |reg.loggers| + 1 && cached.loggers[..|reg.loggers|] == reg.loggers
    requires reg.openFiles <= cached.openFiles
    requires LoadFrame(cached, after)
    ensures LoadFrame(reg, after)
  {
    assert after.loggers[..|reg.loggers|] == after.loggers[..|cached.loggers|][..|reg.loggers|];
    assert reg.openFiles <= after.openFiles by {
      assert reg.openFiles == cached.openFiles[..|reg.openFiles|];
      assert cached.openFiles == after.openFiles[..|cached.openFiles|];
    }
  }

  lemma ConsCache(reg: Registry, cached: Registry, after: Registry, names: seq<string>)
    requires names != [] && names[0] !in names[1..]
    requires cached.channels == reg.channels[names[0] := Some(|reg.loggers|)]
    requires LoadCache(cached, after, names[1..])
    ensures LoadCache(reg, after, names)
    ensures after.channels[names[0]] == Some(|reg.loggers|)
  {
    assert (set n | n in names) == {names[0]} + (set n | n in names[1..]);
  }

  /** The per-position part of LoadedEachCons: position k gets logger base + k. */
  lemma ConsPositions(reg: Registry, cached: Registry, after: Registry, names: seq<string>)
    requires names != []
    requires forall n | n in names :: n in reg.logConfigs && n in after.channels
    requires SameSettings(reg, cached)
    requires |cached.loggers| == |reg.loggers| + 1
    requires reg.openFiles <= cached.openFiles
    requires |after.loggers| == |reg.loggers| + |names|
    requires after.channels[names[0]] == Some(|reg.loggers|)
    requires after.loggers[|reg.loggers|] == cached.loggers[|reg.loggers|]
    requires Configured(New(), cached.loggers[|reg.loggers|], reg.logConfigs[names[0]],
                        reg.defaultFormat, reg.openFiles)
    requires LoadPositions(cached, after, names[1..])
    ensures LoadPositions(reg, after, names)
  {
    var base := |reg.loggers|;
    var rest := names[1..];
    forall k | 1 <= k < |names|
      ensures after.channels[names[k]] == Some(base + k)
      ensures Configured(New(), after.loggers[base + k], reg.logConfigs[names[k]],
                         reg.defaultFormat, reg.openFiles)
    {
      assert names[k] == rest[k - 1];
      ConfiguredAvoidsFewer(New(), after.loggers[base + k], reg.logConfigs[names[k]],
                            reg.defaultFormat, reg.openFiles, cached.openFiles);
    }
  }

  lemma ConsCount(reg: Registry, cached: Registry, after: Registry, names: seq<string>)
    requires names != []
    requires forall n | n in names :: n in reg.logConfigs
    requires SameSettings(reg, cached)
    requires |reg.loggers| < |cached.loggers|
    requires Configured(New(), cached.loggers[|reg.loggers|], reg.logConfigs[names[0]],
                        reg.defaultFormat, reg.openFiles)
    requires cached.openFiles == reg.openFiles + OpenedBy(cached.loggers[|reg.loggers|], reg.logConfigs[names[0]])
    requires |after.openFiles| == |cached.openFiles| + CountSingle(names[1..], cached.logConfigs)
    ensures |after.openFiles| == |reg.openFiles| + CountSingle(names, reg.logConfigs)
  {
  }

  /** Counting single-file builds along any duplicate-free visit counts the names themselves. */
  lemma {:induction false} CountSingleIsCardinality(names: seq<string>, cfg: map<string, Log>)
    requires Distinct(names)
    requires forall n | n in names :: n in cfg
    ensures CountSingle(names, cfg) == |set n | n in names && cfg[n].driver != DAILY|
  {
    if names != [] {
      var rest := names[1..];
      assert Distinct(rest) by {
        forall i, j | 0 <= i < j < |rest| ensures rest[i] != rest[j] {
          assert rest[i] == names[i + 1] && rest[j] == names[j + 1];
        }
      }
      assert forall n | n in rest :: n in names;
      CountSingleIsCardinality(rest, cfg);
      var tail := set n | n in rest && cfg[n].driver != DAILY;
      assert names[0] !in tail;
      if cfg[names[0]].driver != DAILY {
        assert (set n | n in names && cfg[n].driver != DAILY) == {names[0]} + tail;
      } else {
        assert (set n | n in names && cfg[n].driver != DAILY) == tail;
      }
    }
  }

  /** A list without repeats has as many elements as the set of its elements. */
  lemma {:induction false} DistinctCardinality(names: seq<string>)
    requires Distinct(names)
    ensures |set n | n in names| == |names|
  {
    if names != [] {
      var rest := names[1..];
      assert Distinct(rest) by {
        forall i, j | 0 <= i < j < |rest| ensures rest[i] != rest[j] {
          assert rest[i] == names[i + 1] && rest[j] == names[j + 1];
        }
      }
      DistinctCardinality(rest);
      assert names[0] !in rest;
      assert (set n | n in names) == {names[0]} + (set n | n in rest);
    }
  }

  /** Visiting every key of a set exactly once takes as many steps as the set has keys. */
  lemma EnumeratesCount(order: seq<string>, keys: set<string>)
    requires Enumerates(order, keys)
    ensures |order| == |keys|
  {
    DistinctCardinality(order);
    assert (set n | n in order) == keys;
  }

  /** The number of handles configuring the standard logger from the default channel's entry opens. */
  ghost function DefaultOpens(reg: Registry): nat {
    if reg.defLogChannel in reg.logConfigs && reg.logConfigs[reg.defLogChannel].driver != DAILY then 1 else 0
  }

  /** Loading keeps the settings and the close log, keeps the registry valid, leaves
      every logger but the standard one alone and only extends the tracked handles: by one per single-file build, the
      standard logger's included. */
  ghost predicate LoadedFrame(before: Registry, after: Registry) {
    && StandardLogger < |before.loggers| <= |after.loggers|
    && after.Valid()
    && SameSettings(before, after)
    && after.closed == before.closed
    && (forall i | StandardLogger < i < |before.loggers| :: after.loggers[i] == before.loggers[i])
    && before.openFiles <= after.openFiles
    && |after.openFiles| == |before.openFiles| + DefaultOpens(before) + |SingleNames(before.logConfigs)|
  }

  /** The cache gains "default" and every configured name, and keeps every other entry. */
  ghost predicate LoadedCache(before: Registry, after: Registry) {
    && after.channels.Keys == before.channels.Keys + {DefaultChannel} + before.logConfigs.Keys
    && (forall n | n in before.channels && n != DefaultChannel && n !in before.logConfigs ::
          after.channels[n] == before.channels[n])
  }

  /** Every configured name is cached with a logger of its own, new and configured from its entry. */
  ghost predicate LoadedBuilt(before: Registry, after: Registry)
    requires before.logConfigs.Keys <= after.channels.Keys
  {
    var cfg := before.logConfigs;
    && (forall n | n in cfg ::
          && after.channels[n].Some?
          && |before.loggers| <= after.channels[n].value < |after.loggers|
          && Configured(New(), after.loggers[after.channels[n].value], cfg[n],
                        before.defaultFormat, before.openFiles))
    && (forall n, m | n in cfg && m in cfg && n != m :: after.channels[n] != after.channels[m])
  }

  /** The standard logger is configured from the default channel's entry, if there is
      one; an unconfigured "default" holds that logger, or nil when there is none. */
  ghost predicate LoadedDefault(before: Registry, after: Registry)
    requires StandardLogger < |before.loggers| <= |after.loggers|
    requires DefaultChannel in after.channels
  {
    var cfg := before.logConfigs;
    && (DefaultChannel !in cfg ==>
          after.channels[DefaultChannel] == (if before.defLogChannel in cfg then Some(StandardLogger) else None))
    && (before.defLogChannel in cfg ==>
          Configured(before.loggers[StandardLogger], after.loggers[StandardLogger], cfg[before.defLogChannel],
                     before.defaultFormat, before.openFiles))
    && (before.defLogChannel !in cfg ==> after.loggers[StandardLogger] == before.loggers[StandardLogger])
  }

  /** What LoadChannels makes of `before`. */
  ghost predicate Loaded(before: Registry, after: Registry) {
    && LoadedFrame(before, after)
    && LoadedCache(before, after)
    && LoadedBuilt(before, after)
    && LoadedDefault(before, after)
  }

  /** LoadChannels: point "default" at the configured standard logger (or nil), then
      build every configured channel, visiting the table in `order`.  It panics
      exactly when some configured channel cannot be built. */
  function LoadChannels(reg: Registry, order: seq<string>, fs: FileSystem): (res: Result<Registry>)
    requires reg.Valid()
    requires Enumerates(order, reg.logConfigs.Keys)
    ensures res.Panic? <==> exists n | n in reg.logConfigs :: Fails(reg.logConfigs[n], fs)
    ensures res.Panic? ==> exists n | n in reg.logConfigs && Fails(reg.logConfigs[n], fs) :: res.fatal == FaultOf(reg.logConfigs[n], fs)
    ensures res.Ok? ==> Loaded(reg, res.value)
    ensures res.Ok? ==> |res.value.loggers| == |reg.loggers| + |order|
    ensures res.Ok? ==>
      && ConfigDefaultLog(reg, fs).Ok?
      && res.value.loggers[StandardLogger] == ConfigDefaultLog(reg, fs).value.reg.loggers[StandardLogger]
  {
    var d :- ConfigDefaultLog(reg, fs);
    var primed := Primed(d.reg, d.logger);
    var res := LoadEach(primed, order, fs);
    assert forall n :: n in order <==> n in reg.logConfigs;
    if res.Ok? then
      LoadedFromEach(reg, d.reg, d.logger, res.value, order);
      LoopKeepsStandard(primed, res.value);
      res
    else
      res
  }

  /** The loop leaves the standard logger as the default step left it. */
  lemma LoopKeepsStandard(primed: Registry, after: Registry)
    requires StandardLogger < |primed.loggers|
    requires LoadFrame(primed, after)
    ensures after.loggers[StandardLogger] == primed.loggers[StandardLogger]
  {
    assert after.loggers[StandardLogger] == after.loggers[..|primed.loggers|][StandardLogger];
  }

  /** The registry after the default step, before the loop. */
  function Primed(d: Registry, dl: Option<LoggerId>): Registry {
    d.(channels := d.channels[DefaultChannel := dl])
  }

  /** What the default step of LoadChannels did to `reg`, giving `d` and the entry `dl` for "default". */
  ghost predicate DefaultStep(reg: Registry, d: Registry, dl: Option<LoggerId>)
    requires StandardLogger < |reg.loggers|
  {
    if reg.defLogChannel in reg.logConfigs then
      ConfigStep(reg, d, StandardLogger, reg.logConfigs[reg.defLogChannel]) && dl == Some(StandardLogger)
    else
      d == reg && dl == None
  }

  /** ReloadChannels: drop the whole cache, close every handle ever tracked (errors
      ignored), then load again.  The tracked list itself is never emptied. */
  function ReloadChannels(reg: Registry, order: seq<string>, fs: FileSystem): (res: Result<Registry>)
    requires reg.Valid()
    requires Enumerates(order, reg.logConfigs.Keys)
    ensures res.Panic? <==> exists n | n in reg.logConfigs :: Fails(reg.logConfigs[n], fs)
    ensures res.Panic? ==> exists n | n in reg.logConfigs && Fails(reg.logConfigs[n], fs) :: res.fatal == FaultOf(reg.logConfigs[n], fs)
    ensures res.Ok? ==>
      var r := res.value;
      && r.Valid() && SameSettings(reg, r)
      && |r.loggers| == |reg.loggers| + |order|
      && r.channels.Keys == {DefaultChannel} + reg.logConfigs.Keys
      && r.closed == reg.closed + reg.openFiles
      && (forall f :: multiset(r.closed)[f] == multiset(reg.closed)[f] + (if f in reg.openFiles then 1 else 0))
      && reg.openFiles <= r.openFiles
      && Loaded(reg.(channels := map[], closed := reg.closed + reg.openFiles), r)
  {
    var cleared := reg.(channels := map[], closed := reg.closed + reg.openFiles);
    ClearedValid(reg);
    var res := LoadChannels(cleared, order, fs);
    if res.Ok? then ReloadedFacts(reg, cleared, res.value); res else res
  }

  /** Dropping the cache and closing every tracked handle keeps the registry valid,
      and closes each tracked handle exactly once more. */
  lemma ClearedValid(reg: Registry)
    requires reg.Valid()
    ensures reg.(channels := map[], closed := reg.closed + reg.openFiles).Valid()
    ensures forall f :: multiset(reg.closed + reg.openFiles)[f]
                        == multiset(reg.closed)[f] + (if f in reg.openFiles then 1 else 0)
  {
    TrackedOnce(reg.openFiles);
  }

  /** What loading the cleared registry leaves that the reload states directly. */
  lemma ReloadedFacts(reg: Registry, cleared: Registry, r: Registry)
    requires cleared.channels == map[] && cleared.logConfigs == reg.logConfigs
    requires cleared.openFiles == reg.openFiles
    requires LoadedFrame(cleared, r) && LoadedCache(cleared, r)
    requires SameSettings(reg, cleared)
    ensures r.Valid() && SameSettings(reg, r)
    ensures r.channels.Keys == {DefaultChannel} + reg.logConfigs.Keys
    ensures r.closed == cleared.closed
    ensures reg.openFiles <= r.openFiles
  {
  }

  /** Close: close every handle ever tracked; nothing else changes. */
  function Close(reg: Registry): (r: Registry)
    requires reg.Valid()
    ensures r.Valid()
    ensures forall f :: multiset(r.closed)[f] == multiset(reg.closed)[f] + (if f in reg.openFiles then 1 else 0)
    ensures reg.closed <= r.closed
    ensures r.(closed := reg.closed) == reg
  {
    TrackedOnce(reg.openFiles);
    reg.(closed := reg.closed + reg.openFiles)
  }

  /** A list of handles numbered in opening order holds each of them exactly once. */
  lemma {:induction false} TrackedOnce(files: seq<FileId>)
    requires forall i | 0 <= i < |files| :: files[i] == i
    ensures forall f :: multiset(files)[f] == if f in files then 1 else 0
  {
    if files != [] {
      var init := files[..|files| - 1];
      assert files == init + [files[|files| - 1]];
      TrackedOnce(init);
      assert |files| - 1 !in init;
    }
  }

  /** SetLogFields: a copy of the given map, or an empty one for nil. */
  method SetLogFields<V>(f: Option<map<string, V>>) returns (fields: map<string, V>)
    ensures f.None? ==> fields.Keys == {}
    ensures f.Some? ==> fields.Keys == f.value.Keys
    ensures f.Some? ==> forall k | k in fields :: fields[k] == f.value[k]
  {
    fields := map[];
    if f.Some? {
      var rest := f.value.Keys;
      while rest != {}
        invariant rest <= f.value.Keys
        invariant fields.Keys == f.value.Keys - rest
        invariant forall k | k in fields :: fields[k] == f.value[k]
        decreases rest
      {
        var k :| k in rest;
        fields := fields[k := f.value[k]];
        rest := rest - {k};
      }
    }
  }

  /** What the default step leaves for the loop: only the standard logger, the
      "default" entry and possibly one new handle differ from `reg`. */
  lemma DefaultStepFacts(reg: Registry, d: Registry, dl: Option<LoggerId>)
    requires reg.Valid()
    requires DefaultStep(reg, d, dl)
    ensures var primed := Primed(d, dl);
      && SameSettings(reg, primed) && primed.closed == reg.closed
      && |primed.loggers| == |reg.loggers|
      && (forall i | StandardLogger < i < |reg.loggers| :: primed.loggers[i] == reg.loggers[i])
      && reg.openFiles <= primed.openFiles
      && |primed.openFiles| == |reg.openFiles| + DefaultOpens(reg)
      && primed.channels == reg.channels[DefaultChannel := dl]
      && (reg.defLogChannel in reg.logConfigs ==>
            Configured(reg.loggers[StandardLogger], primed.loggers[StandardLogger],
                       reg.logConfigs[reg.defLogChannel], reg.defaultFormat, reg.openFiles))
      && (reg.defLogChannel !in reg.logConfigs ==> primed.loggers[StandardLogger] == reg.loggers[StandardLogger])
      && dl == (if reg.defLogChannel in reg.logConfigs then Some(StandardLogger) else None)
  {
  }

  /** Loaded follows from the default step followed by the loop. */
  lemma LoadedFromEach(reg: Registry, d: Registry, dl: Option<LoggerId>, after: Registry, order: seq<string>)
    requires reg.Valid()
    requires Enumerates(order, reg.logConfigs.Keys)
    requires DefaultStep(reg, d, dl)
    requires LoadedEach(Primed(d, dl), after, order)
    ensures Loaded(reg, after)
  {
    var primed := Primed(d, dl);
    DefaultStepFacts(reg, d, dl);
    FromEachFrame(reg, primed, after, order);
    FromEachCache(reg, primed, dl, after, order);
    FromEachBuilt(reg, primed, after, order);
    FromEachDefault(reg, primed, dl, after, order);
  }

  lemma FromEachFrame(reg: Registry, primed: Registry, after: Registry, order: seq<string>)
    requires Enumerates(order, reg.logConfigs.Keys)
    requires StandardLogger < |reg.loggers|
    requires SameSettings(reg, primed) && primed.closed == reg.closed
    requires |primed.loggers| == |reg.loggers|
    requires forall i | StandardLogger < i < |reg.loggers| :: primed.loggers[i] == reg.loggers[i]
    requires reg.openFiles <= primed.openFiles
    requires |primed.openFiles| == |reg.openFiles| + DefaultOpens(reg)
    requires LoadFrame(primed, after)
    requires |after.openFiles| == |primed.openFiles| + CountSingle(order, primed.logConfigs)
    ensures LoadedFrame(reg, after)
  {
    var cfg := reg.logConfigs;
    CountSingleIsCardinality(order, cfg);
    assert (set n | n in order && cfg[n].driver != DAILY) == SingleNames(cfg);
    assert reg.openFiles <= after.openFiles by {
      assert reg.openFiles == primed.openFiles[..|reg.openFiles|];
      assert primed.openFiles == after.openFiles[..|primed.openFiles|];
    }
    forall i | StandardLogger < i < |reg.loggers| ensures after.loggers[i] == reg.loggers[i] {
      assert after.loggers[i] == after.loggers[..|primed.loggers|][i];
    }
  }

  lemma FromEachCache(reg: Registry, primed: Registry, dl: Option<LoggerId>, after: Registry, order: seq<string>)
    requires Enumerates(order, reg.logConfigs.Keys)
    requires primed.channels == reg.channels[DefaultChannel := dl]
    requires LoadCache(primed, after, order)
    ensures LoadedCache(reg, after)
  {
    assert (set n | n in order) == reg.logConfigs.Keys;
  }

  lemma FromEachBuilt(reg: Registry, primed: Registry, after: Registry, order: seq<string>)
    requires Enumerates(order, reg.logConfigs.Keys)
    requires SameSettings(reg, primed)
    requires |primed.loggers| == |reg.loggers|
    requires reg.openFiles <= primed.openFiles
    requires |after.loggers| == |primed.loggers| + |order|
    requires forall n | n in order :: n in after.channels
    requires LoadPositions(primed, after, order)
    ensures LoadedBuilt(reg, after)
  {
    var cfg := reg.logConfigs;
    forall n | n in cfg
      ensures after.channels[n].Some?
      ensures |reg.loggers| <= after.channels[n].value < |after.loggers|
      ensures Configured(New(), after.loggers[after.channels[n].value], cfg[n], reg.defaultFormat, reg.openFiles)
    {
      var k :| 0 <= k < |order| && order[k] == n;
      ConfiguredAvoidsFewer(New(), after.loggers[|reg.loggers| + k], cfg[n], reg.defaultFormat,
                            reg.openFiles, primed.openFiles);
    }
    FromEachDistinct(reg, primed, after, order);
  }

  /** Different configured names are cached with different loggers. */
  lemma FromEachDistinct(reg: Registry, primed: Registry, after: Registry, order: seq<string>)
    requires Enumerates(order, reg.logConfigs.Keys)
    requires SameSettings(reg, primed)
    requires |primed.loggers| + |order| <= |after.loggers|
    requires forall n | n in order :: n in after.channels
    requires LoadPositions(primed, after, order)
    ensures forall n, m | n in reg.logConfigs && m in reg.logConfigs && n != m ::
      after.channels[n] != after.channels[m]
  {
    forall n, m | n in reg.logConfigs && m in reg.logConfigs && n != m
      ensures after.channels[n] != after.channels[m]
    {
      var k :| 0 <= k < |order| && order[k] == n;
      var j :| 0 <= j < |order| && order[j] == m;
    }
  }

  lemma FromEachDefault(reg: Registry, primed: Registry, dl: Option<LoggerId>, after: Registry, order: seq<string>)
    requires Enumerates(order, reg.logConfigs.Keys)
    requires StandardLogger < |reg.loggers| == |primed.loggers| <= |after.loggers|
    requires after.loggers[..|primed.loggers|] == primed.loggers
    requires primed.channels == reg.channels[DefaultChannel := dl]
    requires LoadCache(primed, after, order)
    requires reg.defLogChannel in reg.logConfigs ==>
      Configured(reg.loggers[StandardLogger], primed.loggers[StandardLogger],
                 reg.logConfigs[reg.defLogChannel], reg.defaultFormat, reg.openFiles)
    requires reg.defLogChannel !in reg.logConfigs ==> primed.loggers[StandardLogger] == reg.loggers[StandardLogger]
    requires dl == (if reg.defLogChannel in reg.logConfigs then Some(StandardLogger) else None)
    ensures DefaultChannel in after.channels
    ensures LoadedDefault(reg, after)
  {
    assert after.loggers[StandardLogger] == after.loggers[..|reg.loggers|][StandardLogger];
  }
}
