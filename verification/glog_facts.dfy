/**
 Properties of the channel registry that relate several operations: lookups
 are memoised, unknown names resolve like "default", loading and reloading
 fix which names are cached, and handles are closed again on every reload.
 */
module GlogFacts {
  import opened Logrus
  import opened Glog

  /** The package starts out in a valid state. */
  lemma InitialValid()
    ensures Initial.Valid()
    ensures Initial.defLogChannel == DefaultChannel && Initial.channels == map[] && Initial.openFiles == []
  {
  }

  /** Host code may assign the configuration table, the default channel name and the
      default formatter at any time without breaking the registry's invariant. */
  lemma SettingsKeepValid(reg: Registry, cfg: map<string, Log>, defLog: string, format: Formatter)
    requires reg.Valid()
    ensures reg.(logConfigs := cfg, defLogChannel := defLog, defaultFormat := format).Valid()
  {
  }

  /** A second lookup of the same name, with nothing in between, returns the same
      logger and changes nothing. */
  lemma ChannelIdempotent(reg: Registry, name: string, fs: FileSystem)
    requires reg.Valid()
    requires Channel(reg, name, fs).Ok?
    ensures Channel(Channel(reg, name, fs).value.reg, name, fs) == Channel(reg, name, fs)
  {
  }

  /** A lookup never replaces a cache entry and never touches an existing logger. */
  lemma ChannelKeepsEntries(reg: Registry, name: string, fs: FileSystem)
    requires reg.Valid()
    requires Channel(reg, name, fs).Ok?
    ensures var r := Channel(reg, name, fs).value.reg;
      && (forall n | n in reg.channels :: n in r.channels && r.channels[n] == reg.channels[n])
      && |reg.loggers| <= |r.loggers| && r.loggers[..|reg.loggers|] == reg.loggers
      && reg.openFiles <= r.openFiles
      && r.closed == reg.closed
  {
  }

  /** An entry that is present but nil still counts as cached: "default" stays nil
      even when a "default" configuration exists. */
  lemma NilDefaultIsHit(reg: Registry, fs: FileSystem)
    requires reg.Valid()
    requires DefaultChannel in reg.channels && reg.channels[DefaultChannel] == None
    ensures Def(reg, fs) == Ok(Lookup(reg, None))
    ensures forall n | n !in reg.channels && n !in reg.logConfigs :: Channel(reg, n, fs) == Ok(Lookup(reg, None))
  {
  }

  /** Once the default channel has been resolved, an unconfigured name resolves to the
      same logger, again and again, without changing anything. */
  lemma UnknownAfterDef(reg: Registry, name: string, fs: FileSystem)
    requires reg.Valid()
    requires Def(reg, fs).Ok?
    requires name !in Def(reg, fs).value.reg.channels && name !in reg.logConfigs
    ensures var d := Def(reg, fs).value;
      Channel(d.reg, name, fs) == Ok(Lookup(d.reg, d.logger))
  {
  }

  /** After loading, every configured name is a cache hit for a logger set to the
      configured level, and nothing is rebuilt by looking it up. */
  lemma LoadedNamesAreHits(reg: Registry, order: seq<string>, fs: FileSystem)
    requires reg.Valid()
    requires Enumerates(order, reg.logConfigs.Keys)
    requires LoadChannels(reg, order, fs).Ok?
    ensures var r := LoadChannels(reg, order, fs).value;
      forall n | n in reg.logConfigs ::
        && Channel(r, n, fs) == Ok(Lookup(r, r.channels[n]))
        && r.channels[n].Some?
        && r.channels[n].value < |r.loggers|
        && r.loggers[r.channels[n].value].level == reg.logConfigs[n].level
  {
  }

  /** After loading, a name that is not cached resolves to whatever the default
      channel resolves to, and neither lookup changes anything. */
  lemma UnknownFollowsDefaultAfterLoad(reg: Registry, order: seq<string>, name: string, fs: FileSystem)
    requires reg.Valid()
    requires Enumerates(order, reg.logConfigs.Keys)
    requires LoadChannels(reg, order, fs).Ok?
    requires name !in LoadChannels(reg, order, fs).value.channels
    ensures var r := LoadChannels(reg, order, fs).value;
      && Channel(r, name, fs) == Def(r, fs)
      && Def(r, fs) == Ok(Lookup(r, r.channels[DefaultChannel]))
  {
  }

  /** After a reload only "default" and the configured names are cached, so a name
      cached before but no longer configured now falls back to "default". */
  lemma ReloadDropsStale(reg: Registry, order: seq<string>, name: string, fs: FileSystem)
    requires reg.Valid()
    requires Enumerates(order, reg.logConfigs.Keys)
    requires ReloadChannels(reg, order, fs).Ok?
    requires name != DefaultChannel && name !in reg.logConfigs
    ensures var r := ReloadChannels(reg, order, fs).value;
      && name !in r.channels
      && Channel(r, name, fs) == Ok(Lookup(r, r.channels[DefaultChannel]))
  {
  }

  /** A reload gives every configured channel a new logger instance, different from
      whatever was cached for it before. */
  lemma ReloadRebuilds(reg: Registry, order: seq<string>, fs: FileSystem)
    requires reg.Valid()
    requires Enumerates(order, reg.logConfigs.Keys)
    requires ReloadChannels(reg, order, fs).Ok?
    ensures var r := ReloadChannels(reg, order, fs).value;
      forall n | n in reg.logConfigs && n in reg.channels :: r.channels[n] != reg.channels[n]
  {
  }

  /** A reload in which no channel fails succeeds, keeps the table and the
      invariant, only extends the tracked list, and closes each tracked handle once more. */
  lemma ReloadSucceeds(reg: Registry, order: seq<string>, fs: FileSystem)
    requires reg.Valid()
    requires Enumerates(order, reg.logConfigs.Keys)
    requires forall n | n in reg.logConfigs :: !Fails(reg.logConfigs[n], fs)
    ensures ReloadChannels(reg, order, fs).Ok?
    ensures var r := ReloadChannels(reg, order, fs).value;
      && r.Valid() && r.logConfigs == reg.logConfigs
      && reg.openFiles <= r.openFiles
      && (forall f | f in reg.openFiles :: multiset(r.closed)[f] == multiset(reg.closed)[f] + 1)
  {
  }

  /** The tracked list is never emptied, so a second reload closes every handle of
      the first one again, whichever order each reload visits the table in: when no
      channel fails to build, both reloads succeed and each handle tracked before
      them is closed twice more. */
  lemma ReloadTwiceClosesTwice(reg: Registry, order1: seq<string>, order2: seq<string>, fs: FileSystem)
    requires reg.Valid()
    requires Enumerates(order1, reg.logConfigs.Keys) && Enumerates(order2, reg.logConfigs.Keys)
    requires forall n | n in reg.logConfigs :: !Fails(reg.logConfigs[n], fs)
    ensures ReloadChannels(reg, order1, fs).Ok?
    ensures ReloadChannels(ReloadChannels(reg, order1, fs).value, order2, fs).Ok?
    ensures var r2 := ReloadChannels(ReloadChannels(reg, order1, fs).value, order2, fs).value;
      forall f | f in reg.openFiles :: multiset(r2.closed)[f] == multiset(reg.closed)[f] + 2
  {
    ReloadSucceeds(reg, order1, fs);
    var r1 := ReloadChannels(reg, order1, fs).value;
    ReloadSucceeds(r1, order2, fs);
    var r2 := ReloadChannels(r1, order2, fs).value;
    forall f | f in reg.openFiles ensures multiset(r2.closed)[f] == multiset(reg.closed)[f] + 2 {
      assert f in r1.openFiles;
    }
  }

  /** The standard logger is configured again on every reload, and hooks are only
      ever added to it: with only a DAILY "default" channel configured, each reload
      appends the configured hooks and one more rotation hook to those it already has. */
  lemma StandardHooksAccumulate(reg: Registry, c: Log, fs: FileSystem)
    requires reg.Valid()
    requires reg.defLogChannel == DefaultChannel && reg.logConfigs == map[DefaultChannel := c]
    requires c.driver == DAILY
    ensures ReloadChannels(reg, [DefaultChannel], fs).Ok?
    ensures var r := ReloadChannels(reg, [DefaultChannel], fs).value;
      && r.loggers[StandardLogger].hooks
           == reg.loggers[StandardLogger].hooks + c.hooks + [LfsHook(c.path, DailyRetention, ChosenFormat(c, reg.defaultFormat))]
      && r.Valid() && SameSettings(reg, r)
  {
    var cleared := reg.(channels := map[], closed := reg.closed + reg.openFiles);
    assert !Fails(c, fs);
    var r := ReloadChannels(reg, [DefaultChannel], fs).value;
    assert LoadedDefault(cleared, r);
  }

  /** When the only configured channel is a single-file "default" that is also the
      default channel name, loading opens two handles for the same path: one for the
      standard logger and one for the logger cached under "default", which replaces it there. */
  lemma DefaultSingleOpensTwice(reg: Registry, c: Log, fs: FileSystem)
    requires reg.Valid()
    requires reg.defLogChannel == DefaultChannel && reg.logConfigs == map[DefaultChannel := c]
    requires c.driver != DAILY && c.path !in fs.mkdirFails && c.path !in fs.openFails
    ensures LoadChannels(reg, [DefaultChannel], fs).Ok?
    ensures var r := LoadChannels(reg, [DefaultChannel], fs).value;
      && |r.openFiles| == |reg.openFiles| + 2
      && r.channels[DefaultChannel] != Some(StandardLogger)
      && r.loggers[StandardLogger].out.ToFile? && r.loggers[StandardLogger].out.file !in reg.openFiles
      && r.loggers[StandardLogger].out.path == c.path
      && r.channels[DefaultChannel].Some? && r.channels[DefaultChannel].value < |r.loggers|
      && var own := r.loggers[r.channels[DefaultChannel].value].out;
         && own.ToFile? && own.file !in reg.openFiles && own.path == c.path
         && own.file != r.loggers[StandardLogger].out.file
  {
    assert SingleNames(reg.logConfigs) == {DefaultChannel};
  }

  /** After Close every file any logger writes to has been closed. */
  lemma CloseCoversOutputs(reg: Registry)
    requires reg.Valid()
    ensures forall i | 0 <= i < |reg.loggers| && reg.loggers[i].out.ToFile? ::
      reg.loggers[i].out.file in Close(reg).closed
  {
  }

  /** The retention configured in `days` has no effect on what is built. */
  lemma DaysIgnored(reg: Registry, l: LoggerId, c: Log, days: int, fs: FileSystem)
    requires reg.Valid() && l < |reg.loggers|
    ensures Config(reg, l, c.(days := days), fs) == Config(reg, l, c, fs)
  {
  }

  /** Every driver value other than DAILY builds exactly what SINGLE builds. */
  lemma OtherDriversAreSingle(reg: Registry, l: LoggerId, c: Log, driver: nat, fs: FileSystem)
    requires reg.Valid() && l < |reg.loggers|
    requires driver != DAILY
    ensures Config(reg, l, c.(driver := driver), fs) == Config(reg, l, c.(driver := SINGLE), fs)
  {
  }

  /** The order in which the table is visited does not decide whether loading panics,
      which names get cached, how many handles are opened, or what the standard logger becomes. */
  lemma LoadOrderIrrelevant(reg: Registry, order1: seq<string>, order2: seq<string>, fs: FileSystem)
    requires reg.Valid()
    requires Enumerates(order1, reg.logConfigs.Keys) && Enumerates(order2, reg.logConfigs.Keys)
    ensures LoadChannels(reg, order1, fs).Ok? == LoadChannels(reg, order2, fs).Ok?
    ensures LoadChannels(reg, order1, fs).Ok? ==>
      var r1 := LoadChannels(reg, order1, fs).value;
      var r2 := LoadChannels(reg, order2, fs).value;
      && r1.channels.Keys == r2.channels.Keys
      && |r1.openFiles| == |r2.openFiles|
      && r1.loggers[StandardLogger] == r2.loggers[StandardLogger]
  {
    var l1 := LoadChannels(reg, order1, fs);
    var l2 := LoadChannels(reg, order2, fs);
    if l1.Ok? && l2.Ok? {
      assert LoadedCache(reg, l1.value) && LoadedCache(reg, l2.value);
      assert LoadedFrame(reg, l1.value) && LoadedFrame(reg, l2.value);
    }
  }
}
