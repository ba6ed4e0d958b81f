/**
 * MemoryLoggerProvider: the registry of one logger per category name, and
 * the reload protocol that recomputes every logger's filter when the
 * settings' change token fires.
 */
module Provider {
  import opened Wrappers
  import opened Settings
  import opened Filters

  /** The exceptions the provider's code can raise. */
  datatype ProviderError =
    | ArgumentNull    // constructing from null settings
    | NullReference   // creating a logger while the settings are null

  /**
   * A MemoryLogger as far as the provider sees it: its name, its current
   * filter (replaced in place on reload) and the record capacity it was
   * given. Its record buffer is not part of this model.
   */
  class MemoryLogger {
    const name: string
    var filter: Filter
    const maxLogCount: int

    constructor (name: string, filter: Filter, maxLogCount: int)
      ensures this.name == name && this.filter == filter && this.maxLogCount == maxLogCount
    {
      this.name := name;
      this.filter := filter;
      this.maxLogCount := maxLogCount;
    }
  }

  class MemoryLoggerProvider {
    /** _loggers: category name to its one logger. */
    var loggers: map<string, MemoryLogger>
    /** _filter: the explicit filter, None when null. */
    const explicitFilter: Option<ExplicitFilter>
    /** _settings: the current snapshot, None when null. */
    var settings: Option<Snapshot>
    /** Whether OnConfigurationReload is registered on the current snapshot's change token. */
    var armed: bool

    /**
     * Every logger is registered under its own name and carries the filter
     * GetFilter gives its name under the current settings; a callback is
     * registered exactly when the current settings are non-null and have a
     * change token.
     */
    ghost predicate Valid()
      reads this, loggers.Values
    {
      && (forall n :: n in loggers ==> loggers[n].name == n)
      && (forall n :: n in loggers ==> loggers[n].filter == GetFilter(explicitFilter, n, settings))
      && (armed <==> settings.Some? && settings.value.hasChangeToken)
    }

    /** MemoryLoggerProvider(filter, maxLogCount): settings built from maxLogCount alone, never armed. */
    constructor WithFilter(filter: Option<ExplicitFilter>, maxLogCount: int := 200)
      ensures Valid()
      ensures loggers == map[] && explicitFilter == filter
      ensures settings == Some(DefaultSettings(maxLogCount)) && !armed
    {
      loggers := map[];
      explicitFilter := filter;
      settings := Some(DefaultSettings(maxLogCount));
      armed := false;
    }

    /** MemoryLoggerProvider(settings) for non-null settings: armed when they have a change token. */
    constructor WithSettings(s: Snapshot)
      ensures Valid()
      ensures loggers == map[] && explicitFilter == None
      ensures settings == Some(s) && (armed <==> s.hasChangeToken)
    {
      loggers := map[];
      explicitFilter := None;
      settings := Some(s);
      armed := s.hasChangeToken;
    }

    /** MemoryLoggerProvider(settings): throws ArgumentNullException for null settings. */
    static method FromSettings(settings: Option<Snapshot>) returns (r: Result<MemoryLoggerProvider, ProviderError>)
      ensures r.Failure? <==> settings.None?
      ensures r.Failure? ==> r.error == ArgumentNull
      ensures r.Success? ==>
                && fresh(r.value) && r.value.Valid()
                && r.value.loggers == map[] && r.value.explicitFilter == None
                && r.value.settings == settings
                && (r.value.armed <==> settings.value.hasChangeToken)
    {
      if settings.None? {
        return Failure(ArgumentNull);
      }
      var p := new MemoryLoggerProvider.WithSettings(settings.value);
      return Success(p);
    }

    /**
     * CreateLoggerImplementation: a new logger for name with the resolved
     * filter and the settings' MaxLogCount; reading MaxLogCount from null
     * settings throws.
     */
    method CreateLoggerImplementation(name: string) returns (r: Result<MemoryLogger, ProviderError>)
      ensures r.Failure? <==> settings.None?
      ensures r.Failure? ==> r.error == NullReference
      ensures r.Success? ==>
                && fresh(r.value) && r.value.name == name
                && r.value.filter == GetFilter(explicitFilter, name, settings)
                && r.value.maxLogCount == settings.value.maxLogCount
    {
      var filter := GetFilter(explicitFilter, name, settings);
      if settings.None? {
        return Failure(NullReference);
      }
      var logger := new MemoryLogger(name, filter, settings.value.maxLogCount);
      return Success(logger);
    }

    /**
     * CreateLogger: get-or-add. A registered name gets its logger back with
     * nothing changed; an unregistered one gets a fresh logger, which is
     * added, unless creating it throws, in which case nothing is added.
     */
    method CreateLogger(name: string) returns (r: Result<MemoryLogger, ProviderError>)
      requires Valid()
      modifies this
      ensures Valid()
      ensures settings == old(settings) && armed == old(armed)
      ensures forall n :: n in old(loggers) ==> n in loggers && loggers[n] == old(loggers[n])
      ensures name in old(loggers) ==> r == Success(old(loggers[name])) && loggers == old(loggers)
      ensures name !in old(loggers) && settings.None? ==>
                r == Failure(NullReference) && loggers == old(loggers)
      ensures name !in old(loggers) && settings.Some? ==>
                && r.Success? && fresh(r.value)
                && loggers == old(loggers)[name := r.value]
                && r.value.name == name
                && r.value.filter == GetFilter(explicitFilter, name, settings)
                && r.value.maxLogCount == settings.value.maxLogCount
      ensures r.Success? ==> name in loggers && loggers[name] == r.value
    {
      if name in loggers {
        return Success(loggers[name]);
      }
      r := CreateLoggerImplementation(name);
      if r.Success? {
        loggers := loggers[name := r.value];
      }
    }

    /**
     * OnConfigurationReload: replace the settings by what Reload() returns,
     * give every registered logger the filter resolved under the new
     * settings, and re-register only when the new settings have a token.
     */
    method OnConfigurationReload()
      requires Valid() && armed
      modifies this, loggers.Values
      ensures Valid()
      ensures loggers == old(loggers)
      ensures settings == old(settings.value.reloaded)
      ensures forall n :: n in loggers ==> loggers[n].filter == GetFilter(explicitFilter, n, settings)
      ensures explicitFilter.None? && settings.None? ==>
                forall n :: n in loggers ==> loggers[n].filter == DenyAll
      ensures armed <==> settings.Some? && settings.value.hasChangeToken
    {
      settings := settings.value.reloaded;
      var pending := loggers.Values;
      while pending != {}
        invariant pending <= loggers.Values
        invariant loggers == old(loggers) && settings == old(settings.value.reloaded)
        invariant forall n :: n in loggers && loggers[n] !in pending ==>
                    loggers[n].filter == GetFilter(explicitFilter, n, settings)
        decreases pending
      {
        var logger :| logger in pending;
        logger.filter := GetFilter(explicitFilter, logger.name, settings);
        pending := pending - {logger};
      }
      armed := settings.Some? && settings.value.hasChangeToken;
    }

    /**
     * The configuration changes: the change token runs the callback if one
     * is registered; otherwise nothing happens, so once a reload produced
     * settings without a token, later changes recompute nothing.
     */
    method ConfigurationChanged()
      requires Valid()
      modifies this, loggers.Values
      ensures Valid()
      ensures loggers == old(loggers)
      ensures old(armed) ==> settings == old(settings.value.reloaded)
      ensures !old(armed) ==> settings == old(settings) && !armed
      ensures !old(armed) ==> forall n :: n in loggers ==> loggers[n].filter == old(loggers[n].filter)
    {
      if armed {
        OnConfigurationReload();
      }
    }

    /** Dispose: does nothing. */
    method Dispose()
      requires Valid()
      ensures Valid()
      ensures loggers == old(loggers) && settings == old(settings) && armed == old(armed)
    {
    }
  }

  /**
   * Calling CreateLogger twice with one name yields one logger and a single
   * entry, whose filter is still the one resolved under the unchanged settings.
   */
  method CreateLoggerTwice(p: MemoryLoggerProvider, name: string)
      returns (first: Result<MemoryLogger, ProviderError>, second: Result<MemoryLogger, ProviderError>)
    requires p.Valid()
    modifies p
    ensures p.Valid()
    ensures first.Success? ==> second == first
    ensures first.Success? ==> p.loggers == old(p.loggers)[name := first.value]
    ensures p.settings == old(p.settings)
    ensures first.Success? ==> first.value.filter == GetFilter(p.explicitFilter, name, old(p.settings))
  {
    first := p.CreateLogger(name);
    ghost var between := p.loggers;
    second := p.CreateLogger(name);
    assert first.Success? ==> p.loggers == between;
  }

  /**
   * A logger for "A" at Warning accepts a Warning record; after a reload that
   * sets "A" to Error the same logger rejects it but accepts Error. The
   * reloaded settings have no token, so a further change alters nothing: the
   * settings stay the reloaded ones and the logger still accepts Error, which
   * a reload to null settings (deny-all) would not.
   */
  method ReloadPropagationExample()
      returns (before: bool, after: bool, errorAfterSecondChange: bool, finalSettings: Option<Snapshot>)
    ensures before && !after && errorAfterSecondChange
    ensures finalSettings == Some(Snapshot(200, map["A" := Error], false, None))
  {
    var next := Snapshot(200, map["A" := Error], false, None);
    var first := Snapshot(200, map["A" := Warning], true, Some(next));
    var created := MemoryLoggerProvider.FromSettings(Some(first));
    var p := created.value;
    var made := p.CreateLogger("A");
    var logger := made.value;
    FullNameWins("A", first);
    before := Eval(logger.filter, "A", Warning);
    p.ConfigurationChanged();
    FullNameWins("A", next);
    after := Eval(logger.filter, "A", Warning);
    p.ConfigurationChanged();
    errorAfterSecondChange := Eval(logger.filter, "A", Error);
    finalSettings := p.settings;
  }
}
