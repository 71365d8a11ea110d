/** The bookkeeping every pluggable lookup cache inherits from the abstract
    base class `LookupCache`: a mutable id, an immutable name and
    configuration, a single-slot error cell, and the start/stop delegation
    to the concrete cache's hooks. The registry entries for cache types,
    `Factory` and `Descriptor`, live here too. */
module PluginLookup {
  import opened Wrappers

  /** A Java `Throwable`, reduced to what is observed of it: its class and
      its message, which Java allows to be null. */
  datatype Throwable = Throwable(className: string, message: Option<string>)

  /** A cache configuration: the type discriminator that names a registry
      entry and the type-specific settings. */
  datatype LookupCacheConfiguration = LookupCacheConfiguration(typeName: string, settings: map<string, string>)

  /** How one of a concrete cache's lifecycle hooks ends: normally or by
      throwing. */
  datatype HookOutcome = Completed | Threw(exception: Throwable)

  /** The concrete cache's `doStart`/`doStop` hooks, which the base class
      declares abstract, represented by their outcomes. */
  datatype LifecycleHooks = LifecycleHooks(doStart: HookOutcome, doStop: HookOutcome)

  class LookupCache {
    /** The record id; `setId` replaces it and Java allows it to be null. */
    var id: Option<string>
    /** Final in the source: set once by the constructor. */
    const name: string
    const config: LookupCacheConfiguration
    /** The error cell: empty means "no error". */
    var error: Option<Throwable>
    /** What the concrete subclass does on start and stop. */
    const hooks: LifecycleHooks

    /** A new cache has the given identity and reports no error. */
    constructor (id: Option<string>, name: string, config: LookupCacheConfiguration, hooks: LifecycleHooks)
      ensures this.id == id && this.name == name && this.config == config && this.hooks == hooks
      ensures error == None
    {
      this.id := id;
      this.name := name;
      this.config := config;
      this.hooks := hooks;
      error := None;
    }

    /** `startUp` does exactly what `doStart` does, its exception included,
        and touches none of the base class's fields. */
    method StartUp() returns (outcome: HookOutcome)
      ensures outcome == hooks.doStart
    {
      outcome := hooks.doStart;
    }

    /** `shutDown` does exactly what `doStop` does, its exception included,
        and touches none of the base class's fields. */
    method ShutDown() returns (outcome: HookOutcome)
      ensures outcome == hooks.doStop
    {
      outcome := hooks.doStop;
    }

    /** Empties the error cell, whatever it held; nothing else changes. */
    method ClearError()
      modifies this`error
      ensures error == None
      ensures id == old(id)
    {
      error := None;
    }

    /** The current content of the error cell. */
    method GetError() returns (e: Option<Throwable>)
      ensures e == error
    {
      e := error;
    }

    /** Overwrites the error cell with `throwable` (the last write wins);
        a null throwable, `None` here, reads back as no error. */
    method SetError(throwable: Option<Throwable>)
      modifies this`error
      ensures error == throwable
      ensures id == old(id)
    {
      error := throwable;
    }

    method Id() returns (r: Option<string>)
      ensures r == id
    {
      r := id;
    }

    /** Replaces the id; the error cell is left as it was. */
    method SetId(id: Option<string>)
      modifies this`id
      ensures this.id == id
      ensures error == old(error)
    {
      this.id := id;
    }
  }

  /** A cache type's advertised metadata: its type name, the name of its
      configuration class and its default configuration. */
  datatype Descriptor = Descriptor(typeName: string, configClass: string, defaultConfig: LookupCacheConfiguration)

  /** A registry entry for one cache type: its descriptor and the hooks of
      the caches it builds. */
  datatype Factory = Factory(descriptor: Descriptor, hooks: LifecycleHooks)

  /** `Factory.create`: a fresh cache with the given identity, the factory's
      hooks and an empty error cell. */
  method Create(factory: Factory, id: string, name: string, config: LookupCacheConfiguration) returns (cache: LookupCache)
    ensures fresh(cache)
    ensures cache.id == Some(id) && cache.name == name && cache.config == config
    ensures cache.hooks == factory.hooks && cache.error == None
  {
    cache := new LookupCache(Some(id), name, config, factory.hooks);
  }
}
