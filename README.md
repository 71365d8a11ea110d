# Graylog lookup tables: cache bookkeeping and management rules

This project models two sequential cores of Graylog's lookup-table
subsystem and proves properties of the model in Dafny.

**The `LookupCache` base class** (`plugin_lookup.dfy`, module
`PluginLookup`). Every pluggable cache inherits the same small state: a
mutable record id, a final name and configuration, and a single-slot error
cell. `LookupCache` is a class with those fields. `setError`, `clearError`
and `setId` change exactly one field each (their `modifies` frames name only
that field). `startUp`/`shutDown` delegate to the concrete cache's
`doStart`/`doStop`. The concrete cache is represented by the outcome of each
hook (`LifecycleHooks`). A cache type's registry entry is a `Factory` value: a
`Descriptor` (type name, configuration class, default configuration) plus the
hooks of the caches it builds. `Create` builds a fresh cache with an empty
error cell.

**The management resource** (`lookup_table_resource.dfy`, module
`LookupResource`). `LookupTableResource` is a class. Its fields are the three
configuration stores and the cluster event bus, which is an append-only
sequence of events. Each endpoint is a method:

- The listings normalise their sort field and direction.
- The validators check name uniqueness, excluding the record's own id, and
  then append the configuration's own messages.
- Delete of an adapter or cache is guarded: not found, then in use, then
  remove and post one event.
- Table delete has no in-use check.
- Create and update post one event, and only after a successful save.
- `ErrorStates` builds the error report from the live instances.
- `PerformAdapterLookup` asks the live adapter directly, with no cache on the
  path.

Two modules stand in for collaborators whose code is not part of this model:

- `ConfigStore` (`config_store.dfy`) models the database services
  (`DBLookupTableService`, `DBDataAdapterService`, `DBCacheService`). A store
  is a map from id to record plus a unique name index. Its `Valid()`
  invariant says each record sits under its own id and the name index agrees
  with the records. The model assumes that `get(idOrName)` and
  `delete(idOrName)` first try the argument as an id and then as a name. It
  assumes that `save` upserts under the record's id, or inserts under a
  database-generated id (the `freshId` parameter), and fails with a
  duplicate key when that fresh id is taken or another record has the name.
- `LiveLookup` (`lookup_service.dfy`) models `LookupTableService`. It holds
  the live tables, adapters and caches by name. The caches are
  `PluginLookup.LookupCache` objects. `getDataAdapters`/`getCaches` return
  the live instance of each requested name that has one.

`wrappers.dfy` holds `Option` and `Result`. These stand for Java's nullable
values and `Optional`, and for the exceptions the resource throws (`NotFound`,
`BadRequest`, and `Unhandled` for an exception it does not catch).

## Model

| member | source | states |
|---|---|---|
| `PluginLookup.LookupCache.constructor` | graylog2-server/src/main/java/org/graylog2/plugin/lookup/LookupCache.java:37-45 | a new cache has the given id, name and configuration, and its error cell is empty |
| `PluginLookup.LookupCache.StartUp` | graylog2-server/src/main/java/org/graylog2/plugin/lookup/LookupCache.java:47-52 | the outcome of start-up is exactly that of `doStart`, thrown exception included; no base-class field changes |
| `PluginLookup.LookupCache.ShutDown` | graylog2-server/src/main/java/org/graylog2/plugin/lookup/LookupCache.java:54-59 | the outcome of shut-down is exactly that of `doStop`, thrown exception included; no base-class field changes |
| `PluginLookup.LookupCache.ClearError` | graylog2-server/src/main/java/org/graylog2/plugin/lookup/LookupCache.java:61-63 | afterwards the error cell is empty, whatever it held, so clearing twice is clearing once; only the error cell may change, so id, name and config are kept |
| `PluginLookup.LookupCache.GetError` | graylog2-server/src/main/java/org/graylog2/plugin/lookup/LookupCache.java:65-67 | returns exactly the content of the error cell, empty when there is no error |
| `PluginLookup.LookupCache.SetError` | graylog2-server/src/main/java/org/graylog2/plugin/lookup/LookupCache.java:69-71 | afterwards the cell holds exactly the given throwable, whatever it held before (last write wins); a null throwable reads back as no error; id, name and config are kept |
| `PluginLookup.LookupCache.Id` | graylog2-server/src/main/java/org/graylog2/plugin/lookup/LookupCache.java:73-76 | returns the current id, possibly null |
| `PluginLookup.LookupCache.SetId` | graylog2-server/src/main/java/org/graylog2/plugin/lookup/LookupCache.java:78-80 | afterwards `id` is the given value; the error cell is kept, and name and config are `const` |
| `PluginLookup.Create` | graylog2-server/src/main/java/org/graylog2/plugin/lookup/LookupCache.java:98-102 | the factory builds a fresh cache with exactly the given id, name and configuration, the factory's hooks, and no error |
| `ConfigStore.Store.Resolve` | graylog2-server/src/main/java/org/graylog2/rest/resources/system/lookup/LookupTableResource.java:470 | an id-or-name designates a stored id: the argument itself when it is stored as an id, else the id of the record with that name, else nothing |
| `ConfigStore.Store.Get` | graylog2-server/src/main/java/org/graylog2/rest/resources/system/lookup/LookupTableResource.java:470 | `get(idOrName)` finds a record exactly when `Resolve` designates one, and it is that record |
| `ConfigStore.Store.Delete` | graylog2-server/src/main/java/org/graylog2/rest/resources/system/lookup/LookupTableResource.java:479 | `delete(idOrName)` removes exactly the designated record, or nothing when none is designated |
| `ConfigStore.Store.Save` | graylog2-server/src/main/java/org/graylog2/rest/resources/system/lookup/LookupTableResource.java:456 | a successful save returns the record with its id filled in and stores it under that id; every other record stays as it was |
| `ConfigStore.DeleteKeepsValid` | graylog2-server/src/main/java/org/graylog2/rest/resources/system/lookup/LookupTableResource.java:479 | deleting keeps ids and the name index consistent |
| `ConfigStore.SaveKeepsValid` | graylog2-server/src/main/java/org/graylog2/rest/resources/system/lookup/LookupTableResource.java:456 | a successful save keeps ids and the name index consistent, and names unique |
| `ConfigStore.SaveFailsOnlyOnDuplicate` | graylog2-server/src/main/java/org/graylog2/rest/resources/system/lookup/LookupTableResource.java:454-462 | a save fails, raising `DuplicateKeyException`, if and only if the generated id is taken or another record already has the name |
| `ConfigStore.GetAfterDelete` | graylog2-server/src/main/java/org/graylog2/rest/resources/system/lookup/LookupTableResource.java:479 | after `delete(x)`, `get(x)` finds nothing, except when x was the deleted record's id and is another record's name |
| `ConfigStore.GetAfterSave` | graylog2-server/src/main/java/org/graylog2/rest/resources/system/lookup/LookupTableResource.java:456 | after a successful save the record is found under its id, and under its name unless that name is another record's id |
| `LiveLookup.LookupService.Table` | graylog2-server/src/main/java/org/graylog2/rest/resources/system/lookup/LookupTableResource.java:403 | the table builder gives a live table exactly when one of that name is live, and it is that table |
| `LiveLookup.LookupService.GetDataAdapters` | graylog2-server/src/main/java/org/graylog2/rest/resources/system/lookup/LookupTableResource.java:410 | every returned adapter is the live adapter of a requested name, and every requested name that is live occurs; never more adapters than names |
| `LiveLookup.LookupService.GetCaches` | graylog2-server/src/main/java/org/graylog2/rest/resources/system/lookup/LookupTableResource.java:415 | every returned cache is the live cache of a requested name, and every requested name that is live occurs; never more caches than names |
| `LookupResource.EqualsIgnoreCaseIffSameLower` | graylog2-server/src/main/java/org/graylog2/rest/resources/system/lookup/LookupTableResource.java:203 | `equalsIgnoreCase` with its per-character rule holds exactly when the lower-cased strings are equal |
| `LookupResource.IsDescending` | graylog2-server/src/main/java/org/graylog2/rest/resources/system/lookup/LookupTableResource.java:203-207 | the direction is descending if and only if `order` is non-null and lower-cases to "desc"; null and every other value give ascending |
| `LookupResource.TablesSort` | graylog2-server/src/main/java/org/graylog2/rest/resources/system/lookup/LookupTableResource.java:199-207 | the sort field is always allowed once lower-cased; it is the given `sort`, unchanged and not lower-cased, exactly when its lower-cased form is allowed, and otherwise the title field; the direction is as in `IsDescending` |
| `LookupResource.AdaptersSort` | graylog2-server/src/main/java/org/graylog2/rest/resources/system/lookup/LookupTableResource.java:359-367 | the same normalisation for the adapter listing |
| `LookupResource.CachesSort` | graylog2-server/src/main/java/org/graylog2/rest/resources/system/lookup/LookupTableResource.java:553-561 | the same normalisation for the cache listing |
| `LookupResource.NormalizedSortFieldIsStable` | graylog2-server/src/main/java/org/graylog2/rest/resources/system/lookup/LookupTableResource.java:199-201 | a normalised sort field is kept unchanged when normalised again |
| `LookupResource.AddError` | graylog2-server/src/main/java/org/graylog2/rest/resources/system/lookup/LookupTableResource.java:511 | one message is appended to the given field; every other field keeps its messages |
| `LookupResource.AddAll` | graylog2-server/src/main/java/org/graylog2/rest/resources/system/lookup/LookupTableResource.java:515-516 | every field's messages become the old ones followed by the entries' messages for that field, in order |
| `LookupResource.NameInUseIff` | graylog2-server/src/main/java/org/graylog2/rest/resources/system/lookup/LookupTableResource.java:504-513 | when the submitted name is not itself a stored id, the name is reported in use if and only if a stored record has the name and its id differs from the submitted id; an absent submitted id counts as different |
| `LookupResource.NameMatchingAnIdIsCheckedById` | graylog2-server/src/main/java/org/graylog2/rest/resources/system/lookup/LookupTableResource.java:504-509 | when the submitted name is a stored id, the check compares against that record, and reports in use exactly when the submitted id is another one |
| `LookupResource.AvailableAdapterTypes` | graylog2-server/src/main/java/org/graylog2/rest/resources/system/lookup/LookupTableResource.java:385-391 | every factory's descriptor is listed under its type name, and every entry is some factory's descriptor under its own type name; the collection fails if and only if two factories share a type name |
| `LookupResource.AvailableCacheTypes` | graylog2-server/src/main/java/org/graylog2/rest/resources/system/lookup/LookupTableResource.java:580-585 | the same for the cache factories |
| `LookupResource.TableErrors` | graylog2-server/src/main/java/org/graylog2/rest/resources/system/lookup/LookupTableResource.java:399-408 | an entry exists exactly for each requested name whose table is live, and holds that table's error |
| `LookupResource.AdapterErrors` | graylog2-server/src/main/java/org/graylog2/rest/resources/system/lookup/LookupTableResource.java:409-413 | an entry exists exactly for each requested name with a live adapter, and holds that adapter's error message, or null |
| `LookupResource.CacheErrors` | graylog2-server/src/main/java/org/graylog2/rest/resources/system/lookup/LookupTableResource.java:414-418 | an entry exists exactly for each requested name with a live cache, and holds that cache's error message, or null |
| `LookupResource.LookupTableResource.constructor` | graylog2-server/src/main/java/org/graylog2/rest/resources/system/lookup/LookupTableResource.java:157-174 | the resource starts over the given stores and live registry, with no event posted |
| `LookupResource.LookupTableResource.GetTable` | graylog2-server/src/main/java/org/graylog2/rest/resources/system/lookup/LookupTableResource.java:246-250 | not found exactly when the id or name designates no table, otherwise that table |
| `LookupResource.LookupTableResource.GetAdapter` | graylog2-server/src/main/java/org/graylog2/rest/resources/system/lookup/LookupTableResource.java:425-431 | not found exactly when the id or name designates no adapter, otherwise that adapter |
| `LookupResource.LookupTableResource.GetCache` | graylog2-server/src/main/java/org/graylog2/rest/resources/system/lookup/LookupTableResource.java:590-596 | not found exactly when the id or name designates no cache, otherwise that cache |
| `LookupResource.LookupTableResource.CreateTable` | graylog2-server/src/main/java/org/graylog2/rest/resources/system/lookup/LookupTableResource.java:273-284 | a duplicate key gives a bad request and leaves stores and bus unchanged; a successful save stores the record, posts exactly one update event carrying the saved record, and returns it; the other stores never change |
| `LookupResource.LookupTableResource.UpdateTable` | graylog2-server/src/main/java/org/graylog2/rest/resources/system/lookup/LookupTableResource.java:290-295 | as create, except that a duplicate key escapes as an uncaught exception |
| `LookupResource.LookupTableResource.RemoveTable` | graylog2-server/src/main/java/org/graylog2/rest/resources/system/lookup/LookupTableResource.java:301-311 | a missing table gives not found with stores and bus unchanged; otherwise the table is removed with no in-use check, exactly one delete event carrying it is posted, and the pre-delete record is returned |
| `LookupResource.LookupTableResource.ValidateAdapter` | graylog2-server/src/main/java/org/graylog2/rest/resources/system/lookup/LookupTableResource.java:501-519 | the "name" field holds the in-use message exactly when the submitted name designates a record with a different id, followed by the configuration's own "name" messages; every other field holds exactly the configuration's messages |
| `LookupResource.LookupTableResource.CreateAdapter` | graylog2-server/src/main/java/org/graylog2/rest/resources/system/lookup/LookupTableResource.java:453-463 | a duplicate key gives a bad request and leaves stores and bus unchanged; a successful save posts exactly one update event with the saved id |
| `LookupResource.LookupTableResource.UpdateAdapter` | graylog2-server/src/main/java/org/graylog2/rest/resources/system/lookup/LookupTableResource.java:489-495 | as create, except that a duplicate key escapes as an uncaught exception |
| `LookupResource.LookupTableResource.DeleteAdapter` | graylog2-server/src/main/java/org/graylog2/rest/resources/system/lookup/LookupTableResource.java:469-483 | a missing adapter gives not found, and one referenced by any table gives a bad request, both with stores and bus unchanged; otherwise exactly that record is removed, exactly one delete event with its id is posted, and the pre-delete record is returned |
| `LookupResource.LookupTableResource.ValidateCache` | graylog2-server/src/main/java/org/graylog2/rest/resources/system/lookup/LookupTableResource.java:646-664 | as for adapters, with the cache store and the cache message |
| `LookupResource.LookupTableResource.CreateCache` | graylog2-server/src/main/java/org/graylog2/rest/resources/system/lookup/LookupTableResource.java:602-610 | a duplicate key gives a bad request and leaves stores and bus unchanged; a successful save posts exactly one update event with the saved id |
| `LookupResource.LookupTableResource.UpdateCache` | graylog2-server/src/main/java/org/graylog2/rest/resources/system/lookup/LookupTableResource.java:636-640 | as create, except that a duplicate key escapes as an uncaught exception |
| `LookupResource.LookupTableResource.DeleteCache` | graylog2-server/src/main/java/org/graylog2/rest/resources/system/lookup/LookupTableResource.java:616-630 | the same three branches as the adapter delete, with the cache reference check and the cache delete event |
| `LookupResource.LookupTableResource.ErrorStates` | graylog2-server/src/main/java/org/graylog2/rest/resources/system/lookup/LookupTableResource.java:397-420 | a null section gives an empty section; a table entry exists exactly for requested names with a live table and holds its error; adapter and cache entries exist exactly for requested live names and hold the instance's error message, or null when it has no error or the error has no message |
| `LookupResource.LookupTableResource.PerformAdapterLookup` | graylog2-server/src/main/java/org/graylog2/rest/resources/system/lookup/LookupTableResource.java:439-447 | not found, with the "Unable to find data adapter" message, exactly when no adapter of that name is live; otherwise that one adapter's own `get(key)`, with no cache involved |

## Left out

- `get`, `getIfPresent`, `purge()` and `purge(key)` of `LookupCache` are abstract and have no implementation to model. Dafny members need bodies, so they are not declared. Load-through and single-flight behaviour is not modelled.
- `doStart`/`doStop` are abstract. Each is represented only by its outcome, so what a concrete cache does to its own state on start or stop is not modelled. The base class records no error when `doStart` throws, and neither does the model.
- The lifecycle states of Guava's `AbstractIdleService` and the thread safety of the `AtomicReference` cell are not modelled. The cell is a plain field.
- `Descriptor.getType`/`getConfigClass` are not separate members. The datatype's destructors return the constructor arguments by definition. The abstract `defaultConfiguration` is a field of the descriptor.
- `performLookup` (`tables/{name}/query`) goes through `LookupTable.lookup`, which is not part of this model.
- Pagination, search-query parsing, Mongo query and sort building, and the `resolve` option of the table listing and table read are library code. Only the normalised sort field and direction are kept.
- The page wrappers (`LookupTablePage`, `DataAdapterPage`, `CachesPage`), the `Maps.uniqueIndex` failure inside them, and the `toDto`/`fromDto` conversions are JSON shaping. Records are used as they are.
- JAX-RS, Swagger, audit and Shiro annotations are transport concerns. `@NotEmpty` on path parameters is one of them.
- The database services and the cluster event bus are not part of this model. They are the abstract store and event sequence described above. The store's id-then-name resolution and its duplicate-key rules are assumptions. `DuplicateKeyMessage` stands in for the driver's exception text.
- The configuration's own `validate()` is type-specific code. The validators take its result as a parameter, and the multimap's entries in iteration order.
- How `ErrorStates`' builder maps treat a repeated name is not part of this model. `ErrorStates` assumes a later put replaces an earlier one and null values are allowed.
- An adapter's `get(key)` is the adapter type's own code. It is the `fetch` function of a live adapter, and a failure inside it is not modelled.
- `LookupResource.IsDescending`: case-insensitive comparison is modelled for ASCII letters only. Java's `equalsIgnoreCase` also matches a few non-ASCII characters to ASCII ones, for example U+017F (long s) to "s", which would make "deſc" descending.
- `LookupResource.TablesSort`, `LookupResource.AdaptersSort`, `LookupResource.CachesSort`: `toLowerCase(Locale.ENGLISH)` is modelled for ASCII letters only. The non-ASCII characters Java lower-cases to ASCII letters are U+212A (Kelvin sign, to "k") and U+0130 (to "i" followed by a combining dot). Neither can produce "id", "title", "description" or "name", so the allowed-field test is unaffected. The three allowed-field sets are taken to be the same four names.
