/** The process-wide registry of live lookup tables, data adapters and
    caches (`LookupTableService`), whose implementation is not part of this
    model, reduced to the lookups the management resource performs: a table
    by name, and the live adapters or caches for a collection of names. */
module LiveLookup {
  import opened Wrappers
  import opened PluginLookup

  /** The value a resolution returns: a found flag and the single value. */
  datatype LookupResult = LookupResult(hasResult: bool, singleValue: Option<string>)

  /** A live table, as far as error reporting sees it: its error text
      (`LookupTable.error()`, which may be null). */
  datatype LiveTable = LiveTable(error: Option<string>)

  /** A live data adapter: its name, its error cell and its fetch
      operation `get(key)`, which is the adapter type's own code. */
  datatype LiveAdapter = LiveAdapter(name: string, error: Option<Throwable>, fetch: string -> LookupResult)

  datatype LookupService = LookupService(tables: map<string, LiveTable>,
                                         adapters: map<string, LiveAdapter>,
                                         caches: map<string, LookupCache>) {

    /** Live adapters and caches are registered under their own names. */
    ghost predicate Valid() {
      && (forall n :: n in adapters ==> adapters[n].name == n)
      && (forall n :: n in caches ==> caches[n].name == n)
    }

    /** `newBuilder().lookupTable(name).build().getTable()`: the live table
        of that name, or null. */
    function Table(name: string): (t: Option<LiveTable>)
      ensures t.Some? <==> name in tables
      ensures t.Some? ==> t.value == tables[name]
    {
      if name in tables then Some(tables[name]) else None
    }

    /** `getDataAdapters(names)`: the live adapter of each requested name
        that has one. */
    function GetDataAdapters(names: seq<string>): (r: seq<LiveAdapter>)
      requires Valid()
      ensures |r| <= |names|
      ensures forall i :: 0 <= i < |r| ==> r[i].name in names && r[i].name in adapters && r[i] == adapters[r[i].name]
      ensures forall n :: n in names && n in adapters ==> adapters[n] in r
    {
      if names == [] then []
      else
        var rest := GetDataAdapters(names[1..]);
        assert forall n :: n in names[1..] ==> n in names;
        if names[0] in adapters then
          [adapters[names[0]]] + rest
        else rest
    }

    /** `getCaches(names)`: the live cache of each requested name that has
        one. */
    function GetCaches(names: seq<string>): (r: seq<LookupCache>)
      requires Valid()
      ensures |r| <= |names|
      ensures forall i :: 0 <= i < |r| ==> r[i].name in names && r[i].name in caches && r[i] == caches[r[i].name]
      ensures forall n :: n in names && n in caches ==> caches[n] in r
    {
      if names == [] then []
      else
        var rest := GetCaches(names[1..]);
        assert forall n :: n in names[1..] ==> n in names;
        if names[0] in caches then
          [caches[names[0]]] + rest
        else rest
    }
  }
}
