/** The decision rules of the lookup management resource
    (`LookupTableResource`): sort normalisation for the listings, name
    validation, guarded deletes, creates and updates that post a cluster
    event only after a successful save, the error-state report, the direct
    adapter query and the listing of available adapter and cache types.
    The three configuration stores and the cluster event bus are fields of
    the resource; the live registry and the type registries are fixed when
    it is built. */
module LookupResource {
  import opened Wrappers
  import opened PluginLookup
  import opened ConfigStore
  import opened LiveLookup

  // ---------------------------------------------------------------------
  // Records and events

  /** What is specific to a table record: the ids of its cache and adapter. */
  datatype TablePayload = TablePayload(cacheId: Id, dataAdapterId: Id)

  /** A data-adapter configuration: its type discriminator and settings. */
  datatype AdapterConfig = AdapterConfig(typeName: string, settings: map<string, string>)

  type TableDto = Dto<TablePayload>
  type AdapterDto = Dto<AdapterConfig>
  type CacheDto = Dto<LookupCacheConfiguration>

  /** The cluster-wide change notifications the resource posts. Table events
      carry the record, adapter and cache events its id. */
  datatype Event =
    | LookupTablesUpdated(table: TableDto)
    | LookupTablesDeleted(table: TableDto)
    | DataAdaptersUpdated(id: Id)
    | DataAdaptersDeleted(id: Id)
    | CachesUpdated(id: Id)
    | CachesDeleted(id: Id)

  /** The request failures: 404, 400, and an exception the resource does not
      catch. */
  datatype ApiError = NotFound(detail: Option<string>) | BadRequest(reason: string) | Unhandled(cause: string)

  const AdapterInUseMessage := "The adapter is still in use, cannot delete."
  const CacheInUseMessage := "The cache is still in use, cannot delete."
  const AdapterNameInUseMessage := "The data adapter name is already in use."
  const CacheNameInUseMessage := "The cache name is already in use."

  /** The text of the database's duplicate-key exception. */
  function DuplicateKeyMessage(e: DuplicateKey): string {
    "duplicate key error on index " + e.index
  }

  // ---------------------------------------------------------------------
  // Case mapping (ASCII letters)

  function LowerChar(c: char): char {
    if 'A' <= c <= 'Z' then (c as int + 32) as char else c
  }

  function UpperChar(c: char): char {
    if 'a' <= c <= 'z' then (c as int - 32) as char else c
  }

  /** `toLowerCase(Locale.ENGLISH)`. */
  function ToLower(s: string): string {
    if s == [] then [] else [LowerChar(s[0])] + ToLower(s[1..])
  }

  /** Two characters match the way `String.equalsIgnoreCase` compares them:
      equal, equal upper-cased, or equal lower-cased after upper-casing. */
  predicate CharsMatchIgnoringCase(a: char, b: char) {
    a == b || UpperChar(a) == UpperChar(b) || LowerChar(UpperChar(a)) == LowerChar(UpperChar(b))
  }

  /** `String.equalsIgnoreCase`: same length, characters matching pairwise. */
  predicate EqualsIgnoreCase(a: string, b: string) {
    |a| == |b| && forall i :: 0 <= i < |a| ==> CharsMatchIgnoringCase(a[i], b[i])
  }

  lemma CharsMatchIffSameLower(a: char, b: char)
    ensures CharsMatchIgnoringCase(a, b) <==> LowerChar(a) == LowerChar(b)
  {
  }

  /** Comparing ignoring case is comparing the lower-cased strings. */
  lemma {:induction false} EqualsIgnoreCaseIffSameLower(a: string, b: string)
    ensures EqualsIgnoreCase(a, b) <==> ToLower(a) == ToLower(b)
  {
    if a == [] || b == [] {
      if a != [] { assert ToLower(a)[0] == LowerChar(a[0]); }
      if b != [] { assert ToLower(b)[0] == LowerChar(b[0]); }
    } else {
      EqualsIgnoreCaseIffSameLower(a[1..], b[1..]);
      CharsMatchIffSameLower(a[0], b[0]);
      assert ToLower(a) == [LowerChar(a[0])] + ToLower(a[1..]);
      assert ToLower(b) == [LowerChar(b[0])] + ToLower(b[1..]);
      if EqualsIgnoreCase(a, b) {
        assert CharsMatchIgnoringCase(a[0], b[0]);
        forall i | 0 <= i < |a[1..]| ensures CharsMatchIgnoringCase(a[1..][i], b[1..][i]) {
          assert CharsMatchIgnoringCase(a[i + 1], b[i + 1]);
        }
      }
      if ToLower(a) == ToLower(b) {
        assert ToLower(a)[0] == LowerChar(a[0]) && ToLower(b)[0] == LowerChar(b[0]);
        assert ToLower(a)[1..] == ToLower(a[1..]) && ToLower(b)[1..] == ToLower(b[1..]);
        assert |a| == |b|;
        forall i | 0 <= i < |a| ensures CharsMatchIgnoringCase(a[i], b[i]) {
          if i > 0 { assert CharsMatchIgnoringCase(a[1..][i - 1], b[1..][i - 1]); }
        }
      }
    }
  }

  // ---------------------------------------------------------------------
  // Sort normalisation of the listings

  /** The sortable fields of tables, adapters and caches (the three sets the
      resource declares are equal). */
  const AllowableSortFields: set<string> := {"id", "title", "description", "name"}
  const TitleField := "title"

  /** The sort field and direction a listing hands to the database. */
  datatype SortSpec = SortSpec(field: string, descending: bool)

  /** The listing sorts on `sort` as given (not lower-cased) when its
      lower-cased form is an allowed field, and on the title otherwise;
      either way the field is an allowed one. */
  ghost predicate NormalizedSortField(sort: string, field: string) {
    && ToLower(field) in AllowableSortFields
    && (field == sort <==> ToLower(sort) in AllowableSortFields)
    && (field != sort ==> field == TitleField)
  }

  /** The direction is descending exactly when `order` is present and equals
      "desc" ignoring case; null and every other value give ascending. */
  function IsDescending(order: Option<string>): (descending: bool)
    ensures descending <==> order.Some? && ToLower(order.value) == "desc"
  {
    EqualsIgnoreCaseIffSameLower("desc", if order.Some? then order.value else "");
    assert ToLower("desc") == "desc";
    order.Some? && EqualsIgnoreCase("desc", order.value)
  }

  lemma TitleIsAllowed()
    ensures ToLower(TitleField) == TitleField && TitleField in AllowableSortFields
  {
    assert ToLower(TitleField) == "title";
  }

  /** Sort normalisation of `GET tables`. */
  method TablesSort(sort: string, order: Option<string>) returns (spec: SortSpec)
    ensures NormalizedSortField(sort, spec.field)
    ensures spec.descending <==> order.Some? && ToLower(order.value) == "desc"
  {
    var field := sort;
    if ToLower(field) !in AllowableSortFields {
      field := TitleField;
      TitleIsAllowed();
    }
    spec := SortSpec(field, IsDescending(order));
  }

  /** Sort normalisation of `GET adapters`. */
  method AdaptersSort(sort: string, order: Option<string>) returns (spec: SortSpec)
    ensures NormalizedSortField(sort, spec.field)
    ensures spec.descending <==> order.Some? && ToLower(order.value) == "desc"
  {
    var field := sort;
    if ToLower(field) !in AllowableSortFields {
      field := TitleField;
      TitleIsAllowed();
    }
    spec := SortSpec(field, IsDescending(order));
  }

  /** Sort normalisation of `GET caches`. */
  method CachesSort(sort: string, order: Option<string>) returns (spec: SortSpec)
    ensures NormalizedSortField(sort, spec.field)
    ensures spec.descending <==> order.Some? && ToLower(order.value) == "desc"
  {
    var field := sort;
    if ToLower(field) !in AllowableSortFields {
      field := TitleField;
      TitleIsAllowed();
    }
    spec := SortSpec(field, IsDescending(order));
  }

  /** Normalising an already normalised field changes nothing. */
  lemma NormalizedSortFieldIsStable(sort: string, field: string)
    requires NormalizedSortField(sort, field)
    ensures NormalizedSortField(field, field)
  {
  }

  // ---------------------------------------------------------------------
  // Validation results

  /** `ValidationResult`: the messages collected per field. */
  datatype ValidationResult = ValidationResult(errors: map<string, seq<string>>)

  /** The messages recorded for `field`, in the order they were added. */
  function Messages(v: ValidationResult, field: string): seq<string> {
    if field in v.errors then v.errors[field] else []
  }

  /** `addError`: appends one message to one field. */
  function AddError(v: ValidationResult, field: string, message: string): (w: ValidationResult)
    ensures Messages(w, field) == Messages(v, field) + [message]
    ensures forall f :: f != field ==> Messages(w, f) == Messages(v, f)
  {
    ValidationResult(v.errors[field := Messages(v, field) + [message]])
  }

  /** The messages a list of (field, message) entries holds for `field`, in
      order. */
  function FieldMessages(entries: seq<(string, string)>, field: string): seq<string>
    decreases |entries|
  {
    if entries == [] then []
    else
      var last := entries[|entries| - 1];
      FieldMessages(entries[..|entries| - 1], field) + (if last.0 == field then [last.1] else [])
  }

  /** `addAll`: appends every entry, in order, to its field. */
  method AddAll(v: ValidationResult, entries: seq<(string, string)>) returns (w: ValidationResult)
    ensures forall f :: Messages(w, f) == Messages(v, f) + FieldMessages(entries, f)
  {
    w := v;
    for i := 0 to |entries|
      invariant forall f :: Messages(w, f) == Messages(v, f) + FieldMessages(entries[..i], f)
    {
      assert entries[..i + 1][..i] == entries[..i];
      w := AddError(w, entries[i].0, entries[i].1);
    }
    assert entries[..|entries|] == entries;
  }

  /** The messages a configuration's own validation (absent when it has
      nothing to say) holds for `field`. */
  function ConfigMessages(configValidation: Option<seq<(string, string)>>, field: string): seq<string> {
    if configValidation.Some? then FieldMessages(configValidation.value, field) else []
  }

  /** The name check of the validators: the record the submitted name
      designates exists and has a different id (an absent id differs). */
  predicate NameInUse<P>(store: Store<P>, name: string, id: Option<Id>) {
    store.Get(name).Some? && store.Get(name).value.id != id
  }

  /** As long as the submitted name is not itself a stored id, the name is
      reported in use exactly when another record carries it. */
  lemma NameInUseIff<P>(store: Store<P>, name: string, id: Option<Id>)
    requires store.Valid()
    requires name !in store.records
    ensures NameInUse(store, name, id) <==> store.NameTakenByOther(name, id)
  {
    if store.NameTakenByOther(name, id) {
      var k :| k in store.records && store.records[k].name == name && Some(k) != id;
      assert store.names[name] == k;
    }
  }

  /** When the submitted name is the id of some stored record, the validators
      look at that record, not at the one carrying the name. */
  lemma NameMatchingAnIdIsCheckedById<P>(store: Store<P>, name: string, id: Option<Id>)
    requires store.Valid()
    requires name in store.records
    ensures NameInUse(store, name, id) <==> Some(name) != id
  {
  }

  // ---------------------------------------------------------------------
  // Available types

  /** A data-adapter type's advertised metadata. */
  datatype AdapterDescriptor = AdapterDescriptor(typeName: string, configClass: string, defaultConfig: AdapterConfig)

  /** A registry entry for one data-adapter type. */
  datatype AdapterFactory = AdapterFactory(descriptor: AdapterDescriptor)

  /** `availableAdapterTypes`: every registered factory's descriptor, keyed
      by the descriptor's type name; two descriptors with one type name
      make the collection fail. */
  function AvailableAdapterTypes(types: map<string, AdapterFactory>): (r: Option<map<string, AdapterDescriptor>>)
    ensures r.None? <==> exists a, b :: a in types && b in types && a != b && types[a].descriptor.typeName == types[b].descriptor.typeName
    ensures r.Some? ==> forall k :: k in types ==> types[k].descriptor.typeName in r.value && r.value[types[k].descriptor.typeName] == types[k].descriptor
    ensures r.Some? ==> forall t :: t in r.value ==> exists k :: k in types && types[k].descriptor == r.value[t] && r.value[t].typeName == t
  {
    if exists a, b :: a in types && b in types && a != b && types[a].descriptor.typeName == types[b].descriptor.typeName then None
    else Some(map k | k in types :: types[k].descriptor.typeName := types[k].descriptor)
  }

  /** `availableCacheTypes`: as for adapters, over the cache factories. */
  function AvailableCacheTypes(types: map<string, Factory>): (r: Option<map<string, Descriptor>>)
    ensures r.None? <==> exists a, b :: a in types && b in types && a != b && types[a].descriptor.typeName == types[b].descriptor.typeName
    ensures r.Some? ==> forall k :: k in types ==> types[k].descriptor.typeName in r.value && r.value[types[k].descriptor.typeName] == types[k].descriptor
    ensures r.Some? ==> forall t :: t in r.value ==> exists k :: k in types && types[k].descriptor == r.value[t] && r.value[t].typeName == t
  {
    if exists a, b :: a in types && b in types && a != b && types[a].descriptor.typeName == types[b].descriptor.typeName then None
    else Some(map k | k in types :: types[k].descriptor.typeName := types[k].descriptor)
  }

  // ---------------------------------------------------------------------
  // Error states

  /** Which error states a request asks for; each section may be null. */
  datatype ErrorStatesRequest = ErrorStatesRequest(tables: Option<seq<string>>,
                                                   dataAdapters: Option<seq<string>>,
                                                   caches: Option<seq<string>>)

  /** The report: per name, the error message, or null for none. */
  datatype ErrorStatesReport = ErrorStatesReport(tables: map<string, Option<string>>,
                                     dataAdapters: map<string, Option<string>>,
                                     caches: map<string, Option<string>>)

  /** `getError().map(Throwable::getMessage).orElse(null)`. */
  function ErrorMessage(error: Option<Throwable>): Option<string> {
    if error.Some? then error.value.message else None
  }

  /** Whether some table refers to the adapter with id `id`
      (`findByDataAdapterIds(singleton(id))` is not empty). */
  predicate AdapterReferenced(tables: Store<TablePayload>, id: Option<Id>) {
    exists k :: k in tables.records && Some(tables.records[k].payload.dataAdapterId) == id
  }

  /** Whether some table refers to the cache with id `id`. */
  predicate CacheReferenced(tables: Store<TablePayload>, id: Option<Id>) {
    exists k :: k in tables.records && Some(tables.records[k].payload.cacheId) == id
  }

  /** The table section of the error report: for each requested name whose
      table is live, that table's error. */
  method TableErrors(service: LookupService, names: seq<string>) returns (errors: map<string, Option<string>>)
    ensures forall n :: n in errors <==> n in names && n in service.tables
    ensures forall n :: n in errors ==> errors[n] == service.tables[n].error
  {
    errors := map[];
    for i := 0 to |names|
      invariant forall n :: n in errors <==> n in names[..i] && n in service.tables
      invariant forall n :: n in errors ==> errors[n] == service.tables[n].error
    {
      assert names[..i + 1] == names[..i] + [names[i]];
      var table := service.Table(names[i]);
      if table.Some? {
        errors := errors[names[i] := table.value.error];
      }
    }
    assert names[..|names|] == names;
  }

  /** The adapter section: each live adapter of a requested name, by name, to
      its error message or null. */
  method AdapterErrors(service: LookupService, names: seq<string>) returns (errors: map<string, Option<string>>)
    requires service.Valid()
    ensures forall n :: n in errors <==> n in names && n in service.adapters
    ensures forall n :: n in errors ==> errors[n] == ErrorMessage(service.adapters[n].error)
  {
    var live := service.GetDataAdapters(names);
    errors := map[];
    for i := 0 to |live|
      invariant forall n :: n in errors <==> exists j :: 0 <= j < i && live[j].name == n
      invariant forall n :: n in errors ==> n in service.adapters && errors[n] == ErrorMessage(service.adapters[n].error)
    {
      errors := errors[live[i].name := ErrorMessage(live[i].error)];
    }
  }

  /** The cache section: each live cache of a requested name, by name, to
      its error message or null. */
  method CacheErrors(service: LookupService, names: seq<string>) returns (errors: map<string, Option<string>>)
    requires service.Valid()
    ensures forall n :: n in errors <==> n in names && n in service.caches
    ensures forall n :: n in errors ==> errors[n] == ErrorMessage(service.caches[n].error)
  {
    var live := service.GetCaches(names);
    errors := map[];
    for i := 0 to |live|
      invariant forall n :: n in errors <==> exists j :: 0 <= j < i && live[j].name == n
      invariant forall n :: n in errors ==> n in service.caches && errors[n] == ErrorMessage(service.caches[n].error)
    {
      errors := errors[live[i].name := ErrorMessage(live[i].error)];
    }
  }

  // ---------------------------------------------------------------------
  // The resource

  class LookupTableResource {
    var tables: Store<TablePayload>
    var adapters: Store<AdapterConfig>
    var caches: Store<LookupCacheConfiguration>
    /** The cluster event bus, as the sequence of events posted so far. */
    var bus: seq<Event>
    /** The live registry the error report and the adapter query read. */
    const service: LookupService

    ghost predicate Valid()
      reads this
    {
      tables.Valid() && adapters.Valid() && caches.Valid() && service.Valid()
    }

    constructor (tables: Store<TablePayload>, adapters: Store<AdapterConfig>, caches: Store<LookupCacheConfiguration>,
                 service: LookupService)
      requires tables.Valid() && adapters.Valid() && caches.Valid() && service.Valid()
      ensures Valid()
      ensures this.tables == tables && this.adapters == adapters && this.caches == caches && bus == []
      ensures this.service == service
    {
      this.tables := tables;
      this.adapters := adapters;
      this.caches := caches;
      this.service := service;
      bus := [];
    }

    // --- reads

    /** `GET tables/{idOrName}` (without resolving the referenced records). */
    method GetTable(idOrName: string) returns (r: Result<TableDto, ApiError>)
      ensures tables.Get(idOrName).None? ==> r == Failure(NotFound(None))
      ensures tables.Get(idOrName).Some? ==> r == Success(tables.Get(idOrName).value)
    {
      var found := tables.Get(idOrName);
      if found.None? {
        return Failure(NotFound(None));
      }
      r := Success(found.value);
    }

    /** `GET adapters/{idOrName}`. */
    method GetAdapter(idOrName: string) returns (r: Result<AdapterDto, ApiError>)
      ensures adapters.Get(idOrName).None? ==> r == Failure(NotFound(None))
      ensures adapters.Get(idOrName).Some? ==> r == Success(adapters.Get(idOrName).value)
    {
      var found := adapters.Get(idOrName);
      if found.Some? {
        return Success(found.value);
      }
      r := Failure(NotFound(None));
    }

    /** `GET caches/{idOrName}`. */
    method GetCache(idOrName: string) returns (r: Result<CacheDto, ApiError>)
      ensures caches.Get(idOrName).None? ==> r == Failure(NotFound(None))
      ensures caches.Get(idOrName).Some? ==> r == Success(caches.Get(idOrName).value)
    {
      var found := caches.Get(idOrName);
      if found.Some? {
        return Success(found.value);
      }
      r := Failure(NotFound(None));
    }

    // --- tables

    /** `POST tables`: a duplicate key is a bad request and posts nothing;
        a successful save posts exactly one update event for the saved
        record. */
    method CreateTable(lookupTable: TableDto, freshId: Id) returns (r: Result<TableDto, ApiError>)
      requires Valid()
      modifies this
      ensures Valid()
      ensures adapters == old(adapters) && caches == old(caches)
      ensures match old(tables).Save(lookupTable, freshId)
                case Failure(e) => r == Failure(BadRequest(DuplicateKeyMessage(e))) && tables == old(tables) && bus == old(bus)
                case Success(saved) => r == Success(saved.1) && tables == saved.0 && bus == old(bus) + [LookupTablesUpdated(saved.1)]
    {
      match tables.Save(lookupTable, freshId)
      case Failure(e) =>
        r := Failure(BadRequest(DuplicateKeyMessage(e)));
      case Success(saved) =>
        SaveKeepsValid(tables, lookupTable, freshId);
        tables := saved.0;
        bus := bus + [LookupTablesUpdated(saved.1)];
        r := Success(saved.1);
    }

    /** `PUT tables`: as create, but a duplicate key escapes uncaught. */
    method UpdateTable(toUpdate: TableDto, freshId: Id) returns (r: Result<TableDto, ApiError>)
      requires Valid()
      modifies this
      ensures Valid()
      ensures adapters == old(adapters) && caches == old(caches)
      ensures match old(tables).Save(toUpdate, freshId)
                case Failure(e) => r == Failure(Unhandled(DuplicateKeyMessage(e))) && tables == old(tables) && bus == old(bus)
                case Success(saved) => r == Success(saved.1) && tables == saved.0 && bus == old(bus) + [LookupTablesUpdated(saved.1)]
    {
      match tables.Save(toUpdate, freshId)
      case Failure(e) =>
        r := Failure(Unhandled(DuplicateKeyMessage(e)));
      case Success(saved) =>
        SaveKeepsValid(tables, toUpdate, freshId);
        tables := saved.0;
        bus := bus + [LookupTablesUpdated(saved.1)];
        r := Success(saved.1);
    }

    /** `DELETE tables/{idOrName}`: not found, or removed with no in-use
        check, one delete event posted and the record as it was returned. */
    method RemoveTable(idOrName: string) returns (r: Result<TableDto, ApiError>)
      requires Valid()
      modifies this
      ensures Valid()
      ensures adapters == old(adapters) && caches == old(caches)
      ensures old(tables).Get(idOrName).None? ==>
                r == Failure(NotFound(None)) && tables == old(tables) && bus == old(bus)
      ensures old(tables).Get(idOrName).Some? ==>
                var dto := old(tables).Get(idOrName).value;
                && dto.id.Some?
                && r == Success(dto)
                && tables.records == old(tables).records - {dto.id.value}
                && bus == old(bus) + [LookupTablesDeleted(dto)]
    {
      var found := tables.Get(idOrName);
      if found.None? {
        return Failure(NotFound(None));
      }
      DeleteKeepsValid(tables, idOrName);
      tables := tables.Delete(idOrName);
      bus := bus + [LookupTablesDeleted(found.value)];
      r := Success(found.value);
    }

    // --- data adapters

    /** `POST adapters/validate`: a "name" error exactly when the name
        designates a record with another id, then the configuration's own
        messages. */
    method ValidateAdapter(toValidate: AdapterDto, configValidation: Option<seq<(string, string)>>) returns (v: ValidationResult)
      ensures Messages(v, "name") ==
                (if NameInUse(adapters, toValidate.name, toValidate.id) then [AdapterNameInUseMessage] else [])
                + ConfigMessages(configValidation, "name")
      ensures forall f :: f != "name" ==> Messages(v, f) == ConfigMessages(configValidation, f)
    {
      v := ValidationResult(map[]);
      var found := adapters.Get(toValidate.name);
      if found.Some? && found.value.id != toValidate.id {
        v := AddError(v, "name", AdapterNameInUseMessage);
      }
      if configValidation.Some? {
        v := AddAll(v, configValidation.value);
      }
    }

    /** `POST adapters`. */
    method CreateAdapter(newAdapter: AdapterDto, freshId: Id) returns (r: Result<AdapterDto, ApiError>)
      requires Valid()
      modifies this
      ensures Valid()
      ensures tables == old(tables) && caches == old(caches)
      ensures match old(adapters).Save(newAdapter, freshId)
                case Failure(e) => r == Failure(BadRequest(DuplicateKeyMessage(e))) && adapters == old(adapters) && bus == old(bus)
                case Success(saved) => r == Success(saved.1) && adapters == saved.0 && bus == old(bus) + [DataAdaptersUpdated(saved.1.id.value)]
    {
      match adapters.Save(newAdapter, freshId)
      case Failure(e) =>
        r := Failure(BadRequest(DuplicateKeyMessage(e)));
      case Success(saved) =>
        SaveKeepsValid(adapters, newAdapter, freshId);
        adapters := saved.0;
        bus := bus + [DataAdaptersUpdated(saved.1.id.value)];
        r := Success(saved.1);
    }

    /** `PUT adapters`: as create, but a duplicate key escapes uncaught. */
    method UpdateAdapter(toUpdate: AdapterDto, freshId: Id) returns (r: Result<AdapterDto, ApiError>)
      requires Valid()
      modifies this
      ensures Valid()
      ensures tables == old(tables) && caches == old(caches)
      ensures match old(adapters).Save(toUpdate, freshId)
                case Failure(e) => r == Failure(Unhandled(DuplicateKeyMessage(e))) && adapters == old(adapters) && bus == old(bus)
                case Success(saved) => r == Success(saved.1) && adapters == saved.0 && bus == old(bus) + [DataAdaptersUpdated(saved.1.id.value)]
    {
      match adapters.Save(toUpdate, freshId)
      case Failure(e) =>
        r := Failure(Unhandled(DuplicateKeyMessage(e)));
      case Success(saved) =>
        SaveKeepsValid(adapters, toUpdate, freshId);
        adapters := saved.0;
        bus := bus + [DataAdaptersUpdated(saved.1.id.value)];
        r := Success(saved.1);
    }

    /** `DELETE adapters/{idOrName}`: not found; else in use by a table;
        else removed, one delete event with its id posted, and the record
        as it was returned. Rejections change neither store nor bus. */
    method DeleteAdapter(idOrName: string) returns (r: Result<AdapterDto, ApiError>)
      requires Valid()
      modifies this
      ensures Valid()
      ensures tables == old(tables) && caches == old(caches)
      ensures old(adapters).Get(idOrName).None? ==>
                r == Failure(NotFound(None)) && adapters == old(adapters) && bus == old(bus)
      ensures old(adapters).Get(idOrName).Some? && AdapterReferenced(tables, old(adapters).Get(idOrName).value.id) ==>
                r == Failure(BadRequest(AdapterInUseMessage)) && adapters == old(adapters) && bus == old(bus)
      ensures old(adapters).Get(idOrName).Some? && !AdapterReferenced(tables, old(adapters).Get(idOrName).value.id) ==>
                var dto := old(adapters).Get(idOrName).value;
                && dto.id.Some?
                && r == Success(dto)
                && adapters.records == old(adapters).records - {dto.id.value}
                && bus == old(bus) + [DataAdaptersDeleted(dto.id.value)]
    {
      var found := adapters.Get(idOrName);
      if found.None? {
        return Failure(NotFound(None));
      }
      var dto := found.value;
      var unused := !AdapterReferenced(tables, dto.id);
      if !unused {
        return Failure(BadRequest(AdapterInUseMessage));
      }
      DeleteKeepsValid(adapters, idOrName);
      adapters := adapters.Delete(idOrName);
      bus := bus + [DataAdaptersDeleted(dto.id.value)];
      r := Success(dto);
    }

    // --- caches

    /** `POST caches/validate`. */
    method ValidateCache(toValidate: CacheDto, configValidation: Option<seq<(string, string)>>) returns (v: ValidationResult)
      ensures Messages(v, "name") ==
                (if NameInUse(caches, toValidate.name, toValidate.id) then [CacheNameInUseMessage] else [])
                + ConfigMessages(configValidation, "name")
      ensures forall f :: f != "name" ==> Messages(v, f) == ConfigMessages(configValidation, f)
    {
      v := ValidationResult(map[]);
      var found := caches.Get(toValidate.name);
      if found.Some? && found.value.id != toValidate.id {
        v := AddError(v, "name", CacheNameInUseMessage);
      }
      if configValidation.Some? {
        v := AddAll(v, configValidation.value);
      }
    }

    /** `POST caches`. */
    method CreateCache(newCache: CacheDto, freshId: Id) returns (r: Result<CacheDto, ApiError>)
      requires Valid()
      modifies this
      ensures Valid()
      ensures tables == old(tables) && adapters == old(adapters)
      ensures match old(caches).Save(newCache, freshId)
                case Failure(e) => r == Failure(BadRequest(DuplicateKeyMessage(e))) && caches == old(caches) && bus == old(bus)
                case Success(saved) => r == Success(saved.1) && caches == saved.0 && bus == old(bus) + [CachesUpdated(saved.1.id.value)]
    {
      match caches.Save(newCache, freshId)
      case Failure(e) =>
        r := Failure(BadRequest(DuplicateKeyMessage(e)));
      case Success(saved) =>
        SaveKeepsValid(caches, newCache, freshId);
        caches := saved.0;
        bus := bus + [CachesUpdated(saved.1.id.value)];
        r := Success(saved.1);
    }

    /** `PUT caches`: as create, but a duplicate key escapes uncaught. */
    method UpdateCache(toUpdate: CacheDto, freshId: Id) returns (r: Result<CacheDto, ApiError>)
      requires Valid()
      modifies this
      ensures Valid()
      ensures tables == old(tables) && adapters == old(adapters)
      ensures match old(caches).Save(toUpdate, freshId)
                case Failure(e) => r == Failure(Unhandled(DuplicateKeyMessage(e))) && caches == old(caches) && bus == old(bus)
                case Success(saved) => r == Success(saved.1) && caches == saved.0 && bus == old(bus) + [CachesUpdated(saved.1.id.value)]
    {
      match caches.Save(toUpdate, freshId)
      case Failure(e) =>
        r := Failure(Unhandled(DuplicateKeyMessage(e)));
      case Success(saved) =>
        SaveKeepsValid(caches, toUpdate, freshId);
        caches := saved.0;
        bus := bus + [CachesUpdated(saved.1.id.value)];
        r := Success(saved.1);
    }

    /** `DELETE caches/{idOrName}`: not found; else in use by a table; else
        removed, one delete event with its id posted, and the record as it
        was returned. Rejections change neither store nor bus. */
    method DeleteCache(idOrName: string) returns (r: Result<CacheDto, ApiError>)
      requires Valid()
      modifies this
      ensures Valid()
      ensures tables == old(tables) && adapters == old(adapters)
      ensures old(caches).Get(idOrName).None? ==>
                r == Failure(NotFound(None)) && caches == old(caches) && bus == old(bus)
      ensures old(caches).Get(idOrName).Some? && CacheReferenced(tables, old(caches).Get(idOrName).value.id) ==>
                r == Failure(BadRequest(CacheInUseMessage)) && caches == old(caches) && bus == old(bus)
      ensures old(caches).Get(idOrName).Some? && !CacheReferenced(tables, old(caches).Get(idOrName).value.id) ==>
                var dto := old(caches).Get(idOrName).value;
                && dto.id.Some?
                && r == Success(dto)
                && caches.records == old(caches).records - {dto.id.value}
                && bus == old(bus) + [CachesDeleted(dto.id.value)]
    {
      var found := caches.Get(idOrName);
      if found.None? {
        return Failure(NotFound(None));
      }
      var dto := found.value;
      var unused := !CacheReferenced(tables, dto.id);
      if !unused {
        return Failure(BadRequest(CacheInUseMessage));
      }
      DeleteKeepsValid(caches, idOrName);
      caches := caches.Delete(idOrName);
      bus := bus + [CachesDeleted(dto.id.value)];
      r := Success(dto);
    }

    // --- runtime views

    /** `POST errorstates`: a null section is skipped; a table appears
        exactly when it is requested and live, with its error; an adapter or
        cache appears exactly when it is requested and live, with its error
        message or null. */
    method ErrorStates(request: ErrorStatesRequest) returns (states: ErrorStatesReport)
      requires Valid()
      ensures forall n :: n in states.tables <==> request.tables.Some? && n in request.tables.value && n in service.tables
      ensures forall n :: n in states.tables ==> states.tables[n] == service.tables[n].error
      ensures forall n :: n in states.dataAdapters <==> request.dataAdapters.Some? && n in request.dataAdapters.value && n in service.adapters
      ensures forall n :: n in states.dataAdapters ==> states.dataAdapters[n] == ErrorMessage(service.adapters[n].error)
      ensures forall n :: n in states.caches <==> request.caches.Some? && n in request.caches.value && n in service.caches
      ensures forall n :: n in states.caches ==> states.caches[n] == ErrorMessage(service.caches[n].error)
    {
      var tableErrors: map<string, Option<string>> := map[];
      if request.tables.Some? {
        tableErrors := TableErrors(service, request.tables.value);
      }
      var adapterErrors: map<string, Option<string>> := map[];
      if request.dataAdapters.Some? {
        adapterErrors := AdapterErrors(service, request.dataAdapters.value);
      }
      var cacheErrors: map<string, Option<string>> := map[];
      if request.caches.Some? {
        cacheErrors := CacheErrors(service, request.caches.value);
      }
      states := ErrorStatesReport(tableErrors, adapterErrors, cacheErrors);
    }

    /** `GET adapters/{name}/query`: the live adapter's own `get(key)`,
        with no cache on the path, or not found when no adapter of that name
        is live. */
    method PerformAdapterLookup(name: string, key: string) returns (r: Result<LookupResult, ApiError>)
      requires Valid()
      ensures name !in service.adapters ==> r == Failure(NotFound(Some("Unable to find data adapter " + name)))
      ensures name in service.adapters ==> r == Success(service.adapters[name].fetch(key))
    {
      var live := service.GetDataAdapters([name]);
      if |live| != 0 {
        r := Success(live[0].fetch(key));
      } else {
        r := Failure(NotFound(Some("Unable to find data adapter " + name)));
      }
    }
  }
}
