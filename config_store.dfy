/** The persistence services for table, data-adapter and cache configuration
    records (`DBLookupTableService`, `DBDataAdapterService`,
    `DBCacheService`), whose implementations are not part of this model,
    reduced to what the management resource relies on: records keyed by id,
    a unique name index, lookup by id or name, an upserting save that fails on
    a duplicate key, and delete by id or name. */
module ConfigStore {
  import opened Wrappers

  type Id = string

  /** A configuration record. `id` is absent until the record is first
      saved; `payload` holds what is specific to tables, adapters or caches. */
  datatype Dto<P> = Dto(id: Option<Id>, name: string, title: string, description: string, payload: P)

  /** The database's duplicate-key failure; `index` names the unique index
      that was violated ("_id" or "name"). */
  datatype DuplicateKey = DuplicateKey(index: string)

  datatype Store<P> = Store(records: map<Id, Dto<P>>, names: map<string, Id>) {

    /** Every record is stored under its own id and is the one record the
        name index gives for its name; the index names nothing else. */
    ghost predicate Valid() {
      && (forall k :: k in records ==> records[k].id == Some(k) && records[k].name in names && names[records[k].name] == k)
      && (forall n :: n in names ==> names[n] in records && records[names[n]].name == n)
    }

    /** True when some stored record other than the one with id `self` has
        the given name. */
    ghost predicate NameTakenByOther(name: string, self: Option<Id>) {
      exists k :: k in records && records[k].name == name && Some(k) != self
    }

    /** The id a request's `idOrName` designates: an id when one is stored
        under it, otherwise the id of the record with that name. */
    function Resolve(idOrName: string): (r: Option<Id>)
      ensures r.Some? ==> r.value in records
      ensures idOrName in records ==> r == Some(idOrName)
      ensures Valid() && r.Some? ==> r.value == idOrName || records[r.value].name == idOrName
      ensures Valid() && r.None? ==> forall k :: k in records ==> k != idOrName && records[k].name != idOrName
    {
      if idOrName in records then Some(idOrName)
      else if idOrName in names && names[idOrName] in records then Some(names[idOrName])
      else None
    }

    /** `get(idOrName)`: the designated record, if any. */
    function Get(idOrName: string): (r: Option<Dto<P>>)
      ensures r.Some? <==> Resolve(idOrName).Some?
      ensures r.Some? ==> r.value == records[Resolve(idOrName).value]
    {
      match Resolve(idOrName)
      case Some(k) => Some(records[k])
      case None => None
    }

    /** `delete(idOrName)`: removes the designated record, and nothing else;
        a name that designates nothing leaves the store as it is. */
    function Delete(idOrName: string): (s: Store<P>)
      ensures Resolve(idOrName).None? ==> s == this
      ensures Resolve(idOrName).Some? ==> s.records == records - {Resolve(idOrName).value}
    {
      match Resolve(idOrName)
      case None => this
      case Some(k) => Store(records - {k}, names - {records[k].name})
    }

    /** `save(dto)`: inserts a record without an id under `freshId` (the id
        the database would generate) or upserts a record under its own id.
        It fails when the fresh id is taken or another record has the name. */
    function Save(dto: Dto<P>, freshId: Id): (r: Result<(Store<P>, Dto<P>), DuplicateKey>)
      ensures r.Success? ==> r.value.1 == dto.(id := Some(dto.id.GetOr(freshId)))
      ensures r.Success? ==> r.value.0.records == records[dto.id.GetOr(freshId) := r.value.1]
    {
      var k := dto.id.GetOr(freshId);
      if dto.id.None? && freshId in records then Failure(DuplicateKey("_id"))
      else if dto.name in names && names[dto.name] != k then Failure(DuplicateKey("name"))
      else
        var saved := dto.(id := Some(k));
        var others := if k in records then names - {records[k].name} else names;
        Success((Store(records[k := saved], others[dto.name := k]), saved))
    }
  }

  /** Deleting keeps the store well formed. */
  lemma DeleteKeepsValid<P>(s: Store<P>, idOrName: string)
    requires s.Valid()
    ensures s.Delete(idOrName).Valid()
  {
  }

  /** Saving keeps the store well formed. */
  lemma SaveKeepsValid<P>(s: Store<P>, dto: Dto<P>, freshId: Id)
    requires s.Valid()
    requires s.Save(dto, freshId).Success?
    ensures s.Save(dto, freshId).value.0.Valid()
  {
  }

  /** A save fails exactly on a duplicate key: a fresh id that is already
      stored, or a name that another record already has. */
  lemma SaveFailsOnlyOnDuplicate<P>(s: Store<P>, dto: Dto<P>, freshId: Id)
    requires s.Valid()
    ensures s.Save(dto, freshId).Failure? <==>
              (dto.id.None? && freshId in s.records) || s.NameTakenByOther(dto.name, Some(dto.id.GetOr(freshId)))
  {
  }
  /** After a delete, the id or name it was given designates nothing, except
      when it was the id of the deleted record and is also another record's
      name: that record is found by name afterwards. */
  lemma GetAfterDelete<P>(s: Store<P>, idOrName: string)
    requires s.Valid()
    ensures var after := s.Delete(idOrName).Get(idOrName);
            after.Some? ==> idOrName in s.records && after.value.name == idOrName && after.value.id != Some(idOrName)
  {
    DeleteKeepsValid(s, idOrName);
  }

  /** After a successful save, the saved record is found under its id, and
      under its name unless that name is also the id of another record. */
  lemma GetAfterSave<P>(s: Store<P>, dto: Dto<P>, freshId: Id)
    requires s.Valid()
    requires s.Save(dto, freshId).Success?
    ensures var (t, saved) := s.Save(dto, freshId).value;
            && t.Get(saved.id.value) == Some(saved)
            && (dto.name !in t.records || dto.name == saved.id.value ==> t.Get(dto.name) == Some(saved))
  {
    SaveKeepsValid(s, dto, freshId);
  }
}
