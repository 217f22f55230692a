/** The three reference registries: amount types, payment methods and categories.
    Their routers are identical apart from messages, so one class models each
    of the three tables. */
module Registry {
  import opened Common
  import opened Text

  /** One named reference record. */
  datatype Record = Record(name: string, status: Status)

  /** The schema's length bounds, checked on the trimmed name when the record is saved. */
  const MinNameLength := 2
  const MaxNameLength := 50

  predicate SchemaName(name: string) {
    MinNameLength <= |name| <= MaxNameLength
  }

  /** The routes' own name checks, run before any lookup: a missing or blank name first,
      then an untrimmed name shorter than two characters. */
  function NameCheck(name: Option<string>): (r: Option<Reason>)
    ensures r.None? <==> name.Some? && !AllSpace(name.value) && |name.value| >= MinNameLength
    ensures name.None? || AllSpace(name.value) ==> r == Some(NameRequired)
    ensures (name.Some? && !AllSpace(name.value) && |name.value| < MinNameLength) ==> r == Some(NameTooShort)
  {
    if name.None? || Trim(name.value) == "" then Some(NameRequired)
    else if |name.value| < MinNameLength then Some(NameTooShort)
    else None
  }

  /** Some record other than `except` already carries `name`. */
  predicate NameHeld(records: map<Id, Record>, name: string, except: Option<Id>) {
    exists id :: id in records && Some(id) != except && records[id].name == name
  }

  /** A name as the table stores it: trimmed and within the schema's bounds. */
  predicate StoredName(name: string) {
    SchemaName(name) && !IsSpace(name[0]) && !IsSpace(name[|name| - 1])
  }

  /** Every record's name is stored trimmed and in bounds, under an id below `bound`. */
  ghost predicate AllStored(records: map<Id, Record>, bound: Id) {
    forall id :: id in records ==> id < bound && StoredName(records[id].name)
  }

  /** Adding a well-formed name under the next id keeps every name well-formed, below the next bound. */
  lemma InsertKeepsStored(records: map<Id, Record>, bound: Id, rec: Record)
    requires AllStored(records, bound) && StoredName(rec.name)
    ensures AllStored(records[bound := rec], bound + 1)
  {
  }

  /** Storing a well-formed name under an existing id keeps every name well-formed. */
  lemma RenameKeepsStored(records: map<Id, Record>, bound: Id, id: Id, name: string)
    requires AllStored(records, bound) && id in records && StoredName(name)
    ensures AllStored(records[id := records[id].(name := name)], bound)
  {
  }

  /** No two records share a name. */
  ghost predicate UniqueNames(records: map<Id, Record>) {
    forall a, b :: a in records && b in records && records[a].name == records[b].name ==> a == b
  }

  /** The status a PATCH body may set: only `active` or `inactive`. */
  function ParseStatus(status: Option<string>): (r: Option<Status>)
    ensures r == Some(Active) <==> status == Some("active")
    ensures r == Some(Inactive) <==> status == Some("inactive")
  {
    if status == Some("active") then Some(Active)
    else if status == Some("inactive") then Some(Inactive)
    else None
  }

  /** Inserting a name no record holds keeps the names unique. */
  lemma InsertKeepsNamesUnique(records: map<Id, Record>, id: Id, rec: Record)
    requires UniqueNames(records) && id !in records
    requires !NameHeld(records, rec.name, None)
    ensures UniqueNames(records[id := rec])
  {
  }

  /** Renaming a record to a name no other record holds keeps the names unique,
      whether or not the record already had that name. */
  lemma RenameKeepsNamesUnique(records: map<Id, Record>, id: Id, name: string)
    requires UniqueNames(records) && id in records
    requires !NameHeld(records, name, Some(id))
    ensures UniqueNames(records[id := records[id].(name := name)])
  {
  }

  /** Changing a status never touches a name, so uniqueness survives. */
  lemma StatusKeepsNamesUnique(records: map<Id, Record>, id: Id, status: Status)
    requires UniqueNames(records) && id in records
    ensures UniqueNames(records[id := records[id].(status := status)])
  {
  }

  /** One registry table. */
  class Table {
    var records: map<Id, Record>
    var nextId: Id

    /** Names are unique, trimmed and within the schema's bounds; identifiers are never reused. */
    ghost predicate Valid()
      reads this
    {
      && UniqueNames(records)
      && AllStored(records, nextId)
    }

    constructor ()
      ensures Valid() && records == map[]
    {
      records := map[];
      nextId := 0;
    }

    /** GET one record: the record, or not found. */
    method Get(id: Id) returns (r: Outcome<Record>)
      ensures id in records ==> r == Ok(records[id])
      ensures id !in records ==> r == NotFound
    {
      if id in records {
        r := Ok(records[id]);
      } else {
        r := NotFound;
      }
    }

    /** POST: name checks, then the duplicate check on the trimmed name, then the
        schema's bounds; a new record stores the trimmed name with status `active`. */
    method Create(name: Option<string>) returns (r: Outcome<Id>)
      requires Valid()
      modifies this
      ensures Valid()
      ensures NameCheck(name).Some? ==> r == Invalid(NameCheck(name).value)
      ensures NameCheck(name).None? && NameHeld(old(records), Trim(name.value), None) ==> r == Invalid(NameTaken)
      ensures (NameCheck(name).None? && !NameHeld(old(records), Trim(name.value), None)
               && !SchemaName(Trim(name.value))) ==> r == Invalid(SchemaViolation)
      ensures !r.Ok? ==> records == old(records)
      ensures r.Ok? ==> r.value !in old(records)
                        && records == old(records)[r.value := Record(Trim(name.value), Active)]
      ensures (NameCheck(name).None? && !NameHeld(old(records), Trim(name.value), None)
               && SchemaName(Trim(name.value))) ==> r.Ok?
      ensures !r.NotFound?
    {
      var check := NameCheck(name);
      if check.Some? {
        return Invalid(check.value);
      }
      var trimmed := Trim(name.value);
      if NameHeld(records, trimmed, None) {
        return Invalid(NameTaken);
      }
      if !SchemaName(trimmed) {
        return Invalid(SchemaViolation);
      }
      var id := nextId;
      InsertKeepsNamesUnique(records, id, Record(trimmed, Active));
      InsertKeepsStored(records, id, Record(trimmed, Active));
      records := records[id := Record(trimmed, Active)];
      nextId := nextId + 1;
      r := Ok(id);
    }

    /** PUT: name checks first, then not found, then a name held by a different record;
        the record's own name may be saved again. Only the name changes. */
    method Rename(id: Id, name: Option<string>) returns (r: Outcome<()>)
      requires Valid()
      modifies this
      ensures Valid()
      ensures NameCheck(name).Some? ==> r == Invalid(NameCheck(name).value)
      ensures NameCheck(name).None? && id !in old(records) ==> r == NotFound
      ensures (NameCheck(name).None? && id in old(records)
               && NameHeld(old(records), Trim(name.value), Some(id))) ==> r == Invalid(NameTaken)
      ensures !r.Ok? ==> records == old(records)
      ensures r.Ok? <==> NameCheck(name).None? && id in old(records)
                         && !NameHeld(old(records), Trim(name.value), Some(id))
                         && SchemaName(Trim(name.value))
      ensures r.Ok? ==> records == old(records)[id := old(records)[id].(name := Trim(name.value))]
    {
      var check := NameCheck(name);
      if check.Some? {
        return Invalid(check.value);
      }
      if id !in records {
        return NotFound;
      }
      var trimmed := Trim(name.value);
      if NameHeld(records, trimmed, Some(id)) {
        return Invalid(NameTaken);
      }
      if !SchemaName(trimmed) {
        return Invalid(SchemaViolation);
      }
      RenameKeepsNamesUnique(records, id, trimmed);
      RenameKeepsStored(records, nextId, id, trimmed);
      records := records[id := records[id].(name := trimmed)];
      r := Ok(());
    }

    /** PATCH status: the value is checked before the lookup; only the status changes. */
    method SetStatus(id: Id, status: Option<string>) returns (r: Outcome<()>)
      requires Valid()
      modifies this
      ensures Valid()
      ensures ParseStatus(status).None? ==> r == Invalid(BadStatus)
      ensures ParseStatus(status).Some? && id !in old(records) ==> r == NotFound
      ensures !r.Ok? ==> records == old(records)
      ensures r.Ok? <==> ParseStatus(status).Some? && id in old(records)
      ensures r.Ok? ==> records == old(records)[id := old(records)[id].(status := ParseStatus(status).value)]
    {
      var parsed := ParseStatus(status);
      if parsed.None? {
        return Invalid(BadStatus);
      }
      if id !in records {
        return NotFound;
      }
      StatusKeepsNamesUnique(records, id, parsed.value);
      records := records[id := records[id].(status := parsed.value)];
      r := Ok(());
    }

    /** DELETE: not found for an unknown id, otherwise exactly that record goes. */
    method Delete(id: Id) returns (r: Outcome<()>)
      requires Valid()
      modifies this
      ensures Valid()
      ensures r == (if id in old(records) then Ok(()) else NotFound)
      ensures records == old(records) - {id}
    {
      if id !in records {
        return NotFound;
      }
      records := records - {id};
      r := Ok(());
    }
  }
}
