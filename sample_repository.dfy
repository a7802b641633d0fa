/** The samples table and the repository that queries and changes it.
    The table is the database's committed state: a finite map from primary
    key to row. Each repository operation is specified by a function on
    tables, and the lemmas below state what those functions promise. */
module Repositories {
  import opened Wrappers
  import opened Models
  import opened Errors

  type Table = map<Uuid, Sample>

  /** The primary key: every row sits under its own id, so there is at most
      one row per id. */
  predicate KeyedById(t: Table) {
    forall k :: k in t ==> t[k].id == k
  }

  /** Every row was stamped no later than it was last changed. */
  predicate TimestampsOrdered(t: Table) {
    forall k :: k in t ==> t[k].createdAt <= t[k].updatedAt
  }

  /** The clock reading `now` is not earlier than any stored timestamp. */
  predicate ClockNotBehind(t: Table, now: int) {
    forall k :: k in t ==> t[k].updatedAt <= now
  }

  /** `create`: insert the validated record and commit; a duplicate primary key
      makes the commit fail with an integrity error, which is reported as
      `SampleAlreadyExistsError` and adds nothing. */
  function AfterCreate(t: Table, input: SampleCreate, now: int): (Table, Result<Sample, Error>) {
    if input.id in t then (t, Err(SampleAlreadyExistsError))
    else
      var row := Validate(input, now);
      (t[input.id := row], Ok(row))
  }

  /** `read`, looking up the argument's id. A missing row is reported, as the
      code is written, with `SampleAlreadyExistsError`. */
  function LookupById(t: Table, id: Uuid): Result<Sample, Error> {
    if id in t then Ok(t[id]) else Err(SampleAlreadyExistsError)
  }

  /** `read` exactly as written: the filter names `sample`, which is not bound
      in the method, so evaluating it raises before any query runs. */
  function LookupAsWritten(t: Table, probe: Sample): Result<Sample, Error> {
    Err(NameError("sample"))
  }

  /** A row after an UPDATE with the non-`None` fields of `patch`; the column's
      `onupdate` hook stamps `updatedAt` with the clock. */
  function Patched(row: Sample, patch: SampleUpdate, now: int): Sample {
    row.(name := patch.name.GetOr(row.name), updatedAt := now)
  }

  /** `update`: UPDATE ... WHERE id = id RETURNING the row, then `.one()` and
      commit. No matching row makes `.one()` raise `NoResultFound` before the
      commit, so the table is left as it was. */
  function AfterUpdate(t: Table, id: Uuid, patch: SampleUpdate, now: int): (Table, Result<Sample, Error>) {
    if id !in t then (t, Err(NoResultFound))
    else
      var row := Patched(t[id], patch, now);
      (t[id := row], Ok(row))
  }

  /** `delete`: DELETE ... WHERE id = id and commit; deleting nothing is no error. */
  function AfterDelete(t: Table, id: Uuid): Table {
    t - {id}
  }

  /** The rows `select(Sample)` yields, in no particular order. */
  function Rows(t: Table): set<Sample> {
    t.Values
  }

  // ---------------------------------------------------------------------------
  // The repository object

  class SampleRepository {
    /** The committed contents of the `samples` table. */
    var table: Table

    ghost predicate Valid()
      reads this
    {
      KeyedById(table)
    }

    constructor (initial: Table)
      requires KeyedById(initial)
      ensures Valid() && table == initial
    {
      table := initial;
    }

    method Create(input: SampleCreate, now: int) returns (r: Result<Sample, Error>)
      requires Valid()
      modifies this
      ensures Valid()
      ensures (table, r) == AfterCreate(old(table), input, now)
    {
      if input.id in table {
        // the INSERT violates the primary key; the IntegrityError is translated
        r := Err(SampleAlreadyExistsError);
      } else {
        var data := Validate(input, now);
        table := table[input.id := data];
        r := Ok(data);
      }
      CreateKeepsKey(old(table), input, now);
    }

    method ReadAll() returns (rows: set<Sample>)
      requires Valid()
      ensures forall s :: s in rows <==> s.id in table && table[s.id] == s
      ensures |rows| == |table|
    {
      rows := Rows(table);
      RowsAreTable(table);
    }

    method Read(probe: Sample) returns (r: Result<Sample, Error>)
      requires Valid()
      ensures r == LookupById(table, probe.id)
      ensures r.Ok? ==> r.value.id == probe.id && r.value in Rows(table)
    {
      if probe.id in table {
        r := Ok(table[probe.id]);
      } else {
        r := Err(SampleAlreadyExistsError);
      }
    }

    method Update(id: Uuid, patch: SampleUpdate, now: int) returns (r: Result<Sample, Error>)
      requires Valid()
      modifies this
      ensures Valid()
      ensures (table, r) == AfterUpdate(old(table), id, patch, now)
    {
      if id !in table {
        r := Err(NoResultFound);
      } else {
        var row := Patched(table[id], patch, now);
        table := table[id := row];
        r := Ok(row);
      }
      UpdateKeepsKey(old(table), id, patch, now);
    }

    method Delete(probe: Sample)
      requires Valid()
      modifies this
      ensures Valid()
      ensures table == AfterDelete(old(table), probe.id)
    {
      table := table - {probe.id};
    }
  }

  // ---------------------------------------------------------------------------
  // What the operations promise

  /** Creating under a new id adds exactly one row, the returned one, with that
      id and name and fresh timestamps; every other row is as it was. */
  lemma CreateAddsOneRow(t: Table, input: SampleCreate, now: int)
    requires input.id !in t
    ensures var (t', r) := AfterCreate(t, input, now);
      && r.Ok? && t'.Keys == t.Keys + {input.id} && |t'| == |t| + 1
      && t'[input.id] == r.value
      && r.value.id == input.id && r.value.name == input.name
      && r.value.createdAt == now && r.value.updatedAt == now
      && forall k :: k in t ==> t'[k] == t[k]
  {
  }

  /** Creating under an id already present fails with the 409 error and changes nothing. */
  lemma CreateDuplicateRejected(t: Table, input: SampleCreate, now: int)
    requires input.id in t
    ensures AfterCreate(t, input, now) == (t, Err(SampleAlreadyExistsError))
    ensures Attributes(AfterCreate(t, input, now).1.error).value.statusCode == 409
  {
  }

  /** Creation keeps the primary-key invariant. */
  lemma CreateKeepsKey(t: Table, input: SampleCreate, now: int)
    requires KeyedById(t)
    ensures KeyedById(AfterCreate(t, input, now).0)
    ensures TimestampsOrdered(t) ==> TimestampsOrdered(AfterCreate(t, input, now).0)
  {
  }

  /** An update applies only the fields it carries: a `None` name keeps the
      stored one, a given name replaces it; the id and creation time never change. */
  lemma UpdateMergesFields(t: Table, id: Uuid, patch: SampleUpdate, now: int)
    requires KeyedById(t) && id in t
    ensures var (t', r) := AfterUpdate(t, id, patch, now);
      && r.Ok? && t'.Keys == t.Keys && t'[id] == r.value
      && r.value.id == id && r.value.createdAt == t[id].createdAt && r.value.updatedAt == now
      && (patch.name.None? ==> r.value.name == t[id].name)
      && (patch.name.Some? ==> r.value.name == patch.name.value)
      && forall k :: k in t && k != id ==> t'[k] == t[k]
  {
  }

  /** Updating an absent id fails untranslated and commits nothing. */
  lemma UpdateAbsentFails(t: Table, id: Uuid, patch: SampleUpdate, now: int)
    requires id !in t
    ensures AfterUpdate(t, id, patch, now) == (t, Err(NoResultFound))
    ensures Attributes(NoResultFound).None?
  {
  }

  /** Update keeps the primary-key invariant, and with a clock that does not run
      backwards it keeps every row's creation time no later than its update time. */
  lemma UpdateKeepsKey(t: Table, id: Uuid, patch: SampleUpdate, now: int)
    requires KeyedById(t)
    ensures KeyedById(AfterUpdate(t, id, patch, now).0)
    ensures TimestampsOrdered(t) && ClockNotBehind(t, now) ==>
              TimestampsOrdered(AfterUpdate(t, id, patch, now).0)
  {
  }

  /** Delete removes exactly the row under the id; an absent id leaves the table as it was. */
  lemma DeleteRemovesRow(t: Table, id: Uuid)
    ensures AfterDelete(t, id).Keys == t.Keys - {id}
    ensures forall k :: k in t && k != id ==> AfterDelete(t, id)[k] == t[k]
    ensures id !in t ==> AfterDelete(t, id) == t
    ensures KeyedById(t) ==> KeyedById(AfterDelete(t, id))
  {
  }

  /** A lookup returns the row stored under the id; a missing id is reported
      with `SampleAlreadyExistsError`, as written. */
  lemma LookupFindsRow(t: Table, id: Uuid)
    requires KeyedById(t)
    ensures LookupById(t, id).Ok? <==> id in t
    ensures id in t ==> LookupById(t, id).value == t[id] && t[id].id == id
    ensures id !in t ==> LookupById(t, id) == Err(SampleAlreadyExistsError)
  {
  }

  /** The rows of a table keyed by id are exactly its entries, one per key. */
  lemma {:induction false} RowsAreTable(t: Table)
    requires KeyedById(t)
    ensures forall s :: s in Rows(t) <==> s.id in t && t[s.id] == s
    ensures |Rows(t)| == |t|
  {
    if t != map[] {
      var k :| k in t;
      var t' := t - {k};
      RowsAreTable(t');
      assert Rows(t) == Rows(t') + {t[k]};
      assert t[k] !in Rows(t');
      assert |t| == |t'| + 1;
    }
  }

  /** Creating a sample and then reading its id gives back its id and name. */
  lemma CreateThenRead(t: Table, input: SampleCreate, now: int)
    requires input.id !in t
    ensures var r := LookupById(AfterCreate(t, input, now).0, input.id);
      r.Ok? && r.value.id == input.id && r.value.name == input.name
  {
  }

  /** Creating the same id twice fails the second time. */
  lemma CreateTwiceFails(t: Table, first: SampleCreate, second: SampleCreate, now: int, later: int)
    requires first.id == second.id
    ensures AfterCreate(AfterCreate(t, first, now).0, second, later).1 == Err(SampleAlreadyExistsError)
  {
  }

  /** After a delete, reading the id fails. */
  lemma DeleteThenRead(t: Table, id: Uuid)
    ensures LookupById(AfterDelete(t, id), id).Err?
  {
  }

  /** Reading as written fails on every table, even right after creating the row. */
  lemma ReadAsWrittenAlwaysFails(t: Table, input: SampleCreate, now: int, probe: Sample)
    requires input.id !in t && probe.id == input.id
    ensures LookupById(AfterCreate(t, input, now).0, probe.id).Ok?
    ensures LookupAsWritten(AfterCreate(t, input, now).0, probe) == Err(NameError("sample"))
    ensures Attributes(LookupAsWritten(AfterCreate(t, input, now).0, probe).error).None?
  {
  }
}
