/** The service layer: each method hands its arguments to the repository and
    returns what the repository returns; nothing is caught here. */
module Services {
  import opened Wrappers
  import opened Models
  import opened Errors
  import opened Repositories

  class SampleService {
    const repository: SampleRepository

    ghost predicate Valid()
      reads this, repository
    {
      repository.Valid()
    }

    constructor (repository: SampleRepository)
      requires repository.Valid()
      ensures this.repository == repository && Valid()
    {
      this.repository := repository;
    }

    method Create(input: SampleCreate, now: int) returns (r: Result<Sample, Error>)
      requires Valid()
      modifies repository
      ensures Valid()
      ensures (repository.table, r) == AfterCreate(old(repository.table), input, now)
    {
      r := repository.Create(input, now);
    }

    method ReadAll() returns (rows: set<Sample>)
      requires Valid()
      ensures forall s :: s in rows <==> s.id in repository.table && repository.table[s.id] == s
      ensures |rows| == |repository.table|
    {
      rows := repository.ReadAll();
    }

    /** `read(id)` passes `Sample(id=id)`: a record with the requested id and
        otherwise defaulted fields (the clock reading `now` for its timestamps). */
    method Read(id: Uuid, now: int) returns (r: Result<Sample, Error>)
      requires Valid()
      ensures r == LookupById(repository.table, id)
      ensures r.Ok? ==> r.value.id == id
    {
      var probe := NewSample(Some(id), None, now, id);
      r := repository.Read(probe);
    }

    method Update(id: Uuid, patch: SampleUpdate, now: int) returns (r: Result<Sample, Error>)
      requires Valid()
      modifies repository
      ensures Valid()
      ensures (repository.table, r) == AfterUpdate(old(repository.table), id, patch, now)
    {
      r := repository.Update(id, patch, now);
    }

    /** `delete(id)` passes `Sample(id=id)`, so the row under `id` is the one removed. */
    method Delete(id: Uuid, now: int)
      requires Valid()
      modifies repository
      ensures Valid()
      ensures repository.table == AfterDelete(old(repository.table), id)
    {
      var probe := NewSample(Some(id), None, now, id);
      repository.Delete(probe);
    }
  }
}
