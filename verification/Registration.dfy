/** Verified repository identities and the durable row that registers one (registration.py, registry.py). */
module Registration {
  import opened Basics

  datatype Installation = Installation(repositoryId: int, repository: string, ownerId: int, installationId: int)

  datatype RowState = Active | Retired

  datatype Row = Row(
    repositoryId: int, repository: string, ownerId: int, installationId: int, state: RowState,
    revision: int, generation: int, verifiedAt: int, lastVerifiedAt: int, createdAt: int, updatedAt: int)

  datatype Context = Context(repositoryId: int, repository: string, ownerId: int, installationId: int, generation: int)

  function NewRow(i: Installation, now: int): Row {
    Row(i.repositoryId, i.repository, i.ownerId, i.installationId, Active, 1, 1, now, now, now, now)
  }

  function ContextOf(r: Row): Context {
    Context(r.repositoryId, r.repository, r.ownerId, r.installationId, r.generation)
  }

  function OwnerAllowed(allowed: set<int>, ownerId: int): bool {
    allowed == {} || ownerId in allowed
  }
}
