/**
 * The durable rows of the registry (registry.py). Rows change only by `_activate` and `_retire`, so every
 * interleaving of register, resolve and require_current is a run of these two operations with some arguments.
 */
module RegistryRows {
  import opened Basics
  import opened Registration
  import Texts

  type Rows = map<int, Row>

  datatype Policy = Policy(allowedOwners: set<int>, maxRegistered: nat)

  datatype RowOp = Activate(i: Installation, now: int) | Retire(c: Context, now: int)

  predicate PositiveInt(v: int) { 0 < v < 0x8000_0000_0000_0000 }

  predicate ValidInstallation(i: Installation) {
    Texts.RepositoryName(i.repository) && PositiveInt(i.repositoryId) && PositiveInt(i.ownerId) && PositiveInt(i.installationId)
  }

  function IdentityOf(c: Context): Installation {
    Installation(c.repositoryId, c.repository, c.ownerId, c.installationId)
  }

  predicate SameIdentity(r: Row, i: Installation) {
    r.repository == i.repository && r.ownerId == i.ownerId && r.installationId == i.installationId
  }

  /** What `_load_context` reads. */
  function ActiveContext(rows: Rows, id: int): Option<Context> {
    if id in rows && rows[id].state.Active? then Some(ContextOf(rows[id])) else None
  }

  /** The staleness test of `require_current`. */
  predicate Accepts(rows: Rows, c: Context) { ActiveContext(rows, c.repositoryId) == Some(c) }

  function Generation(rows: Rows, id: int): int { if id in rows then rows[id].generation else 0 }

  predicate CanActivate(rows: Rows, i: Installation, p: Policy) {
    ValidInstallation(i) && OwnerAllowed(p.allowedOwners, i.ownerId) && (i.repositoryId in rows || |rows| < p.maxRegistered)
  }

  function ActivatedRow(rows: Rows, i: Installation, now: int): Row {
    if i.repositoryId !in rows then NewRow(i, now)
    else
      var r := rows[i.repositoryId];
      var changed := !SameIdentity(r, i) || !r.state.Active?;
      r.(repository := i.repository, ownerId := i.ownerId, installationId := i.installationId, state := Active,
         revision := r.revision + 1, generation := r.generation + (if changed then 1 else 0),
         lastVerifiedAt := now, updatedAt := now)
  }

  predicate CanRetire(rows: Rows, c: Context) {
    c.repositoryId in rows && rows[c.repositoryId].generation == c.generation && rows[c.repositoryId].state.Active?
  }

  function RetiredRow(r: Row, now: int): Row {
    r.(state := Retired, revision := r.revision + 1, generation := r.generation + 1, updatedAt := now)
  }

  function Apply(rows: Rows, op: RowOp, p: Policy): Rows {
    match op
    case Activate(i, now) =>
      if CanActivate(rows, i, p) then rows[i.repositoryId := ActivatedRow(rows, i, now)] else rows
    case Retire(c, now) =>
      if CanRetire(rows, c) then rows[c.repositoryId := RetiredRow(rows[c.repositoryId], now)] else rows
  }

  /** An activation leaves the verified identity as the active row; every change of it is a new generation. */
  lemma ActivateMeans(rows: Rows, i: Installation, now: int, p: Policy)
    ensures var n := Apply(rows, Activate(i, now), p);
            if && Texts.RepositoryName(i.repository) && 0 < i.repositoryId < 0x8000_0000_0000_0000
               && 0 < i.ownerId < 0x8000_0000_0000_0000 && 0 < i.installationId < 0x8000_0000_0000_0000
               && (p.allowedOwners == {} || i.ownerId in p.allowedOwners) && (i.repositoryId in rows || |rows| < p.maxRegistered)
            then
              && n.Keys == rows.Keys + {i.repositoryId} && (forall id | id in rows && id != i.repositoryId :: n[id] == rows[id])
              && var after := n[i.repositoryId];
                 && after.state.Active? && after.repository == i.repository && after.ownerId == i.ownerId
                 && after.installationId == i.installationId && after.lastVerifiedAt == after.updatedAt == now
                 && if i.repositoryId !in rows then
                      && after.repositoryId == i.repositoryId && after.generation == after.revision == 1
                      && after.verifiedAt == after.createdAt == now
                    else
                      var was := rows[i.repositoryId];
                      && after.repositoryId == was.repositoryId && after.revision == was.revision + 1
                      && after.verifiedAt == was.verifiedAt && after.createdAt == was.createdAt
                      && after.generation == was.generation
                         + if was.state.Active? && was.repository == i.repository && was.ownerId == i.ownerId
                              && was.installationId == i.installationId then 0 else 1
            else n == rows
  {
  }

  /** A retirement takes exactly the active row of this generation, into a new generation. */
  lemma RetireMeans(rows: Rows, c: Context, now: int, p: Policy)
    ensures var n := Apply(rows, Retire(c, now), p);
            if c.repositoryId in rows && rows[c.repositoryId].state.Active? && rows[c.repositoryId].generation == c.generation then
              && n.Keys == rows.Keys && (forall id | id in rows && id != c.repositoryId :: n[id] == rows[id])
              && var was, after := rows[c.repositoryId], n[c.repositoryId];
                 && after.state.Retired? && after.generation == was.generation + 1 && after.revision == was.revision + 1
                 && after.updatedAt == now
                 && ContextOf(after).(generation := was.generation) == ContextOf(was)
                 && after.verifiedAt == was.verifiedAt && after.lastVerifiedAt == was.lastVerifiedAt && after.createdAt == was.createdAt
            else n == rows
  {
  }

  function Run(rows: Rows, ops: seq<RowOp>, p: Policy): Rows
    decreases |ops|
  {
    if ops == [] then rows else Run(Apply(rows, ops[0], p), ops[1..], p)
  }

  ghost predicate WellFormed(rows: Rows, p: Policy) {
    |rows| <= p.maxRegistered && forall id | id in rows :: PositiveInt(id) && rows[id].repositoryId == id && rows[id].generation >= 1
  }

  /**
   * `b` may follow `a`: no row is lost, no generation goes down, and a row whose generation stood still has the
   * same identity and the same active or retired state.
   */
  ghost predicate Later(a: Rows, b: Rows) {
    forall id | id in a ::
      && id in b && a[id].generation <= b[id].generation
      && (a[id].generation == b[id].generation ==> ContextOf(a[id]) == ContextOf(b[id]) && a[id].state == b[id].state)
  }

  /** Generations order every run, and the row limit holds throughout it. */
  lemma {:induction false} RunIsLater(rows: Rows, ops: seq<RowOp>, p: Policy)
    requires WellFormed(rows, p)
    ensures WellFormed(Run(rows, ops, p), p) && Later(rows, Run(rows, ops, p))
    decreases |ops|
  {
    if ops != [] {
      RunIsLater(Apply(rows, ops[0], p), ops[1..], p);
    }
  }

  lemma {:induction false} RunConcat(rows: Rows, a: seq<RowOp>, b: seq<RowOp>, p: Policy)
    ensures Run(rows, a + b, p) == Run(Run(rows, a, p), b, p)
    decreases |a|
  {
    if a == [] {
      assert a + b == b;
    } else {
      assert (a + b)[1..] == a[1..] + b;
      RunConcat(Apply(rows, a[0], p), a[1..], b, p);
    }
  }

  /** Each (repository, generation) names at most one active identity over a whole run. */
  lemma GenerationNamesOneIdentity(rows: Rows, ops: seq<RowOp>, m: nat, n: nat, c: Context, e: Context, p: Policy)
    requires WellFormed(rows, p) && m <= n <= |ops|
    requires Accepts(Run(rows, ops[..m], p), c) && Accepts(Run(rows, ops[..n], p), e)
    requires c.repositoryId == e.repositoryId && c.generation == e.generation
    ensures c == e
  {
    assert ops[..n] == ops[..m] + ops[m..n];
    RunConcat(rows, ops[..m], ops[m..n], p);
    RunIsLater(rows, ops[..m], p);
    RunIsLater(Run(rows, ops[..m], p), ops[m..n], p);
  }

  /** A context that was current once and was then rejected as stale is never accepted again. */
  lemma NoResurrection(rows: Rows, before: seq<RowOp>, after: seq<RowOp>, c: Context, p: Policy)
    requires WellFormed(rows, p) && Accepts(rows, c) && !Accepts(Run(rows, before, p), c)
    ensures !Accepts(Run(rows, before + after, p), c)
  {
    RunIsLater(rows, before, p);
    RunIsLater(Run(rows, before, p), after, p);
    RunConcat(rows, before, after, p);
  }

  // ----- exactly which rejected contexts may still become current -----

  /**
   * A context nobody issued yet may be accepted after all: its generation lies ahead of the row's, and it is not
   * the one right after an active row of the same identity, which the next change cannot produce.
   */
  predicate StillAhead(rows: Rows, c: Context, p: Policy) {
    && c.generation > Generation(rows, c.repositoryId)
    && CanActivate(rows, IdentityOf(c), p)
    && !(c.generation == Generation(rows, c.repositoryId) + 1
         && c.repositoryId in rows && rows[c.repositoryId].state.Active? && SameIdentity(rows[c.repositoryId], IdentityOf(c)))
  }

  /** An identity of the same repository and owner that differs from the context's. */
  function Other(c: Context): Installation {
    IdentityOf(c).(installationId := if c.installationId == 1 then 2 else 1)
  }

  /** The operations that bring the row up to the context's generation and identity. */
  function Route(rows: Rows, c: Context, p: Policy): seq<RowOp>
    requires WellFormed(rows, p) && StillAhead(rows, c, p)
    decreases c.generation - Generation(rows, c.repositoryId)
  {
    var g := Generation(rows, c.repositoryId);
    if c.generation == g + 1 then [Activate(IdentityOf(c), 0)]
    else
      var current := ActiveContext(rows, c.repositoryId);
      if current.Some? && current.value.generation == g && SameIdentity(rows[c.repositoryId], Other(c)) then
        var op := Retire(current.value, 0);
        [op] + Route(Apply(rows, op, p), c, p)
      else
        var op := Activate(Other(c), 0);
        [op] + Route(Apply(rows, op, p), c, p)
  }

  lemma {:induction false} RouteArrives(rows: Rows, c: Context, p: Policy)
    requires WellFormed(rows, p) && StillAhead(rows, c, p)
    ensures Accepts(Run(rows, Route(rows, c, p), p), c)
    decreases c.generation - Generation(rows, c.repositoryId)
  {
    var route := Route(rows, c, p);
    var next := Apply(rows, route[0], p);
    if c.generation == Generation(rows, c.repositoryId) + 1 {
      assert Run(rows, route, p) == next;
    } else {
      assert route[1..] == Route(next, c, p);
      RouteArrives(next, c, p);
    }
  }

  lemma {:induction false} OnlyAheadArrives(rows: Rows, ops: seq<RowOp>, c: Context, p: Policy)
    requires WellFormed(rows, p) && Accepts(Run(rows, ops, p), c)
    ensures Accepts(rows, c) || StillAhead(rows, c, p)
    decreases |ops|
  {
    if ops != [] {
      RunIsLater(rows, [ops[0]], p);
      assert Run(rows, [ops[0]], p) == Apply(rows, ops[0], p);
      OnlyAheadArrives(Apply(rows, ops[0], p), ops[1..], c, p);
    }
  }

  predicate AcceptsAfter(rows: Rows, ops: seq<RowOp>, c: Context, p: Policy) {
    Accepts(Run(rows, ops, p), c)
  }

  /** A rejected context can be accepted later if and only if it is still ahead of its row. */
  lemma AcceptedLaterIff(rows: Rows, c: Context, p: Policy)
    requires WellFormed(rows, p) && !Accepts(rows, c)
    ensures (exists ops :: AcceptsAfter(rows, ops, c, p)) <==> StillAhead(rows, c, p)
  {
    if StillAhead(rows, c, p) {
      RouteArrives(rows, c, p);
      assert AcceptsAfter(rows, Route(rows, c, p), c, p);
    }
    if ops :| AcceptsAfter(rows, ops, c, p) {
      OnlyAheadArrives(rows, ops, c, p);
    }
  }
}
