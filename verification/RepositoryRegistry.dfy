/** Python's OrderedDict as a sequence of entries with distinct keys, oldest first. */
module OrderedDict {
  import opened Basics

  type Entries<K, V> = seq<(K, V)>

  ghost predicate Distinct<K, V>(d: Entries<K, V>) {
    forall i, j | 0 <= i < j < |d| :: d[i].0 != d[j].0
  }

  function Get<K(==), V>(d: Entries<K, V>, k: K): (r: Option<V>)
    ensures r.Some? ==> exists i | 0 <= i < |d| :: d[i] == (k, r.value)
    ensures r.None? ==> forall i | 0 <= i < |d| :: d[i].0 != k
  {
    if d == [] then None
    else if d[0].0 == k then Some(d[0].1)
    else Get(d[1..], k)
  }

  function Pop<K(==, !new), V(!new)>(d: Entries<K, V>, k: K): (r: Entries<K, V>)
    requires Distinct(d)
    ensures Distinct(r) && |r| <= |d|
    ensures forall e :: e in r <==> e in d && e.0 != k
    ensures (exists i | 0 <= i < |d| :: d[i].0 == k) ==> |r| < |d|
  {
    if d == [] then []
    else if d[0].0 == k then d[1..]
    else [d[0]] + Pop(d[1..], k)
  }

  lemma {:induction false} PopNothing<K(!new), V(!new)>(d: Entries<K, V>, k: K)
    requires Distinct(d) && Get(d, k).None?
    ensures Pop(d, k) == d
  {
    if d != [] {
      PopNothing(d[1..], k);
      assert d == [d[0]] + d[1..];
    }
  }

  /** Assignment followed by `move_to_end`, then the oldest entries beyond the limit are dropped. */
  function PutLast<K(==, !new), V(!new)>(d: Entries<K, V>, k: K, v: V, limit: nat): (r: Entries<K, V>)
    requires Distinct(d)
    ensures Distinct(r) && |r| <= limit
    ensures limit > 0 ==> (k, v) in r
    ensures forall e | e in r :: e == (k, v) || (e in d && e.0 != k)
  {
    var all := Pop(d, k) + [(k, v)];
    assert all[|all| - 1] == (k, v);
    if |all| <= limit then all
    else
      assert limit > 0 ==> all[|all| - limit..][limit - 1] == (k, v);
      all[|all| - limit..]
  }

  /** The entry just put is found. */
  lemma PutLastIsFound<K(!new), V(!new)>(d: Entries<K, V>, k: K, v: V, limit: nat)
    requires Distinct(d) && limit > 0
    ensures Get(PutLast(d, k, v, limit), k) == Some(v)
  {
    var r := PutLast(d, k, v, limit);
    var j :| 0 <= j < |r| && r[j] == (k, v);
    assert r[j].0 == k;
  }
}

/**
 * The registry's methods (registry.py) over the durable rows, the two caches and the discovery oracle. No lock of
 * the whole registry is held from one statement to the next, so at every such point other threads may write any
 * rows and leave the caches in any valid state.
 */
module RepositoryRegistry {
  import opened Basics
  import opened Registration
  import Texts
  import opened RegistryRows
  import opened OrderedDict

  datatype Answer = Found(i: Installation) | DiscoveryDenied | DiscoveryFailed

  datatype Identity = Identity(
    registersRepositories: bool, repositoryId: int, repository: string, ownerId: int, workflowTrusted: bool)

  datatype Failure = Denied | NotFound | Stale | Operational

  type Positives = Entries<int, (int, Context)>

  type Negatives = Entries<int, int>

  /** What other threads do at one point: writes of rows, and the caches as they leave them. */
  datatype Others = Others(ops: seq<RowOp>, positive: Positives, negative: Negatives)

  /** The points of `register` and `resolve` at which others may come in between. */
  datatype Meanwhile = Meanwhile(afterCache: Others, afterNegative: Others, discovering: Others, retiring: Others)

  ghost predicate Fits(o: Others, maximum: nat, lockLimit: nat) {
    Distinct(o.positive) && |o.positive| <= maximum && Distinct(o.negative) && |o.negative| <= lockLimit
  }

  ghost predicate AllFit(w: Meanwhile, maximum: nat, lockLimit: nat) {
    Fits(w.afterCache, maximum, lockLimit) && Fits(w.afterNegative, maximum, lockLimit)
    && Fits(w.discovering, maximum, lockLimit) && Fits(w.retiring, maximum, lockLimit)
  }

  /** Nobody else activates this row, as its repository lock guarantees. */
  predicate Locked(ops: seq<RowOp>, id: int) {
    forall k | 0 <= k < |ops| && ops[k].Activate? :: ops[k].i.repositoryId != id
  }

  predicate AllLocked(w: Meanwhile, id: int) {
    Locked(w.afterCache.ops, id) && Locked(w.afterNegative.ops, id) && Locked(w.discovering.ops, id) && Locked(w.retiring.ops, id)
  }

  /** Without activations a row stays what it is or is retired. */
  lemma {:induction false} LockedOnlyRetires(rows: Rows, ops: seq<RowOp>, id: int, p: Policy)
    requires Locked(ops, id) && WellFormed(rows, p)
    ensures ActiveContext(Run(rows, ops, p), id) in {ActiveContext(rows, id), None}
    decreases |ops|
  {
    if ops != [] {
      assert Locked(ops[1..], id) by {
        assert forall k | 0 <= k < |ops[1..]| :: ops[1..][k] == ops[k + 1];
      }
      assert Locked(ops[..1], id);
      RunIsLater(rows, ops[..1], p);
      assert ops[..1][1..] == [] && Run(rows, ops[..1], p) == Apply(rows, ops[0], p);
      LockedOnlyRetires(Apply(rows, ops[0], p), ops[1..], id, p);
    }
  }

  // ----- what the methods decide -----

  /** What `_fresh_positive` may return: an entry that has not expired and still equals the durable row. */
  function FreshContext(rows: Rows, positive: Positives, id: int, now: int): Option<Context> {
    var item := Get(positive, id);
    if item.Some? && item.value.0 > now && ActiveContext(rows, id) == Some(item.value.1) then Some(item.value.1) else None
  }

  /** The cache holds this context under its repository and until after `now`. */
  predicate Remembers(positive: Positives, c: Context, now: int) {
    var item := Get(positive, c.repositoryId);
    item.Some? && item.value.1 == c && item.value.0 > now
  }

  predicate NegativeFresh(negative: Negatives, id: int, now: int) {
    Get(negative, id).Some? && Get(negative, id).value > now
  }

  predicate RetiredFresh(rows: Rows, id: int, now: int, ttl: nat) {
    id in rows && rows[id].state.Retired? && rows[id].updatedAt + ttl > now
  }

  predicate Admissible(v: Identity) {
    && v.registersRepositories && PositiveInt(v.repositoryId) && Texts.RepositoryName(v.repository)
    && PositiveInt(v.ownerId) && v.workflowTrusted
  }

  predicate Confirms(answer: Answer, id: int, repository: string, ownerId: int) {
    answer.Found? && answer.i.repositoryId == id && answer.i.repository == repository && answer.i.ownerId == ownerId
  }

  /** After discovery: a confirmed identity is activated, a denied one retired, a failure changes nothing. */
  function Settled(rows: Rows, answer: Answer, confirmed: bool, denied: Option<Context>, between: seq<RowOp>, now: int, p: Policy)
    : (Rows, Result<Context, Failure>)
    requires confirmed ==> answer.Found?
  {
    if answer.DiscoveryFailed? then (rows, Err(Operational))
    else if !confirmed then (if denied.Some? then Apply(Run(rows, between, p), Retire(denied.value, now), p) else rows, Err(Denied))
    else
      var after := Apply(rows, Activate(answer.i, now), p);
      (after, if CanActivate(rows, answer.i, p) then Ok(ContextOf(after[answer.i.repositoryId])) else Err(Denied))
  }

  /** `register` as a decision over the rows. */
  function Registered(rows: Rows, v: Identity, cached: Option<Context>, answer: Answer, w: Meanwhile, now: int, p: Policy, ttl: nat)
    : (Rows, Result<Context, Failure>)
  {
    if !Admissible(v) || !OwnerAllowed(p.allowedOwners, v.ownerId) then (rows, Err(Denied))
    else if cached.Some? && cached.value.repository == v.repository && cached.value.ownerId == v.ownerId then (rows, Ok(cached.value))
    else
      var checked := Run(rows, w.afterCache.ops, p);
      if NegativeFresh(w.afterCache.negative, v.repositoryId, now) then (checked, Err(Denied))
      else
        var asked := Run(checked, w.afterNegative.ops, p);
        if RetiredFresh(asked, v.repositoryId, now, ttl) then (asked, Err(Denied))
        else
          var found := Run(asked, w.discovering.ops, p);
          Settled(found, answer, Confirms(answer, v.repositoryId, v.repository, v.ownerId), ActiveContext(found, v.repositoryId),
                  w.retiring.ops, now, p)
  }

  /** `resolve` as a decision over the rows, once the negative cache has nothing against it. */
  function Resolved(rows: Rows, id: int, cached: Option<Context>, answer: Answer, w: Meanwhile, now: int, p: Policy)
    : (Rows, Result<Context, Failure>)
  {
    if cached.Some? then
      if OwnerAllowed(p.allowedOwners, cached.value.ownerId) then (rows, Ok(cached.value))
      else (Apply(Run(rows, w.retiring.ops, p), Retire(cached.value, now), p), Err(Denied))
    else
      var loaded := Run(rows, w.afterCache.ops, p);
      var stored := ActiveContext(loaded, id);
      if stored.None? then (loaded, Err(NotFound))
      else if !OwnerAllowed(p.allowedOwners, stored.value.ownerId) then
        (Apply(Run(loaded, w.retiring.ops, p), Retire(stored.value, now), p), Err(Denied))
      else
        Settled(Run(loaded, w.discovering.ops, p), answer, Confirms(answer, id, stored.value.repository, stored.value.ownerId),
                stored, w.retiring.ops, now, p)
  }

  /** `resolve` with its first look at the negative cache. */
  function ResolvedFrom(rows: Rows, id: int, missing: bool, answer: Answer, w: Meanwhile, now: int, p: Policy)
    : (Rows, Result<Context, Failure>)
  {
    if !PositiveInt(id) then (rows, Err(Denied))
    else if missing then (rows, Err(NotFound))
    else
      var asked := Run(rows, w.afterNegative.ops, p);
      Resolved(asked, id, FreshContext(asked, w.afterNegative.positive, id, now), answer, w, now, p)
  }

  /** `require_current` as a decision over the rows; `first` comes before the cache is asked, `second` before `resolve`. */
  function Required(rows: Rows, c: Context, answer: Answer, first: Others, second: Others, w: Meanwhile, now: int, p: Policy)
    : (Rows, Result<(), Failure>)
  {
    if !PositiveInt(c.repositoryId) then (rows, Err(Denied))
    else if !Accepts(rows, c) then (rows, Err(Stale))
    else
      var checked := Run(rows, first.ops, p);
      if !OwnerAllowed(p.allowedOwners, c.ownerId) then (Apply(checked, Retire(c, now), p), Err(Denied))
      else if FreshContext(checked, first.positive, c.repositoryId, now) == Some(c) then (checked, Ok(()))
      else
        var (after, resolved) := ResolvedFrom(Run(checked, second.ops, p), c.repositoryId,
                                              NegativeFresh(second.negative, c.repositoryId, now), answer, w, now, p);
        (after, if resolved.Err? then Err(resolved.error) else if resolved.value == c then Ok(()) else Err(Stale))
  }

  lemma RegisteredFromCache(rows: Rows, v: Identity, c: Context, answer: Answer, w: Meanwhile, now: int, p: Policy, ttl: nat)
    requires Admissible(v) && OwnerAllowed(p.allowedOwners, v.ownerId) && c.repository == v.repository && c.ownerId == v.ownerId
    ensures Registered(rows, v, Some(c), answer, w, now, p, ttl) == (rows, Ok(c))
  {
  }

  /** A cached context of another name or owner decides nothing. */
  lemma RegisteredDespiteCache(rows: Rows, v: Identity, c: Option<Context>, answer: Answer, w: Meanwhile, now: int, p: Policy, ttl: nat)
    requires c.Some? ==> c.value.repository != v.repository || c.value.ownerId != v.ownerId
    ensures Registered(rows, v, c, answer, w, now, p, ttl) == Registered(rows, v, None, answer, w, now, p, ttl)
  {
  }

  // ----- what the decisions mean -----

  /** Other than a fresh entry, nothing of the cache counts. */
  lemma FreshIsRemembered(rows: Rows, positive: Positives, id: int, now: int)
    ensures var c := FreshContext(rows, positive, id, now);
            && (c.Some? ==> ActiveContext(rows, id) == c)
            && (c.Some? <==> Get(positive, id).Some? && Get(positive, id).value.0 > now
                             && ActiveContext(rows, id) == Some(Get(positive, id).value.1))
  {
  }

  predicate Known(rows: Rows, positive: Positives, v: Identity, now: int) {
    var c := ActiveContext(rows, v.repositoryId);
    c.Some? && Remembers(positive, c.value, now) && c.value.repository == v.repository && c.value.ownerId == v.ownerId
  }

  /** Discovery has found exactly this repository with this owner, and there is a row or room for one. */
  predicate Confirmed(answer: Answer, id: int, repository: string, ownerId: int, rows: Rows, p: Policy) {
    && answer.Found? && answer.i == Installation(id, repository, ownerId, answer.i.installationId)
    && 0 < answer.i.installationId < 0x8000_0000_0000_0000
    && (id in rows || |rows| < p.maxRegistered)
  }

  /** The end of both operations succeeds exactly for the confirmed identity of an acceptable repository. */
  lemma SettledIff(rows: Rows, answer: Answer, id: int, repository: string, ownerId: int, denied: Option<Context>,
                   between: seq<RowOp>, now: int, p: Policy)
    requires WellFormed(rows, p) && Texts.RepositoryName(repository) && PositiveInt(id) && PositiveInt(ownerId)
    requires p.allowedOwners == {} || ownerId in p.allowedOwners
    ensures var (after, r) := Settled(rows, answer, Confirms(answer, id, repository, ownerId), denied, between, now, p);
            && (r.Ok? <==> Confirmed(answer, id, repository, ownerId, rows, p))
            && (r.Ok? ==> answer == Found(IdentityOf(r.value)) && Accepts(after, r.value))
            && (r == Err(Operational) <==> answer.DiscoveryFailed?)
            && (answer.DiscoveryFailed? ==> after == rows)
            && (denied.Some? && answer.DiscoveryDenied? ==> !Accepts(after, denied.value))
  {
  }

  /** When a registration succeeds, and that it changes nothing but the row of its repository. */
  lemma RegisteredIff(rows: Rows, positive: Positives, v: Identity, answer: Answer, w: Meanwhile, now: int, p: Policy, ttl: nat)
    requires WellFormed(rows, p)
    ensures var (after, r) := Registered(rows, v, FreshContext(rows, positive, v.repositoryId, now), answer, w, now, p, ttl);
            var asked := Run(Run(rows, w.afterCache.ops, p), w.afterNegative.ops, p);
            var found := Run(asked, w.discovering.ops, p);
            var denied := Get(w.afterCache.negative, v.repositoryId);
            && (r.Ok? <==>
                  && v.registersRepositories && v.workflowTrusted && Texts.RepositoryName(v.repository)
                  && 0 < v.repositoryId < 0x8000_0000_0000_0000 && 0 < v.ownerId < 0x8000_0000_0000_0000
                  && (p.allowedOwners == {} || v.ownerId in p.allowedOwners)
                  && (|| Known(rows, positive, v, now)
                      || (&& !(denied.Some? && denied.value > now)
                          && !(v.repositoryId in asked && asked[v.repositoryId].state.Retired?
                               && asked[v.repositoryId].updatedAt + ttl > now)
                          && Confirmed(answer, v.repositoryId, v.repository, v.ownerId, found, p))))
            && (r.Ok? ==> answer == Found(IdentityOf(r.value)) || Remembers(positive, r.value, now))
            && (r == Err(Operational) ==> answer.DiscoveryFailed? && after == found)
  {
    FreshIsRemembered(rows, positive, v.repositoryId, now);
    var checked := Run(rows, w.afterCache.ops, p);
    var asked := Run(checked, w.afterNegative.ops, p);
    var found := Run(asked, w.discovering.ops, p);
    RunIsLater(rows, w.afterCache.ops, p);
    RunIsLater(checked, w.afterNegative.ops, p);
    RunIsLater(asked, w.discovering.ops, p);
    if Admissible(v) && OwnerAllowed(p.allowedOwners, v.ownerId) {
      SettledIff(found, answer, v.repositoryId, v.repository, v.ownerId, ActiveContext(found, v.repositoryId), w.retiring.ops, now, p);
    }
  }

  /** When a stored repository is resolved. */
  lemma ResolvedIff(rows: Rows, id: int, missing: bool, answer: Answer, w: Meanwhile, now: int, p: Policy)
    requires WellFormed(rows, p)
    ensures var (after, r) := ResolvedFrom(rows, id, missing, answer, w, now, p);
            var asked := Run(rows, w.afterNegative.ops, p);
            var loaded := Run(asked, w.afterCache.ops, p);
            var found := Run(loaded, w.discovering.ops, p);
            var cached := ActiveContext(asked, id);
            var stored := ActiveContext(loaded, id);
            && (r.Ok? <==>
                  && 0 < id < 0x8000_0000_0000_0000 && !missing
                  && if cached.Some? && Remembers(w.afterNegative.positive, cached.value, now)
                     then p.allowedOwners == {} || cached.value.ownerId in p.allowedOwners
                     else && stored.Some? && (p.allowedOwners == {} || stored.value.ownerId in p.allowedOwners)
                          && Confirmable(stored.value)
                          && Confirmed(answer, id, stored.value.repository, stored.value.ownerId, found, p))
            && (r.Ok? ==> answer == Found(IdentityOf(r.value)) || Remembers(w.afterNegative.positive, r.value, now))
            && (r == Err(Operational) ==> answer.DiscoveryFailed? && after == found)
            && (r == Err(NotFound) ==> missing || (stored.None? && after == loaded))
            && (!(0 < id < 0x8000_0000_0000_0000) ==> r == Err(Denied) && after == rows)
  {
    var asked := Run(rows, w.afterNegative.ops, p);
    var loaded := Run(asked, w.afterCache.ops, p);
    var found := Run(loaded, w.discovering.ops, p);
    RunIsLater(rows, w.afterNegative.ops, p);
    RunIsLater(asked, w.afterCache.ops, p);
    RunIsLater(loaded, w.discovering.ops, p);
    FreshIsRemembered(asked, w.afterNegative.positive, id, now);
    var stored := ActiveContext(loaded, id);
    if PositiveInt(id) && stored.Some? && OwnerAllowed(p.allowedOwners, stored.value.ownerId) {
      if Confirmable(stored.value) {
        SettledIff(found, answer, id, stored.value.repository, stored.value.ownerId, stored, w.retiring.ops, now, p);
      }
    }
  }

  /** Rows are written with a proper name and owner, so that discovery can confirm them. */
  predicate Confirmable(c: Context) {
    Texts.RepositoryName(c.repository) && 0 < c.ownerId < 0x8000_0000_0000_0000
  }

  lemma StoredIsRetired(rows: Rows, id: int, answer: Answer, w: Meanwhile, now: int, p: Policy)
    requires WellFormed(rows, p)
    ensures var (after, r) := Resolved(rows, id, None, answer, w, now, p);
            var stored := ActiveContext(Run(rows, w.afterCache.ops, p), id);
            stored.Some? && (answer.DiscoveryDenied? || (p.allowedOwners != {} && stored.value.ownerId !in p.allowedOwners)) ==>
              r == Err(Denied) && !Accepts(after, stored.value)
  {
  }

  /** Whatever context `resolve` finds for an owner who is not allowed, or that discovery denies, is not accepted afterwards. */
  lemma DeniedIsRetired(rows: Rows, id: int, answer: Answer, w: Meanwhile, now: int, p: Policy)
    requires WellFormed(rows, p) && PositiveInt(id)
    ensures var (after, r) := ResolvedFrom(rows, id, false, answer, w, now, p);
            var asked := Run(rows, w.afterNegative.ops, p);
            var cached := ActiveContext(asked, id);
            var stored := ActiveContext(Run(asked, w.afterCache.ops, p), id);
            if cached.Some? && Remembers(w.afterNegative.positive, cached.value, now) then
              p.allowedOwners != {} && cached.value.ownerId !in p.allowedOwners ==> r == Err(Denied) && !Accepts(after, cached.value)
            else
              stored.Some? && (answer.DiscoveryDenied? || (p.allowedOwners != {} && stored.value.ownerId !in p.allowedOwners)) ==>
                r == Err(Denied) && !Accepts(after, stored.value)
  {
    var asked := Run(rows, w.afterNegative.ops, p);
    RunIsLater(rows, w.afterNegative.ops, p);
    FreshIsRemembered(asked, w.afterNegative.positive, id, now);
    if FreshContext(asked, w.afterNegative.positive, id, now).None? {
      StoredIsRetired(asked, id, answer, w, now, p);
    }
  }

  /** When `require_current` passes. */
  lemma RequiredIff(rows: Rows, c: Context, answer: Answer, first: Others, second: Others, w: Meanwhile, now: int, p: Policy)
    requires WellFormed(rows, p)
    ensures var (after, r) := Required(rows, c, answer, first, second, w, now, p);
            var checked := Run(rows, first.ops, p);
            var again := ResolvedFrom(Run(checked, second.ops, p), c.repositoryId, NegativeFresh(second.negative, c.repositoryId, now),
                                      answer, w, now, p).1;
            && (r.Ok? <==>
                  && 0 < c.repositoryId < 0x8000_0000_0000_0000 && Accepts(rows, c)
                  && (p.allowedOwners == {} || c.ownerId in p.allowedOwners)
                  && ((Remembers(first.positive, c, now) && Accepts(checked, c)) || again == Ok(c)))
            && (r.Ok? ==> Accepts(after, c))
            && (!(0 < c.repositoryId < 0x8000_0000_0000_0000) ==> r == Err(Denied) && after == rows)
            && (0 < c.repositoryId < 0x8000_0000_0000_0000 && !Accepts(rows, c) ==> r == Err(Stale) && after == rows)
            && (Accepts(rows, c) && !OwnerAllowed(p.allowedOwners, c.ownerId) ==> !Accepts(after, c))
  {
    FreshIsRemembered(Run(rows, first.ops, p), first.positive, c.repositoryId, now);
    RunIsLater(rows, first.ops, p);
  }

  lemma LaterThanLater(a: Rows, b: Rows, c: Rows)
    requires Later(a, b) && Later(b, c)
    ensures Later(a, c)
  {
  }

  class Registry {
    const policy: Policy
    const positiveTtl: nat
    const negativeTtl: nat
    const lockLimit: nat
    var rows: Rows
    var positive: Positives
    var negative: Negatives

    constructor (policy: Policy, positiveTtl: nat, negativeTtl: nat)
      ensures Valid() && rows == map[] && this.policy == policy
    {
      this.policy, this.positiveTtl, this.negativeTtl := policy, positiveTtl, negativeTtl;
      var doubled := 2 * policy.maxRegistered;
      lockLimit := if doubled < 8 then 8 else if doubled > 64 then 64 else doubled;
      rows, positive, negative := map[], [], [];
    }

    ghost predicate Valid()
      reads this
    {
      && WellFormed(rows, policy)
      && Distinct(positive) && |positive| <= policy.maxRegistered
      && Distinct(negative) && |negative| <= lockLimit && lockLimit > 0
    }

    // ----- the caches -----

    /** A fresh cached context, and only while it equals the durable row. */
    method FreshPositive(id: int, now: int) returns (c: Option<Context>)
      requires Valid()
      modifies this`positive
      ensures Valid() && c == old(FreshContext(rows, positive, id, now))
      ensures c.Some? ==> ActiveContext(rows, id) == c
      ensures c.Some? <==>
                && old(Get(positive, id)).Some? && old(Get(positive, id)).value.0 > now
                && ActiveContext(rows, id) == Some(old(Get(positive, id)).value.1)
      ensures c.Some? ==> c.value.repositoryId == id && old(Remembers(positive, c.value, now))
      ensures c.Some? && policy.maxRegistered > 0 ==> Get(positive, id) == old(Get(positive, id))
      ensures positive == if c.Some? then PutLast(old(positive), id, old(Get(positive, id)).value, policy.maxRegistered)
                          else Pop(old(positive), id)
    {
      var item := Get(positive, id);
      if item.None? {
        PopNothing(positive, id);
        return None;
      }
      if item.value.0 <= now || ActiveContext(rows, id) != Some(item.value.1) {
        positive := Pop(positive, id);
        return None;
      }
      if policy.maxRegistered > 0 {
        PutLastIsFound(positive, id, item.value, policy.maxRegistered);
      }
      positive := PutLast(positive, id, item.value, policy.maxRegistered);
      return Some(item.value.1);
    }

    method RememberPositive(c: Context, now: int)
      requires Valid()
      modifies this`positive, this`negative
      ensures Valid()
      ensures positive == PutLast(old(positive), c.repositoryId, (now + positiveTtl, c), policy.maxRegistered)
      ensures negative == Pop(old(negative), c.repositoryId)
      ensures policy.maxRegistered > 0 ==> Get(positive, c.repositoryId) == Some((now + positiveTtl, c))
    {
      if policy.maxRegistered > 0 {
        PutLastIsFound(positive, c.repositoryId, (now + positiveTtl, c), policy.maxRegistered);
      }
      positive := PutLast(positive, c.repositoryId, (now + positiveTtl, c), policy.maxRegistered);
      negative := Pop(negative, c.repositoryId);
    }

    method NegativeIsFresh(id: int, now: int) returns (fresh': bool)
      requires Valid()
      modifies this`negative
      ensures Valid() && (fresh' <==> old(NegativeFresh(negative, id, now)))
      ensures fresh' <==> old(Get(negative, id)).Some? && old(Get(negative, id)).value > now
      ensures negative == if fresh' then PutLast(old(negative), id, old(Get(negative, id)).value, lockLimit)
                          else Pop(old(negative), id)
    {
      var expires := Get(negative, id);
      if expires.None? {
        PopNothing(negative, id);
        return false;
      }
      if expires.value <= now {
        negative := Pop(negative, id);
        return false;
      }
      negative := PutLast(negative, id, expires.value, lockLimit);
      return true;
    }

    method RememberNegative(id: int, now: int)
      requires Valid()
      modifies this`negative
      ensures Valid() && negative == PutLast(old(negative), id, now + negativeTtl, lockLimit)
      ensures Get(negative, id) == Some(now + negativeTtl)
    {
      PutLastIsFound(negative, id, now + negativeTtl, lockLimit);
      negative := PutLast(negative, id, now + negativeTtl, lockLimit);
    }

    // ----- the two writers of rows -----

    method ActivateRow(i: Installation, now: int) returns (r: Result<Context, Failure>)
      requires Valid()
      modifies this
      ensures Valid() && rows == Apply(old(rows), Activate(i, now), policy) && Later(old(rows), rows)
      ensures r.Ok? <==> CanActivate(old(rows), i, policy)
      ensures r.Ok? ==> Accepts(rows, r.value) && IdentityOf(r.value) == i && r.value == ContextOf(rows[i.repositoryId])
      ensures r.Ok? ==> Get(positive, i.repositoryId) == Some((now + positiveTtl, r.value))
      ensures r.Ok? ==> positive == PutLast(old(positive), i.repositoryId, (now + positiveTtl, r.value), policy.maxRegistered)
                        && negative == Pop(old(negative), i.repositoryId)
      ensures r.Err? ==> r.error == Denied && positive == old(positive) && negative == old(negative)
    {
      if !CanActivate(rows, i, policy) {
        return Err(Denied);
      }
      var record := ActivatedRow(rows, i, now);
      rows := rows[i.repositoryId := record];
      assert |rows| > 0;
      RememberPositive(ContextOf(record), now);
      return Ok(ContextOf(record));
    }

    /** Retires the row only while it still is the context's; the cache loses exactly that context. */
    method RetireRow(c: Context, now: int)
      requires Valid()
      modifies this
      ensures Valid() && rows == Apply(old(rows), Retire(c, now), policy) && Later(old(rows), rows)
      ensures !Accepts(rows, c)
      ensures positive == if Get(old(positive), c.repositoryId).Some? && Get(old(positive), c.repositoryId).value.1 == c
                          then Pop(old(positive), c.repositoryId) else old(positive)
      ensures negative == if CanRetire(old(rows), c) then PutLast(old(negative), c.repositoryId, now + negativeTtl, lockLimit)
                          else old(negative)
    {
      var retired := CanRetire(rows, c);
      if retired {
        rows := rows[c.repositoryId := RetiredRow(rows[c.repositoryId], now)];
      }
      var cached := Get(positive, c.repositoryId);
      if cached.Some? && cached.value.1 == c {
        positive := Pop(positive, c.repositoryId);
      }
      if retired {
        RememberNegative(c.repositoryId, now);
      }
    }

    /** Other threads come in between. */
    method Elsewhere(o: Others)
      requires Valid() && Fits(o, policy.maxRegistered, lockLimit)
      modifies this
      ensures Valid() && rows == Run(old(rows), o.ops, policy) && Later(old(rows), rows)
      ensures positive == o.positive && negative == o.negative
    {
      RunIsLater(rows, o.ops, policy);
      rows, positive, negative := Run(rows, o.ops, policy), o.positive, o.negative;
    }

    // ----- register, resolve, require_current -----

    /** `register`: what it returns is the active durable row of the verified identity, and cached. */
    method Register(v: Identity, answer: Answer, w: Meanwhile, now: int) returns (r: Result<Context, Failure>)
      requires Valid() && AllFit(w, policy.maxRegistered, lockLimit)
      modifies this
      ensures Valid() && Later(old(rows), rows)
      ensures r.Ok? ==> Accepts(rows, r.value) && v.registersRepositories && v.workflowTrusted
                        && r.value.repositoryId == v.repositoryId && r.value.repository == v.repository
                        && r.value.ownerId == v.ownerId && OwnerAllowed(policy.allowedOwners, v.ownerId)
      ensures r.Ok? ==> Get(positive, v.repositoryId).Some? && Get(positive, v.repositoryId).value.1 == r.value
      ensures r.Ok? ==> answer == Found(IdentityOf(r.value)) || old(Remembers(positive, r.value, now))
      ensures (rows, r) == Registered(old(rows), v, old(FreshContext(rows, positive, v.repositoryId, now)),
                                      answer, w, now, policy, negativeTtl)
    {
      if !Admissible(v) {
        return Err(Denied);
      }
      if !OwnerAllowed(policy.allowedOwners, v.ownerId) {
        RememberNegative(v.repositoryId, now);
        return Err(Denied);
      }
      var cached := FreshPositive(v.repositoryId, now);
      if cached.Some? && cached.value.repository == v.repository && cached.value.ownerId == v.ownerId {
        RegisteredFromCache(rows, v, cached.value, answer, w, now, policy, negativeTtl);
        return Ok(cached.value);
      }
      RegisteredDespiteCache(rows, v, cached, answer, w, now, policy, negativeTtl);
      r := RegisterUncached(v, answer, w, now);
    }

    /** `register` when the cache has no answer. */
    method RegisterUncached(v: Identity, answer: Answer, w: Meanwhile, now: int) returns (r: Result<Context, Failure>)
      requires Valid() && AllFit(w, policy.maxRegistered, lockLimit)
      requires Admissible(v) && OwnerAllowed(policy.allowedOwners, v.ownerId)
      modifies this
      ensures Valid() && Later(old(rows), rows)
      ensures r.Ok? ==> Accepts(rows, r.value) && r.value.repositoryId == v.repositoryId && r.value.repository == v.repository
                        && r.value.ownerId == v.ownerId
      ensures r.Ok? ==> Get(positive, v.repositoryId).Some? && Get(positive, v.repositoryId).value.1 == r.value
      ensures r.Ok? ==> answer == Found(IdentityOf(r.value))
      ensures (rows, r) == Registered(old(rows), v, None, answer, w, now, policy, negativeTtl)
    {
      ghost var before := rows;
      Elsewhere(w.afterCache);
      ghost var checked := rows;
      var denied := NegativeIsFresh(v.repositoryId, now);
      if denied {
        return Err(Denied);
      }
      Elsewhere(w.afterNegative);
      ghost var asked := rows;
      LaterThanLater(before, checked, asked);
      if RetiredFresh(rows, v.repositoryId, now, negativeTtl) {
        return Err(Denied);
      }
      Elsewhere(w.discovering);
      ghost var found := rows;
      LaterThanLater(before, asked, found);
      r := SettleRegistration(v, answer, w.retiring, now);
      LaterThanLater(before, found, rows);
    }

    /** The end of `register`, once discovery has answered: a denial leaves no active row behind. */
    method SettleRegistration(v: Identity, answer: Answer, between: Others, now: int) returns (r: Result<Context, Failure>)
      requires Valid() && Fits(between, policy.maxRegistered, lockLimit)
      modifies this
      ensures Valid() && Later(old(rows), rows)
      ensures r.Ok? ==> Accepts(rows, r.value) && answer == Found(IdentityOf(r.value))
      ensures r.Ok? ==> r.value.repositoryId == v.repositoryId && r.value.repository == v.repository
                        && r.value.ownerId == v.ownerId
      ensures r.Ok? ==> Get(positive, v.repositoryId) == Some((now + positiveTtl, r.value))
      ensures answer.DiscoveryDenied? ==> r == Err(Denied) && Get(negative, v.repositoryId) == Some(now + negativeTtl)
      ensures answer.DiscoveryDenied? && Locked(between.ops, v.repositoryId) ==> ActiveContext(rows, v.repositoryId).None?
      ensures (rows, r) == Settled(old(rows), answer, Confirms(answer, v.repositoryId, v.repository, v.ownerId),
                                   old(ActiveContext(rows, v.repositoryId)), between.ops, now, policy)
    {
      if answer.DiscoveryFailed? {
        return Err(Operational);
      }
      if !Confirms(answer, v.repositoryId, v.repository, v.ownerId) {
        var stored := ActiveContext(rows, v.repositoryId);
        if stored.Some? {
          RetireStored(stored.value, between, now);
        }
        RememberNegative(v.repositoryId, now);
        return Err(Denied);
      }
      r := ActivateRow(answer.i, now);
    }

    /** `_retire` of a context that was loaded before; in between it may have been retired by somebody else. */
    method RetireStored(c: Context, between: Others, now: int)
      requires Valid() && Fits(between, policy.maxRegistered, lockLimit)
      modifies this
      ensures Valid() && rows == Apply(Run(old(rows), between.ops, policy), Retire(c, now), policy) && Later(old(rows), rows)
      ensures !Accepts(rows, c)
      ensures old(Accepts(rows, c)) && Locked(between.ops, c.repositoryId) ==> ActiveContext(rows, c.repositoryId).None?
    {
      ghost var before := rows;
      if Locked(between.ops, c.repositoryId) {
        LockedOnlyRetires(rows, between.ops, c.repositoryId, policy);
      }
      Elsewhere(between);
      ghost var found := rows;
      RetireRow(c, now);
      LaterThanLater(before, found, rows);
    }

    /** `resolve`: a returned context is the active durable row of an allowed owner. */
    method Resolve(id: int, answer: Answer, w: Meanwhile, now: int) returns (r: Result<Context, Failure>)
      requires Valid() && AllFit(w, policy.maxRegistered, lockLimit)
      modifies this
      ensures Valid() && Later(old(rows), rows)
      ensures r.Ok? ==> Accepts(rows, r.value) && r.value.repositoryId == id
                        && OwnerAllowed(policy.allowedOwners, r.value.ownerId)
      ensures old(ActiveContext(rows, id)).None? && AllLocked(w, id) ==> r.Err?
      ensures r.Ok? ==> answer == Found(IdentityOf(r.value)) || Remembers(w.afterNegative.positive, r.value, now)
      ensures (rows, r) == ResolvedFrom(old(rows), id, old(NegativeFresh(negative, id, now)), answer, w, now, policy)
    {
      if !PositiveInt(id) {
        return Err(Denied);
      }
      var missing := NegativeIsFresh(id, now);
      if missing {
        return Err(NotFound);
      }
      ghost var before := rows;
      if AllLocked(w, id) {
        LockedOnlyRetires(rows, w.afterNegative.ops, id, policy);
      }
      Elsewhere(w.afterNegative);
      ghost var asked := rows;
      var cached := FreshPositive(id, now);
      if cached.Some? {
        if !OwnerAllowed(policy.allowedOwners, cached.value.ownerId) {
          RetireStored(cached.value, w.retiring, now);
          LaterThanLater(before, asked, rows);
          return Err(Denied);
        }
        return Ok(cached.value);
      }
      r := ResolveUncached(id, answer, w, now);
      LaterThanLater(before, asked, rows);
    }

    /** `resolve` when the caches have no answer. */
    method ResolveUncached(id: int, answer: Answer, w: Meanwhile, now: int) returns (r: Result<Context, Failure>)
      requires Valid() && AllFit(w, policy.maxRegistered, lockLimit)
      modifies this
      ensures Valid() && Later(old(rows), rows)
      ensures r.Ok? ==> Accepts(rows, r.value) && r.value.repositoryId == id && OwnerAllowed(policy.allowedOwners, r.value.ownerId)
      ensures old(ActiveContext(rows, id)).None? && AllLocked(w, id) ==> r.Err?
      ensures r.Ok? ==> answer == Found(IdentityOf(r.value))
      ensures (rows, r) == Resolved(old(rows), id, None, answer, w, now, policy)
    {
      ghost var before := rows;
      if AllLocked(w, id) {
        LockedOnlyRetires(rows, w.afterCache.ops, id, policy);
      }
      Elsewhere(w.afterCache);
      ghost var loaded := rows;
      var stored := ActiveContext(rows, id);
      if stored.None? {
        return Err(NotFound);
      }
      if !OwnerAllowed(policy.allowedOwners, stored.value.ownerId) {
        RetireStored(stored.value, w.retiring, now);
        LaterThanLater(before, loaded, rows);
        return Err(Denied);
      }
      Elsewhere(w.discovering);
      ghost var found := rows;
      LaterThanLater(before, loaded, found);
      r := SettleResolution(stored.value, answer, w.retiring, now);
      LaterThanLater(before, found, rows);
    }

    /** The end of `resolve`, once discovery has answered about the stored identity. */
    method SettleResolution(stored: Context, answer: Answer, between: Others, now: int) returns (r: Result<Context, Failure>)
      requires Valid() && Fits(between, policy.maxRegistered, lockLimit)
      modifies this
      ensures Valid() && Later(old(rows), rows)
      ensures r.Ok? ==> Accepts(rows, r.value) && r.value.repositoryId == stored.repositoryId && r.value.ownerId == stored.ownerId
      ensures r.Ok? ==> answer == Found(IdentityOf(r.value))
      ensures (rows, r) == Settled(old(rows), answer, Confirms(answer, stored.repositoryId, stored.repository, stored.ownerId),
                                   Some(stored), between.ops, now, policy)
    {
      if answer.DiscoveryFailed? {
        return Err(Operational);
      }
      if !Confirms(answer, stored.repositoryId, stored.repository, stored.ownerId) {
        RetireStored(stored, between, now);
        return Err(Denied);
      }
      r := ActivateRow(answer.i, now);
    }

    /** `require_current`: it passes only for the active durable row, and a stale context always fails. */
    method RequireCurrent(c: Context, answer: Answer, first: Others, second: Others, w: Meanwhile, now: int)
      returns (r: Result<(), Failure>)
      requires Valid() && Fits(first, policy.maxRegistered, lockLimit) && Fits(second, policy.maxRegistered, lockLimit)
      requires AllFit(w, policy.maxRegistered, lockLimit)
      modifies this
      ensures Valid() && Later(old(rows), rows)
      ensures r.Ok? ==> old(Accepts(rows, c)) && Accepts(rows, c) && OwnerAllowed(policy.allowedOwners, c.ownerId)
      ensures !old(Accepts(rows, c)) ==> r.Err? && rows == old(rows)
      ensures !OwnerAllowed(policy.allowedOwners, c.ownerId) ==> r.Err? && !Accepts(rows, c)
      ensures r.Ok? ==>
                || answer == Found(IdentityOf(c))
                || Remembers(first.positive, c, now) || Remembers(w.afterNegative.positive, c, now)
      ensures (rows, r) == Required(old(rows), c, answer, first, second, w, now, policy)
    {
      if !PositiveInt(c.repositoryId) {
        return Err(Denied);
      }
      var stored := ActiveContext(rows, c.repositoryId);
      if stored != Some(c) {
        return Err(Stale);
      }
      ghost var before := rows;
      if !OwnerAllowed(policy.allowedOwners, c.ownerId) {
        RetireStored(c, first, now);
        return Err(Denied);
      }
      Elsewhere(first);
      ghost var checked := rows;
      var cached := FreshPositive(c.repositoryId, now);
      if cached == Some(c) {
        return Ok(());
      }
      Elsewhere(second);
      ghost var asked := rows;
      LaterThanLater(before, checked, asked);
      var resolved := Resolve(c.repositoryId, answer, w, now);
      LaterThanLater(before, asked, rows);
      if resolved.Err? {
        return Err(resolved.error);
      }
      if resolved.value != c {
        return Err(Stale);
      }
      return Ok(());
    }
  }
}
