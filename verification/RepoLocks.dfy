/**
 * The bounded, reference-counted lock table of the registry (registry.py, `_repo_lock` and
 * `_prune_idle_repo_locks`). The critical sections under the registry's lock are atomic; callers that wait for
 * or hold a repository's lock are interleaved arbitrarily.
 */
module RepoLocks {
  import opened Basics

  /** `lock` is the identity of the slot's RLock object. */
  datatype Slot = Slot(lock: nat, references: nat)

  /** The ordered dictionary of slots: its entries, and its keys from the oldest to the newest. */
  datatype Slots = Slots(at: map<int, Slot>, order: seq<int>)

  /** One pass through `_repo_lock`, from the reference it takes to the reference it gives back. */
  datatype Caller = Caller(thread: nat, repo: int, lock: nat, holding: bool)

  datatype Table = Table(slots: Slots, callers: map<nat, Caller>, nextLock: nat)

  datatype Event = Enter(id: nat, thread: nat, repo: int) | Acquire(id: nat) | Leave(id: nat) | Shutdown

  ghost predicate NoDuplicate(order: seq<int>) {
    forall i, j | 0 <= i < j < |order| :: order[i] != order[j]
  }

  ghost predicate Ordered(s: Slots) {
    && NoDuplicate(s.order)
    && (forall r :: r in s.order <==> r in s.at)
    && |s.order| == |s.at|
  }

  function Without(s: Slots, repo: int): Slots {
    Slots(s.at - {repo}, Remove(s.order, repo))
  }

  function Remove(order: seq<int>, repo: int): (r: seq<int>)
    ensures forall x :: x in r ==> x in order
    ensures forall x :: x in order && x != repo ==> x in r
    ensures NoDuplicate(order) ==>
              repo !in r && NoDuplicate(r) && |r| == if repo in order then |order| - 1 else |order|
  {
    if order == [] then []
    else if order[0] == repo then order[1..]
    else
      assert NoDuplicate(order) ==> NoDuplicate(order[1..]) && order[0] !in order[1..];
      [order[0]] + Remove(order[1..], repo)
  }

  /** Assignment followed by `move_to_end`. */
  function PutLast(s: Slots, repo: int, slot: Slot): Slots {
    Slots(s.at[repo := slot], Remove(s.order, repo) + [repo])
  }

  /** The oldest key whose slot nobody refers to. */
  function FirstIdle(s: Slots, from: nat): (k: nat)
    requires from <= |s.order|
    ensures from <= k <= |s.order|
    ensures forall i | from <= i < k :: !(s.order[i] in s.at && s.at[s.order[i]].references == 0)
    ensures k < |s.order| ==> s.order[k] in s.at && s.at[s.order[k]].references == 0
    decreases |s.order| - from
  {
    if from == |s.order| || (s.order[from] in s.at && s.at[s.order[from]].references == 0) then from
    else FirstIdle(s, from + 1)
  }

  /** The oldest idle slots go until the table is below its limit or nothing idle is left. */
  function Pruned(s: Slots, limit: nat): Slots
    decreases |s.at|
  {
    var k := FirstIdle(s, 0);
    if |s.at| < limit || k == |s.order| then s else Pruned(Without(s, s.order[k]), limit)
  }

  /** What pruning may and may not take: only idle slots, and no more of them than the limit asks for. */
  lemma {:induction false} PrunedKeepsReferenced(s: Slots, limit: nat)
    requires Ordered(s)
    ensures var r := Pruned(s, limit);
            && Ordered(r) && |r.at| <= |s.at|
            && (forall x | x in r.at :: x in s.at && r.at[x] == s.at[x])
            && (forall x | x in s.at && s.at[x].references > 0 :: x in r.at)
            && (|r.at| >= limit ==> forall x | x in r.at :: r.at[x].references > 0)
            && (|s.at| >= limit > |r.at| ==> |r.at| == limit - 1)
            && (|s.at| < limit ==> r == s)
    decreases |s.at|
  {
    var k := FirstIdle(s, 0);
    if |s.at| >= limit && k < |s.order| {
      WithoutIsOrdered(s, s.order[k]);
      PrunedKeepsReferenced(Without(s, s.order[k]), limit);
    }
  }

  lemma WithoutIsOrdered(s: Slots, repo: int)
    requires Ordered(s) && repo in s.at
    ensures Ordered(Without(s, repo)) && |Without(s, repo).at| == |s.at| - 1
  {
    var r := Without(s, repo);
    assert s.at.Keys == r.at.Keys + {repo};
    assert |r.at.Keys| == |s.at.Keys| - 1;
  }

  lemma PutLastIsOrdered(s: Slots, repo: int, slot: Slot)
    requires Ordered(s)
    ensures Ordered(PutLast(s, repo, slot))
    ensures |PutLast(s, repo, slot).at| == if repo in s.at then |s.at| else |s.at| + 1
  {
    var r := PutLast(s, repo, slot);
    assert r.at.Keys == s.at.Keys + {repo};
  }

  function CallersOf(callers: map<nat, Caller>, repo: int): set<nat> {
    set id | id in callers && callers[id].repo == repo
  }

  /** A lock can be taken when no other thread holds it; an RLock lets its own thread in again. */
  predicate Free(t: Table, lock: nat, thread: nat) {
    forall id | id in t.callers && t.callers[id].holding && t.callers[id].lock == lock :: t.callers[id].thread == thread
  }

  /** The reference that the caller takes, or None when the table is full of referenced slots. */
  function Referenced(t: Table, repo: int, limit: nat): Option<(Slots, Slot)> {
    if repo in t.slots.at then
      var slot := t.slots.at[repo];
      var more := slot.(references := slot.references + 1);
      Some((PutLast(t.slots, repo, more), more))
    else
      var pruned := Pruned(t.slots, limit);
      if |pruned.at| >= limit then None
      else Some((PutLast(pruned, repo, Slot(t.nextLock, 1)), Slot(t.nextLock, 1)))
  }

  /** The reference that the caller gives back. */
  function Released(t: Table, repo: int): Slots {
    if repo in t.slots.at && t.slots.at[repo].references > 0 then
      var slot := t.slots.at[repo];
      t.slots.(at := t.slots.at[repo := slot.(references := slot.references - 1)])
    else t.slots
  }

  function Step(t: Table, e: Event, limit: nat): Table {
    match e
    case Enter(id, thread, repo) =>
      if id in t.callers then t
      else
        (match Referenced(t, repo, limit)
         case None => t.(slots := Pruned(t.slots, limit))
         case Some((slots, slot)) =>
           Table(slots, t.callers[id := Caller(thread, repo, slot.lock, false)],
                 if repo in t.slots.at then t.nextLock else t.nextLock + 1))
    case Acquire(id) =>
      if id in t.callers && Free(t, t.callers[id].lock, t.callers[id].thread) then
        t.(callers := t.callers[id := t.callers[id].(holding := true)])
      else t
    case Leave(id) =>
      if id !in t.callers then t
      else t.(slots := Pruned(Released(t, t.callers[id].repo), limit), callers := t.callers - {id})
    case Shutdown => t.(slots := Pruned(t.slots, 0))
  }

  /**
   * Everyone inside a repository's section uses the lock of the slot in the table, a slot counts exactly its
   * holders and waiters, a lock is held by one thread at most, and the table is within its limit.
   */
  ghost predicate Inv(t: Table, limit: nat) {
    Ordered(t.slots) && |t.slots.at| <= limit && LocksDiffer(t) && Counted(t) && Attached(t) && Exclusive(t.callers)
  }

  ghost predicate LocksDiffer(t: Table) {
    && (forall r | r in t.slots.at :: t.slots.at[r].lock < t.nextLock)
    && (forall r, q | r in t.slots.at && q in t.slots.at && r != q :: t.slots.at[r].lock != t.slots.at[q].lock)
  }

  ghost predicate Counted(t: Table) {
    forall r | r in t.slots.at :: t.slots.at[r].references == |CallersOf(t.callers, r)|
  }

  ghost predicate Attached(t: Table) {
    forall id | id in t.callers ::
      t.callers[id].repo in t.slots.at && t.callers[id].lock == t.slots.at[t.callers[id].repo].lock
  }

  ghost predicate Exclusive(callers: map<nat, Caller>) {
    forall a, b | a in callers && b in callers && callers[a].holding && callers[b].holding
                  && callers[a].lock == callers[b].lock :: callers[a].thread == callers[b].thread
  }

  lemma PruneKeepsInv(t: Table, limit: nat, k: nat)
    requires Inv(t, limit)
    ensures Inv(t.(slots := Pruned(t.slots, k)), limit)
  {
    PrunedKeepsReferenced(t.slots, k);
    forall id | id in t.callers ensures t.slots.at[t.callers[id].repo].references > 0 {
      assert id in CallersOf(t.callers, t.callers[id].repo);
    }
  }

  /** One more caller of the repository, and one more reference. */
  lemma JoinIsCounted(t: Table, u: Table, id: nat, c: Caller)
    requires Counted(t) && Attached(t) && id !in t.callers && u.callers == t.callers[id := c]
    requires u.slots.at.Keys == t.slots.at.Keys + {c.repo}
    requires forall r | r in t.slots.at && r != c.repo :: u.slots.at[r] == t.slots.at[r]
    requires u.slots.at[c.repo].references == 1 + if c.repo in t.slots.at then t.slots.at[c.repo].references else 0
    ensures Counted(u)
  {
    assert CallersOf(u.callers, c.repo) == CallersOf(t.callers, c.repo) + {id};
    assert c.repo !in t.slots.at ==> CallersOf(t.callers, c.repo) == {};
    forall r | r in u.slots.at && r != c.repo ensures u.slots.at[r].references == |CallersOf(u.callers, r)| {
      assert CallersOf(u.callers, r) == CallersOf(t.callers, r);
    }
  }

  lemma JoinKeepsLocks(t: Table, u: Table, id: nat, c: Caller)
    requires LocksDiffer(t) && Attached(t) && Exclusive(t.callers)
    requires id !in t.callers && !c.holding && u.callers == t.callers[id := c]
    requires u.slots.at.Keys == t.slots.at.Keys + {c.repo} && u.slots.at[c.repo].lock == c.lock
    requires forall r | r in t.slots.at && r != c.repo :: u.slots.at[r] == t.slots.at[r]
    requires if c.repo in t.slots.at then c.lock == t.slots.at[c.repo].lock && u.nextLock == t.nextLock
             else c.lock == t.nextLock && u.nextLock == t.nextLock + 1
    ensures LocksDiffer(u) && Attached(u) && Exclusive(u.callers)
  {
  }

  /** A caller whose slot is known joins it; one whose slot is new finds no other caller of its repository. */
  lemma JoinKeepsInv(t: Table, slot: Slot, id: nat, thread: nat, repo: int, limit: nat)
    requires Inv(t, limit) && id !in t.callers
    requires if repo in t.slots.at then slot == t.slots.at[repo]
             else slot == Slot(t.nextLock, 0) && |t.slots.at| < limit
    ensures var more := slot.(references := slot.references + 1);
            Inv(Table(PutLast(t.slots, repo, more), t.callers[id := Caller(thread, repo, slot.lock, false)],
                      if repo in t.slots.at then t.nextLock else t.nextLock + 1), limit)
  {
    var more := slot.(references := slot.references + 1);
    var c := Caller(thread, repo, slot.lock, false);
    var u := Table(PutLast(t.slots, repo, more), t.callers[id := c],
                   if repo in t.slots.at then t.nextLock else t.nextLock + 1);
    PutLastIsOrdered(t.slots, repo, more);
    JoinIsCounted(t, u, id, c);
    JoinKeepsLocks(t, u, id, c);
  }

  lemma EnterKeepsInv(t: Table, e: Event, limit: nat)
    requires Inv(t, limit) && e.Enter?
    ensures Inv(Step(t, e, limit), limit)
  {
    PruneKeepsInv(t, limit, limit);
    if e.id !in t.callers && Referenced(t, e.repo, limit).Some? {
      PrunedKeepsReferenced(t.slots, limit);
      if e.repo in t.slots.at {
        JoinKeepsInv(t, t.slots.at[e.repo], e.id, e.thread, e.repo, limit);
      } else {
        var pruned := t.(slots := Pruned(t.slots, limit));
        JoinKeepsInv(pruned, Slot(t.nextLock, 0), e.id, e.thread, e.repo, limit);
      }
    }
  }

  lemma ReleasedIsOrdered(t: Table, id: nat, limit: nat)
    requires Inv(t, limit) && id in t.callers
    ensures var repo := t.callers[id].repo;
            repo in t.slots.at && t.slots.at[repo].references > 0 && Ordered(Released(t, repo))
  {
    assert id in CallersOf(t.callers, t.callers[id].repo);
    assert Released(t, t.callers[id].repo).at.Keys == t.slots.at.Keys;
  }

  lemma LeaveKeepsInv(t: Table, e: Event, limit: nat)
    requires Inv(t, limit) && e.Leave? && e.id in t.callers
    ensures Inv(Step(t, e, limit), limit)
  {
    var repo := t.callers[e.id].repo;
    var u := t.(slots := Released(t, repo), callers := t.callers - {e.id});
    assert e.id in CallersOf(t.callers, repo);
    assert u.slots.at.Keys == t.slots.at.Keys;
    forall r | r != repo ensures CallersOf(u.callers, r) == CallersOf(t.callers, r) {}
    assert CallersOf(u.callers, repo) == CallersOf(t.callers, repo) - {e.id};
    PruneKeepsInv(u, limit, limit);
  }

  function Run(t: Table, events: seq<Event>, limit: nat): Table
    decreases |events|
  {
    if events == [] then t else Run(Step(t, events[0], limit), events[1..], limit)
  }

  const EMPTY_TABLE := Table(Slots(map[], []), map[], 0)

  lemma {:induction false} RunKeepsInv(t: Table, events: seq<Event>, limit: nat)
    requires Inv(t, limit)
    ensures Inv(Run(t, events, limit), limit)
    decreases |events|
  {
    if events != [] {
      var e := events[0];
      if e.Enter? {
        EnterKeepsInv(t, e, limit);
      } else if e.Leave? && e.id in t.callers {
        LeaveKeepsInv(t, e, limit);
      } else if e.Shutdown? {
        PruneKeepsInv(t, limit, 0);
      } else if e.Acquire? && e.id in t.callers {
        var u := Step(t, e, limit);
        forall r ensures CallersOf(u.callers, r) == CallersOf(t.callers, r) {}
      }
      RunKeepsInv(Step(t, e, limit), events[1..], limit);
    }
  }

  /** Over every run: two callers holding one repository are one thread, and they contend on one lock object. */
  lemma MutualExclusion(events: seq<Event>, limit: nat, a: nat, b: nat)
    ensures var t := Run(EMPTY_TABLE, events, limit);
            && |t.slots.at| <= limit
            && (a in t.callers && b in t.callers && t.callers[a].repo == t.callers[b].repo ==>
                  && t.callers[a].lock == t.callers[b].lock
                  && (t.callers[a].holding && t.callers[b].holding ==> t.callers[a].thread == t.callers[b].thread))
  {
    assert Inv(EMPTY_TABLE, limit);
    RunKeepsInv(EMPTY_TABLE, events, limit);
  }

  class LockTable {
    const limit: nat
    var table: Slots
    var nextLock: nat
    ghost var callers: map<nat, Caller>

    constructor (limit: nat)
      ensures View() == EMPTY_TABLE && this.limit == limit
    {
      this.limit := limit;
      table, nextLock, callers := Slots(map[], []), 0, map[];
    }

    ghost function View(): Table
      reads this
    {
      Table(table, callers, nextLock)
    }

    method PruneIdleRepoLocks()
      requires Ordered(table)
      modifies this`table
      ensures table == Pruned(old(table), limit)
    {
      while |table.at| >= limit
        invariant Ordered(table) && Pruned(table, limit) == Pruned(old(table), limit)
        decreases |table.at|
      {
        var k := 0;
        while k < |table.order| && table.at[table.order[k]].references != 0
          invariant 0 <= k <= |table.order|
          invariant forall i | 0 <= i < k :: table.at[table.order[i]].references != 0
        {
          k := k + 1;
        }
        assert k == FirstIdle(table, 0);
        if k == |table.order| {
          return;
        }
        WithoutIsOrdered(table, table.order[k]);
        table := Without(table, table.order[k]);
      }
    }

    /** The first critical section: it returns the lock to wait for, or refuses when the table is full. */
    method EnterSection(ghost id: nat, ghost thread: nat, repo: int) returns (lock: Option<nat>)
      requires Inv(View(), limit) && id !in callers
      modifies this
      ensures View() == Step(old(View()), Enter(id, thread, repo), limit) && Inv(View(), limit)
      ensures lock.None? <==> id !in callers
      ensures lock.Some? ==> callers[id] == Caller(thread, repo, lock.value, false)
    {
      EnterKeepsInv(View(), Enter(id, thread, repo), limit);
      PrunedKeepsReferenced(table, limit);
      var slot: Slot;
      if repo in table.at {
        slot := table.at[repo];
      } else {
        PruneIdleRepoLocks();
        if |table.at| >= limit {
          return None;
        }
        slot := Slot(nextLock, 0);
        nextLock := nextLock + 1;
      }
      slot := slot.(references := slot.references + 1);
      table := PutLast(table, repo, slot);
      callers := callers[id := Caller(thread, repo, slot.lock, false)];
      return Some(slot.lock);
    }

    method GiveBack(repo: int)
      requires Ordered(table) && repo in table.at && table.at[repo].references > 0
      requires Ordered(Released(View(), repo))
      modifies this`table
      ensures table == Pruned(Released(old(View()), repo), limit)
    {
      var slot := table.at[repo];
      table := table.(at := table.at[repo := slot.(references := slot.references - 1)]);
      PruneIdleRepoLocks();
    }

    /** The last critical section, on every way out. */
    method LeaveSection(ghost id: nat, repo: int)
      requires Inv(View(), limit) && id in callers && callers[id].repo == repo
      modifies this
      ensures View() == Step(old(View()), Leave(id), limit) && Inv(View(), limit)
    {
      ghost var t := View();
      LeaveKeepsInv(t, Leave(id), limit);
      ReleasedIsOrdered(t, id, limit);
      GiveBack(repo);
      callers := callers - {id};
      assert View() == Step(t, Leave(id), limit);
    }
  }
}
