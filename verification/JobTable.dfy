/**
 * The bounded, deduplicating table of background jobs (app.py, `AppRuntime`): enqueueing, expiry, trimming,
 * replacement and completion. Every operation runs under the runtime's lock; operations come in any order.
 */
module JobTable {
  import opened Basics

  datatype JobState = Queued | Running | Completed | Error | Conflict | Stale

  datatype Job = Job(key: string, kind: string, createdAt: int, expiresAt: int, state: JobState)

  /** Job ids are fresh tokens. */
  datatype Table = Table(jobs: map<nat, Job>, keys: map<string, nat>, nextId: nat)

  const MAX_JOBS: nat := 50
  const TTL: int := 1800

  predicate Terminal(s: JobState): (over: bool)
    ensures over <==> !s.Queued? && !s.Running?
  {
    s in {Completed, Error, Conflict, Stale}
  }

  predicate InProgress(j: Job) {
    j.state.Queued? || j.state.Running?
  }

  predicate Active(t: Table, id: nat) {
    id in t.jobs && !Terminal(t.jobs[id].state)
  }

  /** The index and the jobs are inverse to each other, and there is room. */
  ghost predicate Inv(t: Table) {
    && (forall id | id in t.jobs :: t.jobs[id].key in t.keys && t.keys[t.jobs[id].key] == id && id < t.nextId)
    && (forall k | k in t.keys :: t.keys[k] in t.jobs && t.jobs[t.keys[k]].key == k)
    && |t.jobs| <= MAX_JOBS
  }

  // ----- taking jobs out -----

  function Dropped(t: Table, ids: set<nat>): Table {
    t.(jobs := map id | id in t.jobs && id !in ids :: t.jobs[id],
       keys := map k | k in t.keys && t.keys[k] !in ids :: t.keys[k])
  }

  function Expired(t: Table, now: int): set<nat> {
    set id | id in t.jobs && t.jobs[id].expiresAt <= now && Terminal(t.jobs[id].state)
  }

  function Purged(t: Table, now: int): Table {
    Dropped(t, Expired(t, now))
  }

  function Terminals(t: Table): set<nat> {
    set id | id in t.jobs && Terminal(t.jobs[id].state)
  }

  /** The order of `sorted(..., key=lambda item: (item.created_at, item.job_id))`. */
  predicate Before(jobs: map<nat, Job>, a: nat, b: nat)
    requires a in jobs && b in jobs
  {
    jobs[a].createdAt < jobs[b].createdAt || (jobs[a].createdAt == jobs[b].createdAt && a < b)
  }

  ghost function Oldest(jobs: map<nat, Job>, ids: set<nat>): (r: nat)
    requires ids != {} && ids <= jobs.Keys
    ensures r in ids && forall x | x in ids && x != r :: Before(jobs, r, x)
  {
    var x :| x in ids;
    if ids == {x} then x
    else
      assert ids == (ids - {x}) + {x};
      var y := Oldest(jobs, ids - {x});
      assert forall z | z in ids :: z == x || z in ids - {x};
      if Before(jobs, x, y) then x else y
  }

  ghost function SortedByAge(jobs: map<nat, Job>, ids: set<nat>): (r: seq<nat>)
    requires ids <= jobs.Keys
    ensures |r| == |ids| && (forall x :: x in r <==> x in ids)
    decreases |ids|
  {
    if ids == {} then [] else [Oldest(jobs, ids)] + SortedByAge(jobs, ids - {Oldest(jobs, ids)})
  }

  ghost predicate Sorted(jobs: map<nat, Job>, s: seq<nat>) {
    && (forall x | x in s :: x in jobs)
    && (forall i, j | 0 <= i < j < |s| :: Before(jobs, s[i], s[j]))
  }

  lemma {:induction false} SortedByAgeIsSorted(jobs: map<nat, Job>, ids: set<nat>)
    requires ids <= jobs.Keys
    ensures Sorted(jobs, SortedByAge(jobs, ids))
    decreases |ids|
  {
    if ids != {} {
      var first := Oldest(jobs, ids);
      var rest := SortedByAge(jobs, ids - {first});
      SortedByAgeIsSorted(jobs, ids - {first});
      assert forall x | x in rest :: Before(jobs, first, x);
    }
  }

  /** The only sorted list of some ids. */
  lemma {:induction false} SortedIsUnique(jobs: map<nat, Job>, s: seq<nat>, ids: set<nat>)
    requires Sorted(jobs, s) && ids <= jobs.Keys && (forall x :: x in s <==> x in ids)
    ensures s == SortedByAge(jobs, ids)
    decreases |ids|
  {
    if s == [] {
      assert ids == {} by {
        assert forall x :: x !in ids;
      }
    } else {
      assert s[0] in ids;
      var first := Oldest(jobs, ids);
      assert first in s;
      assert s[0] == first;
      forall x ensures x in s[1..] <==> x in ids - {first} {
        if x in s[1..] {
          assert x in s && Before(jobs, s[0], x);
        }
      }
      SortedIsUnique(jobs, s[1..], ids - {first});
      assert s == [s[0]] + s[1..];
    }
  }

  function Among(ids: seq<nat>): set<nat> {
    set id | id in ids
  }

  ghost function Victims(t: Table): set<nat> {
    var sorted := SortedByAge(t.jobs, Terminals(t));
    var overflow := |t.jobs| - MAX_JOBS + 1;
    if overflow <= 0 then {} else Among(sorted[..if overflow <= |sorted| then overflow else |sorted|])
  }

  ghost function Trimmed(t: Table): Table {
    Dropped(t, Victims(t))
  }

  // ----- the operations -----

  datatype Outcome = Existing(id: nat) | Fresh(id: nat) | Full

  predicate Replaces(kind: string, existing: Job) {
    Terminal(existing.state) && (kind == "manual_sync" || existing.state in {Error, Conflict, Stale})
  }

  /** The table after expiry, and without a finished job that the request replaces. */
  function Cleared(t: Table, key: string, kind: string, now: int): Table {
    var p := Purged(t, now);
    if key in p.keys && p.keys[key] in p.jobs && Replaces(kind, p.jobs[p.keys[key]]) then Dropped(p, {p.keys[key]}) else p
  }

  function Added(t: Table, key: string, job: Job): Table {
    Table(t.jobs[t.nextId := job], t.keys[key := t.nextId], t.nextId + 1)
  }

  ghost function Enqueued(t: Table, key: string, kind: string, now: int): (Table, Outcome) {
    var c := Cleared(t, key, kind, now);
    if key in c.keys then (c, Existing(c.keys[key]))
    else
      var r := Trimmed(c);
      if |r.jobs| >= MAX_JOBS then (r, Full)
      else (Added(r, key, Job(key, kind, now, now + TTL, Queued)), Fresh(r.nextId))
  }

  function WithState(t: Table, id: nat, state: JobState): Table {
    if id in t.jobs then t.(jobs := t.jobs[id := t.jobs[id].(state := state)]) else t
  }

  datatype Event =
    | Enqueue(key: string, kind: string, now: int)
    | Start(id: nat)
    | End(id: nat, state: JobState)
    | Purge(now: int)

  /** A job is started once, and it ends in a terminal state. */
  predicate Enabled(t: Table, e: Event) {
    match e
    case Start(id) => id in t.jobs ==> t.jobs[id].state.Queued?
    case End(_, state) => Terminal(state)
    case _ => true
  }

  ghost function Step(t: Table, e: Event): Table {
    if !Enabled(t, e) then t
    else
      match e
      case Enqueue(key, kind, now) => Enqueued(t, key, kind, now).0
      case Start(id) => WithState(t, id, Running)
      case End(id, state) => WithState(t, id, state)
      case Purge(now) => Purged(t, now)
  }

  ghost function Run(t: Table, events: seq<Event>): Table
    decreases |events|
  {
    if events == [] then t else Run(Step(t, events[0]), events[1..])
  }

  const EMPTY := Table(map[], map[], 0)

  // ----- the invariant -----

  lemma DroppedKeepsInv(t: Table, ids: set<nat>)
    requires Inv(t)
    ensures Inv(Dropped(t, ids)) && |Dropped(t, ids).jobs| <= |t.jobs|
    ensures |Dropped(t, ids).jobs| == |t.jobs| - |ids * t.jobs.Keys|
  {
    assert Dropped(t, ids).jobs.Keys == t.jobs.Keys - ids * t.jobs.Keys;
  }

  lemma ClearedKeepsInv(t: Table, key: string, kind: string, now: int)
    requires Inv(t)
    ensures Inv(Cleared(t, key, kind, now))
  {
    DroppedKeepsInv(t, Expired(t, now));
    var p := Purged(t, now);
    if key in p.keys {
      DroppedKeepsInv(p, {p.keys[key]});
    }
  }

  /** There is never more than one job to trim, and after trimming a full table holds active jobs only. */
  lemma TrimMakesRoom(t: Table)
    requires Inv(t)
    ensures Inv(Trimmed(t)) && Victims(t) <= Terminals(t)
    ensures |Trimmed(t).jobs| >= MAX_JOBS <==> |t.jobs| == MAX_JOBS && Terminals(t) == {}
  {
    DroppedKeepsInv(t, Victims(t));
    var sorted := SortedByAge(t.jobs, Terminals(t));
    if |t.jobs| == MAX_JOBS && Terminals(t) != {} {
      assert |sorted| >= 1;
      assert sorted[..1] == [sorted[0]] && sorted[0] in sorted;
      assert Victims(t) == {sorted[0]};
      assert Victims(t) * t.jobs.Keys == {sorted[0]};
    }
  }

  lemma VictimIsOldest(t: Table)
    requires Inv(t) && Victims(t) != {}
    ensures |t.jobs| == 50 && Terminals(t) != {} && Victims(t) == {SortedByAge(t.jobs, Terminals(t))[0]}
  {
    var sorted := SortedByAge(t.jobs, Terminals(t));
    if sorted == [] {
      assert false;
    }
    assert sorted[..1] == [sorted[0]] && sorted[0] in sorted;
  }

  /** Trimming evicts at most one job, the oldest of the finished ones, and only from a full table. */
  lemma TrimTakesOldest(t: Table, gone: nat, kept: nat)
    requires Inv(t) && gone in t.jobs && gone !in Trimmed(t).jobs
    ensures |t.jobs| == 50 && !InProgress(t.jobs[gone])
    ensures forall id | id in t.jobs && id != gone :: id in Trimmed(t).jobs && Trimmed(t).jobs[id] == t.jobs[id]
    ensures kept in Trimmed(t).jobs && !InProgress(t.jobs[kept]) ==>
              || t.jobs[gone].createdAt < t.jobs[kept].createdAt
              || (t.jobs[gone].createdAt == t.jobs[kept].createdAt && gone < kept)
  {
    assert gone in Victims(t);
    VictimIsOldest(t);
    var sorted := SortedByAge(t.jobs, Terminals(t));
    assert sorted[0] == gone && gone in sorted;
    if kept in Terminals(t) && kept != gone {
      SortedByAgeIsSorted(t.jobs, Terminals(t));
      assert kept in sorted;
      var j :| 0 <= j < |sorted| && sorted[j] == kept;
      assert Before(t.jobs, sorted[0], sorted[j]);
    }
  }

  lemma AddedKeepsInv(t: Table, key: string, job: Job)
    requires Inv(t) && key !in t.keys && |t.jobs| < MAX_JOBS && job.key == key
    ensures Inv(Added(t, key, job))
  {
    assert t.nextId !in t.jobs;
    assert Added(t, key, job).jobs.Keys == t.jobs.Keys + {t.nextId};
  }

  lemma EnqueueKeepsInv(t: Table, key: string, kind: string, now: int)
    requires Inv(t)
    ensures Inv(Enqueued(t, key, kind, now).0)
  {
    ClearedKeepsInv(t, key, kind, now);
    var c := Cleared(t, key, kind, now);
    TrimMakesRoom(c);
    var r := Trimmed(c);
    if key !in c.keys && |r.jobs| < MAX_JOBS {
      AddedKeepsInv(r, key, Job(key, kind, now, now + TTL, Queued));
    }
  }

  lemma StepKeepsInv(t: Table, e: Event)
    requires Inv(t)
    ensures Inv(Step(t, e))
  {
    match e
    case Enqueue(key, kind, now) => EnqueueKeepsInv(t, key, kind, now);
    case Purge(now) => DroppedKeepsInv(t, Expired(t, now));
    case Start(id) => StateKeepsInv(t, id, Running);
    case End(id, state) => StateKeepsInv(t, id, state);
  }

  lemma StateKeepsInv(t: Table, id: nat, state: JobState)
    requires Inv(t)
    ensures Inv(WithState(t, id, state))
  {
    if id in t.jobs {
      assert WithState(t, id, state).jobs.Keys == t.jobs.Keys;
    }
  }

  lemma {:induction false} RunKeepsInv(t: Table, events: seq<Event>)
    requires Inv(t)
    ensures Inv(Run(t, events))
    decreases |events|
  {
    if events != [] {
      StepKeepsInv(t, events[0]);
      RunKeepsInv(Step(t, events[0]), events[1..]);
    }
  }

  // ----- what every run guarantees -----

  /** In every run: at most fifty jobs, one job at most for a key, and the index finds exactly the jobs. */
  lemma IndexAgrees(events: seq<Event>, a: nat, b: nat, key: string)
    ensures var t := Run(EMPTY, events);
            && |t.jobs| <= 50
            && (a in t.jobs && b in t.jobs && t.jobs[a].key == t.jobs[b].key ==> a == b)
            && (Lookup(t.keys, key) == Some(a) <==> a in t.jobs && t.jobs[a].key == key)
  {
    assert Inv(EMPTY);
    RunKeepsInv(EMPTY, events);
  }

  lemma ActiveIsNotCleared(t: Table, key: string, kind: string, now: int, id: nat)
    requires Inv(t) && Active(t, id)
    ensures var c := Cleared(t, key, kind, now); Inv(c) && Active(c, id) && c.jobs[id] == t.jobs[id]
  {
    ClearedKeepsInv(t, key, kind, now);
  }

  lemma ActiveIsNotTrimmed(t: Table, id: nat)
    requires Inv(t) && Active(t, id)
    ensures var r := Trimmed(t); Inv(r) && Active(r, id) && r.jobs[id] == t.jobs[id]
  {
    TrimMakesRoom(t);
    assert id !in Victims(t);
  }

  /** A queued or running job leaves that state only by its own start and end. */
  lemma ActiveStays(t: Table, e: Event, id: nat)
    requires Inv(t) && Active(t, id) && !(e.End? && e.id == id)
    ensures var n := Step(t, e);
            && Active(n, id) && n.jobs[id] == t.jobs[id].(state := if e == Start(id) && Enabled(t, e) then Running else t.jobs[id].state)
  {
    if e.Enqueue? {
      ActiveIsNotCleared(t, e.key, e.kind, e.now, id);
      ActiveIsNotTrimmed(Cleared(t, e.key, e.kind, e.now), id);
    }
  }

  /** A job that is over is never queued or running again. */
  lemma OverStaysOver(t: Table, e: Event, id: nat)
    requires Inv(t) && id in t.jobs && !InProgress(t.jobs[id])
    ensures id in Step(t, e).jobs ==> !InProgress(Step(t, e).jobs[id]) && Step(t, e).jobs[id].key == t.jobs[id].key
  {
    if e.Enqueue? {
      ClearedKeepsInv(t, e.key, e.kind, e.now);
      assert id < t.nextId;
    }
  }

  ghost predicate EndsIn(events: seq<Event>, id: nat) {
    exists i | 0 <= i < |events| :: events[i].End? && events[i].id == id
  }

  /** Over a whole run: whatever is enqueued, expires or is trimmed, an active job stays until it ends. */
  lemma {:induction false} ActiveIsNeverEvicted(t: Table, events: seq<Event>, id: nat)
    requires Inv(t) && Active(t, id) && !EndsIn(events, id)
    ensures Active(Run(t, events), id) && Run(t, events).jobs[id].key == t.jobs[id].key
    decreases |events|
  {
    if events != [] {
      assert !(events[0].End? && events[0].id == id);
      ActiveStays(t, events[0], id);
      StepKeepsInv(t, events[0]);
      forall i | 0 <= i < |events[1..]| ensures !(events[1..][i].End? && events[1..][i].id == id) {
        assert events[i + 1] == events[1..][i];
      }
      ActiveIsNeverEvicted(Step(t, events[0]), events[1..], id);
    }
  }

  /** The request finds this job: it is not over, or completed, not yet expired and not asked for again by hand. */
  predicate Answers(j: Job, kind: string, now: int) {
    j.state.Queued? || j.state.Running? || (j.state.Completed? && j.expiresAt > now && kind != "manual_sync")
  }

  /** Expiry takes exactly the finished jobs whose time is over; a request also takes the finished job that it replaces. */
  lemma ClearedMembers(t: Table, key: string, kind: string, now: int, id: nat)
    requires Inv(t)
    ensures var over := id in t.jobs && t.jobs[id].expiresAt <= now && !InProgress(t.jobs[id]);
            && (id in Purged(t, now).jobs <==> id in t.jobs && !over)
            && (id in Cleared(t, key, kind, now).jobs <==>
                  id in t.jobs && !over && (t.jobs[id].key == key ==> Answers(t.jobs[id], kind, now)))
    ensures id in Cleared(t, key, kind, now).jobs ==> Cleared(t, key, kind, now).jobs[id] == t.jobs[id]
  {
    DroppedKeepsInv(t, Expired(t, now));
    assert id in Purged(t, now).jobs ==> Purged(t, now).jobs[id] == t.jobs[id];
  }

  /** Which job the key has after that. */
  lemma ClearedKey(t: Table, key: string, kind: string, now: int)
    requires Inv(t)
    ensures var c := Cleared(t, key, kind, now);
            && Inv(c) && c.nextId == t.nextId
            && (key in c.keys <==> key in t.keys && Answers(t.jobs[t.keys[key]], kind, now))
            && (key in c.keys ==> c.keys[key] == t.keys[key])
  {
    ClearedKeepsInv(t, key, kind, now);
    if key in t.keys {
      ClearedMembers(t, key, kind, now, t.keys[key]);
    }
  }

  lemma FullMeansActive(t: Table)
    requires Inv(t)
    ensures |Trimmed(t).jobs| >= 50 <==> |t.jobs| == 50 && forall id | id in t.jobs :: InProgress(t.jobs[id])
  {
    TrimMakesRoom(t);
    if Terminals(t) == {} {
      forall id | id in t.jobs ensures InProgress(t.jobs[id]) {
        assert id !in Terminals(t);
      }
    }
  }

  /** What a request gets: the job of its key, a new one, or a refusal when fifty active jobs fill the table. */
  lemma EnqueueOutcome(t: Table, key: string, kind: string, now: int)
    requires Inv(t)
    ensures var c := Cleared(t, key, kind, now); var (n, outcome) := Enqueued(t, key, kind, now);
            && (outcome.Full? <==> key !in c.keys && |c.jobs| == 50 && forall id | id in c.jobs :: InProgress(c.jobs[id]))
            && (outcome.Fresh? ==> outcome.id in n.jobs && n.jobs[outcome.id] == Job(key, kind, now, now + 1800, Queued)
                                   && outcome.id !in t.jobs && n.nextId == t.nextId + 1)
            && (outcome.Existing? <==> key in t.keys && Answers(t.jobs[t.keys[key]], kind, now))
            && (outcome.Existing? ==> outcome.id == t.keys[key] && n == c)
            && (!outcome.Fresh? ==> n.nextId == t.nextId)
  {
    ClearedKey(t, key, kind, now);
    FullMeansActive(Cleared(t, key, kind, now));
  }

  /** One job from its request to its expiry; without its end it outlives any expiry. */
  lemma JobLives(key: string, kind: string, now: int, end: JobState, later: int)
    requires Terminal(end)
    ensures var job := Job(key, kind, now, now + 1800, Queued); var begun := [Enqueue(key, kind, now), Start(0)];
            && Run(EMPTY, begun) == Table(map[0 := job.(state := Running)], map[key := 0], 1)
            && Run(EMPTY, begun + [Purge(later)]) == Run(EMPTY, begun)
            && Run(EMPTY, begun + [End(0, end)] + [Purge(later)])
               == if later < now + 1800 then Table(map[0 := job.(state := end)], map[key := 0], 1) else Table(map[], map[], 1)
  {
    var job := Job(key, kind, now, now + 1800, Queued);
    var begun := [Enqueue(key, kind, now), Start(0)];
    JobBegins(key, kind, now);
    RunThen(EMPTY, begun, Purge(later));
    RunThen(EMPTY, begun, End(0, end));
    RunThen(EMPTY, begun + [End(0, end)], Purge(later));
    PurgeOne(Table(map[0 := job.(state := Running)], map[key := 0], 1), later);
    PurgeOne(Table(map[0 := job.(state := end)], map[key := 0], 1), later);
  }

  lemma JobBegins(key: string, kind: string, now: int)
    ensures Run(EMPTY, [Enqueue(key, kind, now), Start(0)])
            == Table(map[0 := Job(key, kind, now, now + 1800, Running)], map[key := 0], 1)
  {
    assert Purged(EMPTY, now) == EMPTY && Dropped(EMPTY, {}) == EMPTY;
    assert Enqueued(EMPTY, key, kind, now).0 == Table(map[0 := Job(key, kind, now, now + 1800, Queued)], map[key := 0], 1);
    var first, second := Enqueue(key, kind, now), Start(0);
    assert [] + [first] == [first] && [first] + [second] == [first, second];
    RunThen(EMPTY, [], first);
    RunThen(EMPTY, [first], second);
  }

  lemma PurgeOne(t: Table, now: int)
    requires t.jobs.Keys == {0} && t.keys == map[t.jobs[0].key := 0] && t.nextId == 1
    ensures Purged(t, now)
            == if t.jobs[0].expiresAt > now || InProgress(t.jobs[0]) then t else Table(map[], map[], 1)
  {
    assert t.jobs == map[0 := t.jobs[0]];
    assert Expired(t, now) == if t.jobs[0].expiresAt > now || InProgress(t.jobs[0]) then {} else {0};
  }

  lemma {:induction false} RunThen(t: Table, events: seq<Event>, e: Event)
    ensures Run(t, events + [e]) == Step(Run(t, events), e)
    decreases |events|
  {
    if events == [] {
      assert [e][1..] == [];
      assert events + [e] == [e];
    } else {
      assert (events + [e])[1..] == events[1..] + [e];
      RunThen(Step(t, events[0]), events[1..], e);
    }
  }

  // ----- the code -----

  lemma AmongMore(ids: seq<nat>, id: nat)
    ensures Among(ids + [id]) == Among(ids) + {id}
    ensures id !in Among(ids) <==> id !in ids
  {
  }

  lemma AmongNext(ids: seq<nat>, k: nat)
    requires k < |ids|
    ensures Among(ids[..k + 1]) == Among(ids[..k]) + {ids[k]}
  {
    assert ids[..k + 1] == ids[..k] + [ids[k]];
    AmongMore(ids[..k], ids[k]);
  }

  lemma DroppedNext(t: Table, now: Table, ids: seq<nat>, k: nat)
    requires k < |ids| && now == Dropped(t, Among(ids[..k]))
    ensures Dropped(now, {ids[k]}) == Dropped(t, Among(ids[..k + 1]))
  {
    AmongNext(ids, k);
    DroppedTwice(t, Among(ids[..k]), {ids[k]});
  }

  ghost predicate Distinct(ids: seq<nat>) {
    forall i, j | 0 <= i < j < |ids| :: ids[i] != ids[j]
  }

  lemma DroppedNone(t: Table, none: seq<nat>)
    requires none == []
    ensures Dropped(t, Among(none)) == t
  {
  }

  lemma NotYetDropped(t: Table, ids: seq<nat>, k: nat)
    requires k < |ids| && ids[k] in t.jobs && Distinct(ids)
    ensures ids[k] in Dropped(t, Among(ids[..k])).jobs
  {
  }

  lemma DroppedTwice(t: Table, a: set<nat>, b: set<nat>)
    ensures Dropped(Dropped(t, a), b) == Dropped(t, a + b)
  {
  }

  lemma PlacedIds(s: seq<nat>, k: nat, id: nat)
    requires k <= |s|
    ensures Among(s[..k] + [id] + s[k..]) == Among(s) + {id}
    ensures forall x :: x in s[..k] + [id] + s[k..] <==> x in s || x == id
  {
    var r := s[..k] + [id] + s[k..];
    assert s == s[..k] + s[k..] && r[k] == id;
    assert forall x :: x in r <==> x in s || x == id;
  }

  lemma PlacedByAge(jobs: map<nat, Job>, s: seq<nat>, k: nat, id: nat)
    requires k <= |s| && Sorted(jobs, s) && id in jobs && id !in s && (forall i | 0 <= i < k :: Before(jobs, s[i], id))
    requires k < |s| ==> !Before(jobs, s[k], id)
    ensures Sorted(jobs, s[..k] + [id] + s[k..])
  {
    var r := s[..k] + [id] + s[k..];
    PlacedIds(s, k, id);
    forall i, j | 0 <= i < j < |r| ensures Before(jobs, r[i], r[j]) {
      var a, b := if i <= k then i else i - 1, if j <= k then j else j - 1;
      assert i != k ==> r[i] == s[a];
      assert j != k ==> r[j] == s[b];
      if i == k && k < |s| {
        assert s[k] != id && (b == k || Before(jobs, s[k], s[b]));
      }
    }
  }

  class JobRegister {
    var jobs: map<nat, Job>
    var keys: map<string, nat>
    var nextId: nat

    constructor ()
      ensures View() == EMPTY && Inv(View())
    {
      jobs, keys, nextId := map[], map[], 0;
    }

    function View(): Table
      reads this
    {
      Table(jobs, keys, nextId)
    }

    /** `_jobs.pop` and `_job_keys.pop` of one job. */
    method Pop(id: nat)
      requires Inv(View()) && id in jobs
      modifies this
      ensures View() == Dropped(old(View()), {id}) && Inv(View())
    {
      DroppedKeepsInv(View(), {id});
      keys := keys - {jobs[id].key};
      jobs := jobs - {id};
    }

    method PopAll(ids: seq<nat>)
      requires Inv(View()) && (forall id | id in ids :: id in jobs)
      requires Distinct(ids)
      modifies this
      ensures View() == Dropped(old(View()), Among(ids)) && Inv(View())
    {
      ghost var before := View();
      DroppedNone(before, ids[..0]);
      for k := 0 to |ids|
        invariant View() == Dropped(before, Among(ids[..k])) && Inv(View())
      {
        NotYetDropped(before, ids, k);
        DroppedNext(before, View(), ids, k);
        Pop(ids[k]);
      }
      assert ids[..|ids|] == ids;
    }

    /** The ids for which a test holds, in some order. */
    method Select(wanted: set<nat>) returns (ids: seq<nat>)
      requires wanted <= jobs.Keys
      ensures Among(ids) == wanted && Distinct(ids)
    {
      ids := [];
      var left := wanted;
      while left != {}
        invariant left <= wanted && Among(ids) == wanted - left && Distinct(ids)
        decreases left
      {
        var id :| id in left;
        AmongMore(ids, id);
        ids := ids + [id];
        left := left - {id};
      }
    }

    /** `_purge_jobs_locked`. */
    method PurgeJobs(now: int)
      requires Inv(View())
      modifies this
      ensures View() == Purged(old(View()), now) && Inv(View())
    {
      var expired := Select(set id | id in jobs && jobs[id].expiresAt <= now && Terminal(jobs[id].state));
      assert forall id | id in expired :: id in Among(expired);
      PopAll(expired);
    }

    /** Puts one more id into a list that is sorted by age. */
    method InsertByAge(sorted: seq<nat>, id: nat) returns (r: seq<nat>)
      requires Sorted(jobs, sorted) && id in jobs && id !in sorted
      ensures Sorted(jobs, r) && Among(r) == Among(sorted) + {id} && |r| == |sorted| + 1
    {
      var k := 0;
      while k < |sorted| && Before(jobs, sorted[k], id)
        invariant 0 <= k <= |sorted| && forall i | 0 <= i < k :: Before(jobs, sorted[i], id)
      {
        k := k + 1;
      }
      r := sorted[..k] + [id] + sorted[k..];
      PlacedIds(sorted, k, id);
      PlacedByAge(jobs, sorted, k, id);
    }

    /** `sorted(terminal, key=...)`. */
    method SortTerminals() returns (victims: seq<nat>)
      ensures victims == SortedByAge(jobs, Terminals(View()))
    {
      var terminal := Select(set id | id in jobs && Terminal(jobs[id].state));
      assert Among(terminal) == Terminals(View());
      victims := [];
      for k := 0 to |terminal|
        invariant Sorted(jobs, victims) && Among(victims) == Among(terminal[..k])
      {
        AmongNext(terminal, k);
        AmongMore(victims, terminal[k]);
        assert terminal[k] !in Among(terminal[..k]) && terminal[k] in Among(terminal);
        victims := InsertByAge(victims, terminal[k]);
      }
      assert terminal[..|terminal|] == terminal;
      assert forall x :: x in victims <==> x in Among(victims);
      SortedIsUnique(jobs, victims, Terminals(View()));
    }

    /** `_trim_terminal_jobs_locked`. */
    method TrimTerminalJobs()
      requires Inv(View())
      modifies this
      ensures View() == Trimmed(old(View())) && Inv(View())
    {
      TrimMakesRoom(View());
      var overflow := |jobs| - MAX_JOBS + 1;
      if overflow <= 0 {
        assert Dropped(View(), {}) == View();
        return;
      }
      var victims := SortTerminals();
      SortedByAgeIsSorted(jobs, Terminals(View()));
      PopAll(victims[..if overflow <= |victims| then overflow else |victims|]);
    }

    /** The first half of `_enqueue_job`: expiry, and the job that the request finds or replaces. */
    method MakeWay(key: string, kind: string, now: int) returns (found: Option<nat>)
      requires Inv(View())
      modifies this
      ensures View() == Cleared(old(View()), key, kind, now) && Inv(View())
      ensures found == Lookup(keys, key)
    {
      ClearedKeepsInv(View(), key, kind, now);
      PurgeJobs(now);
      if key in keys {
        var existing := keys[key];
        if !Replaces(kind, jobs[existing]) {
          return Some(existing);
        }
        Pop(existing);
      }
      return None;
    }

    /** `_enqueue_job`: None is the refusal of a full queue. */
    method EnqueueJob(key: string, kind: string, now: int) returns (id: Option<nat>)
      requires Inv(View())
      modifies this
      ensures Inv(View()) && View() == Enqueued(old(View()), key, kind, now).0
      ensures id == match Enqueued(old(View()), key, kind, now).1
                    case Existing(e) => Some(e)
                    case Fresh(f) => Some(f)
                    case Full => None
      ensures id.Some? ==> id.value in jobs && jobs[id.value].key == key
    {
      EnqueueKeepsInv(View(), key, kind, now);
      id := MakeWay(key, kind, now);
      if id.Some? {
        return;
      }
      TrimMakesRoom(View());
      TrimTerminalJobs();
      if |jobs| >= MAX_JOBS {
        return;
      }
      id := Some(nextId);
      jobs := jobs[nextId := Job(key, kind, now, now + TTL, Queued)];
      keys := keys[key := nextId];
      nextId := nextId + 1;
    }

    /** `_complete_job`, `_finish_job_conflict` and `_finish_job_error`: nothing happens to a job that is gone. */
    method EndJob(id: nat, state: JobState)
      requires Inv(View()) && Terminal(state)
      modifies this
      ensures View() == WithState(old(View()), id, state) && Inv(View())
    {
      StateKeepsInv(View(), id, state);
      if id in jobs {
        jobs := jobs[id := jobs[id].(state := state)];
      }
    }
  }
}
