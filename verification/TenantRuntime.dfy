/**
 * Tenant containers of the gateway (gateway.py): single-flight creation, retirement, draining shutdown and the
 * operations that are counted against it. Every event is one section that the code runs under a lock, or one
 * call whose result is chosen by an oracle; threads interleave events arbitrarily.
 */
module TenantRuntime {
  import opened Basics
  import opened Registration

  type Thread = nat

  /**
   * Open: serving. Closing: `shutdown` has set `_closed` and waits for the counted operations. Halting:
   * `runtime.shutdown` runs. Finished: its Store is closed. Broken: its shutdown raised.
   */
  datatype Life = Open | Closing | Halting | Finished | Broken

  /** `holders` has one entry per counted operation, so its size is `_active_operations`. */
  datatype Container = Container(ctx: Context, life: Life, published: bool, holders: multiset<Thread>)

  datatype Stage = Admitted | Draining(left: nat) | Ready | Opened(made: nat) | Discarding(made: nat) | Over

  datatype Creation = Creation(id: nat, ctx: Context, creator: Thread, wait: bool, stage: Stage)

  /** `todo` are the containers, by repository, that a gateway shutdown has collected and not yet seen finished. */
  datatype Phase =
    | Running
    | Stopping(closer: Thread)
    | Collected(closer: Thread, todo: map<int, nat>)
    | Stopped
    | ShutdownFailed(todo: map<int, nat>)

  datatype Manager = Manager(
    containers: map<int, nat>, creating: map<int, Creation>, retiring: map<int, nat>,
    all: map<nat, Container>, waiting: map<Thread, nat>, ended: set<nat>, nextId: nat, phase: Phase)

  const EMPTY_MANAGER := Manager(map[], map[], map[], map[], map[], {}, 0, Running)

  datatype Event =
    | Request(thread: Thread, ctx: Context, wait: bool)
    | Wake(thread: Thread)
    | BeginBuild(repo: int)
    | Close(id: nat)
    | Halt(id: nat)
    | Finish(id: nat, ok: bool)
    | DrainReturns(repo: int)
    | OpenStore(repo: int, ok: bool)
    | Publish(repo: int, current: bool)
    | DiscardReturns(repo: int)
    | EndCreation(repo: int)
    | BeginOperation(thread: Thread, id: nat)
    | EndOperation(thread: Thread, id: nat)
    | BeginShutdown(thread: Thread)
    | Collect
    | ContainerReturns(repo: int)
    | EndShutdown

  function Occupied(m: Manager): set<int> {
    m.containers.Keys + m.creating.Keys + m.retiring.Keys
  }

  predicate Holds(m: Manager, t: Thread) {
    HoldsIn(m.all, t)
  }

  predicate HoldsIn(all: map<nat, Container>, t: Thread) {
    exists id | id in all :: t in all[id].holders
  }

  predicate Creates(m: Manager, t: Thread) {
    CreatesIn(m.creating, t)
  }

  predicate CreatesIn(creating: map<int, Creation>, t: Thread) {
    exists r | r in creating :: creating[r].creator == t
  }

  predicate ShutsDown(m: Manager, t: Thread) {
    (m.phase.Stopping? || m.phase.Collected?) && m.phase.closer == t
  }

  predicate Idle(m: Manager, t: Thread) {
    t !in m.waiting && !Creates(m, t) && !ShutsDown(m, t)
  }

  /** What the first critical section of `container_for_context` decides. */
  datatype Admission = Existing(id: nat) | Refused | Waits(creation: nat) | Creator

  function Admit(m: Manager, ctx: Context, wait: bool, maxTenants: nat): Admission {
    var r := ctx.repositoryId;
    if !m.phase.Running? then Refused
    else if r in m.creating then (if wait then Waits(m.creating[r].id) else Refused)
    else if r in m.containers && m.containers[r] in m.all && m.all[m.containers[r]].ctx == ctx then
      Existing(m.containers[r])
    else if !wait && (r in m.containers || r in m.retiring) then Refused
    else if r !in Occupied(m) && |Occupied(m)| >= maxTenants then Refused
    else Creator
  }

  function SetStage(m: Manager, r: int, s: Stage): (n: Manager)
    requires r in m.creating
    ensures n.all == m.all
  {
    m.(creating := m.creating[r := m.creating[r].(stage := s)])
  }

  function SetLife(m: Manager, id: nat, life: Life): Manager
    requires id in m.all
  {
    m.(all := m.all[id := m.all[id].(life := life)])
  }

  /** The container that a build has to shut down first. */
  function Retired(m: Manager, r: int): Option<nat> {
    if r in m.containers then Some(m.containers[r]) else Lookup(m.retiring, r)
  }

  predicate HasReturned(m: Manager, id: nat) {
    id in m.all && m.all[id].life in {Finished, Broken}
  }

  /** Somebody has called `shutdown` of this container. */
  predicate ShutdownCalled(m: Manager, id: nat) {
    || (exists r | r in m.creating :: m.creating[r].stage in {Draining(id), Discarding(id)})
    || (m.phase.Collected? && id in m.phase.todo.Values)
  }

  /** What every event needs to happen; in a run, an event that cannot happen changes nothing. */
  predicate Enabled(m: Manager, e: Event) {
    match e
    // Callers inside a counted operation never ask to wait: organization_read passes wait=False.
    case Request(t, ctx, wait) => Idle(m, t) && (Holds(m, t) ==> !wait)
    case Wake(t) => t in m.waiting && m.waiting[t] in m.ended
    case BeginBuild(r) => r in m.creating && m.creating[r].stage.Admitted?
    case Close(id) => id in m.all && m.all[id].life.Open? && ShutdownCalled(m, id)
    case Halt(id) => id in m.all && m.all[id].life.Closing? && m.all[id].holders == multiset{}
    case Finish(id, ok) => id in m.all && m.all[id].life.Halting?
    case DrainReturns(r) => r in m.creating && m.creating[r].stage.Draining? && HasReturned(m, m.creating[r].stage.left)
    case OpenStore(r, ok) => r in m.creating && m.creating[r].stage.Ready?
    case Publish(r, current) => r in m.creating && m.creating[r].stage.Opened? && m.creating[r].stage.made in m.all
    case DiscardReturns(r) => r in m.creating && m.creating[r].stage.Discarding? && HasReturned(m, m.creating[r].stage.made)
    case EndCreation(r) => r in m.creating && m.creating[r].stage.Over?
    case BeginOperation(t, id) => id in m.all && m.all[id].published && m.all[id].life.Open? && Idle(m, t)
    case EndOperation(t, id) => id in m.all && t in m.all[id].holders && Idle(m, t)
    case BeginShutdown(t) => m.phase.Running? && Idle(m, t) && !Holds(m, t)
    case Collect => m.phase.Stopping? && m.creating == map[]
    case ContainerReturns(r) => m.phase.Collected? && r in m.phase.todo && HasReturned(m, m.phase.todo[r])
    case EndShutdown => m.phase.Collected? && m.phase.todo == map[]
  }

  function Created(m: Manager, t: Thread, ctx: Context, wait: bool): (n: Manager)
    ensures n.all == m.all
  {
    m.(creating := m.creating[ctx.repositoryId := Creation(m.nextId, ctx, t, wait, Admitted)], nextId := m.nextId + 1)
  }

  function Requested(m: Manager, t: Thread, ctx: Context, wait: bool, maxTenants: nat): (n: Manager)
    ensures n.all == m.all
  {
    match Admit(m, ctx, wait, maxTenants)
    case Existing(_) => m
    case Refused => m
    case Waits(k) => m.(waiting := m.waiting[t := k])
    case Creator => Created(m, t, ctx, wait)
  }

  /** The first section of a build: a published container of the repository becomes a retiring one. */
  function Begun(m: Manager, r: int): (n: Manager)
    requires r in m.creating
    ensures n.all == m.all
  {
    var left := Retired(m, r);
    var n := SetStage(m, r, if left.Some? then Draining(left.value) else Ready);
    if r in m.containers then n.(containers := n.containers - {r}, retiring := n.retiring[r := m.containers[r]]) else n
  }

  /** A shutdown of a retiring container returns: its entry goes unless it raised. */
  function Returned(m: Manager, r: int, id: nat, after: Stage): (n: Manager)
    requires r in m.creating && id in m.all
    ensures n.all == m.all
  {
    if m.all[id].life.Broken? then SetStage(m, r, Over)
    else SetStage(m, r, after).(retiring := m.retiring - {r})
  }

  function Made(m: Manager, r: int): Manager
    requires r in m.creating
  {
    var c := Container(m.creating[r].ctx, Open, false, multiset{});
    SetStage(m, r, Opened(m.nextId)).(all := m.all[m.nextId := c], nextId := m.nextId + 1)
  }

  function Published(m: Manager, r: int, id: nat): Manager
    requires r in m.creating && id in m.all
  {
    SetStage(m, r, Over).(containers := m.containers[r := id], all := m.all[id := m.all[id].(published := true)])
  }

  function Withheld(m: Manager, r: int, id: nat): (n: Manager)
    requires r in m.creating
    ensures n.all == m.all
  {
    SetStage(m, r, Discarding(id)).(retiring := m.retiring[r := id])
  }

  function Ended(m: Manager, r: int): (n: Manager)
    requires r in m.creating
    ensures n.all == m.all
  {
    m.(creating := m.creating - {r}, ended := m.ended + {m.creating[r].id})
  }

  function CollectedAll(m: Manager): (n: Manager)
    requires m.phase.Stopping?
    ensures n.all == m.all
  {
    m.(containers := map[], phase := Collected(m.phase.closer, m.containers + m.retiring))
  }

  function SetHolders(m: Manager, id: nat, holders: multiset<Thread>): Manager
    requires id in m.all
  {
    m.(all := m.all[id := m.all[id].(holders := holders)])
  }

  function Step(m: Manager, e: Event, maxTenants: nat): Manager
    requires Enabled(m, e)
  {
    match e
    case Request(t, ctx, wait) => Requested(m, t, ctx, wait, maxTenants)
    case Wake(t) => m.(waiting := m.waiting - {t})
    case BeginBuild(r) => Begun(m, r)
    case Close(id) => SetLife(m, id, Closing)
    case Halt(id) => SetLife(m, id, Halting)
    case Finish(id, ok) => SetLife(m, id, if ok then Finished else Broken)
    case DrainReturns(r) => Returned(m, r, m.creating[r].stage.left, Ready)
    case OpenStore(r, ok) => if ok then Made(m, r) else SetStage(m, r, Over)
    case Publish(r, current) =>
      if current && m.phase.Running? then Published(m, r, m.creating[r].stage.made)
      else Withheld(m, r, m.creating[r].stage.made)
    case DiscardReturns(r) => Returned(m, r, m.creating[r].stage.made, Over)
    case EndCreation(r) => Ended(m, r)
    case BeginOperation(t, id) => SetHolders(m, id, m.all[id].holders + multiset{t})
    case EndOperation(t, id) => SetHolders(m, id, m.all[id].holders - multiset{t})
    case BeginShutdown(t) => m.(phase := Stopping(t))
    case Collect => CollectedAll(m)
    case ContainerReturns(r) =>
      if m.all[m.phase.todo[r]].life.Broken? then m.(phase := ShutdownFailed(m.phase.todo))
      else m.(phase := m.phase.(todo := m.phase.todo - {r}))
    case EndShutdown => m.(phase := Stopped)
  }

  function Next(m: Manager, e: Event, maxTenants: nat): Manager {
    if Enabled(m, e) then Step(m, e, maxTenants) else m
  }

  function Run(m: Manager, events: seq<Event>, maxTenants: nat): Manager
    decreases |events|
  {
    if events == [] then m else Run(Next(m, events[0], maxTenants), events[1..], maxTenants)
  }

  // ----- the invariant -----

  ghost predicate Down(m: Manager) {
    m.phase.Collected? || m.phase.Stopped? || m.phase.ShutdownFailed?
  }

  ghost predicate Unfinished(m: Manager, id: nat) {
    id in m.all && !m.all[id].life.Finished?
  }

  function RepoOf(m: Manager, id: nat): int
    requires id in m.all
  {
    m.all[id].ctx.repositoryId
  }

  /** A container that has been made and not finished can still be found, so somebody will shut it down. */
  ghost predicate Located(m: Manager, id: nat)
    requires id in m.all
  {
    var r := RepoOf(m, id);
    if Down(m) then !m.phase.Stopped? && r in m.phase.todo && m.phase.todo[r] == id
    else
      || (r in m.containers && m.containers[r] == id)
      || (r in m.retiring && m.retiring[r] == id)
      || (r in m.creating && m.creating[r].stage == Opened(id))
  }

  ghost predicate Served(m: Manager) {
    forall r | r in m.containers ::
      && m.containers[r] in m.all && RepoOf(m, m.containers[r]) == r
      && m.all[m.containers[r]].life.Open? && m.all[m.containers[r]].published
      && r !in m.retiring
  }

  ghost predicate Leaving(m: Manager) {
    forall r | r in m.retiring :: m.retiring[r] in m.all && RepoOf(m, m.retiring[r]) == r
  }

  ghost predicate StageFits(m: Manager, r: int)
    requires r in m.creating
  {
    match m.creating[r].stage
    case Admitted => m.creating[r].wait || (r !in m.containers && r !in m.retiring)
    case Draining(left) => m.creating[r].wait && r !in m.containers && r in m.retiring && m.retiring[r] == left
    case Ready => r !in m.containers && r !in m.retiring
    case Opened(c) =>
      && r !in m.containers && r !in m.retiring
      && c in m.all && m.all[c].ctx == m.creating[r].ctx && RepoOf(m, c) == r && m.all[c].life.Open? && !m.all[c].published
    case Discarding(c) =>
      r !in m.containers && r in m.retiring && m.retiring[r] == c && c in m.all && !m.all[c].published
    case Over => true
  }

  ghost predicate Staged(m: Manager) {
    && (forall r | r in m.creating :: StageFits(m, r))
    && (forall r | r in m.creating :: m.creating[r].ctx.repositoryId == r)
    && (Down(m) ==> m.creating == map[] && m.containers == map[])
  }

  ghost predicate Kept(m: Manager) {
    && (forall id | id in m.all :: id < m.nextId)
    && (forall id | id in m.all && Unfinished(m, id) :: Located(m, id))
  }

  /** Once `runtime.shutdown` starts there is no operation, and there was none before publication. */
  ghost predicate Quiet(m: Manager) {
    forall id | id in m.all && (!m.all[id].published || m.all[id].life in {Halting, Finished, Broken}) ::
      m.all[id].holders == multiset{}
  }

  /** A thread that may wait for others holds no operation. */
  ghost predicate Unburdened(m: Manager) {
    && (forall t | t in m.waiting :: !Holds(m, t))
    && (forall r | r in m.creating && m.creating[r].wait :: !Holds(m, m.creating[r].creator))
    && (m.phase.Stopping? || m.phase.Collected? ==> !Holds(m, m.phase.closer))
  }

  /** A thread does one of waiting, creating and shutting the gateway down at a time. */
  ghost predicate OneTask(m: Manager) {
    && (forall t | t in m.waiting :: !Creates(m, t))
    && (m.phase.Stopping? || m.phase.Collected? ==> m.phase.closer !in m.waiting && !Creates(m, m.phase.closer))
  }

  ghost predicate Placed(m: Manager) {
    Served(m) && Leaving(m) && Staged(m) && Kept(m)
  }

  ghost predicate Inv(m: Manager, maxTenants: nat) {
    |Occupied(m)| <= maxTenants && Placed(m) && Quiet(m) && Unburdened(m) && OneTask(m)
  }

  /** What all events but a request have in common: nothing is added but a fresh container. */
  ghost predicate Tame(m: Manager, n: Manager) {
    && Occupied(n) <= Occupied(m)
    && (forall r | r in n.creating :: r in m.creating && SameRequest(m.creating[r], n.creating[r]))
    && KeepsAll(m, n)
  }

  ghost predicate SameRequest(a: Creation, b: Creation) {
    a.id == b.id && a.ctx == b.ctx && a.creator == b.creator && a.wait == b.wait
  }

  /** Containers are never forgotten, keep their context, and a finished or broken one stays what it is. */
  ghost predicate KeepsAll(m: Manager, n: Manager) {
    forall id | id in m.all :: id in n.all && Continues(m.all[id], n.all[id])
  }

  ghost predicate Continues(c: Container, d: Container) {
    d.ctx == c.ctx && (c.life in {Finished, Broken} ==> d.life == c.life)
  }

  ghost predicate NobodyNew(m: Manager, n: Manager, but: Thread) {
    forall t | t != but && !Holds(m, t) :: !Holds(n, t)
  }

  lemma StagedKeeps(m: Manager, r: int, s: Stage)
    requires r in m.creating
    ensures Tame(m, SetStage(m, r, s))
  {
  }

  lemma BegunKeeps(m: Manager, r: int)
    requires Placed(m) && r in m.creating && m.creating[r].stage.Admitted?
    ensures Tame(m, Begun(m, r))
  {
  }

  lemma BegunIsPlaced(m: Manager, r: int)
    requires Placed(m) && r in m.creating && m.creating[r].stage.Admitted?
    ensures Placed(Begun(m, r))
  {
    assert StageFits(m, r);
  }

  lemma ReturnedKeeps(m: Manager, r: int, id: nat, after: Stage)
    requires Placed(m) && r in m.creating && HasReturned(m, id)
    requires (m.creating[r].stage == Draining(id) && after == Ready) || (m.creating[r].stage == Discarding(id) && after == Over)
    ensures Tame(m, Returned(m, r, id, after))
  {
  }

  lemma ReturnedIsPlaced(m: Manager, r: int, id: nat, after: Stage)
    requires Placed(m) && r in m.creating && HasReturned(m, id)
    requires (m.creating[r].stage == Draining(id) && after == Ready) || (m.creating[r].stage == Discarding(id) && after == Over)
    ensures Placed(Returned(m, r, id, after))
  {
    assert StageFits(m, r);
  }

  lemma MadeKeeps(m: Manager, r: int)
    requires Placed(m) && Quiet(m) && r in m.creating && m.creating[r].stage.Ready?
    ensures Tame(m, Made(m, r)) && Quiet(Made(m, r))
    ensures forall t | !Holds(m, t) :: !Holds(Made(m, r), t)
  {
  }

  lemma MadeIsPlaced(m: Manager, r: int)
    requires Placed(m) && r in m.creating && m.creating[r].stage.Ready?
    ensures Placed(Made(m, r))
  {
    MadeIsKept(m, r);
    MadeIsStaged(m, r);
  }

  lemma MadeIsKept(m: Manager, r: int)
    requires Placed(m) && r in m.creating && m.creating[r].stage.Ready?
    ensures Kept(Made(m, r))
  {
    assert forall id | id in m.all && Unfinished(m, id) :: RepoOf(m, id) != r;
  }

  lemma MadeIsStaged(m: Manager, r: int)
    requires Placed(m) && r in m.creating && m.creating[r].stage.Ready?
    ensures Staged(Made(m, r)) && Served(Made(m, r)) && Leaving(Made(m, r))
  {
    assert forall q | q in m.creating :: StageFits(m, q);
  }

  lemma OverIsPlaced(m: Manager, r: int)
    requires Placed(m) && r in m.creating && m.creating[r].stage.Ready?
    ensures Placed(SetStage(m, r, Over))
  {
  }

  lemma PublishedKeeps(m: Manager, r: int, id: nat)
    requires Placed(m) && Quiet(m) && r in m.creating && m.creating[r].stage == Opened(id) && id in m.all
    ensures var n := Published(m, r, id); Tame(m, n) && Quiet(n)
    ensures forall t | !Holds(m, t) :: !Holds(Published(m, r, id), t)
  {
  }

  lemma PublishedIsPlaced(m: Manager, r: int, id: nat)
    requires Placed(m) && r in m.creating && m.creating[r].stage == Opened(id) && id in m.all
    ensures Placed(Published(m, r, id))
  {
    assert forall q | q in m.creating :: StageFits(m, q);
  }

  lemma WithheldKeeps(m: Manager, r: int, id: nat)
    requires Placed(m) && r in m.creating && m.creating[r].stage == Opened(id) && id in m.all
    ensures Tame(m, Withheld(m, r, id))
  {
  }

  lemma WithheldIsPlaced(m: Manager, r: int, id: nat)
    requires Placed(m) && r in m.creating && m.creating[r].stage == Opened(id) && id in m.all
    ensures Placed(Withheld(m, r, id))
  {
    assert StageFits(m, r);
  }

  lemma EndedKeeps(m: Manager, r: int)
    requires Placed(m) && r in m.creating && m.creating[r].stage.Over?
    ensures Tame(m, Ended(m, r))
  {
  }

  lemma EndedIsPlaced(m: Manager, r: int)
    requires Placed(m) && r in m.creating && m.creating[r].stage.Over?
    ensures Placed(Ended(m, r))
  {
  }

  lemma LifeKeeps(m: Manager, id: nat, life: Life)
    requires Placed(m) && Quiet(m) && id in m.all
    requires m.all[id].life.Open? ==> life.Closing? && ShutdownCalled(m, id)
    requires m.all[id].life.Closing? ==> life.Halting? && m.all[id].holders == multiset{}
    requires m.all[id].life.Halting? ==> life.Finished? || life.Broken?
    requires m.all[id].life !in {Finished, Broken}
    ensures var n := SetLife(m, id, life); Tame(m, n) && Quiet(n)
    ensures forall t | !Holds(m, t) :: !Holds(SetLife(m, id, life), t)
  {
  }

  /** A container whose shutdown was called, or that is not open any more, is neither served nor about to be. */
  lemma LeavingIsApart(m: Manager, id: nat)
    requires Placed(m) && id in m.all && (m.all[id].life.Open? ==> ShutdownCalled(m, id))
    ensures forall r | r in m.containers :: m.containers[r] != id
    ensures forall r | r in m.creating :: m.creating[r].stage != Opened(id)
  {
    assert forall q | q in m.creating :: StageFits(m, q);
  }

  lemma LifeIsKept(m: Manager, id: nat, life: Life)
    requires Placed(m) && id in m.all && !m.all[id].life.Finished?
    ensures Kept(SetLife(m, id, life)) && Leaving(SetLife(m, id, life))
  {
  }

  lemma LifeIsPlaced(m: Manager, id: nat, life: Life)
    requires Placed(m) && id in m.all && !life.Open?
    requires m.all[id].life.Open? ==> ShutdownCalled(m, id)
    requires !m.all[id].life.Finished?
    ensures Placed(SetLife(m, id, life))
  {
    LeavingIsApart(m, id);
    LifeIsKept(m, id, life);
    assert forall q | q in m.creating :: StageFits(m, q);
  }

  lemma HoldersKeep(m: Manager, id: nat, holders: multiset<Thread>)
    requires Placed(m) && id in m.all
    ensures Tame(m, SetHolders(m, id, holders))
  {
  }

  lemma HoldersArePlaced(m: Manager, id: nat, holders: multiset<Thread>)
    requires Placed(m) && id in m.all
    ensures Placed(SetHolders(m, id, holders))
  {
    assert forall q | q in m.creating :: StageFits(m, q);
  }

  lemma EntryIsQuiet(m: Manager, id: nat, t: Thread)
    requires Quiet(m) && id in m.all && m.all[id].published && m.all[id].life.Open?
    ensures var n := SetHolders(m, id, m.all[id].holders + multiset{t}); Quiet(n) && NobodyNew(m, n, t)
  {
  }

  lemma ExitIsQuiet(m: Manager, id: nat, t: Thread)
    requires Quiet(m) && id in m.all
    ensures var n := SetHolders(m, id, m.all[id].holders - multiset{t}); Quiet(n)
    ensures forall u | !Holds(m, u) :: !Holds(SetHolders(m, id, m.all[id].holders - multiset{t}), u)
  {
  }

  lemma CollectedKeeps(m: Manager)
    requires Placed(m) && m.phase.Stopping? && m.creating == map[]
    ensures Tame(m, CollectedAll(m)) && Placed(CollectedAll(m))
  {
  }

  predicate OfPhase(e: Event) {
    e.BeginShutdown? || e.ContainerReturns? || e.EndShutdown? || e.Wake?
  }

  lemma DownIsPlaced(m: Manager, phase: Phase)
    requires Placed(m) && m.phase.Collected?
    requires match phase
             case Stopped => m.phase.todo == map[]
             case Collected(_, todo) =>
               exists r | r in m.phase.todo ::
                 todo == m.phase.todo - {r} && m.phase.todo[r] in m.all && m.all[m.phase.todo[r]].life.Finished?
             case ShutdownFailed(todo) => todo == m.phase.todo
             case _ => false
    ensures Placed(m.(phase := phase))
  {
  }

  lemma PhaseKeeps(m: Manager, e: Event, maxTenants: nat)
    requires Enabled(m, e) && OfPhase(e)
    ensures Tame(m, Step(m, e, maxTenants))
  {
  }

  lemma PhaseIsPlaced(m: Manager, e: Event, maxTenants: nat)
    requires Placed(m) && Enabled(m, e) && OfPhase(e)
    ensures Placed(Step(m, e, maxTenants))
  {
    assert forall q | q in m.creating :: StageFits(m, q);
    match e
    case ContainerReturns(r) => DownIsPlaced(m, Step(m, e, maxTenants).phase);
    case EndShutdown => DownIsPlaced(m, Stopped);
    case _ =>
  }

  /** Every event but a request, seen as one of the updates above. */
  lemma StepIsTame(m: Manager, e: Event, maxTenants: nat)
    requires Placed(m) && Quiet(m) && Enabled(m, e) && !e.Request?
    ensures Tame(m, Step(m, e, maxTenants))
  {
    match e
    case BeginBuild(r) => BegunKeeps(m, r);
    case Close(id) => LifeKeeps(m, id, Closing);
    case Halt(id) => LifeKeeps(m, id, Halting);
    case Finish(id, ok) => LifeKeeps(m, id, if ok then Finished else Broken);
    case DrainReturns(r) => ReturnedKeeps(m, r, m.creating[r].stage.left, Ready);
    case OpenStore(r, ok) =>
      MadeKeeps(m, r);
      StagedKeeps(m, r, Over);
    case Publish(r, current) =>
      PublishedKeeps(m, r, m.creating[r].stage.made);
      WithheldKeeps(m, r, m.creating[r].stage.made);
    case DiscardReturns(r) => ReturnedKeeps(m, r, m.creating[r].stage.made, Over);
    case EndCreation(r) => EndedKeeps(m, r);
    case BeginOperation(t, id) => HoldersKeep(m, id, m.all[id].holders + multiset{t});
    case EndOperation(t, id) => HoldersKeep(m, id, m.all[id].holders - multiset{t});
    case Collect => CollectedKeeps(m);
    case _ => PhaseKeeps(m, e, maxTenants);
  }

  lemma StepIsPlaced(m: Manager, e: Event, maxTenants: nat)
    requires Placed(m) && Quiet(m) && Enabled(m, e) && !e.Request?
    ensures Placed(Step(m, e, maxTenants))
  {
    match e
    case BeginBuild(r) => BegunIsPlaced(m, r);
    case Close(id) => LifeIsPlaced(m, id, Closing);
    case Halt(id) => LifeIsPlaced(m, id, Halting);
    case Finish(id, ok) => LifeIsPlaced(m, id, if ok then Finished else Broken);
    case DrainReturns(r) => ReturnedIsPlaced(m, r, m.creating[r].stage.left, Ready);
    case OpenStore(r, ok) =>
      MadeIsPlaced(m, r);
      OverIsPlaced(m, r);
    case Publish(r, current) =>
      PublishedIsPlaced(m, r, m.creating[r].stage.made);
      WithheldIsPlaced(m, r, m.creating[r].stage.made);
    case DiscardReturns(r) => ReturnedIsPlaced(m, r, m.creating[r].stage.made, Over);
    case EndCreation(r) => EndedIsPlaced(m, r);
    case BeginOperation(t, id) => HoldersArePlaced(m, id, m.all[id].holders + multiset{t});
    case EndOperation(t, id) => HoldersArePlaced(m, id, m.all[id].holders - multiset{t});
    case Collect => CollectedKeeps(m);
    case _ => PhaseIsPlaced(m, e, maxTenants);
  }

  lemma StepIsQuiet(m: Manager, e: Event, maxTenants: nat)
    requires Placed(m) && Quiet(m) && Enabled(m, e) && !e.Request?
    ensures var n := Step(m, e, maxTenants);
            Quiet(n) && if e.BeginOperation? then NobodyNew(m, n, e.thread) else forall t | !Holds(m, t) :: !Holds(n, t)
  {
    match e
    case Close(id) => LifeKeeps(m, id, Closing);
    case Halt(id) => LifeKeeps(m, id, Halting);
    case Finish(id, ok) => LifeKeeps(m, id, if ok then Finished else Broken);
    case OpenStore(r, ok) => MadeKeeps(m, r);
    case Publish(r, current) => PublishedKeeps(m, r, m.creating[r].stage.made);
    case BeginOperation(t, id) => EntryIsQuiet(m, id, t);
    case EndOperation(t, id) => ExitIsQuiet(m, id, t);
    case _ =>
  }

  lemma Smaller(a: set<int>, b: set<int>)
    requires a <= b
    ensures |a| <= |b|
  {
    if a != b {
      assert b == a + (b - a);
    }
  }

  lemma Larger(a: set<int>, b: set<int>, c: set<int>, r: int, limit: nat)
    requires r in a + b + c || |a + b + c| < limit
    requires |a + b + c| <= limit
    ensures |a + (b + {r}) + c| <= limit
  {
    assert a + (b + {r}) + c == a + b + c + {r};
    if r in a + b + c {
      assert a + b + c + {r} == a + b + c;
    }
  }

  lemma CreatedKeepsInv(m: Manager, t: Thread, ctx: Context, wait: bool, maxTenants: nat)
    requires Inv(m, maxTenants) && Admit(m, ctx, wait, maxTenants).Creator? && Idle(m, t) && (Holds(m, t) ==> !wait)
    ensures Inv(Created(m, t, ctx, wait), maxTenants)
  {
    var n := Created(m, t, ctx, wait);
    assert n.creating.Keys == m.creating.Keys + {ctx.repositoryId};
    Larger(m.containers.Keys, m.creating.Keys, m.retiring.Keys, ctx.repositoryId, maxTenants);
    CreatedIsPlaced(m, t, ctx, wait);
    CreatedIsFree(m, t, ctx, wait);
  }

  lemma CreatedIsPlaced(m: Manager, t: Thread, ctx: Context, wait: bool)
    requires Placed(m) && ctx.repositoryId !in m.creating && m.phase.Running?
    requires !wait ==> ctx.repositoryId !in m.containers && ctx.repositoryId !in m.retiring
    ensures Placed(Created(m, t, ctx, wait))
  {
  }

  lemma CreatedIsFree(m: Manager, t: Thread, ctx: Context, wait: bool)
    requires Quiet(m) && Unburdened(m) && OneTask(m) && Idle(m, t) && (Holds(m, t) ==> !wait)
    requires m.phase.Running?
    ensures var n := Created(m, t, ctx, wait); Quiet(n) && Unburdened(n) && OneTask(n)
  {
  }

  lemma WaitKeepsInv(m: Manager, t: Thread, k: nat, maxTenants: nat)
    requires Inv(m, maxTenants) && Idle(m, t) && !Holds(m, t)
    ensures Inv(m.(waiting := m.waiting[t := k]), maxTenants)
  {
    var n := m.(waiting := m.waiting[t := k]);
    WaitIsPlaced(m, n);
    WaitIsFree(m, t, k);
    assert Occupied(n) == Occupied(m);
  }

  lemma WaitIsFree(m: Manager, t: Thread, k: nat)
    requires Quiet(m) && Unburdened(m) && OneTask(m) && Idle(m, t) && !Holds(m, t)
    ensures var n := m.(waiting := m.waiting[t := k]); Quiet(n) && Unburdened(n) && OneTask(n)
  {
  }

  lemma WaitIsPlaced(m: Manager, n: Manager)
    requires Placed(m) && n == m.(waiting := n.waiting)
    ensures Placed(n)
  {
    assert forall q | q in m.creating :: StageFits(m, q);
  }

  lemma RequestKeepsInv(m: Manager, t: Thread, ctx: Context, wait: bool, maxTenants: nat)
    requires Inv(m, maxTenants) && Idle(m, t) && (Holds(m, t) ==> !wait)
    ensures Inv(Requested(m, t, ctx, wait, maxTenants), maxTenants)
  {
    match Admit(m, ctx, wait, maxTenants)
    case Creator => CreatedKeepsInv(m, t, ctx, wait, maxTenants);
    case Waits(k) => WaitKeepsInv(m, t, k, maxTenants);
    case _ =>
  }

  lemma WaitersKeep(m: Manager, e: Event, maxTenants: nat)
    requires Enabled(m, e) && !e.Request?
    ensures var n := Step(m, e, maxTenants);
            && n.waiting.Keys <= m.waiting.Keys
            && (n.phase.Stopping? || n.phase.Collected? ==>
                  || (e.BeginShutdown? && e.thread == n.phase.closer)
                  || ((m.phase.Stopping? || m.phase.Collected?) && n.phase.closer == m.phase.closer))
  {
  }

  /** Nothing is added but operations of threads that neither wait nor create. */
  lemma TameIsFree(m: Manager, n: Manager, e: Event)
    requires Enabled(m, e) && !e.Request? && Unburdened(m) && OneTask(m) && Tame(m, n)
    requires if e.BeginOperation? then NobodyNew(m, n, e.thread) else forall t | !Holds(m, t) :: !Holds(n, t)
    requires n.waiting.Keys <= m.waiting.Keys
    requires n.phase.Stopping? || n.phase.Collected? ==>
               || (e.BeginShutdown? && e.thread == n.phase.closer)
               || ((m.phase.Stopping? || m.phase.Collected?) && n.phase.closer == m.phase.closer)
    ensures Unburdened(n) && OneTask(n)
  {
    forall t | !Creates(m, t) ensures !Creates(n, t) {}
  }

  lemma StepKeepsInv(m: Manager, e: Event, maxTenants: nat)
    requires Inv(m, maxTenants)
    ensures Inv(Next(m, e, maxTenants), maxTenants)
  {
    if Enabled(m, e) {
      var n := Step(m, e, maxTenants);
      if e.Request? {
        RequestKeepsInv(m, e.thread, e.ctx, e.wait, maxTenants);
      } else {
        StepIsTame(m, e, maxTenants);
        StepIsPlaced(m, e, maxTenants);
        StepIsQuiet(m, e, maxTenants);
        WaitersKeep(m, e, maxTenants);
        TameIsFree(m, n, e);
        Smaller(Occupied(n), Occupied(m));
      }
    }
  }

  lemma {:induction false} RunKeepsInv(m: Manager, events: seq<Event>, maxTenants: nat)
    requires Inv(m, maxTenants)
    ensures Inv(Run(m, events, maxTenants), maxTenants)
    decreases |events|
  {
    if events != [] {
      StepKeepsInv(m, events[0], maxTenants);
      RunKeepsInv(Next(m, events[0], maxTenants), events[1..], maxTenants);
    }
  }

  // ----- what every run guarantees -----

  /** In every run: capacity, one container with an unclosed Store per repository, and no operation after closing. */
  lemma Exclusive(events: seq<Event>, maxTenants: nat, a: nat, b: nat)
    ensures var m := Run(EMPTY_MANAGER, events, maxTenants);
            && |Occupied(m)| <= maxTenants
            && (a in m.all && b in m.all && a != b && RepoOf(m, a) == RepoOf(m, b) ==>
                  m.all[a].life.Finished? || m.all[b].life.Finished?)
            && (a in m.all && m.all[a].life in {Halting, Finished, Broken} ==> m.all[a].holders == multiset{})
  {
    assert Inv(EMPTY_MANAGER, maxTenants);
    RunKeepsInv(EMPTY_MANAGER, events, maxTenants);
    var m := Run(EMPTY_MANAGER, events, maxTenants);
    assert a in m.all && b in m.all && Unfinished(m, a) && Unfinished(m, b) ==> Located(m, a) && Located(m, b);
    assert a in m.all && RepoOf(m, a) in m.creating ==> StageFits(m, RepoOf(m, a));
  }

  /** When a creation opens a Store, every earlier container of that repository has finished its shutdown. */
  lemma PredecessorsAreFinished(events: seq<Event>, maxTenants: nat, repo: int, id: nat)
    requires var m := Run(EMPTY_MANAGER, events, maxTenants);
             Enabled(m, OpenStore(repo, true)) && id in m.all && RepoOf(m, id) == repo
    ensures Run(EMPTY_MANAGER, events, maxTenants).all[id].life.Finished?
  {
    assert Inv(EMPTY_MANAGER, maxTenants);
    RunKeepsInv(EMPTY_MANAGER, events, maxTenants);
    var m := Run(EMPTY_MANAGER, events, maxTenants);
    assert StageFits(m, repo);
    assert Unfinished(m, id) ==> Located(m, id);
  }

  ghost predicate SameCreation(m: Manager, n: Manager, repo: int)
    requires repo in m.creating
  {
    repo in n.creating && n.creating[repo].id == m.creating[repo].id
  }

  lemma RequestKeepsCreation(m: Manager, t: Thread, ctx: Context, wait: bool, maxTenants: nat, repo: int)
    requires repo in m.creating
    ensures SameCreation(m, Requested(m, t, ctx, wait, maxTenants), repo)
  {
    assert Admit(m, ctx, wait, maxTenants).Creator? ==> ctx.repositoryId != repo;
  }

  lemma SectionKeepsCreation(m: Manager, r: int, id: nat, after: Stage, repo: int)
    requires repo in m.creating && r in m.creating
    ensures SameCreation(m, Begun(m, r), repo) && SameCreation(m, Made(m, r), repo) && SameCreation(m, SetStage(m, r, after), repo)
    ensures SameCreation(m, Withheld(m, r, id), repo)
    ensures id in m.all ==> SameCreation(m, Returned(m, r, id, after), repo) && SameCreation(m, Published(m, r, id), repo)
    ensures r != repo ==> SameCreation(m, Ended(m, r), repo)
  {
  }

  // ----- who gets which container -----

  /**
   * In every reachable state: a caller finds a container exactly when one of the very context that it asks for is
   * served, and that one is open; a container of another context is refused or leads to a new creation.
   */
  lemma ServesTheContext(events: seq<Event>, maxTenants: nat, ctx: Context, wait: bool)
    ensures var m := Run(EMPTY_MANAGER, events, maxTenants); var a := Admit(m, ctx, wait, maxTenants);
            && (a.Existing? ==>
                  && a.id in m.all && m.all[a.id].ctx == ctx && m.all[a.id].life.Open? && m.all[a.id].published)
            && (m.phase.Running? && ctx.repositoryId !in m.creating && ctx.repositoryId in m.containers ==>
                  var id := m.containers[ctx.repositoryId];
                  id in m.all && a == if m.all[id].ctx == ctx then Existing(id) else if wait then Creator else Refused)
  {
    assert Inv(EMPTY_MANAGER, maxTenants);
    RunKeepsInv(EMPTY_MANAGER, events, maxTenants);
  }

  /** A served container of another context is withdrawn and left to be drained by the creation that a request starts. */
  lemma StaleIsDrained(m: Manager, maxTenants: nat, t: Thread, ctx: Context)
    requires Inv(m, maxTenants) && m.phase.Running? && Idle(m, t) && !Holds(m, t)
    requires ctx.repositoryId !in m.creating && ctx.repositoryId in m.containers
    requires m.all[m.containers[ctx.repositoryId]].ctx != ctx
    ensures var r := ctx.repositoryId;
            var n := Next(Next(m, Request(t, ctx, true), maxTenants), BeginBuild(r), maxTenants);
            && r in n.creating && n.creating[r] == Creation(m.nextId, ctx, t, true, Draining(m.containers[r]))
            && r !in n.containers && r in n.retiring && n.retiring[r] == m.containers[r]
            && Enabled(n, Close(m.containers[r]))
  {
    var r := ctx.repositoryId;
    var first := Next(m, Request(t, ctx, true), maxTenants);
    assert first == Created(m, t, ctx, true);
    var n := Next(first, BeginBuild(r), maxTenants);
    assert n.creating[r].stage == Draining(m.containers[r]);
    assert r in n.creating && n.creating[r].stage in {Draining(m.containers[r]), Discarding(m.containers[r])};
    assert ShutdownCalled(n, m.containers[r]);
  }

  /** What a creation publishes is a container of the context that it was started for. */
  lemma PublishedServes(events: seq<Event>, maxTenants: nat, repo: int)
    requires var m := Run(EMPTY_MANAGER, events, maxTenants); Enabled(m, Publish(repo, true)) && m.phase.Running?
    ensures var m := Run(EMPTY_MANAGER, events, maxTenants); var n := Next(m, Publish(repo, true), maxTenants);
            repo in n.containers && n.all[n.containers[repo]].ctx == m.creating[repo].ctx && m.creating[repo].ctx.repositoryId == repo
  {
    assert Inv(EMPTY_MANAGER, maxTenants);
    RunKeepsInv(EMPTY_MANAGER, events, maxTenants);
    assert StageFits(Run(EMPTY_MANAGER, events, maxTenants), repo);
  }

  /** A creation stays the only one of its repository until it ends. */
  lemma SingleFlight(m: Manager, e: Event, maxTenants: nat, repo: int)
    requires repo in m.creating && e != EndCreation(repo)
    ensures SameCreation(m, Next(m, e, maxTenants), repo)
  {
    if Enabled(m, e) {
      match e
      case Request(t, ctx, wait) => RequestKeepsCreation(m, t, ctx, wait, maxTenants, repo);
      case BeginBuild(r) => SectionKeepsCreation(m, r, 0, Over, repo);
      case DrainReturns(r) => SectionKeepsCreation(m, r, m.creating[r].stage.left, Ready, repo);
      case OpenStore(r, _) => SectionKeepsCreation(m, r, 0, Over, repo);
      case Publish(r, _) => SectionKeepsCreation(m, r, m.creating[r].stage.made, Over, repo);
      case DiscardReturns(r) => SectionKeepsCreation(m, r, m.creating[r].stage.made, Over, repo);
      case EndCreation(r) => SectionKeepsCreation(m, r, 0, Over, repo);
      case _ =>
    }
  }

  lemma AllGrows(m: Manager, e: Event, maxTenants: nat, id: nat)
    requires Staged(m) && Enabled(m, e) && id in Step(m, e, maxTenants).all && id !in m.all
    ensures e.OpenStore? && e.ok && RepoOf(Step(m, e, maxTenants), id) == e.repo
  {
  }

  /** A new container is of another repository than one that is not finished. */
  lemma NewIsElsewhere(m: Manager, e: Event, maxTenants: nat, id: nat, later: nat)
    requires Inv(m, maxTenants) && Enabled(m, e) && id in m.all && m.all[id].life.Broken?
    requires later !in m.all && later in Step(m, e, maxTenants).all
    ensures RepoOf(Step(m, e, maxTenants), later) != RepoOf(m, id)
  {
    AllGrows(m, e, maxTenants, later);
    assert StageFits(m, e.repo);
    assert Unfinished(m, id) && Located(m, id);
  }

  lemma BrokenStaysAlone(m: Manager, e: Event, maxTenants: nat, id: nat, later: nat)
    requires Inv(m, maxTenants) && id in m.all && m.all[id].life.Broken?
    ensures var n := Next(m, e, maxTenants);
            && id in n.all && n.all[id].life.Broken? && RepoOf(n, id) == RepoOf(m, id)
            && (later in n.all ==> later in m.all || RepoOf(n, later) != RepoOf(m, id))
            && (later in m.all ==> later in n.all && RepoOf(n, later) == RepoOf(m, later))
  {
    if Enabled(m, e) {
      if !e.Request? {
        StepIsTame(m, e, maxTenants);
      }
      if later !in m.all && later in Step(m, e, maxTenants).all {
        NewIsElsewhere(m, e, maxTenants, id, later);
      }
    }
  }

  /** A container whose shutdown raised stays where it is, and its repository never gets another one. */
  lemma {:induction false} BrokenBlocksForever(m: Manager, events: seq<Event>, maxTenants: nat, id: nat, later: nat)
    requires Inv(m, maxTenants) && id in m.all && m.all[id].life.Broken?
    ensures var n := Run(m, events, maxTenants);
            && id in n.all && n.all[id].life.Broken? && RepoOf(n, id) == RepoOf(m, id)
            && (later in n.all && RepoOf(n, later) == RepoOf(m, id) ==> later in m.all)
            && (later in m.all ==> later in n.all && RepoOf(n, later) == RepoOf(m, later))
    decreases |events|
  {
    if events != [] {
      BrokenStaysAlone(m, events[0], maxTenants, id, later);
      StepKeepsInv(m, events[0], maxTenants);
      var n := Next(m, events[0], maxTenants);
      BrokenBlocksForever(n, events[1..], maxTenants, id, later);
    }
  }

  /** After a successful shutdown of the gateway every container is finished and none is ever made again. */
  lemma {:induction false} StoppedForGood(m: Manager, events: seq<Event>, maxTenants: nat, id: nat)
    requires Inv(m, maxTenants) && m.phase.Stopped?
    ensures var n := Run(m, events, maxTenants);
            && n.phase.Stopped? && n.creating == map[] && n.containers == map[] && n.all == m.all
            && (id in n.all ==> n.all[id].life.Finished?)
    decreases |events|
  {
    assert id in m.all && Unfinished(m, id) ==> Located(m, id);
    if events != [] {
      StoppedStays(m, events[0], maxTenants);
      StepKeepsInv(m, events[0], maxTenants);
      StoppedForGood(Next(m, events[0], maxTenants), events[1..], maxTenants, id);
    }
  }

  lemma StoppedStays(m: Manager, e: Event, maxTenants: nat)
    requires Inv(m, maxTenants) && m.phase.Stopped?
    ensures Next(m, e, maxTenants).phase.Stopped? && Next(m, e, maxTenants).all == m.all
  {
    forall id | id in m.all ensures m.all[id].life.Finished? {
      assert Unfinished(m, id) ==> Located(m, id);
    }
  }

  // ----- waiting -----

  /**
   * `a` cannot go on before `b` does something: the creation `a` waits for is `b`'s, or `a` is inside a shutdown
   * of a container that `b` has an operation on, or `a` shuts the gateway down while `b` still creates.
   */
  ghost predicate WaitsOn(m: Manager, a: Thread, b: Thread) {
    || (a in m.waiting && exists r | r in m.creating :: m.creating[r].id == m.waiting[a] && m.creating[r].creator == b)
    || (exists r | r in m.creating :: m.creating[r].creator == a && DrainedBy(m, m.creating[r].stage, b))
    || (m.phase.Stopping? && m.phase.closer == a && Creates(m, b))
    || (m.phase.Collected? && m.phase.closer == a
        && exists r | r in m.phase.todo :: m.phase.todo[r] in m.all && b in m.all[m.phase.todo[r]].holders)
  }

  predicate DrainedBy(m: Manager, s: Stage, b: Thread) {
    || (s.Draining? && s.left in m.all && b in m.all[s.left].holders)
    || (s.Discarding? && s.made in m.all && b in m.all[s.made].holders)
  }

  ghost function Rank(m: Manager, t: Thread): nat {
    if Holds(m, t) then 0 else if Creates(m, t) then 1 else if t in m.waiting then 2 else 3
  }

  lemma WaitingDescends(m: Manager, a: Thread, b: Thread)
    requires Quiet(m) && Unburdened(m) && OneTask(m) && Placed(m) && WaitsOn(m, a, b)
    ensures Rank(m, b) < Rank(m, a)
  {
  }

  ghost predicate WaitPath(m: Manager, path: seq<Thread>) {
    forall i | 0 <= i < |path| - 1 :: WaitsOn(m, path[i], path[i + 1])
  }

  /** In no reachable state do threads wait for each other in a circle. */
  lemma {:induction false} NoWaitCycle(m: Manager, maxTenants: nat, path: seq<Thread>)
    requires Inv(m, maxTenants) && |path| >= 2 && WaitPath(m, path)
    ensures path[0] != path[|path| - 1] && Rank(m, path[|path| - 1]) < Rank(m, path[0])
  {
    WaitingDescends(m, path[0], path[1]);
    if |path| > 2 {
      assert WaitPath(m, path[1..]) by {
        forall i | 0 <= i < |path[1..]| - 1 ensures WaitsOn(m, path[1..][i], path[1..][i + 1]) {
          assert WaitsOn(m, path[i + 1], path[i + 2]);
        }
      }
      NoWaitCycle(m, maxTenants, path[1..]);
    }
  }

  // ----- the code of the critical sections -----

  class TenantManager {
    const maxTenants: nat
    var containers: map<int, nat>
    var creating: map<int, Creation>
    var retiring: map<int, nat>
    var objects: map<nat, Container>
    var nextId: nat
    var phase: Phase
    ghost var waiting: map<Thread, nat>
    ghost var ended: set<nat>

    constructor (maxTenants: nat)
      ensures View() == EMPTY_MANAGER && this.maxTenants == maxTenants && Inv(View(), maxTenants)
    {
      this.maxTenants := maxTenants;
      containers, creating, retiring, objects, nextId, phase := map[], map[], map[], map[], 0, Running;
      waiting, ended := map[], {};
    }

    ghost function View(): Manager
      reads this
    {
      Manager(containers, creating, retiring, objects, waiting, ended, nextId, phase)
    }

    /** What the section of `container_for_context` finds, in the order in which it asks. */
    method Decide(ctx: Context, wait: bool) returns (a: Admission)
      requires Served(View())
      ensures a == Admit(View(), ctx, wait, maxTenants)
      ensures a.Existing? ==> a.id in objects && objects[a.id].ctx == ctx && objects[a.id].life.Open? && objects[a.id].published
      ensures phase.Running? && ctx.repositoryId !in creating && ctx.repositoryId in containers ==>
                var id := containers[ctx.repositoryId];
                a == if objects[id].ctx == ctx then Existing(id) else if wait then Creator else Refused
      ensures !phase.Running? ==> a.Refused?
      ensures phase.Running? && ctx.repositoryId in creating ==>
                a == if wait then Waits(creating[ctx.repositoryId].id) else Refused
      ensures phase.Running? && ctx.repositoryId !in creating && ctx.repositoryId !in containers ==>
                if ctx.repositoryId in retiring then a == if wait then Creator else Refused
                else a == if |containers.Keys + creating.Keys + retiring.Keys| < maxTenants then Creator else Refused
    {
      var repo := ctx.repositoryId;
      if !phase.Running? {
        return Refused;
      }
      if repo in creating {
        return if wait then Waits(creating[repo].id) else Refused;
      }
      if repo in containers && objects[containers[repo]].ctx == ctx {
        return Existing(containers[repo]);
      }
      if !wait && (repo in containers || repo in retiring) {
        return Refused;
      }
      var occupied := containers.Keys + creating.Keys + retiring.Keys;
      if repo !in occupied && |occupied| >= maxTenants {
        return Refused;
      }
      return Creator;
    }

    /** The whole section: the caller finds a container, is refused, joins a creation or starts one. */
    method Admission(t: Thread, ctx: Context, wait: bool) returns (a: Admission)
      requires Served(View())
      modifies this
      ensures a == Admit(old(View()), ctx, wait, maxTenants)
      ensures a.Existing? ==> a.id in objects && objects[a.id].ctx == ctx && objects[a.id].life.Open? && objects[a.id].published
      ensures containers == old(containers) && retiring == old(retiring) && objects == old(objects) && phase == old(phase)
      ensures creating == if a.Creator? then old(creating)[ctx.repositoryId := Creation(old(nextId), ctx, t, wait, Admitted)]
                          else old(creating)
      ensures waiting == if a.Waits? then old(waiting)[t := a.creation] else old(waiting)
      ensures a.Waits? ==> wait && ctx.repositoryId in creating && creating[ctx.repositoryId].id == a.creation
      ensures View() == Requested(old(View()), t, ctx, wait, maxTenants)
    {
      a := Decide(ctx, wait);
      match a
      case Waits(k) => waiting := waiting[t := k];
      case Creator =>
        creating := creating[ctx.repositoryId := Creation(nextId, ctx, t, wait, Admitted)];
        nextId := nextId + 1;
      case _ =>
    }

    /** The first section of a build: it returns the container to shut down before a Store may be opened. */
    method BeginBuildSection(repo: int) returns (retired: Option<nat>)
      requires repo in creating
      modifies this
      ensures View() == Begun(old(View()), repo)
      ensures old(creating[repo].stage.Admitted?) ==> View() == Step(old(View()), BeginBuild(repo), maxTenants)
      ensures repo !in containers && retired == Lookup(retiring, repo)
    {
      retired := Lookup(containers, repo);
      if retired.Some? {
        containers := containers - {repo};
        retiring := retiring[repo := retired.value];
      } else {
        retired := Lookup(retiring, repo);
      }
      creating := creating[repo := creating[repo].(stage := if retired.Some? then Draining(retired.value) else Ready)];
    }

    /** After `container.shutdown()` of the retired container: it raised, or its entry is dropped. */
    method ShutdownRetired(repo: int, container: nat)
      requires repo in creating && container in objects
      requires StageFits(View(), repo) && creating[repo].stage == Draining(container)
      modifies this
      ensures View() == Returned(old(View()), repo, container, Ready)
      ensures HasReturned(old(View()), container) ==> View() == Step(old(View()), DrainReturns(repo), maxTenants)
      ensures creating[repo].stage.Ready? <==> !objects[container].life.Broken?
      ensures repo in retiring <==> objects[container].life.Broken?
    {
      if objects[container].life.Broken? {
        creating := creating[repo := creating[repo].(stage := Over)];
        return;
      }
      if repo in retiring && retiring[repo] == container {
        retiring := retiring - {repo};
      }
      creating := creating[repo := creating[repo].(stage := Ready)];
    }

    /** The last section of a build; `current` is the answer of the registry asked just before. */
    method PublishSection(repo: int, container: nat, current: bool) returns (published: bool)
      requires repo in creating && container in objects
      modifies this
      ensures published <==> current && old(phase).Running?
      ensures View() == if published then Published(old(View()), repo, container) else Withheld(old(View()), repo, container)
      ensures old(creating[repo].stage) == Opened(container) ==> View() == Step(old(View()), Publish(repo, current), maxTenants)
      ensures published ==> containers == old(containers)[repo := container] && objects[container].published
      ensures !published ==> containers == old(containers) && retiring == old(retiring)[repo := container]
    {
      published := current && phase.Running?;
      if published {
        containers := containers[repo := container];
        objects := objects[container := objects[container].(published := true)];
        creating := creating[repo := creating[repo].(stage := Over)];
      } else {
        retiring := retiring[repo := container];
        creating := creating[repo := creating[repo].(stage := Discarding(container))];
      }
    }

    /** `_operation` on a container that the caller has got: counted, or refused because shutdown has begun. */
    method EnterOperation(t: Thread, container: nat) returns (entered: bool)
      requires container in objects
      modifies this
      ensures entered <==> old(objects[container].life.Open?)
      ensures View() == if entered then SetHolders(old(View()), container, old(objects[container].holders) + multiset{t})
                        else old(View())
      ensures entered ==> objects[container].holders == old(objects[container].holders) + multiset{t}
      ensures Enabled(old(View()), BeginOperation(t, container)) ==>
                entered && View() == Step(old(View()), BeginOperation(t, container), maxTenants)
    {
      if !objects[container].life.Open? {
        return false;
      }
      objects := objects[container := objects[container].(holders := objects[container].holders + multiset{t})];
      return true;
    }

    /** The section of `shutdown` that collects what is left; every creation has ended. */
    method CollectSection() returns (left: map<int, nat>)
      requires Inv(View(), maxTenants) && Enabled(View(), Collect)
      modifies this
      ensures View() == Step(old(View()), Collect, maxTenants) && Inv(View(), maxTenants)
      ensures forall id | id in objects && !objects[id].life.Finished? :: id in left.Values
    {
      StepKeepsInv(View(), Collect, maxTenants);
      left := containers + retiring;
      containers := map[];
      phase := Collected(phase.closer, left);
      assert forall id | id in objects && Unfinished(View(), id) :: Located(View(), id);
    }
  }
}
