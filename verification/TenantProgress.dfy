/**
 * What keeps the tenant containers of the gateway going (gateway.py): in every reachable state somebody can go on, and
 * replacements and shutdowns can be completed.
 */
module TenantProgress {
  import opened Basics
  import opened Registration
  import opened TenantRuntime

  /** Creations have numbers of their own, and whoever waits, waits for one that ended or is under way. */
  ghost predicate Numbered(m: Manager) {
    && (forall r | r in m.creating :: m.creating[r].id < m.nextId && m.creating[r].id !in m.ended)
    && (forall r, q | r in m.creating && q in m.creating && r != q :: m.creating[r].id != m.creating[q].id)
    && (forall k | k in m.ended :: k < m.nextId)
    && (forall t | t in m.waiting :: m.waiting[t] in m.ended || UnderWay(m, m.waiting[t]))
    && (m.phase.Collected? ==> forall r | r in m.phase.todo :: m.phase.todo[r] in m.all)
  }

  ghost predicate UnderWay(m: Manager, k: nat) {
    exists r | r in m.creating :: m.creating[r].id == k
  }

  /** Nothing that the numbers are about has changed. */
  ghost predicate SameNumbers(m: Manager, n: Manager) {
    && n.nextId >= m.nextId && n.ended == m.ended && n.waiting == m.waiting && n.creating.Keys == m.creating.Keys
    && (forall r | r in m.creating :: n.creating[r].id == m.creating[r].id)
    && (forall id | id in m.all :: id in n.all)
    && (n.phase == m.phase || (n.phase.Collected? ==> forall r | r in n.phase.todo :: n.phase.todo[r] in n.all))
  }

  lemma SameNumbersKeep(m: Manager, n: Manager)
    requires Numbered(m) && SameNumbers(m, n)
    ensures Numbered(n)
  {
    forall t | t in n.waiting && n.waiting[t] !in n.ended ensures UnderWay(n, n.waiting[t]) {
      assert UnderWay(m, m.waiting[t]);
      var r :| r in m.creating && m.creating[r].id == m.waiting[t];
      assert r in n.creating && n.creating[r].id == m.waiting[t];
    }
  }

  lemma WaitNumbered(m: Manager, t: Thread, r: int)
    requires Numbered(m) && r in m.creating
    ensures Numbered(m.(waiting := m.waiting[t := m.creating[r].id]))
  {
    var n := m.(waiting := m.waiting[t := m.creating[r].id]);
    forall x | x in n.waiting && n.waiting[x] !in n.ended ensures UnderWay(n, n.waiting[x]) {
      if x == t {
        assert r in n.creating && n.creating[r].id == n.waiting[t];
      } else {
        assert UnderWay(m, m.waiting[x]);
      }
    }
  }

  lemma CreatedNumbered(m: Manager, t: Thread, ctx: Context, wait: bool)
    requires Numbered(m) && ctx.repositoryId !in m.creating
    ensures Numbered(Created(m, t, ctx, wait))
  {
    var n := Created(m, t, ctx, wait);
    forall x | x in n.waiting && n.waiting[x] !in n.ended ensures UnderWay(n, n.waiting[x]) {
      assert UnderWay(m, m.waiting[x]);
      var r :| r in m.creating && m.creating[r].id == m.waiting[x];
      assert r in n.creating && n.creating[r].id == m.waiting[x];
    }
  }

  lemma WakeNumbered(m: Manager, t: Thread)
    requires Numbered(m)
    ensures Numbered(m.(waiting := m.waiting - {t}))
  {
    var n := m.(waiting := m.waiting - {t});
    forall x | x in n.waiting && n.waiting[x] !in n.ended ensures UnderWay(n, n.waiting[x]) {
      assert UnderWay(m, m.waiting[x]);
    }
  }

  lemma EndedNumbered(m: Manager, r: int)
    requires Numbered(m) && r in m.creating
    ensures Numbered(Ended(m, r))
  {
    var n := Ended(m, r);
    forall x | x in n.waiting && n.waiting[x] !in n.ended ensures UnderWay(n, n.waiting[x]) {
      assert UnderWay(m, m.waiting[x]);
      var q :| q in m.creating && m.creating[q].id == m.waiting[x];
      assert q in n.creating && n.creating[q].id == m.waiting[x];
    }
  }

  lemma StageNumbers(m: Manager, r: int, stage: Stage, containers: map<int, nat>, retiring: map<int, nat>)
    requires r in m.creating
    ensures SameNumbers(m, SetStage(m, r, stage).(containers := containers, retiring := retiring))
  {
  }

  lemma ObjectNumbers(m: Manager, n: Manager)
    requires n == m.(all := n.all) && m.all.Keys <= n.all.Keys
    ensures SameNumbers(m, n)
  {
  }

  lemma MadeNumbers(m: Manager, r: int)
    requires r in m.creating
    ensures SameNumbers(m, Made(m, r))
  {
  }

  lemma PublishedNumbers(m: Manager, r: int, id: nat)
    requires r in m.creating && id in m.all
    ensures SameNumbers(m, Published(m, r, id))
  {
  }

  lemma CollectedNumbers(m: Manager)
    requires Served(m) && Leaving(m) && m.phase.Stopping?
    ensures SameNumbers(m, CollectedAll(m))
  {
  }

  lemma PhaseNumbers(m: Manager, phase: Phase)
    requires Numbered(m)
    requires phase.Collected? ==> m.phase.Collected? && forall r | r in phase.todo :: r in m.phase.todo && phase.todo[r] == m.phase.todo[r]
    ensures SameNumbers(m, m.(phase := phase))
  {
  }

  lemma SectionNumbers(m: Manager, e: Event, maxTenants: nat)
    requires Enabled(m, e) && (e.BeginBuild? || e.DrainReturns? || e.OpenStore? || e.Publish? || e.DiscardReturns?)
    ensures SameNumbers(m, Step(m, e, maxTenants))
  {
    var n := Step(m, e, maxTenants);
    match e
    case BeginBuild(r) => StageNumbers(m, r, n.creating[r].stage, n.containers, n.retiring);
    case DrainReturns(r) => StageNumbers(m, r, n.creating[r].stage, n.containers, n.retiring);
    case DiscardReturns(r) => StageNumbers(m, r, n.creating[r].stage, n.containers, n.retiring);
    case OpenStore(r, ok) =>
      if ok { MadeNumbers(m, r); } else { StageNumbers(m, r, Over, m.containers, m.retiring); }
    case Publish(r, _) =>
      if n.creating[r].stage.Over? { PublishedNumbers(m, r, m.creating[r].stage.made); }
      else { StageNumbers(m, r, n.creating[r].stage, n.containers, n.retiring); }
  }

  lemma OtherNumbers(m: Manager, e: Event, maxTenants: nat)
    requires Served(m) && Leaving(m) && Numbered(m) && Enabled(m, e)
    requires e.Close? || e.Halt? || e.Finish? || e.BeginOperation? || e.EndOperation?
             || e.BeginShutdown? || e.Collect? || e.ContainerReturns? || e.EndShutdown?
    ensures SameNumbers(m, Step(m, e, maxTenants))
  {
    var n := Step(m, e, maxTenants);
    match e
    case Collect => CollectedNumbers(m);
    case BeginShutdown(_) => PhaseNumbers(m, n.phase);
    case ContainerReturns(_) => PhaseNumbers(m, n.phase);
    case EndShutdown => PhaseNumbers(m, n.phase);
    case _ => ObjectNumbers(m, n);
  }

  lemma RequestKeepsNumbers(m: Manager, t: Thread, ctx: Context, wait: bool, maxTenants: nat)
    requires Numbered(m)
    ensures Numbered(Requested(m, t, ctx, wait, maxTenants))
  {
    match Admit(m, ctx, wait, maxTenants)
    case Waits(_) => WaitNumbered(m, t, ctx.repositoryId);
    case Creator => CreatedNumbered(m, t, ctx, wait);
    case _ =>
  }

  lemma TaskKeepsNumbers(m: Manager, e: Event, maxTenants: nat)
    requires Numbered(m) && Enabled(m, e) && (e.Request? || e.Wake? || e.EndCreation?)
    ensures Numbered(Step(m, e, maxTenants))
  {
    match e
    case Request(t, ctx, wait) => RequestKeepsNumbers(m, t, ctx, wait, maxTenants);
    case Wake(t) => WakeNumbered(m, t);
    case EndCreation(r) => EndedNumbered(m, r);
  }

  lemma StepKeepsNumbers(m: Manager, e: Event, maxTenants: nat)
    requires Served(m) && Leaving(m) && Numbered(m)
    ensures Numbered(Next(m, e, maxTenants))
  {
    if Enabled(m, e) {
      if e.Request? || e.Wake? || e.EndCreation? {
        TaskKeepsNumbers(m, e, maxTenants);
      } else {
        if e.BeginBuild? || e.DrainReturns? || e.OpenStore? || e.Publish? || e.DiscardReturns? {
          SectionNumbers(m, e, maxTenants);
        } else {
          OtherNumbers(m, e, maxTenants);
        }
        SameNumbersKeep(m, Step(m, e, maxTenants));
      }
    }
  }

  lemma {:induction false} RunKeepsNumbers(m: Manager, events: seq<Event>, maxTenants: nat)
    requires Inv(m, maxTenants) && Numbered(m)
    ensures Inv(Run(m, events, maxTenants), maxTenants) && Numbered(Run(m, events, maxTenants))
    decreases |events|
  {
    if events != [] {
      StepKeepsInv(m, events[0], maxTenants);
      StepKeepsNumbers(m, events[0], maxTenants);
      RunKeepsNumbers(Next(m, events[0], maxTenants), events[1..], maxTenants);
    }
  }

  /** An event that carries on what has begun; requests, new operations and a new shutdown do not. */
  predicate CarriesOn(e: Event) {
    !e.Request? && !e.BeginOperation? && !e.BeginShutdown?
  }

  /** The shutdown of a container without operations goes on. */
  lemma EmptyGoesOn(m: Manager, id: nat) returns (e: Event)
    requires id in m.all && !HasReturned(m, id) && ShutdownCalled(m, id) && m.all[id].holders == multiset{}
    ensures CarriesOn(e) && Enabled(m, e)
  {
    match m.all[id].life
    case Open => e := Close(id);
    case Closing => e := Halt(id);
    case Halting => e := Finish(id, true);
    case _ => e := EndShutdown;
  }

  /** A creation that was not to wait for others never does. */
  lemma UnwaitingGoesOn(m: Manager, maxTenants: nat, r: int) returns (e: Event)
    requires Inv(m, maxTenants) && r in m.creating && !m.creating[r].wait
    ensures CarriesOn(e) && Enabled(m, e)
  {
    assert StageFits(m, r);
    match m.creating[r].stage
    case Admitted => e := BeginBuild(r);
    case Ready => e := OpenStore(r, true);
    case Opened(_) => e := Publish(r, true);
    case Over => e := EndCreation(r);
    case Draining(_) => e := EndShutdown;
    case Discarding(c) =>
      if HasReturned(m, c) {
        e := DiscardReturns(r);
      } else {
        assert m.creating[r].stage in {Draining(c), Discarding(c)};
        e := EmptyGoesOn(m, c);
      }
  }

  /** The shutdown of any container goes on: if it drains, a holder ends its operation or its own creation goes on. */
  lemma ShutdownGoesOn(m: Manager, maxTenants: nat, id: nat) returns (e: Event)
    requires Inv(m, maxTenants) && id in m.all && !HasReturned(m, id) && ShutdownCalled(m, id)
    ensures CarriesOn(e) && Enabled(m, e)
  {
    if m.all[id].life.Closing? && m.all[id].holders != multiset{} {
      var t :| t in m.all[id].holders;
      assert Holds(m, t);
      if Creates(m, t) {
        var r :| r in m.creating && m.creating[r].creator == t;
        e := UnwaitingGoesOn(m, maxTenants, r);
      } else {
        e := EndOperation(t, id);
      }
    } else if m.all[id].life.Open? {
      e := Close(id);
    } else {
      e := EmptyGoesOn(m, id);
    }
  }

  lemma CreationGoesOn(m: Manager, maxTenants: nat, r: int) returns (e: Event)
    requires Inv(m, maxTenants) && r in m.creating
    ensures CarriesOn(e) && Enabled(m, e)
  {
    assert StageFits(m, r);
    match m.creating[r].stage
    case Draining(c) =>
      if HasReturned(m, c) {
        e := DrainReturns(r);
      } else {
        assert m.creating[r].stage in {Draining(c), Discarding(c)};
        e := ShutdownGoesOn(m, maxTenants, c);
      }
    case Discarding(c) =>
      if HasReturned(m, c) {
        e := DiscardReturns(r);
      } else {
        assert m.creating[r].stage in {Draining(c), Discarding(c)};
        e := ShutdownGoesOn(m, maxTenants, c);
      }
    case Admitted => e := BeginBuild(r);
    case Ready => e := OpenStore(r, true);
    case Opened(_) => e := Publish(r, true);
    case Over => e := EndCreation(r);
  }

  lemma Member<T>(s: set<T>) returns (x: T)
    requires s != {}
    ensures x in s
  {
    x :| x in s;
  }

  lemma WaiterGoesOn(m: Manager) returns (e: Event)
    requires Numbered(m) && m.creating == map[] && m.waiting.Keys != {}
    ensures CarriesOn(e) && Enabled(m, e)
  {
    var t := Member(m.waiting.Keys);
    assert !UnderWay(m, m.waiting[t]);
    e := Wake(t);
  }

  /** The gateway's shutdown goes on once no creation is under way. */
  lemma GatewayGoesOn(m: Manager, maxTenants: nat) returns (e: Event)
    requires Inv(m, maxTenants) && Numbered(m) && m.creating == map[] && (m.phase.Stopping? || m.phase.Collected?)
    ensures CarriesOn(e) && Enabled(m, e)
  {
    if m.phase.Stopping? {
      e := Collect;
    } else if m.phase.todo.Keys == {} {
      assert m.phase.todo == map[];
      e := EndShutdown;
    } else {
      var r := Member(m.phase.todo.Keys);
      if HasReturned(m, m.phase.todo[r]) {
        e := ContainerReturns(r);
      } else {
        assert m.phase.todo[r] in m.phase.todo.Values;
        e := ShutdownGoesOn(m, maxTenants, m.phase.todo[r]);
      }
    }
  }

  lemma WorkGoesOn(m: Manager, maxTenants: nat) returns (e: Event)
    requires Inv(m, maxTenants) && Numbered(m)
    requires m.waiting.Keys != {} || m.creating.Keys != {} || m.phase.Stopping? || m.phase.Collected?
    ensures CarriesOn(e) && Enabled(m, e)
  {
    if m.creating.Keys != {} {
      var r := Member(m.creating.Keys);
      e := CreationGoesOn(m, maxTenants, r);
    } else {
      assert m.creating == map[];
      if m.phase.Stopping? || m.phase.Collected? {
        e := GatewayGoesOn(m, maxTenants);
      } else {
        e := WaiterGoesOn(m);
      }
    }
  }

  /**
   * No deadlock: in every reachable state in which somebody waits, creates a container or shuts the gateway down,
   * something that has begun can go on.
   */
  lemma SomebodyGoesOn(events: seq<Event>, maxTenants: nat) returns (e: Event)
    requires var m := Run(EMPTY_MANAGER, events, maxTenants);
             m.waiting.Keys != {} || m.creating.Keys != {} || m.phase.Stopping? || m.phase.Collected?
    ensures CarriesOn(e) && Enabled(Run(EMPTY_MANAGER, events, maxTenants), e)
  {
    RunKeepsNumbers(EMPTY_MANAGER, events, maxTenants);
    e := WorkGoesOn(Run(EMPTY_MANAGER, events, maxTenants), maxTenants);
  }

  /** Nobody who waits for a creation goes on before it has ended. */
  lemma WaitersWait(events: seq<Event>, maxTenants: nat, t: Thread, r: int)
    requires var m := Run(EMPTY_MANAGER, events, maxTenants);
             t in m.waiting && r in m.creating && m.creating[r].id == m.waiting[t]
    ensures var m := Run(EMPTY_MANAGER, events, maxTenants);
            Next(m, Wake(t), maxTenants) == m && WaitsOn(m, t, m.creating[r].creator)
  {
    RunKeepsNumbers(EMPTY_MANAGER, events, maxTenants);
  }

  /** Whoever waits for a creation that is not under way any more can go on, and is free then. */
  lemma WaitersGoOn(events: seq<Event>, maxTenants: nat, t: Thread)
    requires var m := Run(EMPTY_MANAGER, events, maxTenants); t in m.waiting && !UnderWay(m, m.waiting[t])
    ensures Idle(Next(Run(EMPTY_MANAGER, events, maxTenants), Wake(t), maxTenants), t)
  {
    RunKeepsNumbers(EMPTY_MANAGER, events, maxTenants);
    WakingFrees(Run(EMPTY_MANAGER, events, maxTenants), maxTenants, t);
  }

  lemma WakingFrees(m: Manager, maxTenants: nat, t: Thread)
    requires OneTask(m) && t in m.waiting && m.waiting[t] in m.ended
    ensures Idle(Next(m, Wake(t), maxTenants), t)
  {
  }

  /** A serving container stops serving only when its creator, its replacement or the gateway's shutdown has called for it. */
  lemma OnlyShutdownCloses(m: Manager, e: Event, maxTenants: nat, id: nat)
    requires id in m.all && m.all[id].life.Open?
    requires id in Next(m, e, maxTenants).all && !Next(m, e, maxTenants).all[id].life.Open?
    ensures e == Close(id)
    ensures || (exists r | r in m.creating :: m.creating[r].stage == Draining(id) || m.creating[r].stage == Discarding(id))
            || (m.phase.Collected? && id in m.phase.todo.Values)
  {
    assert e == Close(id) && ShutdownCalled(m, id);
  }

  /** A creator that drains a container waits for everybody with an operation on it. */
  lemma DrainingWaits(m: Manager, r: int, id: nat, b: Thread)
    requires r in m.creating && m.creating[r].stage in {Draining(id), Discarding(id)} && id in m.all && b in m.all[id].holders
    ensures WaitsOn(m, m.creating[r].creator, b)
    ensures m.all[id].life.Closing? ==> !Enabled(m, Halt(id)) && !Enabled(m, DrainReturns(r)) && !Enabled(m, DiscardReturns(r))
  {
    assert DrainedBy(m, m.creating[r].stage, b);
  }

  lemma {:induction false} RunConcat(m: Manager, a: seq<Event>, b: seq<Event>, maxTenants: nat)
    ensures Run(m, a + b, maxTenants) == Run(Run(m, a, maxTenants), b, maxTenants)
    decreases |a|
  {
    if a == [] {
      assert a + b == b;
    } else {
      assert (a + b)[1..] == a[1..] + b;
      RunConcat(Next(m, a[0], maxTenants), a[1..], b, maxTenants);
    }
  }

  lemma RunParts(m: Manager, a: seq<Event>, b: seq<Event>, c: seq<Event>, maxTenants: nat)
    ensures Run(m, a + b + c, maxTenants) == Run(Run(Run(m, a, maxTenants), b, maxTenants), c, maxTenants)
  {
    RunConcat(m, a, b, maxTenants);
    RunConcat(m, a + b, c, maxTenants);
  }

  lemma RunFirst(m: Manager, a: Event, rest: seq<Event>, maxTenants: nat)
    ensures Run(m, [a] + rest, maxTenants) == Run(Next(m, a, maxTenants), rest, maxTenants)
  {
    assert ([a] + rest)[0] == a && ([a] + rest)[1..] == rest;
  }

  lemma RunTwo(m: Manager, a: Event, b: Event, maxTenants: nat)
    ensures Run(m, [a, b], maxTenants) == Next(Next(m, a, maxTenants), b, maxTenants)
  {
    RunFirst(m, a, [b], maxTenants);
    RunFirst(Next(m, a, maxTenants), b, [], maxTenants);
    assert [a] + [b] == [a, b] && [b] + [] == [b];
  }

  lemma RunThree(m: Manager, a: Event, b: Event, c: Event, maxTenants: nat)
    ensures Run(m, [a, b, c], maxTenants) == Next(Next(Next(m, a, maxTenants), b, maxTenants), c, maxTenants)
  {
    RunFirst(m, a, [b, c], maxTenants);
    RunTwo(Next(m, a, maxTenants), b, c, maxTenants);
    assert [a] + [b, c] == [a, b, c];
  }

  /** The end of a container whose shutdown has been called and that has no operation. */
  lemma ContainerEnds(m: Manager, maxTenants: nat, id: nat, ok: bool)
    requires id in m.all && m.all[id].life.Open? && ShutdownCalled(m, id) && m.all[id].holders == multiset{}
    ensures Run(m, [Close(id), Halt(id), Finish(id, ok)], maxTenants)
            == m.(all := m.all[id := m.all[id].(life := if ok then Finished else Broken)])
  {
    RunThree(m, Close(id), Halt(id), Finish(id, ok), maxTenants);
    var m1 := Next(m, Close(id), maxTenants);
    assert m1 == m.(all := m.all[id := m.all[id].(life := Closing)]);
    var m2 := Next(m1, Halt(id), maxTenants);
    assert m2 == m.(all := m.all[id := m.all[id].(life := Halting)]);
    var m3 := Next(m2, Finish(id, ok), maxTenants);
    assert m3 == m.(all := m.all[id := m.all[id].(life := if ok then Finished else Broken)]);
  }

  lemma CreationCompletes(m: Manager, maxTenants: nat, r: int, left: nat, ctx: Context)
    requires r in m.creating && m.creating[r].stage == Draining(left) && m.creating[r].ctx == ctx && m.phase.Running?
    requires left in m.all && m.all[left].life.Finished? && m.nextId !in m.all
    ensures Run(m, [DrainReturns(r), OpenStore(r, true), Publish(r, true)], maxTenants)
            == m.(creating := m.creating[r := m.creating[r].(stage := Over)], retiring := m.retiring - {r},
                  containers := m.containers[r := m.nextId], nextId := m.nextId + 1,
                  all := m.all[m.nextId := Container(ctx, Open, true, multiset{})])
  {
    RunThree(m, DrainReturns(r), OpenStore(r, true), Publish(r, true), maxTenants);
    var m1 := Next(m, DrainReturns(r), maxTenants);
    assert m1 == m.(creating := m.creating[r := m.creating[r].(stage := Ready)], retiring := m.retiring - {r});
    var m2 := Next(m1, OpenStore(r, true), maxTenants);
    assert m2 == m1.(creating := m.creating[r := m.creating[r].(stage := Opened(m.nextId))], nextId := m.nextId + 1,
                     all := m.all[m.nextId := Container(ctx, Open, false, multiset{})]);
    var m3 := Next(m2, Publish(r, true), maxTenants);
    assert m3.all == m.all[m.nextId := Container(ctx, Open, true, multiset{})];
    assert m3.creating == m.creating[r := m.creating[r].(stage := Over)];
  }

  /** The served container of another context while its replacement drains it. */
  function Replacing(m: Manager, t: Thread, ctx: Context, id: nat): Manager {
    var r := ctx.repositoryId;
    m.(creating := m.creating[r := Creation(m.nextId, ctx, t, true, Draining(id))], nextId := m.nextId + 1,
       containers := m.containers - {r}, retiring := m.retiring[r := id])
  }

  lemma ReplacementBegins(m: Manager, maxTenants: nat, t: Thread, ctx: Context)
    requires m.phase.Running? && Idle(m, t) && !Holds(m, t) && Served(m)
    requires ctx.repositoryId !in m.creating && ctx.repositoryId in m.containers
    requires m.all[m.containers[ctx.repositoryId]].ctx != ctx
    ensures Run(m, [Request(t, ctx, true), BeginBuild(ctx.repositoryId)], maxTenants)
            == Replacing(m, t, ctx, m.containers[ctx.repositoryId])
  {
    var r := ctx.repositoryId;
    RunTwo(m, Request(t, ctx, true), BeginBuild(r), maxTenants);
    var first := Next(m, Request(t, ctx, true), maxTenants);
    assert first == Created(m, t, ctx, true);
    var n := Replacing(m, t, ctx, m.containers[r]);
    assert Begun(first, r).creating == n.creating;
  }

  lemma ReplacingIsCalled(m: Manager, t: Thread, ctx: Context, id: nat)
    ensures ShutdownCalled(Replacing(m, t, ctx, id), id)
  {
    var n := Replacing(m, t, ctx, id);
    assert ctx.repositoryId in n.creating && n.creating[ctx.repositoryId].stage in {Draining(id), Discarding(id)};
  }

  /** The old container has ended, and the new one is there but for the end of its creation. */
  function Replaced(m: Manager, t: Thread, ctx: Context, id: nat): Manager
    requires id in m.all
  {
    var r := ctx.repositoryId;
    m.(creating := m.creating[r := Creation(m.nextId, ctx, t, true, Over)], nextId := m.nextId + 2,
       containers := m.containers[r := m.nextId + 1],
       all := m.all[id := m.all[id].(life := Finished)][m.nextId + 1 := Container(ctx, Open, true, multiset{})])
  }

  lemma ReplacementGoesOn(m: Manager, maxTenants: nat, t: Thread, ctx: Context, id: nat)
    requires m.phase.Running? && id in m.all && m.all[id].life.Open? && m.all[id].holders == multiset{}
    requires m.nextId + 1 !in m.all && ctx.repositoryId !in m.retiring
    ensures Run(Run(Replacing(m, t, ctx, id), [Close(id), Halt(id), Finish(id, true)], maxTenants),
                [DrainReturns(ctx.repositoryId), OpenStore(ctx.repositoryId, true), Publish(ctx.repositoryId, true)], maxTenants)
            == Replaced(m, t, ctx, id)
  {
    var r := ctx.repositoryId;
    var m1 := Replacing(m, t, ctx, id);
    ReplacingIsCalled(m, t, ctx, id);
    ContainerEnds(m1, maxTenants, id, true);
    var m2 := m1.(all := m.all[id := m.all[id].(life := Finished)]);
    CreationCompletes(m2, maxTenants, r, id, ctx);
    assert m2.retiring - {r} == m.retiring;
    assert m2.containers[r := m.nextId + 1] == m.containers[r := m.nextId + 1];
  }

  lemma ReplacementRuns(m: Manager, maxTenants: nat, t: Thread, ctx: Context, id: nat) returns (events: seq<Event>)
    requires m.phase.Running? && Idle(m, t) && !Holds(m, t) && Served(m) && m.nextId + 1 !in m.all
    requires ctx.repositoryId !in m.creating && Lookup(m.containers, ctx.repositoryId) == Some(id)
    requires m.all[id].ctx != ctx && m.all[id].holders == multiset{}
    ensures Run(m, events, maxTenants) == Ended(Replaced(m, t, ctx, id), ctx.repositoryId)
  {
    var r := ctx.repositoryId;
    var a := [Request(t, ctx, true), BeginBuild(r)];
    var b := [Close(id), Halt(id), Finish(id, true)];
    var c := [DrainReturns(r), OpenStore(r, true), Publish(r, true)];
    events := a + b + c + [EndCreation(r)];
    ReplacementBegins(m, maxTenants, t, ctx);
    ReplacementGoesOn(m, maxTenants, t, ctx, id);
    RunFirst(Replaced(m, t, ctx, id), EndCreation(r), [], maxTenants);
    assert [EndCreation(r)] + [] == [EndCreation(r)];
    RunParts(m, a, b, c, maxTenants);
    RunConcat(m, a + b + c, [EndCreation(r)], maxTenants);
  }

  /**
   * A replacement can be completed: a request for another context of a served repository leads, when nobody has an
   * operation on its container, to a container of that context, with the old one finished and nothing else changed.
   */
  lemma ReplacementCompletes(m: Manager, maxTenants: nat, t: Thread, ctx: Context) returns (events: seq<Event>)
    requires Placed(m) && m.phase.Running? && Idle(m, t) && !Holds(m, t)
    requires ctx.repositoryId !in m.creating && ctx.repositoryId in m.containers
    requires var left := m.all[m.containers[ctx.repositoryId]]; left.ctx != ctx && left.holders == multiset{}
    ensures var r := ctx.repositoryId; var id := m.containers[r]; var made := m.nextId + 1;
            Run(m, events, maxTenants)
            == m.(containers := m.containers[r := made], ended := m.ended + {m.nextId}, nextId := m.nextId + 2,
                  all := m.all[id := m.all[id].(life := Finished)][made := Container(ctx, Open, true, multiset{})])
  {
    var r := ctx.repositoryId;
    var id := m.containers[r];
    events := ReplacementRuns(m, maxTenants, t, ctx, id);
    assert Replaced(m, t, ctx, id).creating - {r} == m.creating;
  }

  /** The gateway's shutdown has collected its only container. */
  function StoppingOne(m: Manager, t: Thread, r: int, id: nat): Manager {
    m.(containers := map[], phase := Collected(t, map[r := id]))
  }

  lemma ShutdownBegins(m: Manager, maxTenants: nat, t: Thread, r: int, id: nat)
    requires m.phase.Running? && Idle(m, t) && !Holds(m, t) && m.creating == map[] && m.retiring == map[] && m.containers == map[r := id]
    ensures Run(m, [BeginShutdown(t), Collect], maxTenants) == StoppingOne(m, t, r, id)
  {
    RunTwo(m, BeginShutdown(t), Collect, maxTenants);
    assert m.containers + m.retiring == map[r := id];
    assert Next(m, BeginShutdown(t), maxTenants) == m.(phase := Stopping(t));
  }

  lemma StoppingIsCalled(m: Manager, t: Thread, r: int, id: nat)
    ensures ShutdownCalled(StoppingOne(m, t, r, id), id)
  {
    assert StoppingOne(m, t, r, id).phase.todo[r] == id;
  }

  lemma ShutdownEnds(m: Manager, maxTenants: nat, t: Thread, r: int, id: nat)
    requires m.phase == Collected(t, map[r := id]) && id in m.all && m.all[id].life in {Finished, Broken}
    ensures Run(m, [ContainerReturns(r), EndShutdown], maxTenants)
            == m.(phase := if m.all[id].life.Finished? then Stopped else ShutdownFailed(map[r := id]))
  {
    RunTwo(m, ContainerReturns(r), EndShutdown, maxTenants);
    assert map[r := id] - {r} == map[];
  }

  /** A gateway with one container and no operation stops, or has failed to stop when that container could not. */
  lemma ShutdownCompletes(m: Manager, maxTenants: nat, t: Thread, r: int, ok: bool) returns (events: seq<Event>)
    requires Served(m) && m.phase.Running? && Idle(m, t) && !Holds(m, t) && m.creating == map[] && m.retiring == map[]
    requires r in m.containers && m.containers == map[r := m.containers[r]] && m.all[m.containers[r]].holders == multiset{}
    ensures var id := m.containers[r];
            Run(m, events, maxTenants)
            == m.(containers := map[], all := m.all[id := m.all[id].(life := if ok then Finished else Broken)],
                  phase := if ok then Stopped else ShutdownFailed(map[r := id]))
  {
    var id := m.containers[r];
    var a, b, c := [BeginShutdown(t), Collect], [Close(id), Halt(id), Finish(id, ok)], [ContainerReturns(r), EndShutdown];
    events := a + b + c;
    ShutdownBegins(m, maxTenants, t, r, id);
    StoppingIsCalled(m, t, r, id);
    ContainerEnds(StoppingOne(m, t, r, id), maxTenants, id, ok);
    ShutdownEnds(Run(StoppingOne(m, t, r, id), b, maxTenants), maxTenants, t, r, id);
    RunParts(m, a, b, c, maxTenants);
  }
}
