/**
 * The staged verification client (relay.py): five steps, each run on its own, chained through one state file. What
 * the service and GitHub answer is given to a step as an oracle; None stands for a failed or malformed answer.
 */
module StagedVerification {
  import opened Basics

  datatype Stage = AtReceipt | AtSnapshot | AtCompare | AtVerify | AtPublication

  /** Everything of the context that a state file is bound to. */
  datatype Identity = Identity(
    repository: string, repositoryId: int, ownerId: int, workflow: string, workflowRef: string, runId: string,
    runAttempt: string, origin: string, audience: string)

  datatype Binding = Binding(
    repositoryId: int, pr: int, head: string, base: string, policy: string, snapshotId: string, score: int, triggered: bool)

  datatype Receipt = Receipt(
    id: string, binding: Binding, actorId: int, version: string, issuedAt: string, appId: int, installationId: int)

  datatype Snapshot = Snapshot(binding: Binding, authorId: int)

  /** The receipt's page at the service; `path` says whether it is below the repository's own path. */
  datatype Target = Target(origin: string, path: bool, receiptId: string)

  datatype Publication = Publication(context: string, target: Target, statusId: int)

  datatype State = State(
    stage: Stage, identity: Identity, path: bool, receipt: Receipt, snapshot: Option<Snapshot>,
    verifiedAt: Option<string>, publication: Option<Publication>)

  datatype GateState = WaitingVerification | WaitingPublication | Published | Missing | Unavailable | Skipped | Invalid

  datatype Gate = Gate(state: GateState, context: string, target: Target, statusId: Option<int>, errorCode: Option<string>)

  datatype View = View(receipt: Receipt, verifiedAt: Option<string>, gate: Gate, path: bool)

  datatype VerifyResult = VerifyResult(state: string, receiptId: string, pr: int, verifiedAt: string)

  datatype Pull = Pull(state: string, authorId: int, head: string, base: string)

  datatype Status = Status(id: int, context: string, state: string, target: Option<Target>)

  /** One turn of the publication loop: what it reads, in order. */
  datatype Round = Round(before: Option<Pull>, view: Option<View>, status: Option<Option<Status>>, after: Option<Pull>)

  // ----- validation -----

  predicate ReceiptOk(r: Receipt, id: string, who: Identity) {
    r.id == id && r.binding.repositoryId == who.repositoryId
  }

  /** `_require_publication_view`; a view must be below the repository's path when that is expected. */
  predicate ViewOk(v: View, id: string, who: Identity, expected: bool) {
    && (expected ==> v.path)
    && ReceiptOk(v.receipt, id, who)
    && v.gate.target == Target(who.origin, v.path, id)
    && (if v.gate.state.WaitingVerification? then v.verifiedAt.None? && v.gate.statusId.None? && v.gate.errorCode.None?
        else
          && v.verifiedAt.Some?
          && (if v.gate.state.Published? then v.gate.statusId.Some? && v.gate.errorCode.None? else v.gate.statusId.None?))
  }

  predicate Comparable(r: Receipt, s: Snapshot) {
    s.authorId == r.actorId && s.binding == r.binding
  }

  predicate From(s: Stage, first: Stage) {
    Index(s) >= Index(first)
  }

  function Index(s: Stage): nat {
    match s
    case AtReceipt => 0
    case AtSnapshot => 1
    case AtCompare => 2
    case AtVerify => 3
    case AtPublication => 4
  }

  /** `_validate_verification_state`. */
  predicate StateOk(s: State, who: Identity, id: string, stage: Stage) {
    && s.stage == stage && s.identity == who && ReceiptOk(s.receipt, id, who)
    && (s.snapshot.Some? <==> From(stage, AtSnapshot)) && (s.verifiedAt.Some? <==> From(stage, AtVerify))
    && (s.publication.Some? <==> From(stage, AtPublication))
    && (s.snapshot.Some? ==> s.snapshot.value.binding.repositoryId == who.repositoryId)
    && (From(stage, AtCompare) ==> s.snapshot.Some? && Comparable(s.receipt, s.snapshot.value))
    && (s.publication.Some? ==> s.publication.value.target == Target(who.origin, s.path, id))
  }

  predicate PullOk(p: Option<Pull>, b: Binding, authorId: int) {
    p.Some? && p.value.state == "open" && p.value.authorId == authorId && p.value.head == b.head && p.value.base == b.base
  }

  // ----- the steps -----

  /** What a step is given by the outside world. */
  datatype World =
    | ForReceipt(view: Option<View>)
    | ForSnapshot(snapshot: Option<Snapshot>)
    | ForCompare
    | ForVerify(result: Option<VerifyResult>)
    | ForPublication(rounds: seq<Round>)

  function StageOf(w: World): Stage {
    match w
    case ForReceipt(_) => AtReceipt
    case ForSnapshot(_) => AtSnapshot
    case ForCompare => AtCompare
    case ForVerify(_) => AtVerify
    case ForPublication(_) => AtPublication
  }

  function Predecessor(s: Stage): Stage
    requires !s.AtReceipt?
  {
    match s
    case AtSnapshot => AtReceipt
    case AtCompare => AtSnapshot
    case AtVerify => AtCompare
    case AtPublication => AtVerify
  }

  datatype Verdict = Wait | Fail | Accept(publication: Publication)

  /** What one turn of the publication loop decides. */
  function Judge(r: Round, s: State, who: Identity): Verdict
    requires s.snapshot.Some?
  {
    var snapshot := s.snapshot.value;
    if !PullOk(r.before, snapshot.binding, snapshot.authorId) then Fail
    else if r.view.None? || !ViewOk(r.view.value, s.receipt.id, who, s.path) then Fail
    else
      var v := r.view.value;
      if v.receipt != s.receipt || v.verifiedAt != s.verifiedAt || v.path != s.path then Fail
      else if v.gate.state.WaitingPublication? then Wait
      else if !v.gate.state.Published? then Fail
      else if r.status.None? then Fail
      else if r.status.value.None? || r.status.value.value.state == "pending" then Wait
      else
        var status := r.status.value.value;
        if status.state != "success" then Fail
        else if Some(status.id) != v.gate.statusId || status.context != v.gate.context || status.target != Some(v.gate.target) then Wait
        else if !PullOk(r.after, snapshot.binding, snapshot.authorId) then Fail
        else Accept(Publication(v.gate.context, v.gate.target, status.id))
  }

  /** The loop waits until a turn decides; running out of turns is the timeout. */
  function Watched(rounds: seq<Round>, s: State, who: Identity): Option<Publication>
    requires s.snapshot.Some?
  {
    if rounds == [] then None
    else
      match Judge(rounds[0], s, who)
      case Wait => Watched(rounds[1..], s, who)
      case Fail => None
      case Accept(p) => Some(p)
  }

  /** The state that a step writes, if it succeeds. */
  function Written(file: Option<State>, who: Identity, id: string, w: World): Option<State> {
    if w.ForReceipt? then
      if w.view.None? || !ViewOk(w.view.value, id, who, false)
         || w.view.value.gate.state in {Missing, Unavailable, Skipped, Invalid} then None
      else Some(State(AtReceipt, who, w.view.value.path, w.view.value.receipt, None, None, None))
    else if file.None? || !StateOk(file.value, who, id, Predecessor(StageOf(w))) then None
    else
      var s := file.value;
      match w
      case ForSnapshot(snapshot) =>
        if snapshot.None? then None
        else
          var n := s.(stage := AtSnapshot, snapshot := snapshot);
          if StateOk(n, who, id, AtSnapshot) then Some(n) else None
      case ForCompare => if !Comparable(s.receipt, s.snapshot.value) then None else Some(s.(stage := AtCompare))
      case ForVerify(result) =>
        if result.None? || result.value.state != "verified" || result.value.receiptId != s.receipt.id
           || result.value.pr != s.snapshot.value.binding.pr then None
        else Some(s.(stage := AtVerify, verifiedAt := Some(result.value.verifiedAt)))
      case ForPublication(rounds) =>
        var p := Watched(rounds, s, who);
        if p.None? then None
        else
          var n := s.(stage := AtPublication, publication := p);
          if StateOk(n, who, id, AtPublication) then Some(n) else None
  }

  datatype Invocation = Invocation(who: Identity, id: string, world: World)

  /** A successful step: who ran it, what it was given, what it wrote. */
  datatype Done = Done(call: Invocation, state: State)

  datatype Run = Run(file: Option<State>, done: seq<Done>)

  /** A failed step leaves the file as it was. */
  function Invoke(r: Run, i: Invocation): Run {
    var n := Written(r.file, i.who, i.id, i.world);
    if n.None? then r else Run(n, r.done + [Done(i, n.value)])
  }

  function Invoked(r: Run, calls: seq<Invocation>): Run
    decreases |calls|
  {
    if calls == [] then r else Invoked(Invoke(r, calls[0]), calls[1..])
  }

  // ----- the chain -----

  /** `b` is the next successful step after `a`, by the same run on the same receipt. */
  ghost predicate Follows(a: Done, b: Done) {
    && !b.state.stage.AtReceipt? && a.state.stage == Predecessor(b.state.stage)
    && b.call.who == a.call.who && b.call.id == a.call.id
    && b.state.receipt == a.state.receipt && b.state.path == a.state.path && b.state.identity == a.state.identity
    && (a.state.snapshot.Some? ==> b.state.snapshot == a.state.snapshot)
    && (a.state.verifiedAt.Some? ==> b.state.verifiedAt == a.state.verifiedAt)
  }

  ghost predicate Sound(d: Done) {
    && d.state.stage == StageOf(d.call.world) && StateOk(d.state, d.call.who, d.call.id, d.state.stage)
  }

  /** The file that a successful step found. */
  function Found(r: Run, k: nat): Option<State>
    requires k <= |r.done|
  {
    if k == 0 then None else Some(r.done[k - 1].state)
  }

  ghost predicate Justified(r: Run, k: nat)
    requires k < |r.done|
  {
    Written(Found(r, k), r.done[k].call.who, r.done[k].call.id, r.done[k].call.world) == Some(r.done[k].state)
  }

  ghost predicate Inv(r: Run) {
    r.file == Found(r, |r.done|) && forall k | 0 <= k < |r.done| :: Justified(r, k)
  }

  lemma InvokeKeepsInv(r: Run, i: Invocation)
    requires Inv(r)
    ensures Inv(Invoke(r, i))
  {
    var n := Invoke(r, i);
    if n != r {
      forall k | 0 <= k < |n.done| ensures Justified(n, k) {
        if k < |r.done| {
          assert Justified(r, k);
        }
      }
    }
  }

  lemma {:induction false} InvokedKeepsInv(r: Run, calls: seq<Invocation>)
    requires Inv(r)
    ensures Inv(Invoked(r, calls))
    decreases |calls|
  {
    if calls != [] {
      InvokeKeepsInv(r, calls[0]);
      InvokedKeepsInv(Invoke(r, calls[0]), calls[1..]);
    }
  }

  // ----- what each step needs -----

  /** A view that a run may start from: of this receipt, and waiting for its verification or verified. */
  ghost predicate Starts(v: View, who: Identity, id: string) {
    && v.receipt.id == id && v.receipt.binding.repositoryId == who.repositoryId && v.gate.target == Target(who.origin, v.path, id)
    && match v.gate.state
       case WaitingVerification => v.verifiedAt.None? && v.gate.statusId.None? && v.gate.errorCode.None?
       case WaitingPublication => v.verifiedAt.Some? && v.gate.statusId.None?
       case Published => v.verifiedAt.Some? && v.gate.statusId.Some? && v.gate.errorCode.None?
       case _ => false
  }

  lemma ReceiptWritten(file: Option<State>, who: Identity, id: string, view: Option<View>)
    ensures Written(file, who, id, ForReceipt(view))
            == if view.Some? && Starts(view.value, who, id)
               then Some(State(AtReceipt, who, view.value.path, view.value.receipt, None, None, None)) else None
  {
  }

  /** What a state file holds at each stage. */
  ghost predicate Holds(s: State, who: Identity, id: string) {
    && s.identity == who && s.receipt.id == id && s.receipt.binding.repositoryId == who.repositoryId
    && match s.stage
       case AtReceipt => s.snapshot.None? && s.verifiedAt.None? && s.publication.None?
       case AtSnapshot =>
         s.snapshot.Some? && s.snapshot.value.binding.repositoryId == who.repositoryId && s.verifiedAt.None? && s.publication.None?
       case AtCompare => s.snapshot == Some(Snapshot(s.receipt.binding, s.receipt.actorId)) && s.verifiedAt.None? && s.publication.None?
       case AtVerify => s.snapshot == Some(Snapshot(s.receipt.binding, s.receipt.actorId)) && s.verifiedAt.Some? && s.publication.None?
       case AtPublication =>
         && s.snapshot == Some(Snapshot(s.receipt.binding, s.receipt.actorId)) && s.verifiedAt.Some?
         && s.publication.Some? && s.publication.value.target == Target(who.origin, s.path, id)
  }

  lemma HoldsIff(s: State, who: Identity, id: string)
    ensures StateOk(s, who, id, s.stage) <==> Holds(s, who, id)
  {
  }

  /** A validated file holds its own stage only. */
  lemma StageIsItsOwn(s: State, who: Identity, id: string, stage: Stage)
    ensures StateOk(s, who, id, stage) ==> s.stage == stage
  {
  }

  /** When a later step succeeds, and what it writes. */
  lemma StepWritten(file: Option<State>, who: Identity, id: string, w: World)
    requires !w.ForReceipt?
    ensures Written(file, who, id, w).Some? ==> file.Some? && Holds(file.value, who, id) && Holds(Written(file, who, id, w).value, who, id)
    ensures file.Some? && Holds(file.value, who, id) && w.ForSnapshot? ==>
              Written(file, who, id, w)
              == if file.value.stage.AtReceipt? && w.snapshot.Some? && w.snapshot.value.binding.repositoryId == who.repositoryId
                 then Some(file.value.(stage := AtSnapshot, snapshot := w.snapshot)) else None
    ensures file.Some? && Holds(file.value, who, id) && w.ForCompare? ==>
              Written(file, who, id, w)
              == if && file.value.stage.AtSnapshot?
                    && file.value.snapshot == Some(Snapshot(file.value.receipt.binding, file.value.receipt.actorId))
                 then Some(file.value.(stage := AtCompare)) else None
    ensures file.Some? && Holds(file.value, who, id) && w.ForVerify? ==>
              Written(file, who, id, w)
              == if && file.value.stage.AtCompare? && w.result.Some?
                    && w.result.value == VerifyResult("verified", id, file.value.receipt.binding.pr, w.result.value.verifiedAt)
                 then Some(file.value.(stage := AtVerify, verifiedAt := Some(w.result.value.verifiedAt))) else None
    ensures file.Some? && Holds(file.value, who, id) && w.ForPublication? && file.value.stage.AtVerify? ==>
              var p := Watched(w.rounds, file.value, who);
              Written(file, who, id, w) == if p.Some? then Some(file.value.(stage := AtPublication, publication := p)) else None
    ensures file.Some? && w.ForPublication? && !file.value.stage.AtVerify? ==> Written(file, who, id, w).None?
  {
    if file.Some? {
      HoldsIff(file.value, who, id);
      if w.ForPublication? && Holds(file.value, who, id) && file.value.stage.AtVerify? && Watched(w.rounds, file.value, who).Some? {
        WatchedHasTarget(w.rounds, file.value, who);
      }
    }
    if Written(file, who, id, w).Some? {
      HoldsIff(Written(file, who, id, w).value, who, id);
    }
  }

  lemma {:induction false} WatchedHasTarget(rounds: seq<Round>, s: State, who: Identity)
    requires s.snapshot.Some? && Watched(rounds, s, who).Some?
    ensures Watched(rounds, s, who).value.target == Target(who.origin, s.path, s.receipt.id)
    decreases |rounds|
  {
    if Judge(rounds[0], s, who).Wait? {
      WatchedHasTarget(rounds[1..], s, who);
    }
  }

  lemma WrittenIsSound(file: Option<State>, i: Invocation)
    requires Written(file, i.who, i.id, i.world).Some?
    ensures Sound(Done(i, Written(file, i.who, i.id, i.world).value))
  {
  }

  lemma WrittenFollows(d: Done, i: Invocation)
    requires Sound(d) && Written(Some(d.state), i.who, i.id, i.world).Some? && !i.world.ForReceipt?
    ensures Follows(d, Done(i, Written(Some(d.state), i.who, i.id, i.world).value))
  {
  }

  lemma DoneIsSound(r: Run, k: nat)
    requires Inv(r) && k < |r.done|
    ensures Sound(r.done[k])
  {
    assert Justified(r, k);
    WrittenIsSound(Found(r, k), r.done[k].call);
  }

  /** Every later stage was reached from the step just before it. */
  lemma DoneFollows(r: Run, k: nat)
    requires Inv(r) && k < |r.done| && !r.done[k].state.stage.AtReceipt?
    ensures k > 0 && Follows(r.done[k - 1], r.done[k])
  {
    assert Justified(r, k);
    DoneIsSound(r, k);
    if k > 0 {
      DoneIsSound(r, k - 1);
      WrittenFollows(r.done[k - 1], r.done[k].call);
    }
  }

  /** The last five successful steps, in order, by one run on one receipt. */
  ghost predicate Chain(r: Run) {
    && |r.done| >= 5
    && var a := |r.done| - 5;
       && r.done[a].state.stage.AtReceipt? && r.done[a + 1].state.stage.AtSnapshot? && r.done[a + 2].state.stage.AtCompare?
       && r.done[a + 3].state.stage.AtVerify? && r.done[a + 4].state.stage.AtPublication?
       && forall k | a < k < |r.done| :: Follows(r.done[k - 1], r.done[k])
  }

  lemma PublicationEndsChain(r: Run)
    requires Inv(r) && r.file.Some? && r.file.value.stage.AtPublication?
    ensures Chain(r)
  {
    var n := |r.done|;
    DoneFollows(r, n - 1);
    DoneFollows(r, n - 2);
    DoneFollows(r, n - 3);
    DoneFollows(r, n - 4);
  }

  /** The pull request is open, by the author and where the snapshot was taken. */
  ghost predicate StillOpen(p: Option<Pull>, n: Snapshot) {
    p.Some? && p.value == Pull("open", n.authorId, n.binding.head, n.binding.base)
  }

  /** What the turn that was accepted had seen. */
  ghost predicate Matched(round: Round, s: State, p: Publication) {
    && s.snapshot.Some? && StillOpen(round.before, s.snapshot.value) && StillOpen(round.after, s.snapshot.value)
    && round.view == Some(View(s.receipt, s.verifiedAt, Gate(Published, p.context, p.target, Some(p.statusId), None), s.path))
    && round.status == Some(Some(Status(p.statusId, p.context, "success", Some(p.target))))
  }

  /** A view of the same verified receipt, consistent in itself. */
  ghost predicate Agrees(v: View, s: State, who: Identity) {
    && v.receipt == s.receipt && v.verifiedAt == s.verifiedAt && v.path == s.path
    && v.gate.target == Target(who.origin, s.path, s.receipt.id)
    && match v.gate.state
       case WaitingVerification => false
       case Published => v.gate.statusId.Some? && v.gate.errorCode.None?
       case _ => v.gate.statusId.None?
  }

  /** The status of a published gate that the turn has read is not there yet, not decided, or another one. */
  ghost predicate NotYet(v: View, status: Option<Status>) {
    || status.None? || status.value.state == "pending"
    || (&& status.value.state == "success"
        && (|| v.gate.statusId != Some(status.value.id) || status.value.context != v.gate.context
            || status.value.target != Some(v.gate.target)))
  }

  /** Exactly when a turn is accepted and when it waits; otherwise it fails. */
  lemma JudgeIff(r: Round, s: State, who: Identity, p: Publication)
    requires s.snapshot.Some? && s.verifiedAt.Some? && s.receipt.binding.repositoryId == who.repositoryId
    ensures Judge(r, s, who) == Accept(p) <==> Matched(r, s, p) && p.target == Target(who.origin, s.path, s.receipt.id)
    ensures Judge(r, s, who).Wait? <==>
              && StillOpen(r.before, s.snapshot.value) && r.view.Some? && Agrees(r.view.value, s, who)
              && (|| r.view.value.gate.state.WaitingPublication?
                  || (r.view.value.gate.state.Published? && r.status.Some? && NotYet(r.view.value, r.status.value)))
  {
  }

  /** The loop waited until a turn that matched. */
  ghost predicate Seen(rounds: seq<Round>, s: State, who: Identity, p: Publication)
    requires s.snapshot.Some?
  {
    exists k | 0 <= k < |rounds| :: Matched(rounds[k], s, p) && forall j | 0 <= j < k :: Judge(rounds[j], s, who).Wait?
  }

  lemma {:induction false} WatchedIsMatched(rounds: seq<Round>, s: State, who: Identity)
    requires s.snapshot.Some? && s.verifiedAt.Some? && s.receipt.binding.repositoryId == who.repositoryId && Watched(rounds, s, who).Some?
    ensures Seen(rounds, s, who, Watched(rounds, s, who).value)
    decreases |rounds|
  {
    if Judge(rounds[0], s, who).Wait? {
      WatchedIsMatched(rounds[1..], s, who);
      var k :| 0 <= k < |rounds[1..]| && Matched(rounds[1..][k], s, Watched(rounds[1..], s, who).value)
               && forall j | 0 <= j < k :: Judge(rounds[1..][j], s, who).Wait?;
      assert rounds[k + 1] == rounds[1..][k];
      forall j | 0 <= j < k + 1 ensures Judge(rounds[j], s, who).Wait? {
        if j > 0 {
          assert rounds[j] == rounds[1..][j - 1];
        }
      }
    } else {
      JudgeIff(rounds[0], s, who, Watched(rounds, s, who).value);
    }
  }

  lemma ChainIsOneRun(r: Run, k: nat)
    requires Inv(r) && Chain(r) && |r.done| - 5 <= k < |r.done|
    ensures var s := r.done[|r.done| - 1].state;
            r.done[k].call.who == s.identity && r.done[k].call.id == s.receipt.id && r.done[k].state.receipt == s.receipt
    decreases |r.done| - k
  {
    DoneIsSound(r, k);
    if k < |r.done| - 1 {
      assert Follows(r.done[k], r.done[k + 1]);
      ChainIsOneRun(r, k + 1);
    }
  }

  lemma PublicationWasMatched(r: Run)
    requires Inv(r) && |r.done| >= 2 && r.file.Some? && r.file.value.stage.AtPublication?
    ensures var n := |r.done|; var last, before := r.done[n - 1], r.done[n - 2].state;
            && last.call.world.ForPublication? && r.file.value.publication.Some? && before.snapshot.Some?
            && Seen(last.call.world.rounds, before, last.call.who, r.file.value.publication.value)
  {
    var n := |r.done|;
    var last, before := r.done[n - 1], r.done[n - 2].state;
    assert Justified(r, n - 1);
    DoneIsSound(r, n - 1);
    assert StateOk(before, last.call.who, last.call.id, AtVerify);
    HoldsIff(before, last.call.who, last.call.id);
    WatchedIsMatched(last.call.world.rounds, before, last.call.who);
  }

  /** The five steps of the chain were all run by the run of the file, on its receipt. */
  ghost predicate OneRun(r: Run) {
    && Chain(r) && r.file.Some?
    && forall k | |r.done| - 5 <= k < |r.done| ::
         r.done[k].call.who == r.file.value.identity && r.done[k].state.receipt == r.file.value.receipt
  }

  /** What the file says was compared, verified and seen as the latest success. */
  ghost predicate Confirmed(s: State) {
    && s.snapshot == Some(Snapshot(s.receipt.binding, s.receipt.actorId)) && s.verifiedAt.Some? && s.publication.Some?
    && s.publication.value.target == Target(s.identity.origin, s.path, s.receipt.id)
  }

  ghost predicate SeenPublished(r: Run) {
    && |r.done| >= 2 && r.file.Some? && r.file.value.publication.Some?
    && var last, before := r.done[|r.done| - 1], r.done[|r.done| - 2].state;
       && last.call.world.ForPublication? && before.snapshot.Some?
       && Seen(last.call.world.rounds, before, r.file.value.identity, r.file.value.publication.value)
  }

  /** What the world gave to the five steps: a view of the receipt, its snapshot, and the verification of it. */
  ghost predicate Given(r: Run) {
    && |r.done| >= 5 && r.file.Some? && r.file.value.snapshot.Some? && r.file.value.verifiedAt.Some?
    && var s, a := r.file.value, |r.done| - 5;
       && r.done[a].call.world.ForReceipt? && r.done[a].call.world.view.Some?
       && r.done[a].call.world.view.value.receipt == s.receipt && Starts(r.done[a].call.world.view.value, s.identity, s.receipt.id)
       && r.done[a + 1].call.world == ForSnapshot(Some(Snapshot(s.receipt.binding, s.receipt.actorId)))
       && r.done[a + 3].call.world
          == ForVerify(Some(VerifyResult("verified", s.receipt.id, s.receipt.binding.pr, s.verifiedAt.value)))
  }

  lemma PublicationWasGiven(r: Run)
    requires Inv(r) && OneRun(r) && r.file.value.stage.AtPublication?
    ensures Given(r)
  {
    var a := |r.done| - 5;
    DoneWasWritten(r, a);
    DoneWasWritten(r, a + 1);
    DoneWasWritten(r, a + 3);
    assert Follows(r.done[a], r.done[a + 1]) && Follows(r.done[a + 1], r.done[a + 2]);
    assert Follows(r.done[a + 2], r.done[a + 3]) && Follows(r.done[a + 3], r.done[a + 4]);
    DoneIsSound(r, a + 4);
    HoldsIff(r.file.value, r.done[a + 4].call.who, r.done[a + 4].call.id);
    ReceiptWritten(Found(r, a), r.done[a].call.who, r.done[a].call.id, r.done[a].call.world.view);
    StepWritten(Found(r, a + 1), r.done[a + 1].call.who, r.done[a + 1].call.id, r.done[a + 1].call.world);
    StepWritten(Found(r, a + 3), r.done[a + 3].call.who, r.done[a + 3].call.id, r.done[a + 3].call.world);
  }

  lemma DoneWasWritten(r: Run, k: nat)
    requires Inv(r) && k < |r.done|
    ensures Written(Found(r, k), r.done[k].call.who, r.done[k].call.id, r.done[k].call.world) == Some(r.done[k].state)
    ensures r.done[k].state.stage == StageOf(r.done[k].call.world)
  {
    assert Justified(r, k);
    DoneIsSound(r, k);
  }

  lemma PublicationIsOneRun(r: Run)
    requires Inv(r) && r.file.Some? && r.file.value.stage.AtPublication?
    ensures OneRun(r)
  {
    PublicationEndsChain(r);
    forall k | |r.done| - 5 <= k < |r.done|
      ensures r.done[k].call.who == r.file.value.identity && r.done[k].state.receipt == r.file.value.receipt
    {
      ChainIsOneRun(r, k);
    }
  }

  lemma PublicationIsConfirmed(r: Run)
    requires Inv(r) && r.file.Some? && r.file.value.stage.AtPublication?
    ensures Confirmed(r.file.value)
  {
    DoneIsSound(r, |r.done| - 1);
    HoldsIff(r.file.value, r.done[|r.done| - 1].call.who, r.done[|r.done| - 1].call.id);
  }

  lemma PublicationWasSeen(r: Run)
    requires Inv(r) && OneRun(r) && r.file.value.stage.AtPublication?
    ensures SeenPublished(r)
  {
    PublicationWasMatched(r);
  }

  /**
   * For any calls of the steps, in any order, repeated and failing, by any runs: a file at its last stage was
   * produced by the five steps in order, by one run, on one unchanged receipt whose binding is the snapshot's and
   * whose actor is the author, and the published status was seen as the latest success.
   */
  lemma PublicationIsEarned(calls: seq<Invocation>)
    requires var r := Invoked(Run(None, []), calls); r.file.Some? && r.file.value.stage.AtPublication?
    ensures var r := Invoked(Run(None, []), calls); OneRun(r) && Given(r) && Confirmed(r.file.value) && SeenPublished(r)
  {
    InvokedKeepsInv(Run(None, []), calls);
    var r := Invoked(Run(None, []), calls);
    PublicationIsOneRun(r);
    PublicationWasGiven(r);
    PublicationIsConfirmed(r);
    PublicationWasSeen(r);
  }

  /** The five steps can succeed: a receipt that the service confirms is carried to its publication. */
  lemma StepsCanSucceed(who: Identity, receipt: Receipt, author: int, at: string, context: string, statusId: int)
    returns (calls: seq<Invocation>)
    requires receipt.binding.repositoryId == who.repositoryId && receipt.actorId == author
    ensures var r := Invoked(Run(None, []), calls); r.file.Some? && r.file.value.stage.AtPublication? && r.file.value.receipt == receipt
  {
    var target := Target(who.origin, false, receipt.id);
    var waiting := View(receipt, None, Gate(WaitingVerification, context, target, None, None), false);
    var published := View(receipt, Some(at), Gate(Published, context, target, Some(statusId), None), false);
    var pull := Some(Pull("open", author, receipt.binding.head, receipt.binding.base));
    var round := Round(pull, Some(published), Some(Some(Status(statusId, context, "success", Some(target)))), pull);
    var a := Invocation(who, receipt.id, ForReceipt(Some(waiting)));
    var b := Invocation(who, receipt.id, ForSnapshot(Some(Snapshot(receipt.binding, author))));
    var c := Invocation(who, receipt.id, ForCompare);
    var d := Invocation(who, receipt.id, ForVerify(Some(VerifyResult("verified", receipt.id, receipt.binding.pr, at))));
    var e := Invocation(who, receipt.id, ForPublication([round]));
    calls := [a, b, c, d, e];
    var r1 := Invoke(Run(None, []), a);
    var r2 := Invoke(r1, b);
    assert r2.file.Some? && r2.file.value.stage.AtSnapshot?;
    var r3 := Invoke(r2, c);
    assert r3.file.Some? && r3.file.value.stage.AtCompare?;
    var r4 := Invoke(r3, d);
    assert r4.file.Some? && r4.file.value.stage.AtVerify?;
    assert Judge(round, r4.file.value, who) == Accept(Publication(context, target, statusId));
    var r5 := Invoke(r4, e);
    assert r5.file.Some? && r5.file.value.stage.AtPublication?;
    assert calls[1..] == [b, c, d, e] && calls[1..][1..] == [c, d, e] && calls[1..][1..][1..] == [d, e];
    assert [d, e][1..] == [e] && [e][1..] == [];
    assert Invoked(r4, [e]) == r5;
    assert Invoked(r3, [d, e]) == r5;
    assert Invoked(r2, [c, d, e]) == r5;
  }

  // ----- the code of the loops -----

  method WatchPublication(rounds: seq<Round>, s: State, who: Identity) returns (p: Option<Publication>)
    requires s.snapshot.Some?
    ensures p == Watched(rounds, s, who)
  {
    var snapshot := s.snapshot.value;
    for k := 0 to |rounds|
      invariant Watched(rounds, s, who) == Watched(rounds[k..], s, who)
    {
      var round := rounds[k];
      assert rounds[k..][0] == round && rounds[k..][1..] == rounds[k + 1..];
      if !PullOk(round.before, snapshot.binding, snapshot.authorId) {
        return None;
      }
      if round.view.None? || !ViewOk(round.view.value, s.receipt.id, who, s.path) {
        return None;
      }
      var view := round.view.value;
      if view.receipt != s.receipt || view.verifiedAt != s.verifiedAt || view.path != s.path {
        return None;
      }
      if view.gate.state.WaitingPublication? {
        continue;
      }
      if !view.gate.state.Published? || round.status.None? {
        return None;
      }
      if round.status.value.None? || round.status.value.value.state == "pending" {
        continue;
      }
      var status := round.status.value.value;
      if status.state != "success" {
        return None;
      }
      if Some(status.id) != view.gate.statusId || status.context != view.gate.context || status.target != Some(view.gate.target) {
        continue;
      }
      if !PullOk(round.after, snapshot.binding, snapshot.authorId) {
        return None;
      }
      return Some(Publication(view.gate.context, view.gate.target, status.id));
    }
    return None;
  }

  /** One answer to a poll of the job: gone, and what a new submission then gives; or a report. */
  datatype Answer = Gone(accepted: Option<string>) | Report(jobId: string, state: string, result: Option<VerifyResult>) | Broken

  const MAX_RESUBMITS: nat := 2

  /** How many of the answers said that the job was gone. */
  function Losses(answers: seq<Answer>): nat {
    if answers == [] then 0 else Losses(answers[..|answers| - 1]) + if answers[|answers| - 1].Gone? then 1 else 0
  }

  /** The job that the last accepted submission named. */
  function CurrentJob(first: string, answers: seq<Answer>): string {
    if answers == [] then first
    else
      var last := answers[|answers| - 1];
      if last.Gone? && last.accepted.Some? then last.accepted.value else CurrentJob(first, answers[..|answers| - 1])
  }

  /** What polling ends with, given the job to ask for and the submissions made so far. */
  function Polled(current: string, submitted: nat, answers: seq<Answer>): Option<VerifyResult>
    decreases |answers|
  {
    if answers == [] then None
    else
      match answers[0]
      case Gone(accepted) =>
        if submitted >= MAX_RESUBMITS || accepted.None? then None else Polled(accepted.value, submitted + 1, answers[1..])
      case Broken => None
      case Report(jobId, state, reported) =>
        if jobId != current then None
        else if state == "completed" then reported
        else if state == "queued" || state == "running" then Polled(current, submitted, answers[1..])
        else None
  }

  /** Polling goes on after this answer: a loss with a new job, or news of the current job. */
  ghost predicate Carries(first: string, answers: seq<Answer>, i: nat)
    requires i < |answers|
  {
    match answers[i]
    case Gone(accepted) => accepted.Some? && Losses(answers[..i]) < 2
    case Report(jobId, state, _) => jobId == CurrentJob(first, answers[..i]) && (state == "queued" || state == "running")
    case Broken => false
  }

  ghost predicate EndsAt(first: string, answers: seq<Answer>, k: nat, v: VerifyResult)
    requires k < |answers|
  {
    answers[k] == Report(CurrentJob(first, answers[..k]), "completed", Some(v)) && forall i | 0 <= i < k :: Carries(first, answers, i)
  }

  lemma {:induction false} PolledFrom(first: string, answers: seq<Answer>, k: nat, v: VerifyResult)
    requires k <= |answers| && forall i | 0 <= i < k :: Carries(first, answers, i)
    ensures Polled(CurrentJob(first, answers[..k]), Losses(answers[..k]), answers[k..]) == Some(v)
            <==> exists m | k <= m < |answers| :: EndsAt(first, answers, m, v)
    decreases |answers| - k
  {
    if k < |answers| {
      assert answers[k..][0] == answers[k] && answers[k..][1..] == answers[k + 1..];
      assert answers[..k + 1][..k] == answers[..k] && answers[..k + 1][k] == answers[k];
      if Carries(first, answers, k) {
        PolledFrom(first, answers, k + 1, v);
        assert !EndsAt(first, answers, k, v);
      } else {
        assert forall m | k < m < |answers| :: !EndsAt(first, answers, m, v);
        if Polled(CurrentJob(first, answers[..k]), Losses(answers[..k]), answers[k..]) == Some(v) {
          assert EndsAt(first, answers, k, v);
        }
      }
    }
  }

  /** Polling gives a result exactly when a completed report of the current job comes after answers that carry on. */
  lemma PolledIff(first: string, answers: seq<Answer>, v: VerifyResult)
    ensures Polled(first, 0, answers) == Some(v) <==> exists m | 0 <= m < |answers| :: EndsAt(first, answers, m, v)
  {
    PolledFrom(first, answers, 0, v);
    assert answers[..0] == [] && answers[0..] == answers;
  }

  /** The current job is the one that the last loss was answered with. */
  lemma CurrentIsLast(first: string, answers: seq<Answer>, k: nat)
    requires k <= |answers| && forall i | k <= i < |answers| :: !answers[i].Gone?
    requires k > 0 ==> answers[k - 1].Gone? && answers[k - 1].accepted.Some?
    ensures CurrentJob(first, answers) == if k == 0 then first else answers[k - 1].accepted.value
    ensures Losses(answers) == Losses(answers[..k])
    decreases |answers|
  {
    if |answers| > k {
      CurrentIsLast(first, answers[..|answers| - 1], k);
      assert answers[..|answers| - 1][..k] == answers[..k];
    } else {
      assert answers[..k] == answers;
    }
  }

  /**
   * `_poll_actions_job`: a lost job is submitted again, twice at most, and a result is taken only from a completed
   * report of the job submitted last. `submitted` counts the submissions made here.
   */
  method PollActionsJob(first: string, answers: seq<Answer>)
    returns (result: Option<VerifyResult>, submitted: nat, ghost polls: nat)
    ensures result == Polled(first, 0, answers)
    ensures submitted <= 2 && polls <= |answers| && submitted <= Losses(answers[..polls])
    ensures Losses(answers[..polls]) <= MAX_RESUBMITS + 1
    ensures result.Some? ==>
              && 0 < polls && answers[polls - 1].Report? && answers[polls - 1].state == "completed"
              && answers[polls - 1].result == result && answers[polls - 1].jobId == CurrentJob(first, answers[..polls - 1])
    ensures result.Some? ==> submitted == Losses(answers[..polls])
  {
    var current := first;
    submitted, polls := 0, 0;
    for k := 0 to |answers|
      invariant polls == k && submitted == Losses(answers[..k]) && submitted <= MAX_RESUBMITS
      invariant current == CurrentJob(first, answers[..k])
      invariant Polled(first, 0, answers) == Polled(current, submitted, answers[k..])
    {
      assert answers[k..][0] == answers[k] && answers[k..][1..] == answers[k + 1..];
      assert answers[..k + 1][..k] == answers[..k] && answers[..k + 1][k] == answers[k];
      polls := k + 1;
      match answers[k]
      case Gone(accepted) =>
        if submitted >= MAX_RESUBMITS || accepted.None? {
          return None, submitted, polls;
        }
        current := accepted.value;
        submitted := submitted + 1;
      case Broken => return None, submitted, polls;
      case Report(jobId, state, reported) =>
        if jobId != current {
          return None, submitted, polls;
        }
        if state == "completed" {
          return reported, submitted, polls;
        }
        if state != "queued" && state != "running" {
          return None, submitted, polls;
        }
    }
    return None, submitted, polls;
  }

  // ----- the code of the steps -----

  /** The state file; a step that fails leaves it alone, one that succeeds replaces it as a whole. */
  class StateFile {
    var file: Option<State>

    constructor ()
      ensures file == None
    {
      file := None;
    }

    /** `_verification_receipt_step`: it starts anew, whatever the file holds. */
    method ReceiptStep(who: Identity, id: string, view: Option<View>) returns (ok: bool)
      modifies this
      ensures ok <==> Written(old(file), who, id, ForReceipt(view)).Some?
      ensures file == if ok then Written(old(file), who, id, ForReceipt(view)) else old(file)
    {
      if view.None? || !ViewOk(view.value, id, who, false) {
        return false;
      }
      var gate := view.value.gate.state;
      if gate.Missing? || gate.Unavailable? || gate.Skipped? || gate.Invalid? {
        return false;
      }
      file := Some(State(AtReceipt, who, view.value.path, view.value.receipt, None, None, None));
      return true;
    }

    /** `_verification_snapshot_step`. */
    method SnapshotStep(who: Identity, id: string, state: State, snapshot: Option<Snapshot>) returns (ok: bool)
      requires file == Some(state) && StateOk(state, who, id, AtReceipt)
      modifies this
      ensures ok <==> Written(old(file), who, id, ForSnapshot(snapshot)).Some?
      ensures file == if ok then Written(old(file), who, id, ForSnapshot(snapshot)) else old(file)
    {
      if snapshot.None? {
        return false;
      }
      var next := state.(stage := AtSnapshot, snapshot := snapshot);
      if !StateOk(next, who, id, AtSnapshot) {
        return false;
      }
      file := Some(next);
      return true;
    }

    /** `_verification_compare_step`. */
    method CompareStep(who: Identity, id: string, state: State) returns (ok: bool)
      requires file == Some(state) && StateOk(state, who, id, AtSnapshot)
      modifies this
      ensures ok <==> Written(old(file), who, id, ForCompare).Some?
      ensures file == if ok then Written(old(file), who, id, ForCompare) else old(file)
    {
      if state.snapshot.value.authorId != state.receipt.actorId {
        return false;
      }
      if state.snapshot.value.binding != state.receipt.binding {
        return false;
      }
      file := Some(state.(stage := AtCompare));
      return true;
    }

    /** `_verification_verify_step`, once the job has been polled. */
    method VerifyStep(who: Identity, id: string, state: State, result: Option<VerifyResult>) returns (ok: bool)
      requires file == Some(state) && StateOk(state, who, id, AtCompare)
      modifies this
      ensures ok <==> Written(old(file), who, id, ForVerify(result)).Some?
      ensures file == if ok then Written(old(file), who, id, ForVerify(result)) else old(file)
    {
      if result.None? || result.value.state != "verified" {
        return false;
      }
      if result.value.receiptId != state.receipt.id {
        return false;
      }
      if result.value.pr != state.snapshot.value.binding.pr {
        return false;
      }
      file := Some(state.(stage := AtVerify, verifiedAt := Some(result.value.verifiedAt)));
      return true;
    }

    /** `_verification_publication_step`. */
    method PublicationStep(who: Identity, id: string, state: State, rounds: seq<Round>) returns (ok: bool)
      requires file == Some(state) && StateOk(state, who, id, AtVerify)
      modifies this
      ensures ok <==> Written(old(file), who, id, ForPublication(rounds)).Some?
      ensures file == if ok then Written(old(file), who, id, ForPublication(rounds)) else old(file)
    {
      var p := WatchPublication(rounds, state, who);
      if p.None? {
        return false;
      }
      var next := state.(stage := AtPublication, publication := p);
      if !StateOk(next, who, id, AtPublication) {
        return false;
      }
      file := Some(next);
      return true;
    }

    /** `_run_verification_step`: the file is loaded and must hold the predecessor's stage. */
    method RunVerificationStep(i: Invocation) returns (ok: bool)
      modifies this
      ensures ok <==> Written(old(file), i.who, i.id, i.world).Some?
      ensures file == if ok then Written(old(file), i.who, i.id, i.world) else old(file)
      ensures forall done: seq<Done> :: file == Invoke(Run(old(file), done), i).file
    {
      if i.world.ForReceipt? {
        ok := ReceiptStep(i.who, i.id, i.world.view);
        return;
      }
      if file.None? || !StateOk(file.value, i.who, i.id, Predecessor(StageOf(i.world))) {
        return false;
      }
      var state := file.value;
      match i.world
      case ForSnapshot(snapshot) => ok := SnapshotStep(i.who, i.id, state, snapshot);
      case ForCompare => ok := CompareStep(i.who, i.id, state);
      case ForVerify(result) => ok := VerifyStep(i.who, i.id, state, result);
      case ForPublication(rounds) => ok := PublicationStep(i.who, i.id, state, rounds);
    }

    /** Any calls one after the other: the file is the one of the run that the theorems are about. */
    method RunAll(calls: seq<Invocation>)
      modifies this
      ensures file == Invoked(Run(old(file), []), calls).file
    {
      ghost var run := Run(file, []);
      for k := 0 to |calls|
        invariant run.file == file && Invoked(Run(old(file), []), calls) == Invoked(run, calls[k..])
      {
        assert calls[k..][0] == calls[k] && calls[k..][1..] == calls[k + 1..];
        var ok := RunVerificationStep(calls[k]);
        run := Invoke(run, calls[k]);
      }
    }
  }
}
