/**
 * The check run that mirrors the gate (service.py, `_presentation_projection` and `_deliver_presentation_check`):
 * which phase a stored snapshot is in, also after its pull request was closed, and when a check concludes success.
 */
module PresentationCheck {
  import opened Basics
  import opened ReceiptGate

  datatype Phase = Preparing | Failing | AwaitingAuthor | Verifying | Verified | Neutral | Closed | Superseded

  /** What the checks read of a pull request. */
  datatype Facts = Facts(pull: Pull, merged: bool, closedAt: Option<string>)

  /** The `closed` part of an event's payload: absent, malformed (an error), or the pull request as it was closed. */
  datatype Closing =
    | NoClosing
    | Malformed
    | Closing(state: string, head: string, base: string, authorId: int, merged: bool, closedAt: Option<string>)

  /** Any contents of a `presentation_check` event are considered. */
  datatype CheckEvent = CheckEvent(
    generation: nat, pr: int, snapshotId: Option<SnapshotId>, receiptId: Option<ReceiptKey>, phase: Option<Phase>,
    closing: Closing)

  /** The call of `ensure_check_run`. */
  datatype Call = Call(snapshot: Snapshot, phase: Phase, receipt: Option<Receipt>)

  /** `failed` are the snapshots with a preparation error. */
  datatype World = World(failed: set<SnapshotId>, checksEnabled: bool, first: Facts, second: Facts, read: Snapshot)

  /** Only the verified phase concludes success. */
  function Conclusion(p: Phase): Option<string> {
    match p
    case Verified => Some("success")
    case Neutral => Some("neutral")
    case Closed => Some("cancelled")
    case Superseded => Some("cancelled")
    case Failing => Some("action_required")
    case _ => None
  }

  // ----- phases -----

  function CurrentReceiptOf(s: State, record: Record): Option<Receipt> {
    var key := KeyFor(s, record, record.snapshot.authorId);
    if key in s.receipts && MatchesRecord(s, s.receipts[key], record) then Some(s.receipts[key]) else None
  }

  predicate Prepared(s: State, record: Record) {
    record.pending && record.snapshot.triggered && |record.questions| == s.settings.questionCount
  }

  function Projection(s: State, record: Record, failed: set<SnapshotId>): (Phase, Option<Receipt>) {
    if !record.pending || !record.snapshot.triggered then (Neutral, None)
    else if |record.questions| != s.settings.questionCount then
      (if Id(record.snapshot) in failed then Failing else Preparing, None)
    else
      match CurrentReceiptOf(s, record)
      case None => (AwaitingAuthor, None)
      case Some(r) => (if r.verifiedAt.Some? then Phase.Verified else Verifying, Some(r))
  }

  function ClosedProjection(s: State, record: Record, pull: Pull): (Phase, Option<Receipt>) {
    match CurrentReceiptOf(s, record)
    case None => (Closed, None)
    case Some(r) =>
      (if r.verifiedAt.Some? && r.head == record.snapshot.head && r.head == pull.head then Phase.Verified else Closed, Some(r))
  }

  /** What a closed pull request may still be shown as; None sends nothing. */
  function ClosedDelivery(s: State, record: Record, failed: set<SnapshotId>, pull: Pull, asked: Option<Phase>)
    : Option<(Phase, Option<Receipt>)>
  {
    match asked
    case Some(Verified) =>
      var (phase, receipt) := Projection(s, record, failed);
      if phase.Verified? && receipt.Some? && receipt.value.head == pull.head then Some((phase, receipt)) else None
    case Some(Closed) => Some(ClosedProjection(s, record, pull))
    case _ => None
  }

  predicate EventIsCurrent(s: State, e: CheckEvent, record: Record) {
    && e.generation == s.settings.generation && e.pr == record.snapshot.pr
    && CurrentRecord(s, record.snapshot.pr).Some?
    && var now := CurrentRecord(s, record.snapshot.pr).value;
       && Id(now.snapshot) == Id(record.snapshot)
       && (e.receiptId.Some? ==> e.receiptId.value in s.receipts && MatchesRecord(s, s.receipts[e.receiptId.value], now))
  }

  predicate UsesClosing(e: CheckEvent) {
    e.phase == Some(Closed) || !e.closing.NoClosing?
  }

  /** The pull request is closed, as the event recorded it and with the snapshot's head. */
  predicate ClosedAsRecorded(e: CheckEvent, n: Snapshot, f: Facts) {
    && f.pull.state == "closed"
    && match e.closing
       case NoClosing => f.pull.head == n.head && f.pull.authorId == n.authorId
       case Malformed => false
       case Closing(state, head, base, authorId, merged, closedAt) =>
         && state == "closed"
         && f.merged == merged && f.pull.head == head == n.head && f.pull.authorId == authorId == n.authorId
         && (!f.merged ==> f.pull.base == base == n.base)
         && (closedAt.Some? ==> f.closedAt == closedAt)
  }

  predicate ReceiptMatchesClosed(s: State, r: Receipt, record: Record, pull: Pull) {
    && r.verifiedAt.Some? && MatchesRecord(s, r, record)
    && pull.state == "closed" && pull.head == r.head && pull.head == record.snapshot.head
    && pull.authorId == record.snapshot.authorId
  }

  // ----- delivery -----

  /** Phase and receipt that the delivery settles on, if it goes on at all. */
  function Shown(s: State, e: CheckEvent, record: Record, w: World): Option<(Phase, Option<Receipt>)> {
    if UsesClosing(e) then
      if !ClosedAsRecorded(e, record.snapshot, w.first) || !EventIsCurrent(s, e, record) then None
      else ClosedDelivery(s, record, w.failed, w.first.pull, e.phase)
    else if !EventIsCurrent(s, e, record) then None
    else
      var (phase, receipt) := Projection(s, record, w.failed);
      if PullCurrent(record.snapshot, w.first.pull) then
        if BindingOf(w.read) == BindingOf(record.snapshot) then Some((phase, receipt)) else None
      else if phase.Verified? && receipt.Some? && ClosedAsRecorded(e, record.snapshot, w.second)
              && ReceiptMatchesClosed(s, receipt.value, record, w.second.pull) then Some((phase, receipt))
      else None
  }

  function RecordFor(s: State, e: CheckEvent): Option<Record> {
    match e.snapshotId
    case None => CurrentRecord(s, e.pr)
    case Some(id) => Lookup(s.snapshots, id)
  }

  function CheckFor(s: State, e: CheckEvent, w: World): Option<Call> {
    if !w.checksEnabled || !s.settings.canPublish || RecordFor(s, e).None? then None
    else
      var record := RecordFor(s, e).value;
      match Shown(s, e, record, w)
      case None => None
      case Some((phase, receipt)) =>
        if phase.Verified? && (receipt.None? || receipt.value.verifiedAt.None? || !CurrentReceipt(s, receipt.value, record))
        then None else Some(Call(record.snapshot, phase, receipt))
  }

  // ----- what a success rests on -----

  /** A verified receipt that is the current one of its pull request, with its evidence on record. */
  ghost predicate Backed(s: State, r: Receipt, n: Snapshot) {
    && VerifiedIn(s.log, r) && ReceiptGate.Answered(s.log, r)
    && CurrentRecord(s, n.pr).Some?
    && var now := CurrentRecord(s, n.pr).value;
       r.key.snapshotId == Id(n) == Id(now.snapshot) && r.key.version == VersionOf(now) && r.head == n.head
  }

  lemma ShownIsStored(s: State, e: CheckEvent, record: Record, w: World)
    requires Shown(s, e, record, w).Some?
    ensures EventIsCurrent(s, e, record)
    ensures var receipt := Shown(s, e, record, w).value.1; receipt.Some? ==> receipt == CurrentReceiptOf(s, record)
  {
  }

  lemma SuccessIsBacked(s: State, e: CheckEvent, w: World)
    requires Earned(s) && CheckFor(s, e, w).Some? && Conclusion(CheckFor(s, e, w).value.phase) == Some("success")
    ensures var call := CheckFor(s, e, w).value; call.receipt.Some? && Backed(s, call.receipt.value, call.snapshot)
  {
    var record := RecordFor(s, e).value;
    ShownIsStored(s, e, record, w);
    var r := CheckFor(s, e, w).value.receipt.value;
    assert r.key in s.receipts && s.receipts[r.key] == r;
  }

  /** The receipt that a record calls for, if it is stored and verified. */
  ghost predicate HasPassed(s: State, record: Record, key: ReceiptKey) {
    var n := record.snapshot;
    && n.repo == s.settings.repo && n.repoId == s.settings.repoId
    && key == ReceiptKey(Sha(n), Sha(record.questions), n.authorId, s.settings.appId, s.settings.installationId, s.settings.generation)
    && key in s.receipts && s.receipts[key].verifiedAt.Some?
  }

  /** Closed on the snapshot's head by its author, as the event recorded it. */
  ghost predicate ClosedWell(e: CheckEvent, n: Snapshot, f: Facts) {
    && f.pull.state == "closed" && f.pull.head == n.head && f.pull.authorId == n.authorId && !e.closing.Malformed?
    && (e.closing.Closing? ==>
          && e.closing.state == "closed" && e.closing.head == n.head && e.closing.authorId == n.authorId
          && e.closing.merged == f.merged && (f.merged || (f.pull.base == n.base && e.closing.base == n.base))
          && (e.closing.closedAt.None? || e.closing.closedAt == f.closedAt))
  }

  /** What was read of the pull request lets a success stand. */
  ghost predicate PullStands(s: State, e: CheckEvent, record: Record, w: World) {
    var n := record.snapshot;
    if e.phase == Some(Closed) then ClosedWell(e, n, w.first)
    else
      && record.pending && n.triggered && |record.questions| == s.settings.questionCount
      && if !e.closing.NoClosing? then e.phase == Some(Phase.Verified) && ClosedWell(e, n, w.first)
         else if StillOpen(n, w.first.pull) then w.read == n
         else ClosedWell(e, n, w.second)
  }

  /** The event is of this generation and about the current record. */
  ghost predicate About(s: State, e: CheckEvent, record: Record, key: ReceiptKey) {
    var n := record.snapshot;
    && e.generation == s.settings.generation && e.pr == n.pr && (e.receiptId.None? || e.receiptId == Some(key))
    && n.pr in s.current && s.current[n.pr] in s.snapshots
    && s.snapshots[s.current[n.pr]].snapshot == n && s.snapshots[s.current[n.pr]].questions == record.questions
  }

  lemma CurrentReceiptIsKey(s: State, record: Record, key: ReceiptKey)
    requires Earned(s) && key == KeyFor(s, record, record.snapshot.authorId)
    ensures CurrentReceiptOf(s, record).Some? && CurrentReceiptOf(s, record).value.verifiedAt.Some? <==> HasPassed(s, record, key)
    ensures CurrentReceiptOf(s, record).Some? ==> CurrentReceiptOf(s, record).value == s.receipts[key] && s.receipts[key].key == key
  {
    if key in s.receipts {
      MatchIsKey(s, s.receipts[key], record);
    }
  }

  lemma AboutIff(s: State, e: CheckEvent, record: Record, key: ReceiptKey)
    requires Earned(s) && HasPassed(s, record, key)
    ensures About(s, e, record, key) <==> EventIsCurrent(s, e, record) && CurrentReceipt(s, s.receipts[key], record)
  {
    var n := record.snapshot;
    if CurrentRecord(s, n.pr).Some? {
      var now := CurrentRecord(s, n.pr).value;
      MatchIsKey(s, s.receipts[key], record);
      MatchIsKey(s, s.receipts[key], now);
      if e.receiptId.Some? && e.receiptId.value in s.receipts {
        MatchIsKey(s, s.receipts[e.receiptId.value], now);
      }
    }
  }

  lemma ShownStands(s: State, e: CheckEvent, record: Record, w: World, key: ReceiptKey)
    requires Earned(s) && HasPassed(s, record, key) && EventIsCurrent(s, e, record)
    ensures Shown(s, e, record, w).Some? && Shown(s, e, record, w).value.0.Verified? <==> PullStands(s, e, record, w)
    ensures Shown(s, e, record, w).Some? && Shown(s, e, record, w).value.0.Verified? ==>
              Shown(s, e, record, w).value.1 == Some(s.receipts[key])
  {
    CurrentReceiptIsKey(s, record, key);
    MatchIsKey(s, s.receipts[key], record);
  }

  /**
   * Exactly when a check concludes success: checks and publishing are on, the event is of this generation and about
   * the current record, the record's receipt is verified, and the pull request is open and unchanged or closed on
   * the snapshot's head as the event says.
   */
  lemma SuccessIff(s: State, e: CheckEvent, w: World)
    requires Earned(s)
    ensures (CheckFor(s, e, w).Some? && Conclusion(CheckFor(s, e, w).value.phase) == Some("success")) <==>
              && w.checksEnabled && s.settings.canPublish && RecordFor(s, e).Some?
              && var record := RecordFor(s, e).value; var key := KeyFor(s, record, record.snapshot.authorId);
                 HasPassed(s, record, key) && About(s, e, record, key) && PullStands(s, e, record, w)
  {
    if RecordFor(s, e).Some? {
      var record := RecordFor(s, e).value;
      var key := KeyFor(s, record, record.snapshot.authorId);
      CurrentReceiptIsKey(s, record, key);
      if HasPassed(s, record, key) {
        AboutIff(s, e, record, key);
        if EventIsCurrent(s, e, record) {
          ShownStands(s, e, record, w, key);
        }
      }
      if Shown(s, e, record, w).Some? {
        ShownIsStored(s, e, record, w);
      }
    }
  }

  /** Which phase an open pull request is shown in. */
  lemma PhaseIff(s: State, record: Record, failed: set<SnapshotId>)
    requires Earned(s)
    ensures var phase := Projection(s, record, failed).0; var key := KeyFor(s, record, record.snapshot.authorId);
            var asked := record.pending && record.snapshot.triggered;
            var ready := |record.questions| == s.settings.questionCount;
            && (phase.Neutral? <==> !asked)
            && (phase.Failing? <==> asked && !ready && Id(record.snapshot) in failed)
            && (phase.Preparing? <==> asked && !ready && Id(record.snapshot) !in failed)
            && (phase.Verified? <==> asked && ready && HasPassed(s, record, key))
            && (phase.AwaitingAuthor? <==> asked && ready && CurrentReceiptOf(s, record).None?)
  {
    CurrentReceiptIsKey(s, record, KeyFor(s, record, record.snapshot.authorId));
  }

  /** A closed pull request is shown, as verified or as closed, whenever the event says that it was closed as it is. */
  lemma ClosedIsShown(s: State, e: CheckEvent, w: World)
    requires Earned(s) && w.checksEnabled && s.settings.canPublish && RecordFor(s, e).Some? && e.phase == Some(Closed)
    requires var record := RecordFor(s, e).value;
             && ClosedWell(e, record.snapshot, w.first) && EventIsCurrent(s, e, record)
             && CurrentRecord(s, record.snapshot.pr) == Some(record)
    ensures var record := RecordFor(s, e).value;
            CheckFor(s, e, w).Some? && CheckFor(s, e, w).value.phase
            == if HasPassed(s, record, KeyFor(s, record, record.snapshot.authorId)) then Phase.Verified else Closed
  {
    var record := RecordFor(s, e).value;
    var key := KeyFor(s, record, record.snapshot.authorId);
    CurrentReceiptIsKey(s, record, key);
    if key in s.receipts {
      MatchIsKey(s, s.receipts[key], record);
    }
  }

  /**
   * Whatever a check shows, its event is of this generation and about the snapshot that is current, and the pull
   * request is open and unchanged, or closed on the snapshot's head as the event says.
   */
  lemma ShownMatchesPull(s: State, e: CheckEvent, w: World)
    requires CheckFor(s, e, w).Some?
    ensures var call := CheckFor(s, e, w).value; var n := call.snapshot;
            && w.checksEnabled && s.settings.canPublish && e.generation == s.settings.generation && e.pr == n.pr
            && CurrentRecord(s, n.pr).Some? && CurrentRecord(s, n.pr).value.snapshot == n
            && if e.phase == Some(Closed) || !e.closing.NoClosing? then ClosedWell(e, n, w.first)
               else || (StillOpen(n, w.first.pull) && w.read == n)
                    || (call.phase.Verified? && ClosedWell(e, n, w.second))
  {
    ShownIsStored(s, e, RecordFor(s, e).value, w);
  }

  /** For an event about a closed pull request nothing is shown but its success or, when that is asked for, its closing. */
  lemma ClosedShowsItsEnd(s: State, e: CheckEvent, w: World)
    requires Earned(s) && CheckFor(s, e, w).Some? && (e.phase == Some(Closed) || !e.closing.NoClosing?)
    ensures var call := CheckFor(s, e, w).value;
            && (call.phase.Verified? || (e.phase == Some(Closed) && call.phase.Closed?))
            && (e.phase == Some(Closed) || e.phase == Some(Phase.Verified))
            && (call.phase.Verified? <==> call.receipt.Some? && call.receipt.value.verifiedAt.Some?)
  {
    var record := RecordFor(s, e).value;
    ShownIsStored(s, e, record, w);
    var key := KeyFor(s, record, record.snapshot.authorId);
    CurrentReceiptIsKey(s, record, key);
    if key in s.receipts {
      MatchIsKey(s, s.receipts[key], record);
    }
  }

  /** The pull request was read with the receipt's head: open and unchanged, or closed on that head. */
  lemma SuccessMatchesPull(s: State, e: CheckEvent, w: World)
    requires CheckFor(s, e, w).Some? && CheckFor(s, e, w).value.phase.Verified?
    ensures var n := CheckFor(s, e, w).value.snapshot;
            || (PullCurrent(n, w.first.pull) && BindingOf(w.read) == BindingOf(n))
            || (exists f | f in {w.first, w.second} ::
                  f.pull.state == "closed" && f.pull.head == n.head && f.pull.authorId == n.authorId)
  {
    var record := RecordFor(s, e).value;
    ShownIsStored(s, e, record, w);
    assert w.first in {w.first, w.second} && w.second in {w.first, w.second};
  }

  /** Over any run: a check run concludes success only on a verified, current receipt with all its evidence. */
  lemma CheckSafety(settings: Settings, events: seq<Event>, e: CheckEvent, w: World)
    requires var s := Run(Empty(settings), events); CheckFor(s, e, w).Some?
    ensures var s := Run(Empty(settings), events); var call := CheckFor(s, e, w).value;
            Conclusion(call.phase) == Some("success") ==> call.receipt.Some? && Backed(s, call.receipt.value, call.snapshot)
  {
    RunKeepsInv(Empty(settings), events);
    var s := Run(Empty(settings), events);
    if Conclusion(CheckFor(s, e, w).value.phase) == Some("success") {
      SuccessIsBacked(s, e, w);
    }
  }

  /** For an open, unchanged pull request a current event concludes success exactly when the gate has been passed. */
  lemma OpenSuccessIff(s: State, e: CheckEvent, w: World)
    requires w.checksEnabled && s.settings.canPublish && RecordFor(s, e).Some? && !UsesClosing(e)
    requires e.snapshotId.Some? && CurrentRecord(s, e.pr) == RecordFor(s, e)
    requires var record := RecordFor(s, e).value;
             && EventIsCurrent(s, e, record) && PullCurrent(record.snapshot, w.first.pull)
             && BindingOf(w.read) == BindingOf(record.snapshot)
    ensures CheckFor(s, e, w).Some?
    ensures CheckFor(s, e, w).value.phase.Verified? <==> Prepared(s, RecordFor(s, e).value) && CurrentVerified(s, e.pr)
  {
  }

  // ----- phases over runs -----

  lemma StepKeepsSettings(s: State, e: Event)
    requires !e.Restart?
    ensures Step(s, e).settings == s.settings
  {
  }

  lemma {:induction false} RunKeepsSettings(s: State, events: seq<Event>)
    requires forall i | 0 <= i < |events| :: !events[i].Restart?
    ensures Run(s, events).settings == s.settings
    decreases |events|
  {
    if events != [] {
      StepKeepsSettings(s, events[0]);
      RunKeepsSettings(Step(s, events[0]), events[1..]);
    }
  }

  /** Until the settings change, a stored snapshot that has reached the verified phase never leaves it. */
  lemma VerifiedPhaseStays(s: State, events: seq<Event>, record: Record, failed: set<SnapshotId>, later: set<SnapshotId>)
    requires Projection(s, record, failed).0.Verified?
    requires forall i | 0 <= i < |events| :: !events[i].Restart?
    ensures Projection(Run(s, events), record, later).0.Verified?
  {
    RunKeepsSettings(s, events);
    VerifiedAtNeverChanges(s, events, KeyFor(s, record, record.snapshot.authorId));
  }
}
