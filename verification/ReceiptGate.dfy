/**
 * The gate: a pull request's snapshot gets questions, its author answers them, the answers are graded, a receipt
 * is stored, an independent `verify` marks it, and a status is sent (service.py, store.py). SHA-256 identities
 * are an injective constructor; GitHub, the grading model and the question generator are oracles that events carry.
 */
module ReceiptGate {
  import opened Basics
  import Texts

  /** An injective digest. */
  datatype Digest<T> = Sha(of: T)

  /** `choices` counts the choices of a multiple-choice question; 0 means free text. */
  datatype Question = Question(text: string, anchor: string, choices: nat)

  type Version = Digest<seq<Question>>

  /** `repo` is the case-folded name; `content` stands for everything else that the identity covers. */
  datatype Snapshot = Snapshot(
    repo: string, repoId: int, pr: int, head: string, base: string, policy: string, authorId: int,
    score: int, triggered: bool, content: string)

  type SnapshotId = Digest<Snapshot>

  datatype Binding = Binding(
    repoId: int, pr: int, head: string, base: string, policy: string, id: SnapshotId, score: int, triggered: bool)

  datatype Record = Record(snapshot: Snapshot, pending: bool, questions: seq<Question>)

  datatype RawAnswer = RawAnswer(id: int, text: string, choice: Option<int>)

  datatype Answer = Answer(id: nat, text: string, choice: Option<int>)

  /** A successful answer as a receipt keeps it. */
  datatype Kept = Kept(id: nat, anchor: string, text: string)

  /** The unique key of the receipts table; the random id of a row stands for it here. */
  datatype ReceiptKey = ReceiptKey(
    snapshotId: SnapshotId, version: Version, actorId: int, appId: int, installationId: int, generation: nat)

  datatype Receipt = Receipt(
    key: ReceiptKey, pr: int, repo: string, repoId: int, head: string, base: string, policy: string, answers: seq<Kept>,
    verifiedAt: Option<int>)

  datatype Settings = Settings(
    repo: string, repoId: int, appId: int, installationId: int, generation: nat, questionCount: nat, canPublish: bool)

  datatype Pull = Pull(state: string, head: string, base: string, authorId: int)

  datatype JobState = Running | NeedsFollowup | AwaitingVerification | Done | Failed(message: string)

  datatype Job = Job(
    record: Record, actorId: int, requestId: string, answers: seq<Answer>, feedback: seq<nat>, successful: seq<Kept>,
    state: JobState, receiptId: Option<ReceiptKey>)

  /**
   * What the outside world can have observed, in order. A verification and a status come with what was read for
   * them: the pull request, the snapshot built from it again, and for a status its event and the settings.
   */
  datatype Entry =
    | Passed(snapshotId: SnapshotId, version: Version, id: nat, text: string)
    | Verified(receipt: Receipt, submitted: Binding, stored: Binding, reread: Binding, at: int, seen: Pull)
    | Sent(head: string, success: bool, snapshot: Snapshot, evidence: Option<Receipt>,
           currentId: SnapshotId, currentVersion: Version, pull: Pull, read: Snapshot, event: StatusEvent, settings: Settings)

  datatype State = State(
    settings: Settings, snapshots: map<SnapshotId, Record>, current: map<int, SnapshotId>,
    receipts: map<ReceiptKey, Receipt>, jobs: map<nat, Job>, requests: map<(int, int, string), nat>, nextId: nat,
    log: seq<Entry>)

  datatype Verdict = Pass | Hold | Invalid

  datatype StatusKind = PendingStatus | NeutralStatus | SuccessStatus

  /** An outbox event that asks for a commit status; any contents are considered. */
  datatype StatusEvent = StatusEvent(
    kind: StatusKind, generation: nat, pr: int, snapshotId: Option<SnapshotId>, receiptId: Option<ReceiptKey>)

  const MAX_ACTIVE_JOBS: nat := 16
  const MAX_ANSWER_LENGTH: nat := 8000

  function Id(s: Snapshot): SnapshotId {
    Sha(s)
  }

  function VersionOf(r: Record): Version {
    Sha(r.questions)
  }

  function BindingOf(s: Snapshot): Binding {
    Binding(s.repoId, s.pr, s.head, s.base, s.policy, Id(s), s.score, s.triggered)
  }

  predicate PullCurrent(s: Snapshot, p: Pull) {
    p.state == "open" && p.authorId == s.authorId && p.head == s.head && p.base == s.base
  }

  // ----- submissions -----

  predicate AcceptableAnswer(a: RawAnswer, questions: seq<Question>) {
    && 0 <= a.id < |questions|
    && |a.text| <= MAX_ANSWER_LENGTH
    && (a.choice.Some? && questions[a.id].choices > 0 ==> 0 <= a.choice.value < questions[a.id].choices)
  }

  /** Every question is answered exactly once, within the limits. */
  ghost predicate Acceptable(raw: seq<RawAnswer>, questions: seq<Question>) {
    && |raw| == |questions|
    && (forall j | 0 <= j < |raw| :: AcceptableAnswer(raw[j], questions))
    && (forall i, j | 0 <= i < j < |raw| :: raw[i].id != raw[j].id)
  }

  function Insert(sorted: seq<Answer>, a: Answer): (r: seq<Answer>)
    ensures multiset(r) == multiset(sorted) + multiset{a}
  {
    if sorted == [] || a.id < sorted[0].id then [a] + sorted
    else
      assert sorted == [sorted[0]] + sorted[1..];
      [sorted[0]] + Insert(sorted[1..], a)
  }

  ghost predicate Increasing(s: seq<Answer>) {
    forall i, j | 0 <= i < j < |s| :: s[i].id < s[j].id
  }

  lemma {:induction false} InsertIncreases(sorted: seq<Answer>, a: Answer)
    requires Increasing(sorted) && forall i | 0 <= i < |sorted| :: sorted[i].id != a.id
    ensures Increasing(Insert(sorted, a)) && |Insert(sorted, a)| == |sorted| + 1
    ensures forall i | 0 <= i < |Insert(sorted, a)| :: Insert(sorted, a)[i] == a || Insert(sorted, a)[i] in sorted
  {
    if sorted != [] && sorted[0].id <= a.id {
      InsertIncreases(sorted[1..], a);
      assert forall x | x in sorted[1..] :: x in sorted && sorted[0].id < x.id;
    }
  }

  function SortById(s: seq<Answer>): seq<Answer> {
    if s == [] then [] else Insert(SortById(s[..|s| - 1]), s[|s| - 1])
  }

  lemma {:induction false} SortByIdIncreases(s: seq<Answer>)
    requires forall i, j | 0 <= i < j < |s| :: s[i].id != s[j].id
    ensures Increasing(SortById(s)) && |SortById(s)| == |s|
    ensures forall i | 0 <= i < |SortById(s)| :: SortById(s)[i] in s
  {
    if s != [] {
      SortByIdIncreases(s[..|s| - 1]);
      InsertIncreases(SortById(s[..|s| - 1]), s[|s| - 1]);
    }
  }

  lemma {:induction false} AtLeastIndex(s: seq<Answer>, n: nat, k: nat)
    requires Increasing(s) && |s| == n && (forall i | 0 <= i < |s| :: s[i].id < n) && k < n
    ensures s[k].id >= k
  {
    if k > 0 {
      AtLeastIndex(s, n, k - 1);
    }
  }

  lemma {:induction false} AtMostIndex(s: seq<Answer>, n: nat, k: nat)
    requires Increasing(s) && |s| == n && (forall i | 0 <= i < |s| :: s[i].id < n) && k < n
    ensures s[k].id <= k
    decreases n - k
  {
    if k < n - 1 {
      AtMostIndex(s, n, k + 1);
    }
  }

  /** The answers of a submission, in the order of the questions. */
  ghost predicate Arranged(answers: seq<Answer>, raw: seq<RawAnswer>, questions: seq<Question>) {
    && |answers| == |questions|
    && forall i | 0 <= i < |answers| :: answers[i].id == i && RawAnswer(i, answers[i].text, answers[i].choice) in raw
  }

  lemma DenseOrder(answers: seq<Answer>, raw: seq<RawAnswer>, questions: seq<Question>)
    requires Increasing(answers) && |answers| == |questions|
    requires forall i | 0 <= i < |answers| ::
               answers[i].id < |questions| && RawAnswer(answers[i].id, answers[i].text, answers[i].choice) in raw
    ensures Arranged(answers, raw, questions)
  {
    forall k | 0 <= k < |answers| ensures answers[k].id == k {
      AtLeastIndex(answers, |questions|, k);
      AtMostIndex(answers, |questions|, k);
    }
  }

  /** The first `j` answers have been checked and taken over; `seen` are their ids. */
  ghost predicate Taken(raw: seq<RawAnswer>, questions: seq<Question>, j: nat, seen: set<int>, normalized: seq<Answer>) {
    && |normalized| == j <= |raw|
    && (forall i | 0 <= i < j :: AcceptableAnswer(raw[i], questions) && raw[i].id in seen)
    && (forall i | 0 <= i < j :: raw[i] == RawAnswer(normalized[i].id, normalized[i].text, normalized[i].choice))
    && (forall i, k | 0 <= i < k < j :: raw[i].id != raw[k].id)
    && (forall x | x in seen :: exists i :: 0 <= i < j && raw[i].id == x)
  }

  lemma TakenMore(raw: seq<RawAnswer>, questions: seq<Question>, j: nat, seen: set<int>, normalized: seq<Answer>)
    requires Taken(raw, questions, j, seen, normalized) && j < |raw| && AcceptableAnswer(raw[j], questions) && raw[j].id !in seen
    ensures Taken(raw, questions, j + 1, seen + {raw[j].id}, normalized + [Answer(raw[j].id, raw[j].text, raw[j].choice)])
  {
    forall x | x in seen + {raw[j].id} ensures exists i :: 0 <= i < j + 1 && raw[i].id == x {
      if x in seen {
        var i :| 0 <= i < j && raw[i].id == x;
      }
    }
  }

  lemma TakenTwice(raw: seq<RawAnswer>, questions: seq<Question>, j: nat, seen: set<int>, normalized: seq<Answer>)
    requires Taken(raw, questions, j, seen, normalized) && j < |raw| && raw[j].id in seen
    ensures !Acceptable(raw, questions)
  {
    var i :| 0 <= i < j && raw[i].id == raw[j].id;
  }

  lemma TakenAll(raw: seq<RawAnswer>, questions: seq<Question>, seen: set<int>, normalized: seq<Answer>)
    requires Taken(raw, questions, |raw|, seen, normalized) && |raw| == |questions|
    ensures Acceptable(raw, questions) && Arranged(SortById(normalized), raw, questions)
  {
    forall i, j | 0 <= i < j < |normalized| ensures normalized[i].id != normalized[j].id {
      assert raw[i].id != raw[j].id;
    }
    SortByIdIncreases(normalized);
    forall k | 0 <= k < |normalized|
      ensures SortById(normalized)[k].id < |questions|
      ensures var a := SortById(normalized)[k]; RawAnswer(a.id, a.text, a.choice) in raw
    {
      var i :| 0 <= i < |normalized| && normalized[i] == SortById(normalized)[k];
      assert raw[i] in raw;
    }
    DenseOrder(SortById(normalized), raw, questions);
  }

  /** Accepts exactly the submissions that answer every question once, and puts them in question order. */
  method NormalizedSubmission(questions: seq<Question>, raw: seq<RawAnswer>) returns (r: Result<seq<Answer>, string>)
    ensures r.Ok? <==> Acceptable(raw, questions)
    ensures r.Ok? <==>
              && |raw| == |questions| && (forall i, j | 0 <= i < j < |raw| :: raw[i].id != raw[j].id)
              && forall j | 0 <= j < |raw| ::
                   && 0 <= raw[j].id < |questions| && |raw[j].text| <= 8000
                   && match raw[j].choice
                      case None => true
                      case Some(c) => questions[raw[j].id].choices == 0 || 0 <= c < questions[raw[j].id].choices
    ensures r.Ok? ==> Arranged(r.value, raw, questions)
  {
    if |raw| != |questions| {
      return Err("invalid_answers");
    }
    var seen: set<int> := {};
    var normalized: seq<Answer> := [];
    for j := 0 to |raw|
      invariant Taken(raw, questions, j, seen, normalized)
    {
      var a := raw[j];
      if !(0 <= a.id < |questions|) {
        return Err("invalid_answers");
      }
      if a.id in seen {
        TakenTwice(raw, questions, j, seen, normalized);
        return Err("invalid_answers");
      }
      if |a.text| > MAX_ANSWER_LENGTH {
        return Err("invalid_answers");
      }
      if a.choice.Some? && questions[a.id].choices > 0 && !(0 <= a.choice.value < questions[a.id].choices) {
        return Err("invalid_answers");
      }
      TakenMore(raw, questions, j, seen, normalized);
      normalized := normalized + [Answer(a.id, a.text, a.choice)];
      seen := seen + {a.id};
    }
    TakenAll(raw, questions, seen, normalized);
    return Ok(SortById(normalized));
  }

  // ----- the durable state -----

  function SaveSnapshot(s: State, snapshot: Snapshot, pending: bool, questions: seq<Question>): State {
    s.(snapshots := s.snapshots[Id(snapshot) := Record(snapshot, pending, questions)],
       current := s.current[snapshot.pr := Id(snapshot)])
  }

  /** `sync` of an open pull request; `generated` is None when the generation failed or the request changed meanwhile. */
  function Synced(s: State, read: Snapshot, regenerate: bool, generated: Option<seq<Question>>): State {
    var existing := Lookup(s.snapshots, Id(read));
    if !read.triggered then SaveSnapshot(s, read, false, [])
    else if regenerate && existing.Some? && (exists key | key in s.receipts :: key.snapshotId == Id(read)) then s
    else if existing.Some? && |existing.value.questions| == s.settings.questionCount && !regenerate then
      SaveSnapshot(s, read, true, existing.value.questions)
    else if generated.None? then SaveSnapshot(s, read, true, [])
    else SaveSnapshot(s, read, true, generated.value)
  }

  function KeyFor(s: State, r: Record, actorId: int): ReceiptKey {
    ReceiptKey(Id(r.snapshot), VersionOf(r), actorId, s.settings.appId, s.settings.installationId, s.settings.generation)
  }

  function ReceiptFor(s: State, r: Record, actorId: int, answers: seq<Kept>): Receipt {
    var n := r.snapshot;
    Receipt(KeyFor(s, r, actorId), n.pr, n.repo, n.repoId, n.head, n.base, n.policy, answers, None)
  }

  /** A receipt is stored once for its key; storing it again changes nothing. */
  function SavedReceipt(s: State, r: Receipt): State {
    if r.key in s.receipts then s else s.(receipts := s.receipts[r.key := r])
  }

  predicate MatchesSnapshot(s: State, r: Receipt, n: Snapshot) {
    && r.key.generation == s.settings.generation
    && r.repoId == n.repoId == s.settings.repoId && r.repo == n.repo == s.settings.repo
    && r.key.appId == s.settings.appId && r.key.installationId == s.settings.installationId
    && r.key.snapshotId == Id(n) && r.pr == n.pr && r.key.actorId == n.authorId
    && r.head == n.head && r.base == n.base && r.policy == n.policy
  }

  predicate MatchesRecord(s: State, r: Receipt, record: Record) {
    MatchesSnapshot(s, r, record.snapshot) && r.key.version == VersionOf(record)
  }

  function CurrentRecord(s: State, pr: int): Option<Record> {
    if pr in s.current then Lookup(s.snapshots, s.current[pr]) else None
  }

  predicate CurrentReceipt(s: State, r: Receipt, record: Record) {
    && MatchesRecord(s, r, record)
    && CurrentRecord(s, r.pr).Some? && MatchesRecord(s, r, CurrentRecord(s, r.pr).value)
  }

  // ----- verify -----

  function MarkVerified(r: Receipt, now: int): Receipt {
    if r.verifiedAt.Some? then r else r.(verifiedAt := Some(now))
  }

  /** `submitted` is None when the binding's keys are not exactly the expected ones. */
  predicate MayVerify(s: State, key: ReceiptKey, submitted: Option<Binding>, pull: Pull, read: Snapshot) {
    && key in s.receipts && key.snapshotId in s.snapshots
    && var record := s.snapshots[key.snapshotId];
       && submitted == Some(BindingOf(record.snapshot))
       && CurrentReceipt(s, s.receipts[key], record)
       && PullCurrent(record.snapshot, pull)
       && BindingOf(read) == BindingOf(record.snapshot)
  }

  function MarkJobs(jobs: map<nat, Job>, key: ReceiptKey): map<nat, Job> {
    map j | j in jobs :: if jobs[j].receiptId == Some(key) then jobs[j].(state := Done) else jobs[j]
  }

  function VerifiedBy(s: State, key: ReceiptKey, submitted: Option<Binding>, pull: Pull, read: Snapshot, now: int): State {
    if !MayVerify(s, key, submitted, pull, read) then s
    else
      var r := MarkVerified(s.receipts[key], now);
      var stored := BindingOf(s.snapshots[key.snapshotId].snapshot);
      s.(receipts := s.receipts[key := r],
         jobs := MarkJobs(s.jobs, key),
         log := s.log + [Verified(r, submitted.value, stored, BindingOf(read), r.verifiedAt.value, pull)])
  }

  // ----- delivery of a status -----

  predicate CurrentVerified(s: State, pr: int) {
    && CurrentRecord(s, pr).Some?
    && var record := CurrentRecord(s, pr).value;
       var key := KeyFor(s, record, record.snapshot.authorId);
       key in s.receipts && s.receipts[key].verifiedAt.Some? && MatchesRecord(s, s.receipts[key], record)
  }

  predicate PullAllowsSuccess(r: Receipt, n: Snapshot, pull: Pull, read: Snapshot) {
    if pull.state != "open" then pull.state == "closed" && pull.head == r.head && pull.head == n.head && pull.authorId == n.authorId
    else PullCurrent(n, pull) && BindingOf(read) == BindingOf(n)
  }

  /** The `set_status` call that a delivery makes, if it makes one. */
  function StatusFor(s: State, e: StatusEvent, pull: Pull, read: Snapshot): Option<Entry> {
    if e.generation != s.settings.generation || !s.settings.canPublish then None
    else if e.kind.SuccessStatus? then
      if e.receiptId.None? || e.receiptId.value !in s.receipts then None
      else
        var r := s.receipts[e.receiptId.value];
        if r.verifiedAt.None? || r.key.snapshotId !in s.snapshots then None
        else
          var record := s.snapshots[r.key.snapshotId];
          if !CurrentReceipt(s, r, record) || e.pr != r.pr || e.snapshotId != Some(r.key.snapshotId) then None
          else
            var now := CurrentRecord(s, r.pr).value;
            if now.snapshot != record.snapshot || VersionOf(now) != r.key.version then None
            else if !PullAllowsSuccess(r, record.snapshot, pull, read) then None
            else
              Some(Sent(record.snapshot.head, true, record.snapshot, Some(r), s.current[r.pr], VersionOf(now), pull, read, e,
                        s.settings))
    else if e.snapshotId.None? || e.snapshotId.value !in s.snapshots then None
    else
      var n := s.snapshots[e.snapshotId.value].snapshot;
      if CurrentRecord(s, n.pr).None? || CurrentRecord(s, n.pr).value.snapshot != n then None
      else if !PullCurrent(n, pull) || BindingOf(read) != BindingOf(n) || CurrentVerified(s, n.pr) then None
      else if e.kind.NeutralStatus? && n.triggered then None
      else
        var version := VersionOf(CurrentRecord(s, n.pr).value);
        Some(Sent(n.head, e.kind.NeutralStatus?, n, None, s.current[n.pr], version, pull, read, e, s.settings))
  }

  function Delivered(s: State, e: StatusEvent, pull: Pull, read: Snapshot): State {
    var call := StatusFor(s, e, pull, read);
    if call.Some? then s.(log := s.log + [call.value]) else s
  }

  // ----- jobs -----

  predicate Unanswered(q: Question, a: Answer) {
    Texts.Blank(a.text) || (q.choices > 0 && a.choice.None?)
  }

  function NextAnswer(j: Job): nat {
    |j.feedback| + |j.successful|
  }

  /** A job that failed shows nothing of its grading. */
  function Fail(j: Job, message: string): Job {
    j.(state := Failed(message), feedback := [], successful := [])
  }

  /** One turn of the grading loop; grading is asked only for an answer that was given. */
  function GradedOnce(j: Job, v: Verdict): Job
    requires NextAnswer(j) < |j.answers|
  {
    var a := j.answers[NextAnswer(j)];
    if a.id >= |j.record.questions| then Fail(j, "internal")
    else if Unanswered(j.record.questions[a.id], a) || v.Hold? then j.(feedback := j.feedback + [a.id])
    else if v.Invalid? then Fail(j, "grade_error")
    else j.(successful := j.successful + [Kept(a.id, j.record.questions[a.id].anchor, a.text)])
  }

  function GradeStep(s: State, job: nat, v: Verdict): State {
    if job !in s.jobs || !s.jobs[job].state.Running? || NextAnswer(s.jobs[job]) >= |s.jobs[job].answers| then s
    else
      var before := s.jobs[job];
      var after := GradedOnce(before, v);
      s.(jobs := s.jobs[job := after],
         log := if |after.successful| <= |before.successful| then s.log
                else s.log + [Passed(Id(before.record.snapshot), VersionOf(before.record),
                                     before.answers[NextAnswer(before)].id, before.answers[NextAnswer(before)].text)])
  }

  /** The last section of a job. */
  function Finished(s: State, job: nat, pull: Pull): State {
    if job !in s.jobs || !s.jobs[job].state.Running? || NextAnswer(s.jobs[job]) < |s.jobs[job].answers| then s
    else
      var j := s.jobs[job];
      var r := ReceiptFor(s, j.record, j.actorId, j.successful);
      if !PullCurrent(j.record.snapshot, pull) then s.(jobs := s.jobs[job := Fail(j, "stale")])
      else if j.feedback != [] then s.(jobs := s.jobs[job := j.(state := NeedsFollowup)])
      else if j.successful == [] then s.(jobs := s.jobs[job := Fail(j, "error")])
      else
        var n := SavedReceipt(s, r);
        n.(jobs := n.jobs[job := j.(state := if n.receipts[r.key].verifiedAt.Some? then Done else AwaitingVerification,
                                    receiptId := Some(r.key))])
  }

  predicate MaySubmit(s: State, pr: int, actorId: int, snapshotId: SnapshotId, pull: Pull) {
    && CurrentRecord(s, pr).Some?
    && var record := CurrentRecord(s, pr).value;
       && actorId == record.snapshot.authorId && Id(record.snapshot) == snapshotId
       && record.pending && |record.questions| == s.settings.questionCount
       && PullCurrent(record.snapshot, pull)
  }

  predicate Active(j: Job) {
    j.state.Running?
  }

  /** A submission that starts a job: `answers` are its normalized answers, `job` its number. */
  function Submitted(s: State, pr: int, actorId: int, requestId: string, answers: seq<Answer>): State
    requires CurrentRecord(s, pr).Some?
  {
    var j := Job(CurrentRecord(s, pr).value, actorId, requestId, answers, [], [], Running, None);
    s.(jobs := s.jobs[s.nextId := j], requests := s.requests[(pr, actorId, requestId) := s.nextId], nextId := s.nextId + 1)
  }

  /** The job has expired and is purged, whatever it was doing. */
  function Purged(s: State, job: nat): State {
    if job !in s.jobs then s
    else
      var j := s.jobs[job];
      s.(jobs := s.jobs - {job}, requests := s.requests - {(j.record.snapshot.pr, j.actorId, j.requestId)})
  }

  // ----- runs -----

  datatype Event =
    | Sync(read: Snapshot, regenerate: bool, generated: Option<seq<Question>>)
    | Submit(pr: int, actorId: int, snapshotId: SnapshotId, requestId: string, answers: seq<Answer>, pull: Pull)
    | Grade(job: nat, verdict: Verdict)
    | Finish(job: nat, pull: Pull)
    | Purge(job: nat)
    | Verify(key: ReceiptKey, submitted: Option<Binding>, pull: Pull, read: Snapshot, now: int)
    | Deliver(event: StatusEvent, pull: Pull, read: Snapshot)
    | Restart(settings: Settings)

  ghost predicate Covers(answers: seq<Answer>, questions: seq<Question>) {
    |answers| == |questions| && forall i | 0 <= i < |answers| :: answers[i].id == i
  }

  ghost function Step(s: State, e: Event): State {
    match e
    case Sync(read, regenerate, generated) => Synced(s, read, regenerate, generated)
    case Submit(pr, actorId, snapshotId, requestId, answers, pull) =>
      // NormalizedSubmission lets nothing else through.
      if MaySubmit(s, pr, actorId, snapshotId, pull) && Covers(answers, CurrentRecord(s, pr).value.questions)
      then Submitted(s, pr, actorId, requestId, answers) else s
    case Grade(job, v) => GradeStep(s, job, v)
    case Finish(job, pull) => Finished(s, job, pull)
    case Purge(job) => Purged(s, job)
    case Verify(key, submitted, pull, read, now) => VerifiedBy(s, key, submitted, pull, read, now)
    case Deliver(event, pull, read) => Delivered(s, event, pull, read)
    case Restart(settings) => s.(settings := settings, jobs := map[], requests := map[])
  }

  ghost function Run(s: State, events: seq<Event>): State
    decreases |events|
  {
    if events == [] then s else Run(Step(s, events[0]), events[1..])
  }

  function Empty(settings: Settings): State {
    State(settings, map[], map[], map[], map[], map[], 0, [])
  }

  // ----- what a receipt and a status rest on -----

  /** The log shows that every question of the receipt's version was answered, not with a blank, and passed. */
  ghost predicate Answered(log: seq<Entry>, r: Receipt) {
    var questions := r.key.version.of;
    && |r.answers| == |questions| > 0
    && forall i | 0 <= i < |questions| :: AnsweredAt(log, r, i)
  }

  ghost predicate AnsweredAt(log: seq<Entry>, r: Receipt, i: nat)
    requires i < |r.answers| && i < |r.key.version.of|
  {
    && r.answers[i].id == i && r.answers[i].anchor == r.key.version.of[i].anchor && !Texts.Blank(r.answers[i].text)
    && Passed(r.key.snapshotId, r.key.version, i, r.answers[i].text) in log
  }

  /** The pull request is open, by this author, and where the snapshot was taken. */
  ghost predicate StillOpen(n: Snapshot, pull: Pull) {
    pull.state == "open" && pull.authorId == n.authorId && pull.head == n.head && pull.base == n.base
  }

  /** The receipt is about its snapshot and by the snapshot's author. */
  ghost predicate Bound(r: Receipt) {
    var n := r.key.snapshotId.of;
    && r.pr == n.pr && r.repo == n.repo && r.repoId == n.repoId && r.key.actorId == n.authorId
    && r.head == n.head && r.base == n.base && r.policy == n.policy
  }

  /** A bound receipt matches a record exactly when it has the record's key, for an author of this repository. */
  lemma MatchIsKey(s: State, r: Receipt, record: Record)
    requires Bound(r)
    ensures var n := record.snapshot;
            MatchesRecord(s, r, record) <==>
              && n.repo == s.settings.repo && n.repoId == s.settings.repoId
              && r.key == ReceiptKey(Sha(n), Sha(record.questions), n.authorId, s.settings.appId, s.settings.installationId,
                                     s.settings.generation)
  {
  }

  /** A verification of this receipt, on three bindings of its snapshot. */
  ghost predicate IsVerification(e: Entry, r: Receipt) {
    e.Verified? && e.receipt == r && e.submitted == e.stored == e.reread == BindingOf(r.key.snapshotId.of)
  }

  /** Verified while the pull request was open and unchanged, after all questions had been answered. */
  ghost predicate ProperVerification(log: seq<Entry>, i: nat)
    requires i < |log|
  {
    var e := log[i];
    e.Verified? ==>
      && IsVerification(e, e.receipt) && e.receipt.verifiedAt == Some(e.at) && StillOpen(e.receipt.key.snapshotId.of, e.seen)
      && Bound(e.receipt) && Answered(log[..i], e.receipt)
  }

  /** The receipt was verified earlier in the log. */
  ghost predicate VerifiedIn(log: seq<Entry>, r: Receipt) {
    r.verifiedAt.Some? && exists i :: 0 <= i < |log| && IsVerification(log[i], r)
  }

  /** What every status rests on: its event, the settings, and the pull request and snapshot read for it. */
  ghost predicate SawPull(e: Entry)
    requires e.Sent?
  {
    && e.settings.canPublish && e.event.generation == e.settings.generation && e.event.snapshotId == Some(Id(e.snapshot))
    && e.head == e.snapshot.head && e.currentId == Id(e.snapshot)
    && e.pull.authorId == e.snapshot.authorId && e.pull.head == e.snapshot.head
    && (|| (e.pull.state == "open" && e.pull.base == e.snapshot.base && e.read == e.snapshot)
        || (e.pull.state == "closed" && e.success && e.evidence.Some?))
  }

  /** A success is sent on a receipt, or for a snapshot that needs none. */
  ghost predicate Founded(e: Entry)
    requires e.Sent?
  {
    && (e.success && e.snapshot.triggered ==> e.evidence.Some?)
    && (e.evidence.Some? ==>
          var r := e.evidence.value;
          && e.success && e.event.kind.SuccessStatus? && e.event.pr == e.snapshot.pr && e.event.receiptId == Some(r.key)
          && Bound(r) && r.key.snapshotId == Id(e.snapshot) && r.key.version == e.currentVersion
          && r.key.generation == e.settings.generation && r.key.appId == e.settings.appId
          && r.key.installationId == e.settings.installationId
          && r.repo == e.settings.repo && r.repoId == e.settings.repoId)
  }

  ghost predicate ProperStatus(log: seq<Entry>, i: nat)
    requires i < |log|
  {
    var e := log[i];
    e.Sent? ==> SawPull(e) && Founded(e) && (e.evidence.Some? ==> VerifiedIn(log[..i], e.evidence.value))
  }

  // ----- the invariant -----

  ghost predicate Stored(s: State) {
    forall id | id in s.snapshots :: Id(s.snapshots[id].snapshot) == id
  }

  ghost predicate Earned(s: State) {
    && (forall k | k in s.receipts :: s.receipts[k].key == k && Bound(s.receipts[k]) && Answered(s.log, s.receipts[k]))
    && (forall k | k in s.receipts && s.receipts[k].verifiedAt.Some? :: VerifiedIn(s.log, s.receipts[k]))
  }

  /** What grading has done to a running job so far. */
  ghost predicate Graded(log: seq<Entry>, j: Job) {
    && Covers(j.answers, j.record.questions) && j.actorId == j.record.snapshot.authorId
    && NextAnswer(j) <= |j.answers|
    && (j.feedback == [] ==> forall i | 0 <= i < |j.successful| :: GradedAt(log, j, i))
  }

  ghost predicate GradedAt(log: seq<Entry>, j: Job, i: nat)
    requires i < |j.successful| && i < |j.record.questions|
  {
    && j.successful[i].id == i && j.successful[i].anchor == j.record.questions[i].anchor && !Texts.Blank(j.successful[i].text)
    && Passed(Id(j.record.snapshot), VersionOf(j.record), i, j.successful[i].text) in log
  }

  ghost predicate JobsGraded(s: State) {
    forall j | j in s.jobs :: s.jobs[j].state.Running? ==> Graded(s.log, s.jobs[j])
  }

  ghost predicate LogProper(log: seq<Entry>) {
    forall i | 0 <= i < |log| :: ProperVerification(log, i) && ProperStatus(log, i)
  }

  ghost predicate Inv(s: State) {
    Stored(s) && Earned(s) && JobsGraded(s) && LogProper(s.log)
  }

  lemma AnsweredGrows(log: seq<Entry>, e: Entry, r: Receipt)
    requires Answered(log, r)
    ensures Answered(log + [e], r)
  {
    forall i | 0 <= i < |r.answers| ensures AnsweredAt(log + [e], r, i) {
      assert AnsweredAt(log, r, i);
    }
  }

  lemma VerifiedGrows(log: seq<Entry>, e: Entry, r: Receipt)
    requires VerifiedIn(log, r)
    ensures VerifiedIn(log + [e], r)
  {
    var i :| 0 <= i < |log| && IsVerification(log[i], r);
    assert (log + [e])[i] == log[i];
  }

  lemma GradedGrows(log: seq<Entry>, e: Entry, j: Job)
    requires Graded(log, j)
    ensures Graded(log + [e], j)
  {
    if j.feedback == [] {
      forall i | 0 <= i < |j.successful| ensures GradedAt(log + [e], j, i) {
        assert GradedAt(log, j, i);
      }
    }
  }

  lemma LogGrows(s: State, e: Entry)
    requires Inv(s) && ProperVerification(s.log + [e], |s.log|) && ProperStatus(s.log + [e], |s.log|)
    ensures Inv(s.(log := s.log + [e]))
  {
    var log := s.log + [e];
    forall i | 0 <= i < |log| ensures ProperVerification(log, i) && ProperStatus(log, i) {
      if i < |s.log| {
        assert log[..i] == s.log[..i];
        assert ProperVerification(s.log, i) && ProperStatus(s.log, i);
      }
    }
    forall k | k in s.receipts ensures Answered(log, s.receipts[k]) {
      AnsweredGrows(s.log, e, s.receipts[k]);
    }
    forall k | k in s.receipts && s.receipts[k].verifiedAt.Some? ensures VerifiedIn(log, s.receipts[k]) {
      VerifiedGrows(s.log, e, s.receipts[k]);
    }
    forall j | j in s.jobs && s.jobs[j].state.Running? ensures Graded(log, s.jobs[j]) {
      GradedGrows(s.log, e, s.jobs[j]);
    }
  }

  lemma SaveKeepsInv(s: State, n: Snapshot, pending: bool, questions: seq<Question>)
    requires Inv(s)
    ensures Inv(SaveSnapshot(s, n, pending, questions))
  {
  }

  lemma SyncKeepsInv(s: State, read: Snapshot, regenerate: bool, generated: Option<seq<Question>>)
    requires Inv(s)
    ensures Inv(Synced(s, read, regenerate, generated))
  {
    SaveKeepsInv(s, read, false, []);
    SaveKeepsInv(s, read, true, []);
    if Id(read) in s.snapshots {
      SaveKeepsInv(s, read, true, s.snapshots[Id(read)].questions);
    }
    if generated.Some? {
      SaveKeepsInv(s, read, true, generated.value);
    }
  }

  lemma GradeKeepsInv(s: State, job: nat, v: Verdict)
    requires Inv(s)
    ensures Inv(GradeStep(s, job, v))
  {
    if job in s.jobs && s.jobs[job].state.Running? && NextAnswer(s.jobs[job]) < |s.jobs[job].answers| {
      var before := s.jobs[job];
      var after := GradedOnce(before, v);
      var n := GradeStep(s, job, v);
      if |after.successful| > |before.successful| {
        var e := Passed(Id(before.record.snapshot), VersionOf(before.record),
                        before.answers[NextAnswer(before)].id, before.answers[NextAnswer(before)].text);
        LogGrows(s, e);
        GradedGrows(s.log, e, before);
        assert Graded(n.log, after) by {
          if after.feedback == [] {
            forall i | 0 <= i < |after.successful| ensures GradedAt(n.log, after, i) {
              assert i < |before.successful| ==> GradedAt(n.log, before, i);
            }
          }
        }
      }
    }
  }

  lemma SavedKeepsInv(s: State, r: Receipt)
    requires Inv(s) && Answered(s.log, r) && Bound(r) && r.verifiedAt.None?
    ensures Inv(SavedReceipt(s, r))
  {
  }

  lemma JobEndKeepsInv(s: State, job: nat, j: Job)
    requires Inv(s) && !j.state.Running?
    ensures Inv(s.(jobs := s.jobs[job := j]))
  {
  }

  lemma FinishKeepsInv(s: State, job: nat, pull: Pull)
    requires Inv(s)
    ensures Inv(Finished(s, job, pull))
  {
    if job in s.jobs && s.jobs[job].state.Running? && NextAnswer(s.jobs[job]) >= |s.jobs[job].answers| {
      var j := s.jobs[job];
      var r := ReceiptFor(s, j.record, j.actorId, j.successful);
      var n := Finished(s, job, pull);
      if PullCurrent(j.record.snapshot, pull) && j.feedback == [] && j.successful != [] {
        assert Graded(s.log, j);
        forall i | 0 <= i < |r.answers| ensures AnsweredAt(s.log, r, i) {
          assert GradedAt(s.log, j, i);
        }
        SavedKeepsInv(s, r);
        JobEndKeepsInv(SavedReceipt(s, r), job, n.jobs[job]);
      } else {
        JobEndKeepsInv(s, job, n.jobs[job]);
      }
    }
  }

  lemma VerifyKeepsInv(s: State, key: ReceiptKey, submitted: Option<Binding>, pull: Pull, read: Snapshot, now: int)
    requires Inv(s)
    ensures Inv(VerifiedBy(s, key, submitted, pull, read, now))
  {
    if MayVerify(s, key, submitted, pull, read) {
      var r := MarkVerified(s.receipts[key], now);
      var b := BindingOf(key.snapshotId.of);
      var e := Verified(r, b, b, b, r.verifiedAt.value, pull);
      assert Answered(s.log, s.receipts[key]);
      assert Answered(s.log, r) by {
        forall i | 0 <= i < |r.answers| ensures AnsweredAt(s.log, r, i) {
          assert AnsweredAt(s.log, s.receipts[key], i);
        }
      }
      assert (s.log + [e])[..|s.log|] == s.log;
      LogGrows(s, e);
      AnsweredGrows(s.log, e, r);
      assert IsVerification((s.log + [e])[|s.log|], r);
    }
  }

  lemma DeliverKeepsInv(s: State, event: StatusEvent, pull: Pull, read: Snapshot)
    requires Inv(s)
    ensures Inv(Delivered(s, event, pull, read))
  {
    var call := StatusFor(s, event, pull, read);
    if call.Some? {
      assert (s.log + [call.value])[..|s.log|] == s.log;
      LogGrows(s, call.value);
    }
  }

  lemma StepKeepsInv(s: State, e: Event)
    requires Inv(s)
    ensures Inv(Step(s, e))
  {
    match e
    case Sync(read, regenerate, generated) => SyncKeepsInv(s, read, regenerate, generated);
    case Grade(job, v) => GradeKeepsInv(s, job, v);
    case Finish(job, pull) => FinishKeepsInv(s, job, pull);
    case Verify(key, submitted, pull, read, now) => VerifyKeepsInv(s, key, submitted, pull, read, now);
    case Deliver(event, pull, read) => DeliverKeepsInv(s, event, pull, read);
    case _ =>
  }

  lemma {:induction false} RunKeepsInv(s: State, events: seq<Event>)
    requires Inv(s)
    ensures Inv(Run(s, events))
    decreases |events|
  {
    if events != [] {
      StepKeepsInv(s, events[0]);
      RunKeepsInv(Step(s, events[0]), events[1..]);
    }
  }

  // ----- what every run guarantees -----

  /**
   * A success status for a triggered snapshot is sent only on a receipt of its author that is still the current one,
   * that a `verify` marked on three equal bindings and an open, unchanged pull request earlier, and whose questions
   * had all been passed before that. When it is sent, the pull request has the snapshot's author and head, and is
   * either open with the same base and the same snapshot when read again, or closed.
   */
  lemma GateSafety(settings: Settings, events: seq<Event>, i: nat)
    requires i < |Run(Empty(settings), events).log|
    requires var e := Run(Empty(settings), events).log[i]; e.Sent? && e.success && e.snapshot.triggered
    ensures var log := Run(Empty(settings), events).log; var e := log[i];
            && e.evidence.Some? && e.head == e.snapshot.head && e.currentId == Id(e.snapshot)
            && e.pull.authorId == e.snapshot.authorId && e.pull.head == e.snapshot.head
            && ((e.pull.state == "open" && e.pull.base == e.snapshot.base && Id(e.read) == Id(e.snapshot)) || e.pull.state == "closed")
            && e.settings.canPublish && e.event.generation == e.settings.generation
            && var r := e.evidence.value;
               && r.key.snapshotId == Id(e.snapshot) && r.key.version == e.currentVersion && Bound(r)
               && r.key.generation == e.settings.generation
               && exists j :: 0 <= j < i && IsVerification(log[j], r) && VerifiedWell(log, j, r)
  {
    RunKeepsInv(Empty(settings), events);
    var log := Run(Empty(settings), events).log;
    assert ProperStatus(log, i);
    var r := log[i].evidence.value;
    var j :| 0 <= j < i && IsVerification(log[..i][j], r);
    assert log[j] == log[..i][j];
    assert ProperVerification(log, j);
    assert log[..i][..j] == log[..j];
  }

  /** At this verification the pull request was open and unchanged and every question had been answered and passed. */
  ghost predicate VerifiedWell(log: seq<Entry>, j: nat, r: Receipt)
    requires j < |log| && log[j].Verified?
  {
    r.verifiedAt == Some(log[j].at) && StillOpen(r.key.snapshotId.of, log[j].seen) && Answered(log[..j], r)
  }

  /** Any status, also a pending or a neutral one, is sent for what the pull request is at that time. */
  lemma StatusSawPull(settings: Settings, events: seq<Event>, i: nat)
    requires i < |Run(Empty(settings), events).log| && Run(Empty(settings), events).log[i].Sent?
    ensures var e := Run(Empty(settings), events).log[i]; SawPull(e) && Founded(e)
  {
    RunKeepsInv(Empty(settings), events);
    assert ProperStatus(Run(Empty(settings), events).log, i);
  }

  // ----- what each step does -----

  /** The questions are the record's, in the snapshot that its pull request has now. */
  ghost predicate IsCurrent(s: State, n: Snapshot, questions: seq<Question>) {
    && n.pr in s.current && s.current[n.pr] in s.snapshots
    && s.snapshots[s.current[n.pr]].snapshot == n && s.snapshots[s.current[n.pr]].questions == questions
  }

  /** The receipt of the snapshot's author for these questions, in this generation of this installation. */
  ghost predicate IsReceiptKey(s: State, key: ReceiptKey, n: Snapshot, questions: seq<Question>) {
    && n.repo == s.settings.repo && n.repoId == s.settings.repoId
    && key == ReceiptKey(Sha(n), Sha(questions), n.authorId, s.settings.appId, s.settings.installationId, s.settings.generation)
  }

  lemma CurrentReceiptIff(s: State, r: Receipt, record: Record)
    requires Bound(r)
    ensures CurrentReceipt(s, r, record) <==>
              IsReceiptKey(s, r.key, record.snapshot, record.questions) && IsCurrent(s, record.snapshot, record.questions)
  {
    MatchIsKey(s, r, record);
    if CurrentRecord(s, r.pr).Some? {
      MatchIsKey(s, r, CurrentRecord(s, r.pr).value);
    }
  }

  /** Exactly when `verify` marks a receipt. */
  lemma VerifyIff(s: State, key: ReceiptKey, submitted: Option<Binding>, pull: Pull, read: Snapshot)
    requires Inv(s)
    ensures MayVerify(s, key, submitted, pull, read) <==>
              && key in s.receipts && key.snapshotId in s.snapshots
              && var n := key.snapshotId.of; var questions := s.snapshots[key.snapshotId].questions;
                 && submitted == Some(Binding(n.repoId, n.pr, n.head, n.base, n.policy, Sha(n), n.score, n.triggered))
                 && IsReceiptKey(s, key, n, questions) && IsCurrent(s, n, questions) && StillOpen(n, pull) && read == n
  {
    if key in s.receipts && key.snapshotId in s.snapshots {
      CurrentReceiptIff(s, s.receipts[key], s.snapshots[key.snapshotId]);
    }
  }

  /** A verification marks this receipt with the first time, and ends the jobs that made it. */
  lemma VerifyMeans(s: State, key: ReceiptKey, submitted: Option<Binding>, pull: Pull, read: Snapshot, now: int, job: nat)
    requires MayVerify(s, key, submitted, pull, read)
    ensures var n := VerifiedBy(s, key, submitted, pull, read, now);
            && n.receipts.Keys == s.receipts.Keys && n.snapshots == s.snapshots && n.current == s.current && n.settings == s.settings
            && (forall k | k in s.receipts && k != key :: n.receipts[k] == s.receipts[k])
            && n.receipts[key].verifiedAt == (if s.receipts[key].verifiedAt.Some? then s.receipts[key].verifiedAt else Some(now))
            && n.receipts[key].answers == s.receipts[key].answers
            && n.jobs.Keys == s.jobs.Keys
            && (job in s.jobs ==> n.jobs[job].state == if s.jobs[job].receiptId == Some(key) then Done else s.jobs[job].state)
            && (job in s.jobs ==> n.jobs[job].(state := Done) == s.jobs[job].(state := Done))
  {
  }

  /** What was read of the pull request lets a success status be sent. */
  ghost predicate SuccessFits(n: Snapshot, pull: Pull, read: Snapshot) {
    && pull.authorId == n.authorId && pull.head == n.head
    && ((pull.state == "open" && pull.base == n.base && read == n) || pull.state == "closed")
  }

  /** Exactly when a success event sends its status. */
  lemma SuccessStatusIff(s: State, e: StatusEvent, pull: Pull, read: Snapshot)
    requires Inv(s) && e.kind.SuccessStatus?
    ensures StatusFor(s, e, pull, read).Some? <==>
              && e.generation == s.settings.generation && s.settings.canPublish
              && e.receiptId.Some? && e.receiptId.value in s.receipts && s.receipts[e.receiptId.value].verifiedAt.Some?
              && var id := e.receiptId.value.snapshotId;
                 && id in s.snapshots && e.snapshotId == Some(id) && e.pr == id.of.pr
                 && IsReceiptKey(s, e.receiptId.value, id.of, s.snapshots[id].questions)
                 && IsCurrent(s, id.of, s.snapshots[id].questions) && SuccessFits(id.of, pull, read)
    ensures StatusFor(s, e, pull, read).Some? ==> StatusFor(s, e, pull, read).value.success
  {
    if e.receiptId.Some? && e.receiptId.value in s.receipts && e.receiptId.value.snapshotId in s.snapshots {
      CurrentReceiptIff(s, s.receipts[e.receiptId.value], s.snapshots[e.receiptId.value.snapshotId]);
    }
  }

  /** Exactly when a pending or neutral event sends its status: never over a verified receipt. */
  lemma OtherStatusIff(s: State, e: StatusEvent, pull: Pull, read: Snapshot)
    requires Inv(s) && !e.kind.SuccessStatus?
    ensures StatusFor(s, e, pull, read).Some? <==>
              && e.generation == s.settings.generation && s.settings.canPublish
              && e.snapshotId.Some? && e.snapshotId.value in s.snapshots
              && var n := e.snapshotId.value.of;
                 && n.pr in s.current && s.current[n.pr] == Sha(n) && StillOpen(n, pull) && read == n
                 && (e.kind.NeutralStatus? ==> !n.triggered)
                 && forall key | key in s.receipts && IsReceiptKey(s, key, n, s.snapshots[Sha(n)].questions) ::
                      s.receipts[key].verifiedAt.None?
    ensures StatusFor(s, e, pull, read).Some? ==> (StatusFor(s, e, pull, read).value.success <==> e.kind.NeutralStatus?)
  {
    if e.snapshotId.Some? && e.snapshotId.value in s.snapshots {
      var record := s.snapshots[e.snapshotId.value];
      var key := KeyFor(s, record, record.snapshot.authorId);
      if key in s.receipts {
        MatchIsKey(s, s.receipts[key], record);
      }
    }
  }

  /** What was read becomes the current snapshot; its questions stay unless new ones are asked for and no receipt has them. */
  lemma SyncMeans(s: State, read: Snapshot, regenerate: bool, generated: Option<seq<Question>>)
    ensures var n := Synced(s, read, regenerate, generated); var existing := Lookup(s.snapshots, Sha(read));
            var answered := exists key | key in s.receipts :: key.snapshotId == Sha(read);
            if read.triggered && regenerate && existing.Some? && answered then n == s
            else
              && n == s.(snapshots := n.snapshots, current := s.current[read.pr := Sha(read)])
              && n.snapshots.Keys == s.snapshots.Keys + {Sha(read)}
              && (forall id | id in s.snapshots && id != Sha(read) :: n.snapshots[id] == s.snapshots[id])
              && n.snapshots[Sha(read)].snapshot == read && n.snapshots[Sha(read)].pending == read.triggered
              && var questions := n.snapshots[Sha(read)].questions;
                 if !read.triggered then questions == []
                 else if existing.Some? && |existing.value.questions| == s.settings.questionCount && !regenerate
                 then questions == existing.value.questions
                 else questions == if generated.Some? then generated.value else []
  {
  }

  /** A request for grading is from the author of the current snapshot, whose pull request is open and unchanged. */
  lemma SubmitMeans(s: State, pr: int, actorId: int, snapshotId: SnapshotId, requestId: string, answers: seq<Answer>, pull: Pull)
    requires Inv(s)
    ensures var e := Submit(pr, actorId, snapshotId, requestId, answers, pull); var n := Step(s, e);
            if && pr in s.current && s.current[pr] in s.snapshots && s.current[pr] == snapshotId
               && actorId == snapshotId.of.authorId && StillOpen(snapshotId.of, pull) && s.snapshots[snapshotId].pending
               && |answers| == |s.snapshots[snapshotId].questions| == s.settings.questionCount
               && forall i | 0 <= i < |answers| :: answers[i].id == i
            then
              && n.nextId == s.nextId + 1 && n.requests == s.requests[(pr, actorId, requestId) := s.nextId]
              && n.jobs == s.jobs[s.nextId := Job(s.snapshots[snapshotId], actorId, requestId, answers, [], [], Running, None)]
              && n.receipts == s.receipts && n.log == s.log && n.snapshots == s.snapshots && n.current == s.current
            else n == s
  {
  }

  /** An answer passes exactly when it was given and judged so; without an answer it is held whatever the verdict. */
  lemma GradeMeans(j: Job, v: Verdict)
    requires Covers(j.answers, j.record.questions) && NextAnswer(j) < |j.answers|
    ensures var a := j.answers[NextAnswer(j)]; var q := j.record.questions[NextAnswer(j)]; var n := GradedOnce(j, v);
            var given := !Texts.Blank(a.text) && (q.choices == 0 || a.choice.Some?);
            if given && v.Pass? then
              n == j.(successful := n.successful) && n.successful == j.successful + [Kept(NextAnswer(j), q.anchor, a.text)]
            else if given && v.Invalid? then n.state.Failed? && n.feedback == [] && n.successful == [] && n.receiptId == j.receiptId
            else n == j.(feedback := n.feedback) && n.feedback == j.feedback + [NextAnswer(j)]
  {
  }

  /** The job is graded and every answer passed, and the pull request is as it was. */
  ghost predicate Passes(j: Job, pull: Pull) {
    StillOpen(j.record.snapshot, pull) && j.feedback == [] && j.successful != []
  }

  /** A job that passed stores its receipt, unless it is stored already. */
  lemma FinishStores(s: State, job: nat, pull: Pull)
    requires Inv(s) && job in s.jobs && s.jobs[job].state.Running? && NextAnswer(s.jobs[job]) == |s.jobs[job].answers|
    requires Passes(s.jobs[job], pull)
    ensures var j := s.jobs[job]; var n := Finished(s, job, pull);
            var key := ReceiptKey(Sha(j.record.snapshot), Sha(j.record.questions), j.record.snapshot.authorId, s.settings.appId,
                                  s.settings.installationId, s.settings.generation);
            && n == s.(jobs := n.jobs, receipts := n.receipts) && key in n.receipts
            && (if key in s.receipts then n.receipts == s.receipts else n.receipts == s.receipts[key := n.receipts[key]])
            && (key !in s.receipts ==>
                  n.receipts[key].verifiedAt.None? && n.receipts[key].answers == j.successful && Bound(n.receipts[key]))
            && n.jobs == s.jobs[job := j.(
                 receiptId := Some(key), state := if n.receipts[key].verifiedAt.Some? then Done else AwaitingVerification)]
  {
    assert Graded(s.log, s.jobs[job]);
  }

  /** A job that did not pass stores nothing: its pull request changed, answers are missing, or there were none. */
  lemma FinishFails(s: State, job: nat, pull: Pull)
    requires job in s.jobs && s.jobs[job].state.Running? && NextAnswer(s.jobs[job]) == |s.jobs[job].answers|
    requires !Passes(s.jobs[job], pull)
    ensures var j := s.jobs[job]; var n := Finished(s, job, pull);
            && job in n.jobs && n == s.(jobs := s.jobs[job := n.jobs[job]]) && n.jobs[job].receiptId == j.receiptId
            && (n.jobs[job].state.NeedsFollowup? <==> StillOpen(j.record.snapshot, pull) && j.feedback != [])
            && (n.jobs[job].state.NeedsFollowup? ==> n.jobs[job] == j.(state := NeedsFollowup))
            && (n.jobs[job].state.Failed? <==> !StillOpen(j.record.snapshot, pull) || j.feedback == [])
            && (n.jobs[job].state.Failed? ==> n.jobs[job].feedback == [] && n.jobs[job].successful == [])
  {
  }

  /** A job that has expired is forgotten with its request and has no effect any more; nothing else is lost. */
  lemma PurgedJobIsForgotten(s: State, job: nat, v: Verdict, pull: Pull)
    requires job in s.jobs
    ensures var j := s.jobs[job]; var n := Step(s, Purge(job));
            && job !in n.jobs && (j.record.snapshot.pr, j.actorId, j.requestId) !in n.requests
            && (forall k | k in s.jobs && k != job :: k in n.jobs && n.jobs[k] == s.jobs[k])
            && (forall q | q in s.requests && q != (j.record.snapshot.pr, j.actorId, j.requestId) ::
                  q in n.requests && n.requests[q] == s.requests[q])
            && n == s.(jobs := n.jobs, requests := n.requests) && n.jobs.Keys <= s.jobs.Keys
            && Step(n, Grade(job, v)) == n && Step(n, Finish(job, pull)) == n
  {
  }

  /**
   * A restart keeps what is stored and forgets what was being graded. Under another generation no receipt from
   * before verifies or leads to a success any more.
   */
  lemma RestartKeepsReceipts(s: State, settings: Settings, key: ReceiptKey, submitted: Option<Binding>, pull: Pull, read: Snapshot)
    requires Inv(s) && key in s.receipts
    ensures var n := Step(s, Restart(settings));
            && n.settings == settings && n.jobs == map[] && n.requests == map[]
            && n.receipts == s.receipts && n.snapshots == s.snapshots && n.current == s.current && n.log == s.log
            && (key.generation != settings.generation || key.appId != settings.appId
                || key.installationId != settings.installationId ==>
                  && !MayVerify(n, key, submitted, pull, read)
                  && forall e: StatusEvent | e.kind.SuccessStatus? && e.receiptId == Some(key) :: StatusFor(n, e, pull, read).None?)
  {
  }

  /** Receipts are never dropped or rewritten; the only thing that happens to one is that it becomes verified, once. */
  ghost predicate OnlyVerified(a: Receipt, b: Receipt) {
    a.(verifiedAt := None) == b.(verifiedAt := None) && (a.verifiedAt.Some? ==> b.verifiedAt == a.verifiedAt)
  }

  lemma FinishKeepsReceipts(s: State, job: nat, pull: Pull, key: ReceiptKey)
    requires key in s.receipts
    ensures key in Finished(s, job, pull).receipts && Finished(s, job, pull).receipts[key] == s.receipts[key]
  {
  }

  lemma VerifyKeepsReceipts(s: State, key: ReceiptKey, submitted: Option<Binding>, pull: Pull, read: Snapshot, now: int, k: ReceiptKey)
    requires k in s.receipts
    ensures var n := VerifiedBy(s, key, submitted, pull, read, now); k in n.receipts && OnlyVerified(s.receipts[k], n.receipts[k])
  {
  }

  lemma StepKeepsReceipts(s: State, e: Event, key: ReceiptKey)
    requires key in s.receipts
    ensures key in Step(s, e).receipts && OnlyVerified(s.receipts[key], Step(s, e).receipts[key])
  {
    match e
    case Sync(read, regenerate, generated) => assert Synced(s, read, regenerate, generated).receipts == s.receipts;
    case Submit(_, _, _, _, _, _) => assert Step(s, e).receipts == s.receipts;
    case Grade(job, v) => assert GradeStep(s, job, v).receipts == s.receipts;
    case Finish(job, pull) => FinishKeepsReceipts(s, job, pull, key);
    case Purge(job) => assert Purged(s, job).receipts == s.receipts;
    case Verify(k, submitted, pull, read, now) => VerifyKeepsReceipts(s, k, submitted, pull, read, now, key);
    case Deliver(event, pull, read) => assert Delivered(s, event, pull, read).receipts == s.receipts;
    case Restart(_) => assert Step(s, e).receipts == s.receipts;
  }

  lemma {:induction false} VerifiedAtNeverChanges(s: State, events: seq<Event>, key: ReceiptKey)
    requires key in s.receipts
    ensures key in Run(s, events).receipts && OnlyVerified(s.receipts[key], Run(s, events).receipts[key])
    decreases |events|
  {
    if events != [] {
      StepKeepsReceipts(s, events[0], key);
      VerifiedAtNeverChanges(Step(s, events[0]), events[1..], key);
    }
  }

  function OneQuestionJob(n: Snapshot, q: Question, text: string, successful: seq<Kept>): Job {
    Job(Record(n, true, [q]), n.authorId, "r", [Answer(0, text, None)], [], successful, Running, None)
  }

  function Asked(settings: Settings, n: Snapshot, q: Question): State {
    State(settings, map[Id(n) := Record(n, true, [q])], map[n.pr := Id(n)], map[], map[], map[], 0, [])
  }

  function PassedState(settings: Settings, n: Snapshot, q: Question, text: string): State {
    Asked(settings, n, q).(
      jobs := map[0 := OneQuestionJob(n, q, text, [Kept(0, q.anchor, text)])], requests := map[(n.pr, n.authorId, "r") := 0],
      nextId := 1, log := [Passed(Id(n), Sha([q]), 0, text)])
  }

  lemma AnswerPasses(settings: Settings, n: Snapshot, q: Question, text: string, pull: Pull)
    requires n.triggered && q.choices == 0 && !Texts.Blank(text) && settings.questionCount == 1 && PullCurrent(n, pull)
    ensures Step(Empty(settings), Sync(n, false, Some([q]))) == Asked(settings, n, q)
    ensures Step(Step(Asked(settings, n, q), Submit(n.pr, n.authorId, Id(n), "r", [Answer(0, text, None)], pull)), Grade(0, Pass))
            == PassedState(settings, n, q, text)
  {
    var s := Step(Asked(settings, n, q), Submit(n.pr, n.authorId, Id(n), "r", [Answer(0, text, None)], pull));
    assert s.jobs == map[0 := OneQuestionJob(n, q, text, [])];
    assert [] + [Kept(0, q.anchor, text)] == [Kept(0, q.anchor, text)];
  }

  lemma PassIsPublished(settings: Settings, n: Snapshot, q: Question, text: string, pull: Pull, now: int)
    returns (verify: Event, deliver: Event)
    requires n.triggered && settings.canPublish && n.repo == settings.repo && n.repoId == settings.repoId && PullCurrent(n, pull)
    ensures var log := Step(Step(Step(PassedState(settings, n, q, text), Finish(0, pull)), verify), deliver).log;
            |log| == 3 && log[2].Sent? && log[2].success && log[2].snapshot == n
  {
    var s := PassedState(settings, n, q, text);
    var record := Record(n, true, [q]);
    var key := KeyFor(s, record, n.authorId);
    var finished := Step(s, Finish(0, pull));
    assert finished.receipts == map[key := ReceiptFor(s, record, n.authorId, [Kept(0, q.anchor, text)])];
    verify := Verify(key, Some(BindingOf(n)), pull, n, now);
    assert MayVerify(finished, key, Some(BindingOf(n)), pull, n);
    deliver := Deliver(StatusEvent(SuccessStatus, settings.generation, n.pr, Some(Id(n)), Some(key)), pull, n);
    var verified := Step(finished, verify);
    assert verified.receipts[key].verifiedAt == Some(now);
  }

  /** The way through the gate exists: one question, answered, passed, verified and published. */
  lemma GateOpens(settings: Settings, n: Snapshot, q: Question, text: string, now: int) returns (events: seq<Event>)
    requires n.triggered && q.choices == 0 && !Texts.Blank(text)
    requires settings.questionCount == 1 && settings.canPublish && n.repo == settings.repo && n.repoId == settings.repoId
    ensures var log := Run(Empty(settings), events).log;
            |log| == 3 && log[2].Sent? && log[2].success && log[2].snapshot == n
  {
    var pull := Pull("open", n.head, n.base, n.authorId);
    var sync := Sync(n, false, Some([q]));
    var submit := Submit(n.pr, n.authorId, Id(n), "r", [Answer(0, text, None)], pull);
    AnswerPasses(settings, n, q, text, pull);
    var verify, deliver := PassIsPublished(settings, n, q, text, pull, now);
    events := [sync, submit, Grade(0, Pass), Finish(0, pull), verify, deliver];
    RunSix(Empty(settings), sync, submit, Grade(0, Pass), Finish(0, pull), verify, deliver);
  }

  lemma RunSix(s: State, a: Event, b: Event, c: Event, d: Event, e: Event, f: Event)
    ensures Run(s, [a, b, c, d, e, f]) == Step(Step(Step(Step(Step(Step(s, a), b), c), d), e), f)
  {
    RunPrefix(s, [a], [b, c, d, e, f]);
    RunPrefix(Step(s, a), [b], [c, d, e, f]);
    RunPrefix(Step(Step(s, a), b), [c], [d, e, f]);
    RunPrefix(Step(Step(Step(s, a), b), c), [d], [e, f]);
    RunPrefix(Step(Step(Step(Step(s, a), b), c), d), [e], [f]);
  }

  lemma RunPrefix(s: State, first: seq<Event>, rest: seq<Event>)
    requires |first| == 1
    ensures Run(s, first + rest) == Run(Step(s, first[0]), rest)
  {
    assert (first + rest)[1..] == rest;
  }

  // ----- the code -----

  function GradeAll(s: State, job: nat, verdicts: seq<Verdict>): State {
    if verdicts == [] then s
    else GradeStep(GradeAll(s, job, verdicts[..|verdicts| - 1]), job, verdicts[|verdicts| - 1])
  }

  function RunningJobs(jobs: map<nat, Job>): set<nat> {
    set j | j in jobs && jobs[j].state.Running?
  }

  /** The lists of the grading loop; `log` gains the answers that were passed. */
  datatype Grading = Grading(feedback: seq<nat>, successful: seq<Kept>, log: seq<Entry>, failed: bool)

  /** One turn of the loop. */
  function Turn(record: Record, answers: seq<Answer>, g: Grading, v: Verdict): Grading
    requires Covers(answers, record.questions)
  {
    var k := |g.feedback| + |g.successful|;
    if g.failed || k >= |answers| then g
    else
      var a, q := answers[k], record.questions[answers[k].id];
      if Unanswered(q, a) || v.Hold? then g.(feedback := g.feedback + [a.id])
      else if v.Invalid? then g.(failed := true)
      else g.(successful := g.successful + [Kept(a.id, q.anchor, a.text)],
              log := g.log + [Passed(Id(record.snapshot), VersionOf(record), a.id, a.text)])
  }

  function GradingOf(record: Record, answers: seq<Answer>, log: seq<Entry>, verdicts: seq<Verdict>): Grading
    requires Covers(answers, record.questions)
  {
    if verdicts == [] then Grading([], [], log, false)
    else Turn(record, answers, GradingOf(record, answers, log, verdicts[..|verdicts| - 1]), verdicts[|verdicts| - 1])
  }

  lemma {:induction false} FailedGradingStays(record: Record, answers: seq<Answer>, log: seq<Entry>, verdicts: seq<Verdict>, k: nat)
    requires Covers(answers, record.questions) && k <= |verdicts| && GradingOf(record, answers, log, verdicts[..k]).failed
    ensures GradingOf(record, answers, log, verdicts) == GradingOf(record, answers, log, verdicts[..k])
    decreases |verdicts| - k
  {
    if k < |verdicts| {
      assert verdicts[..k + 1][..k] == verdicts[..k];
      FailedGradingStays(record, answers, log, verdicts, k + 1);
    } else {
      assert verdicts[..k] == verdicts;
    }
  }

  /** The grading loop of `_run_job_inner`; it answers None when a verdict was invalid. */
  method GradeAnswers(record: Record, answers: seq<Answer>, verdicts: seq<Verdict>, ghost log: seq<Entry>)
    returns (graded: Option<(seq<nat>, seq<Kept>)>, ghost g: Grading)
    requires Covers(answers, record.questions) && |verdicts| == |answers|
    ensures g == GradingOf(record, answers, log, verdicts) && (g.failed <==> graded.None?)
    ensures graded.Some? ==> graded.value == (g.feedback, g.successful)
    ensures graded.Some? ==> |graded.value.0| + |graded.value.1| == |answers|
  {
    var feedback: seq<nat> := [];
    var successful: seq<Kept> := [];
    g := Grading([], [], log, false);
    for k := 0 to |answers|
      invariant |feedback| + |successful| == k
      invariant g == GradingOf(record, answers, log, verdicts[..k]) && !g.failed
      invariant g.feedback == feedback && g.successful == successful
    {
      assert verdicts[..k + 1][..k] == verdicts[..k];
      g := Turn(record, answers, g, verdicts[k]);
      var a := answers[k];
      var q := record.questions[a.id];
      if Unanswered(q, a) || verdicts[k].Hold? {
        feedback := feedback + [a.id];
      } else if verdicts[k].Invalid? {
        FailedGradingStays(record, answers, log, verdicts, k + 1);
        return None, g;
      } else {
        successful := successful + [Kept(a.id, q.anchor, a.text)];
      }
    }
    assert verdicts[..|verdicts|] == verdicts;
    return Some((feedback, successful)), g;
  }

  // ----- the loop and the turns of the state machine -----

  function JobAt(j: Job, g: Grading): Job {
    if g.failed then Fail(j, "grade_error") else j.(feedback := g.feedback, successful := g.successful)
  }

  function Placed(s: State, job: nat, j: Job, g: Grading): State {
    s.(jobs := s.jobs[job := JobAt(j, g)], log := g.log)
  }

  lemma TurnOfJob(j: Job, g: Grading, v: Verdict)
    requires Covers(j.answers, j.record.questions) && !g.failed && |g.feedback| + |g.successful| < |j.answers|
    ensures var before := JobAt(j, g); var after := GradedOnce(before, v); var n := Turn(j.record, j.answers, g, v);
            && after == JobAt(j, n)
            && (|after.successful| <= |before.successful| ==> n.log == g.log)
            && (|after.successful| > |before.successful| ==>
                  var a := j.answers[NextAnswer(before)];
                  n.log == g.log + [Passed(Id(j.record.snapshot), VersionOf(j.record), a.id, a.text)])
  {
  }

  lemma TurnOfState(s: State, job: nat, j: Job, g: Grading, v: Verdict)
    requires j.state.Running? && Covers(j.answers, j.record.questions)
    ensures GradeStep(Placed(s, job, j, g), job, v) == Placed(s, job, j, Turn(j.record, j.answers, g, v))
  {
    if !g.failed && |g.feedback| + |g.successful| < |j.answers| {
      TurnOfJob(j, g, v);
    }
  }

  /** The loop computes what the single turns of a run compute. */
  lemma {:induction false} GradeAllIsGrading(s: State, job: nat, j: Job, verdicts: seq<Verdict>)
    requires job in s.jobs && s.jobs[job] == j && j.state.Running? && NextAnswer(j) == 0
    requires Covers(j.answers, j.record.questions)
    ensures GradeAll(s, job, verdicts) == Placed(s, job, j, GradingOf(j.record, j.answers, s.log, verdicts))
  {
    if verdicts == [] {
      PlacedAtFirst(s, job, j);
    } else {
      var front := verdicts[..|verdicts| - 1];
      GradeAllIsGrading(s, job, j, front);
      TurnOfState(s, job, j, GradingOf(j.record, j.answers, s.log, front), verdicts[|verdicts| - 1]);
    }
  }

  lemma PlacedAtFirst(s: State, job: nat, j: Job)
    requires job in s.jobs && s.jobs[job] == j && NextAnswer(j) == 0
    ensures Placed(s, job, j, Grading([], [], s.log, false)) == s
  {
    assert j.(feedback := [], successful := []) == j;
    assert s.jobs[job := j] == s.jobs;
  }

  /** When `submit` accepts: a new request needs a free place and an unchanged pull request, a repeated one its own job. */
  ghost predicate MaySend(
    s: State, pr: int, actorId: int, snapshotId: SnapshotId, requestId: string, raw: seq<RawAnswer>, pull: Pull)
  {
    && CurrentRecord(s, pr).Some?
    && var record := CurrentRecord(s, pr).value;
       && actorId == record.snapshot.authorId && Id(record.snapshot) == snapshotId
       && record.pending && |record.questions| == s.settings.questionCount
       && Acceptable(raw, record.questions) && 0 < |requestId| <= 200
       && if (pr, actorId, requestId) in s.requests then
            var job := s.requests[(pr, actorId, requestId)];
            && job in s.jobs && Id(s.jobs[job].record.snapshot) == snapshotId
            && Arranged(s.jobs[job].answers, raw, record.questions)
          else |RunningJobs(s.jobs)| < MAX_ACTIVE_JOBS && PullCurrent(record.snapshot, pull)
  }

  /** A submission has one arrangement. */
  lemma ArrangedIsUnique(a: seq<Answer>, b: seq<Answer>, raw: seq<RawAnswer>, questions: seq<Question>)
    requires Acceptable(raw, questions) && Arranged(b, raw, questions)
    ensures Arranged(a, raw, questions) <==> a == b
  {
    if Arranged(a, raw, questions) {
      forall i | 0 <= i < |a| ensures a[i] == b[i] {
        var j :| 0 <= j < |raw| && raw[j] == RawAnswer(i, a[i].text, a[i].choice);
        var k :| 0 <= k < |raw| && raw[k] == RawAnswer(i, b[i].text, b[i].choice);
        assert j == k;
      }
    }
  }

  class GateService {
    var settings: Settings
    var snapshots: map<SnapshotId, Record>
    var current: map<int, SnapshotId>
    var receipts: map<ReceiptKey, Receipt>
    var jobs: map<nat, Job>
    var requests: map<(int, int, string), nat>
    var nextId: nat
    ghost var log: seq<Entry>

    constructor (settings: Settings)
      ensures View() == Empty(settings) && Inv(View())
    {
      this.settings := settings;
      snapshots, current, receipts, jobs, requests, nextId, log := map[], map[], map[], map[], map[], 0, [];
    }

    ghost function View(): State
      reads this
    {
      State(settings, snapshots, current, receipts, jobs, requests, nextId, log)
    }

    /** `save_receipt`: the receipt with this key is stored already, or stored now and not verified. */
    method SaveReceipt(record: Record, actorId: int, answers: seq<Kept>) returns (key: Result<ReceiptKey, string>)
      modifies this`receipts
      ensures answers == [] ==> key.Err? && receipts == old(receipts)
      ensures answers != [] ==>
                && key == Ok(KeyFor(View(), record, actorId)) && key.value in receipts
                && View() == SavedReceipt(old(View()), ReceiptFor(old(View()), record, actorId, answers))
    {
      if answers == [] {
        return Err("successful answers must not be empty");
      }
      var n := record.snapshot;
      var k := ReceiptKey(Sha(n), Sha(record.questions), actorId, settings.appId, settings.installationId, settings.generation);
      if k !in receipts {
        receipts := receipts[k := Receipt(k, n.pr, n.repo, n.repoId, n.head, n.base, n.policy, answers, None)];
      }
      return Ok(k);
    }

    /** `mark_receipt_verified`: COALESCE keeps the time of the first verification. */
    method MarkReceiptVerified(key: ReceiptKey, now: int) returns (verifiedAt: Result<int, string>)
      modifies this`receipts
      ensures verifiedAt.Ok? <==> key in old(receipts) && key.generation == settings.generation
      ensures verifiedAt.Err? ==> receipts == old(receipts)
      ensures verifiedAt.Ok? ==> receipts == old(receipts)[key := MarkVerified(old(receipts)[key], now)]
      ensures verifiedAt.Ok? ==> receipts[key].verifiedAt == Some(verifiedAt.value)
      ensures verifiedAt.Ok? && old(receipts)[key].verifiedAt.Some? ==> receipts == old(receipts)
    {
      if key !in receipts || key.generation != settings.generation {
        return Err("receipt not found in current tenant generation");
      }
      if receipts[key].verifiedAt.None? {
        receipts := receipts[key := receipts[key].(verifiedAt := Some(now))];
      }
      return Ok(receipts[key].verifiedAt.value);
    }

    /** `verify`: the checks in the order of the code, each with its error. */
    method Verify(key: ReceiptKey, submitted: Option<Binding>, pull: Pull, read: Snapshot, now: int)
      returns (r: Result<int, string>)
      requires Earned(View())
      modifies this
      ensures r.Ok? <==> MayVerify(old(View()), key, submitted, pull, read)
      ensures View() == VerifiedBy(old(View()), key, submitted, pull, read, now)
      ensures r.Ok? ==> receipts[key].verifiedAt == Some(r.value)
      ensures r == Err("not_found") <==> key !in receipts || key.snapshotId !in snapshots
      ensures r == Err("invalid_binding") <==> key in receipts && key.snapshotId in snapshots && submitted.None?
    {
      if key !in receipts || key.snapshotId !in snapshots {
        return Err("not_found");
      }
      var record := snapshots[key.snapshotId];
      if submitted.None? {
        return Err("invalid_binding");
      }
      if submitted.value != BindingOf(record.snapshot) {
        return Err("stale");
      }
      if !CurrentReceipt(State(settings, snapshots, current, receipts, jobs, requests, nextId, []), receipts[key], record) {
        return Err("stale");
      }
      if !PullCurrent(record.snapshot, pull) {
        return Err("stale");
      }
      if BindingOf(read) != BindingOf(record.snapshot) {
        return Err("stale");
      }
      r := MarkReceiptVerified(key, now);
      jobs := MarkJobs(jobs, key);
      log := log + [Verified(receipts[key], submitted.value, BindingOf(record.snapshot), BindingOf(read), r.value, pull)];
    }

    /** `submit`: a repeated request finds its job; a new one needs a free place and an unchanged pull request. */
    method Submit(pr: int, actorId: int, snapshotId: SnapshotId, requestId: string, raw: seq<RawAnswer>, pull: Pull)
      returns (r: Result<nat, string>, ghost answers: seq<Answer>)
      modifies this
      ensures r.Ok? <==> MaySend(old(View()), pr, actorId, snapshotId, requestId, raw, pull)
      ensures r.Ok? ==> CurrentRecord(old(View()), pr).Some? && Arranged(answers, raw, CurrentRecord(old(View()), pr).value.questions)
      ensures r.Ok? && (pr, actorId, requestId) in old(requests) ==>
                && View() == old(View()) && r.value == requests[(pr, actorId, requestId)] && r.value in jobs
                && jobs[r.value].answers == answers && Id(jobs[r.value].record.snapshot) == snapshotId
      ensures r.Ok? && (pr, actorId, requestId) !in old(requests) ==>
                && MaySubmit(old(View()), pr, actorId, snapshotId, pull) && r.value == old(nextId)
                && |RunningJobs(old(jobs))| < 16
                && View() == Submitted(old(View()), pr, actorId, requestId, answers)
      ensures r.Err? ==> View() == old(View())
    {
      answers := [];
      if pr !in current || current[pr] !in snapshots {
        return Err("not_found"), answers;
      }
      var record := snapshots[current[pr]];
      if actorId != record.snapshot.authorId {
        return Err("forbidden"), answers;
      }
      if Id(record.snapshot) != snapshotId {
        return Err("stale"), answers;
      }
      if !record.pending {
        return Err("not_required"), answers;
      }
      if |record.questions| != settings.questionCount {
        return Err("not_ready"), answers;
      }
      var normalized := NormalizedSubmission(record.questions, raw);
      if normalized.Err? {
        return Err(normalized.error), answers;
      }
      answers := normalized.value;
      if |requestId| == 0 || |requestId| > 200 {
        return Err("invalid_request"), answers;
      }
      var key := (pr, actorId, requestId);
      if key in requests {
        var job := requests[key];
        if job in jobs {
          ArrangedIsUnique(jobs[job].answers, answers, raw, record.questions);
        }
        if job in jobs && Id(jobs[job].record.snapshot) == snapshotId && jobs[job].answers == normalized.value {
          return Ok(job), answers;
        }
        return Err("conflict"), answers;
      }
      if |RunningJobs(jobs)| >= MAX_ACTIVE_JOBS {
        return Err("busy"), answers;
      }
      if !PullCurrent(record.snapshot, pull) {
        return Err("stale"), answers;
      }
      var job := nextId;
      jobs := jobs[job := Job(record, actorId, requestId, normalized.value, [], [], Running, None)];
      requests := requests[key := job];
      nextId := nextId + 1;
      return Ok(job), answers;
    }

    /** `_run_job_inner` without interference. */
    method RunJob(job: nat, verdicts: seq<Verdict>, pull: Pull)
      requires Inv(View()) && job in jobs && jobs[job].state.Running? && NextAnswer(jobs[job]) == 0
      requires |verdicts| == |jobs[job].answers|
      modifies this
      ensures View() == Finished(GradeAll(old(View()), job, verdicts), job, pull)
    {
      var j := jobs[job];
      assert Graded(log, j);
      GradeAllIsGrading(View(), job, j, verdicts);
      var graded;
      ghost var g;
      graded, g := GradeAnswers(j.record, j.answers, verdicts, log);
      log := g.log;
      match graded
      case None => jobs := jobs[job := Fail(j, "grade_error")];
      case Some((feedback, successful)) =>
        jobs := jobs[job := j.(feedback := feedback, successful := successful)];
        EndJob(job, pull);
    }

    method EndJob(job: nat, pull: Pull)
      requires job in jobs && jobs[job].state.Running? && NextAnswer(jobs[job]) >= |jobs[job].answers|
      modifies this
      ensures View() == Finished(old(View()), job, pull)
    {
      var j := jobs[job];
      if !PullCurrent(j.record.snapshot, pull) {
        jobs := jobs[job := Fail(j, "stale")];
        return;
      }
      if j.feedback != [] {
        jobs := jobs[job := j.(state := NeedsFollowup)];
        return;
      }
      var key := SaveReceipt(j.record, j.actorId, j.successful);
      match key
      case Err(_) => jobs := jobs[job := Fail(j, "error")];
      case Ok(k) =>
        jobs := jobs[job := j.(state := if receipts[k].verifiedAt.Some? then Done else AwaitingVerification,
                               receiptId := Some(k))];
    }
  }
}
