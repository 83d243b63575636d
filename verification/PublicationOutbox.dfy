/**
 * The durable outbox of publications: queueing, delivery with retries, terminal failures and requeues
 * (store.py, service.py `flush_publications`). What a delivery attempt does in the outside world is an oracle.
 */
module PublicationOutbox {
  import opened Basics

  /** The prefix of an event id, which fixes the kinds that use the id. */
  datatype Family = Dispatch | Presentation | Status

  datatype EventId = EventId(family: Family, subject: string)

  datatype Kind =
    | VerifierDispatch
    | StartComment | SuccessComment | PresentationCard | PresentationCheck | PresentationCheckCancel
    | PendingStatus | NeutralStatus | SuccessStatus

  datatype Content = Content(kind: Kind, pr: int, snapshotId: Option<string>, receiptId: Option<string>, payload: string)

  datatype Failure = Failure(code: string, message: string)

  datatype Row = Row(
    content: Content, pending: bool, attempts: nat, due: int, updated: int, error: Option<Failure>,
    remote: Option<string>, generation: Option<nat>)

  datatype Request = Request(id: EventId, content: Content, due: Option<int>, requeueFailedSent: bool)

  /** What one call of `_deliver_event` ends in. `Raised` stands for every error that the loop does not handle. */
  datatype Outcome = Delivered(remote: string) | SnapshotInvalid | Failed(failure: Failure) | Outdated(code: string) | Raised

  /** `Attempt`: a delivery was attempted, and recorded in the row or not. `Reset`: the attempts were set to 0. */
  datatype Entry = Attempt(id: EventId, generation: Option<nat>, recorded: bool) | Reset(id: EventId)

  datatype State = State(rows: map<EventId, Row>, generation: Option<nat>, log: seq<Entry>)

  const MAX_ATTEMPTS: nat := 3

  function FamilyOf(k: Kind): Family {
    match k
    case VerifierDispatch => Dispatch
    case PendingStatus => Status
    case NeutralStatus => Status
    case SuccessStatus => Status
    case _ => Presentation
  }

  predicate Capped(f: Family) {
    f.Dispatch? || f.Presentation?
  }

  /** Requests that the service makes: presentation events alone ask to be requeued after a failure. */
  predicate Proper(q: Request) {
    FamilyOf(q.content.kind) == q.id.family && (q.requeueFailedSent <==> q.id.family.Presentation?)
  }

  // ----- the rows -----

  function NewRow(q: Request, now: int, generation: Option<nat>): Row {
    Row(q.content, true, 0, if q.due.Some? then q.due.value else now, now, None, None, generation)
  }

  /** A row that the request may fill again. */
  predicate Reopens(row: Row, q: Request) {
    row.pending || (q.requeueFailedSent && row.error.Some?)
  }

  function Refilled(row: Row, q: Request, now: int): Row {
    Row(q.content, true, if !row.pending && row.error.Some? then 0 else row.attempts,
        if q.due.Some? then q.due.value else now, now, None, None, row.generation)
  }

  /** Err means that the event id belongs to another tenant generation; then nothing changes. */
  function Queued(s: State, q: Request, now: int): Result<State, string> {
    if q.id !in s.rows then Ok(s.(rows := s.rows[q.id := NewRow(q, now, s.generation)]))
    else
      var row := s.rows[q.id];
      if row.generation != s.generation then Err("different tenant generation")
      else if !Reopens(row, q) then Ok(s)
      else Ok(s.(rows := s.rows[q.id := Refilled(row, q, now)],
                 log := if row.pending then s.log else s.log + [Reset(q.id)]))
  }

  function Sent(row: Row, now: int, remote: string): Row {
    row.(pending := false, attempts := row.attempts + 1, updated := now, remote := Some(remote), error := None)
  }

  function Retried(row: Row, now: int, due: int, failure: Failure): Row {
    row.(pending := true, attempts := row.attempts + 1, due := due, updated := now, error := Some(failure))
  }

  function Ended(row: Row, now: int, failure: Failure): Row {
    row.(pending := false, attempts := row.attempts + 1, updated := now, remote := Some("retry_exhausted"), error := Some(failure))
  }

  function TimedOut(row: Row, now: int): Row {
    row.(pending := true, due := now, updated := now, error := Some(Failure("verification_timeout", "retrying dispatch")))
  }

  function Power2(n: nat): nat {
    if n == 0 then 1 else 2 * Power2(n - 1)
  }

  /** Seconds until the next attempt. */
  function Backoff(attempt: nat): nat {
    var delay := 5 * Power2(if attempt >= 1 then attempt - 1 else 0);
    if delay < 5 then 5 else if delay > 300 then 300 else delay
  }

  // ----- one turn of the flush loop -----

  predicate Exhausted(id: EventId, row: Row) {
    Capped(id.family) && row.attempts >= MAX_ATTEMPTS
  }

  function RecordedFailure(id: EventId, row: Row, now: int, failure: Failure): Row {
    if Capped(id.family) && row.attempts + 1 >= MAX_ATTEMPTS then Ended(row, now, failure)
    else Retried(row, now, now + Backoff(row.attempts + 1), failure)
  }

  function Recorded(id: EventId, row: Row, now: int, outcome: Outcome): Row {
    match outcome
    case Delivered(remote) => Sent(row, now, remote)
    case SnapshotInvalid =>
      Retried(row, now, now + Backoff(row.attempts + 1), Failure("stored_snapshot_invalid", "Stored snapshot could not be restored."))
    case Failed(failure) => RecordedFailure(id, row, now, failure)
    case Outdated(code) => Sent(row, now, code)
    case Raised => row
  }

  function Exhaustion(row: Row): Failure {
    if row.error.Some? then row.error.value else Failure("retry_exhausted", "Delivery retry limit reached.")
  }

  function Flushed(s: State, id: EventId, now: int, outcome: Outcome): State
    requires id in s.rows
  {
    var row := s.rows[id];
    if row.generation != s.generation then s.(rows := s.rows[id := Sent(row, now, "stale_generation")])
    else if Exhausted(id, row) then s.(rows := s.rows[id := Ended(row, now, Exhaustion(row))])
    else State(s.rows[id := Recorded(id, row, now, outcome)], s.generation,
               s.log + [Attempt(id, row.generation, !outcome.Raised?)])
  }

  predicate Due(s: State, id: EventId, now: int) {
    id in s.rows && s.rows[id].pending && s.rows[id].due <= now
  }

  /** What `requeue_unverified_dispatches` selects. */
  predicate Stalled(s: State, id: EventId, sentBefore: int, unverified: set<string>) {
    && id in s.rows
    && var row := s.rows[id];
       && row.content.kind.VerifierDispatch? && !row.pending && row.updated <= sentBefore && row.attempts < MAX_ATTEMPTS
       && row.content.receiptId.Some? && row.content.receiptId.value in unverified && row.generation == s.generation
  }

  function Requeued(rows: map<EventId, Row>, chosen: set<EventId>, now: int): map<EventId, Row> {
    map id | id in rows :: if id in chosen then TimedOut(rows[id], now) else rows[id]
  }

  // ----- runs -----

  datatype Event =
    | Queue(request: Request, now: int)
    | Flush(id: EventId, now: int, outcome: Outcome)
    | Requeue(chosen: set<EventId>, now: int, sentBefore: int, unverified: set<string>)
    | Restart(generation: Option<nat>)

  predicate Enabled(s: State, e: Event) {
    match e
    case Queue(q, _) => Proper(q)
    case Flush(id, now, _) => Due(s, id, now)
    case Requeue(chosen, _, sentBefore, unverified) => forall id | id in chosen :: Stalled(s, id, sentBefore, unverified)
    case Restart(_) => true
  }

  function Step(s: State, e: Event): State {
    if !Enabled(s, e) then s
    else
      match e
      case Queue(q, now) => (match Queued(s, q, now) case Ok(n) => n case Err(_) => s)
      case Flush(id, now, outcome) => Flushed(s, id, now, outcome)
      case Requeue(chosen, now, _, _) => s.(rows := Requeued(s.rows, chosen, now))
      case Restart(generation) => s.(generation := generation)
  }

  function Run(s: State, events: seq<Event>): State
    decreases |events|
  {
    if events == [] then s else Run(Step(s, events[0]), events[1..])
  }

  function Empty(generation: Option<nat>): State {
    State(map[], generation, [])
  }

  // ----- counting deliveries -----

  predicate Counts(e: Entry, id: EventId) {
    e.Attempt? && e.id == id && e.recorded
  }

  function Total(log: seq<Entry>, id: EventId): nat {
    if log == [] then 0 else Total(log[..|log| - 1], id) + if Counts(log[|log| - 1], id) then 1 else 0
  }

  /** Recorded deliveries since the attempts of the event were last set to 0. */
  function Recent(log: seq<Entry>, id: EventId): nat {
    if log == [] || log[|log| - 1] == Reset(id) then 0
    else Recent(log[..|log| - 1], id) + if Counts(log[|log| - 1], id) then 1 else 0
  }

  ghost predicate RowInv(s: State, id: EventId) {
    && (id in s.rows ==> FamilyOf(s.rows[id].content.kind) == id.family && Recent(s.log, id) <= s.rows[id].attempts)
    && (id !in s.rows ==> Recent(s.log, id) == 0)
    && (Capped(id.family) ==> Recent(s.log, id) <= MAX_ATTEMPTS)
    && (id.family.Dispatch? ==> Total(s.log, id) == Recent(s.log, id))
  }

  ghost predicate Inv(s: State) {
    && (forall id :: RowInv(s, id))
    && (forall i | 0 <= i < |s.log| && s.log[i].Attempt? :: FirstSeen(s, s.log[i]))
  }

  /** An attempt was made for a row that still exists, by a process of the row's generation. */
  ghost predicate FirstSeen(s: State, e: Entry) {
    e.Attempt? ==> e.id in s.rows && e.generation == s.rows[e.id].generation
  }

  lemma LogStep(log: seq<Entry>, e: Entry, id: EventId)
    ensures Total(log + [e], id) == Total(log, id) + if Counts(e, id) then 1 else 0
    ensures Recent(log + [e], id) == if e == Reset(id) then 0 else Recent(log, id) + if Counts(e, id) then 1 else 0
  {
    assert (log + [e])[..|log|] == log;
  }

  lemma QueueKeepsRow(s: State, q: Request, now: int, id: EventId)
    requires Proper(q) && RowInv(s, id) && Queued(s, q, now).Ok?
    ensures RowInv(Queued(s, q, now).value, id)
  {
    LogStep(s.log, Reset(q.id), id);
  }

  lemma FlushKeepsRow(s: State, done: EventId, now: int, outcome: Outcome, id: EventId)
    requires done in s.rows && RowInv(s, id)
    ensures RowInv(Flushed(s, done, now, outcome), id)
  {
    LogStep(s.log, Attempt(done, s.rows[done].generation, !outcome.Raised?), id);
  }

  lemma StepKeepsRow(s: State, e: Event, id: EventId)
    requires RowInv(s, id)
    ensures RowInv(Step(s, e), id)
  {
    if Enabled(s, e) {
      if e.Queue? && Queued(s, e.request, e.now).Ok? {
        QueueKeepsRow(s, e.request, e.now, id);
      } else if e.Flush? {
        FlushKeepsRow(s, e.id, e.now, e.outcome, id);
      }
    }
  }

  lemma StepKeepsInv(s: State, e: Event)
    requires Inv(s)
    ensures Inv(Step(s, e))
  {
    forall id ensures RowInv(Step(s, e), id) {
      StepKeepsRow(s, e, id);
    }
    StepKeepsGenerations(s, e);
  }

  lemma StepKeepsGenerations(s: State, e: Event)
    requires forall i | 0 <= i < |s.log| && s.log[i].Attempt? :: FirstSeen(s, s.log[i])
    ensures var n := Step(s, e);
            && (forall id | id in s.rows :: id in n.rows && n.rows[id].generation == s.rows[id].generation)
            && (forall i | 0 <= i < |n.log| && n.log[i].Attempt? :: FirstSeen(n, n.log[i]))
  {
  }

  lemma {:induction false} RunKeepsInv(s: State, events: seq<Event>)
    requires Inv(s)
    ensures Inv(Run(s, events))
    decreases |events|
  {
    if events != [] {
      StepKeepsInv(s, events[0]);
      RunKeepsInv(Step(s, events[0]), events[1..]);
    }
  }

  // ----- what every run guarantees -----

  /** A dispatch is delivered three times at most in all; a presentation event three times at most per reset. */
  lemma DeliveryBound(generation: Option<nat>, events: seq<Event>, id: EventId)
    ensures var log := Run(Empty(generation), events).log;
            && (id.family.Dispatch? ==> Total(log, id) <= 3)
            && (id.family.Presentation? ==> Recent(log, id) <= 3)
  {
    RunKeepsInv(Empty(generation), events);
    assert RowInv(Run(Empty(generation), events), id);
  }

  /** Deliveries of an event, recorded or not. */
  function Attempts(log: seq<Entry>, id: EventId): nat {
    if log == [] then 0
    else Attempts(log[..|log| - 1], id) + if log[|log| - 1].Attempt? && log[|log| - 1].id == id then 1 else 0
  }

  /** How often delivering the event ended in an error that the loop does not handle. */
  function Raisings(events: seq<Event>, id: EventId): nat
    decreases |events|
  {
    if events == [] then 0
    else (if events[0].Flush? && events[0].id == id && events[0].outcome.Raised? then 1 else 0) + Raisings(events[1..], id)
  }

  lemma {:induction false} NoRaisings(events: seq<Event>, id: EventId)
    requires forall i | 0 <= i < |events| :: !(events[i].Flush? && events[i].id == id && events[i].outcome.Raised?)
    ensures Raisings(events, id) == 0
    decreases |events|
  {
    if events != [] {
      assert forall i | 0 <= i < |events[1..]| :: events[1..][i] == events[i + 1];
      NoRaisings(events[1..], id);
    }
  }

  lemma AttemptsStep(log: seq<Entry>, e: Entry, id: EventId)
    ensures Attempts(log + [e], id) == Attempts(log, id) + if e.Attempt? && e.id == id then 1 else 0
    ensures Total(log + [e], id) == Total(log, id) + if Counts(e, id) then 1 else 0
  {
    assert (log + [e])[..|log|] == log;
  }

  lemma StepAttempts(s: State, e: Event, id: EventId)
    ensures Attempts(Step(s, e).log, id) - Total(Step(s, e).log, id) <= Attempts(s.log, id) - Total(s.log, id) + Raisings([e], id)
  {
    if Enabled(s, e) {
      match e
      case Queue(q, now) => AttemptsStep(s.log, Reset(q.id), id);
      case Flush(done, now, outcome) => AttemptsStep(s.log, Attempt(done, s.rows[done].generation, !outcome.Raised?), id);
      case _ =>
    }
  }

  lemma {:induction false} UnrecordedAreRaised(s: State, events: seq<Event>, id: EventId)
    ensures Attempts(Run(s, events).log, id) - Total(Run(s, events).log, id)
            <= Attempts(s.log, id) - Total(s.log, id) + Raisings(events, id)
    decreases |events|
  {
    if events != [] {
      StepAttempts(s, events[0], id);
      UnrecordedAreRaised(Step(s, events[0]), events[1..], id);
      assert [events[0]][1..] == [];
      assert Raisings(events, id) == Raisings([events[0]], id) + Raisings(events[1..], id);
    }
  }

  /** All attempts of a dispatch: three at most, and one more for every error that the loop does not handle. */
  lemma AttemptBound(generation: Option<nat>, events: seq<Event>, id: EventId)
    requires id.family.Dispatch?
    ensures Attempts(Run(Empty(generation), events).log, id) <= 3 + Raisings(events, id)
  {
    DeliveryBound(generation, events, id);
    UnrecordedAreRaised(Empty(generation), events, id);
  }

  /** Only a queue request finds a presentation event that had failed for good may set its attempts back. */
  lemma ResetNeedsFailure(s: State, e: Event, id: EventId)
    requires Inv(s) && Step(s, e).log == s.log + [Reset(id)]
    ensures id.family.Presentation? && id in s.rows && !s.rows[id].pending && s.rows[id].error.Some?
    ensures e.Queue? && e.request.id == id
  {
    assert RowInv(s, id);
    assert Step(s, e).log[|s.log|] == Reset(id);
  }

  /** An event that was sent without error is never pending again, unless it is a dispatch; its row is final. */
  lemma {:induction false} SentIsFinal(s: State, events: seq<Event>, id: EventId)
    requires Inv(s) && id in s.rows && !s.rows[id].pending && s.rows[id].error.None? && !id.family.Dispatch?
    ensures id in Run(s, events).rows && Run(s, events).rows[id] == s.rows[id]
    decreases |events|
  {
    if events != [] {
      assert RowInv(s, id);
      StepKeepsInv(s, events[0]);
      SentIsFinal(Step(s, events[0]), events[1..], id);
    }
  }

  /**
   * A delivery is attempted only for a pending event of this generation that is due and has attempts left, and a
   * dispatch is sent again only after it was sent, not verified and has attempts left.
   */
  lemma OnlyDueIsDelivered(s: State, e: Event, id: EventId)
    ensures (exists recorded :: Step(s, e).log == s.log + [Attempt(id, s.generation, recorded)]) ==>
              && e.Flush? && e.id == id && id in s.rows && s.rows[id].pending && s.rows[id].due <= e.now
              && s.rows[id].generation == s.generation && (!id.family.Status? ==> s.rows[id].attempts < 3)
    ensures id in s.rows && !s.rows[id].pending && id in Step(s, e).rows && Step(s, e).rows[id].pending ==>
              || (e.Queue? && e.request.id == id && s.rows[id].error.Some? && id.family.Presentation?)
              || (e.Requeue? && id in e.chosen && Unverified(s, id, e.sentBefore, e.unverified))
  {
    var n := Step(s, e);
    if recorded :| n.log == s.log + [Attempt(id, s.generation, recorded)] {
      assert n.log[|s.log|] == Attempt(id, s.generation, recorded);
    }
  }

  /** A dispatch that was sent long enough ago and whose receipt is not verified. */
  ghost predicate Unverified(s: State, id: EventId, sentBefore: int, unverified: set<string>) {
    && id in s.rows && s.rows[id].content.kind.VerifierDispatch? && !s.rows[id].pending && s.rows[id].updated <= sentBefore
    && s.rows[id].attempts < 3 && s.rows[id].generation == s.generation
    && s.rows[id].content.receiptId.Some? && s.rows[id].content.receiptId.value in unverified
  }

  lemma StalledIff(s: State, id: EventId, sentBefore: int, unverified: set<string>)
    ensures Stalled(s, id, sentBefore, unverified) <==> Unverified(s, id, sentBefore, unverified)
    ensures forall g :: Step(s, Restart(g)) == State(s.rows, g, s.log)
  {
  }

  /** A process of one generation neither delivers nor overwrites an event of another one. */
  lemma ForeignEventsAreLeft(s: State, e: Event, id: EventId)
    requires id in s.rows && s.rows[id].generation != s.generation
    ensures var n := Step(s, e);
            && id in n.rows && n.rows[id].content == s.rows[id].content && n.rows[id].generation == s.rows[id].generation
            && (n.log == s.log || (|n.log| == |s.log| + 1 && n.log[..|s.log|] == s.log && n.log[|s.log|].id != id))
  {
  }

  /** The delay between attempts doubles from five seconds and stops growing at five minutes. */
  lemma {:induction false} BackoffIsBounded(attempt: nat)
    requires attempt >= 1
    ensures 5 <= Backoff(attempt) <= Backoff(attempt + 1) <= 300
    ensures Backoff(attempt + 1) == if 2 * Backoff(attempt) <= 300 then 2 * Backoff(attempt) else 300
    ensures Backoff(1) == 5
  {
    PowerIsPositive(attempt - 1);
  }

  lemma PowerIsPositive(n: nat)
    ensures Power2(n) >= 1
  {
  }

  /** The bound is on recorded attempts: an error the loop does not handle leaves the row as due as it was. */
  lemma {:induction false} UnrecordedAttemptsAreUnbounded(n: nat) returns (events: seq<Event>)
    ensures var id := EventId(Dispatch, "dispatch:1");
            && Run(Empty(None), events) == State(map[id := NewRow(SomeDispatch(), 0, None)], None, seq(n, _ => Attempt(id, None, false)))
            && Raisings(events, id) == n
  {
    var id := EventId(Dispatch, "dispatch:1");
    if n == 0 {
      events := [Queue(SomeDispatch(), 0)];
      NoRaisings(events, id);
      assert Run(Step(Empty(None), events[0]), events[1..]) == Step(Empty(None), events[0]);
    } else {
      var before := UnrecordedAttemptsAreUnbounded(n - 1);
      var s := Run(Empty(None), before);
      var flush := Flush(id, 0, Raised);
      events := before + [flush];
      RunThen(Empty(None), before, flush);
      RaisingsThen(before, flush, id);
      assert s.rows[id := s.rows[id]] == s.rows;
      assert Step(s, flush).log == s.log + [Attempt(id, None, false)];
    }
  }

  function SomeDispatch(): Request {
    Request(EventId(Dispatch, "dispatch:1"), Content(VerifierDispatch, 1, Some("s"), Some("1"), "{}"), None, false)
  }

  lemma {:induction false} RaisingsThen(events: seq<Event>, e: Event, id: EventId)
    ensures Raisings(events + [e], id) == Raisings(events, id) + if e.Flush? && e.id == id && e.outcome.Raised? then 1 else 0
    decreases |events|
  {
    if events == [] {
      assert [e][1..] == [] && events + [e] == [e];
    } else {
      assert (events + [e])[1..] == events[1..] + [e];
      RaisingsThen(events[1..], e, id);
    }
  }

  lemma {:induction false} RunThen(s: State, events: seq<Event>, e: Event)
    ensures Run(s, events + [e]) == Step(Run(s, events), e)
    decreases |events|
  {
    if events == [] {
      assert [e][1..] == [];
    } else {
      assert (events + [e])[1..] == events[1..] + [e];
      RunThen(Step(s, events[0]), events[1..], e);
    }
  }

  // ----- the code -----

  /** The turns of a flush, from the first of `due` on. */
  function FlushAll(s: State, due: seq<EventId>, now: int, outcomes: seq<Outcome>): State
    requires |due| <= |outcomes|
  {
    if due == [] then s
    else
      var k := |due| - 1;
      var before := FlushAll(s, due[..k], now, outcomes);
      if due[k] in before.rows then Flushed(before, due[k], now, outcomes[k]) else before
  }

  function CountSent(rows: map<EventId, Row>, ids: seq<EventId>): nat {
    if ids == [] then 0
    else
      var k := |ids| - 1;
      CountSent(rows, ids[..k]) + if ids[k] in rows && !rows[ids[k]].pending then 1 else 0
  }

  lemma {:induction false} CountSentElsewhere(rows: map<EventId, Row>, ids: seq<EventId>, id: EventId, row: Row)
    requires id !in ids
    ensures CountSent(rows[id := row], ids) == CountSent(rows, ids)
  {
    if ids != [] {
      CountSentElsewhere(rows, ids[..|ids| - 1], id, row);
    }
  }

  /** A flush does to each of its events what one turn does to it, in whatever order, and nothing to others. */
  lemma {:induction false} FlushAllAt(s: State, due: seq<EventId>, now: int, outcomes: seq<Outcome>, id: EventId)
    requires |due| <= |outcomes| && (forall x | x in due :: x in s.rows)
    requires forall i, j | 0 <= i < j < |due| :: due[i] != due[j]
    ensures var n := FlushAll(s, due, now, outcomes);
            && n.rows.Keys == s.rows.Keys && n.generation == s.generation
            && (id !in due && id in s.rows ==> n.rows[id] == s.rows[id])
            && (forall k | 0 <= k < |due| && due[k] == id :: n.rows[id] == Flushed(s, id, now, outcomes[k]).rows[id])
  {
    if due != [] {
      var k := |due| - 1;
      assert due == due[..k] + [due[k]];
      FlushAllAt(s, due[..k], now, outcomes, id);
      FlushAllAt(s, due[..k], now, outcomes, due[k]);
    }
  }

  /** The count of a flush: its events that are not pending afterwards. */
  lemma {:induction false} CountSentIsSize(rows: map<EventId, Row>, ids: seq<EventId>)
    requires forall i, j | 0 <= i < j < |ids| :: ids[i] != ids[j]
    ensures CountSent(rows, ids) == |set id | id in ids && id in rows && !rows[id].pending|
  {
    if ids != [] {
      var k := |ids| - 1;
      CountSentIsSize(rows, ids[..k]);
      assert ids == ids[..k] + [ids[k]];
      var before := set id | id in ids[..k] && id in rows && !rows[id].pending;
      assert (set id | id in ids && id in rows && !rows[id].pending)
             == if ids[k] in rows && !rows[ids[k]].pending then before + {ids[k]} else before;
      assert ids[k] !in ids[..k];
    }
  }

  function Among(ids: seq<EventId>): set<EventId> {
    set id | id in ids
  }

  /** A row that waits for its first delivery of what the request asks for. */
  ghost predicate Waiting(row: Row, q: Request, now: int) {
    && row.pending && row.content == q.content && row.due == (if q.due.Some? then q.due.value else now)
    && row.error.None? && row.remote.None? && row.updated == now
  }

  /** A row after an attempt that did not succeed: to be tried again later, or given up after the third attempt. */
  ghost predicate Unsuccessful(was: Row, row: Row, capped: bool, failure: Failure, now: int) {
    && row.attempts == was.attempts + 1 && row.error == Some(failure)
    && if capped && row.attempts >= 3 then !row.pending && row.remote.Some?
       else row.pending && now + 5 <= row.due <= now + 300 && row.due == now + Backoff(row.attempts)
  }

  ghost predicate Successful(was: Row, row: Row) {
    !row.pending && row.attempts == was.attempts + 1 && row.error.None? && row.remote.Some?
  }

  /** What one turn does to its event. */
  ghost predicate Turned(id: EventId, was: Row, row: Row, generation: Option<nat>, now: int, outcome: Outcome) {
    && row.content == was.content && row.generation == was.generation
    && (|| row == was
        || row.updated == now)
    && if was.generation != generation then Successful(was, row)
       else if !id.family.Status? && was.attempts >= 3 then
         !row.pending && row.error.Some? && (was.error.Some? ==> row.error == was.error) && row.remote.Some?
       else
         match outcome
         case Delivered(remote) => Successful(was, row) && row.remote == Some(remote)
         case Outdated(code) => Successful(was, row) && row.remote == Some(code)
         case SnapshotInvalid => row.error.Some? && Unsuccessful(was, row, false, row.error.value, now)
         case Failed(failure) => Unsuccessful(was, row, !id.family.Status?, failure, now)
         case Raised => row == was
  }

  /** One turn changes its own event only, as its outcome says, and is on record exactly when a delivery was attempted. */
  lemma TurnMeans(s: State, id: EventId, now: int, outcome: Outcome)
    requires id in s.rows
    ensures var n := Flushed(s, id, now, outcome); var was := s.rows[id];
            && n.rows.Keys == s.rows.Keys && Turned(id, was, n.rows[id], s.generation, now, outcome)
            && (forall other | other in s.rows && other != id :: n.rows[other] == s.rows[other])
            && n.log == if was.generation != s.generation || (!id.family.Status? && was.attempts >= 3) then s.log
                        else s.log + [Attempt(id, s.generation, !outcome.Raised?)]
  {
    PowerIsPositive(s.rows[id].attempts);
    BackoffIsBounded(s.rows[id].attempts + 1);
  }

  class Outbox {
    var rows: map<EventId, Row>
    const generation: Option<nat>
    ghost var log: seq<Entry>

    constructor (generation: Option<nat>)
      ensures View() == Empty(generation) && Inv(View())
    {
      this.generation := generation;
      rows, log := map[], [];
    }

    ghost function View(): State
      reads this
    {
      State(rows, generation, log)
    }

    /** `_queue_publication_connection`. */
    method QueuePublication(q: Request, now: int) returns (r: Result<bool, string>)
      modifies this
      ensures r.Ok? <==> Queued(old(View()), q, now).Ok?
      ensures View() == if r.Ok? then Queued(old(View()), q, now).value else old(View())
      ensures r.Ok? ==> (r.value <==> q.id !in old(rows) || Reopens(old(rows)[q.id], q))
      ensures r.Err? <==> q.id in old(rows) && old(rows)[q.id].generation != generation
      ensures r == Ok(true) <==>
                || q.id !in old(rows)
                || (&& old(rows)[q.id].generation == generation
                    && (old(rows)[q.id].pending || (q.requeueFailedSent && old(rows)[q.id].error.Some?)))
      ensures r == Ok(true) ==> q.id in rows && Waiting(rows[q.id], q, now)
      ensures r == Ok(true) && q.id !in old(rows) ==> rows[q.id].attempts == 0 && rows[q.id].generation == generation
      ensures r == Ok(true) && q.id in old(rows) ==>
                && rows[q.id].attempts == (if old(rows)[q.id].pending then old(rows)[q.id].attempts else 0)
                && rows[q.id].generation == old(rows)[q.id].generation
      ensures r != Ok(true) ==> rows == old(rows)
      ensures forall id | id in old(rows) && id != q.id :: id in rows && rows[id] == old(rows)[id]
    {
      var due := if q.due.Some? then q.due.value else now;
      if q.id !in rows {
        rows := rows[q.id := Row(q.content, true, 0, due, now, None, None, generation)];
        return Ok(true);
      }
      var row := rows[q.id];
      if row.generation != generation {
        return Err("Publication event_id belongs to a different tenant generation");
      }
      if !row.pending && !(q.requeueFailedSent && row.error.Some?) {
        return Ok(false);
      }
      var attempts := row.attempts;
      if !row.pending && row.error.Some? {
        attempts := 0;
        log := log + [Reset(q.id)];
      }
      rows := rows[q.id := Row(q.content, true, attempts, due, now, None, None, row.generation)];
      return Ok(true);
    }

    /** One turn of the loop of `flush_publications`: was the event processed, or did an unhandled error escape? */
    method FlushOne(id: EventId, now: int, outcome: Outcome) returns (processed: bool, raised: bool)
      requires id in rows && rows[id].pending
      modifies this
      ensures View() == Flushed(old(View()), id, now, outcome)
      ensures processed <==> !rows[id].pending
      ensures raised <==> |log| > |old(log)| && outcome.Raised?
    {
      var row := rows[id];
      if row.generation != generation {
        rows := rows[id := Sent(row, now, "stale_generation")];
        return true, false;
      }
      if id.family.Dispatch? && row.attempts >= MAX_ATTEMPTS {
        rows := rows[id := Ended(row, now, Exhaustion(row))];
        return true, false;
      }
      if id.family.Presentation? && row.attempts >= MAX_ATTEMPTS {
        rows := rows[id := Ended(row, now, Exhaustion(row))];
        return true, false;
      }
      log := log + [Attempt(id, row.generation, !outcome.Raised?)];
      match outcome
      case SnapshotInvalid =>
        var failure := Failure("stored_snapshot_invalid", "Stored snapshot could not be restored.");
        rows := rows[id := Retried(row, now, now + Backoff(row.attempts + 1), failure)];
        return false, false;
      case Failed(failure) =>
        if (id.family.Dispatch? || id.family.Presentation?) && row.attempts + 1 >= MAX_ATTEMPTS {
          rows := rows[id := Ended(row, now, failure)];
          return true, false;
        }
        rows := rows[id := Retried(row, now, now + Backoff(row.attempts + 1), failure)];
        return false, false;
      case Outdated(code) =>
        rows := rows[id := Sent(row, now, code)];
        return true, false;
      case Raised =>
        rows := rows[id := row];
        return false, true;
      case Delivered(remote) =>
        rows := rows[id := Sent(row, now, remote)];
        return true, false;
    }

    /** `flush_publications` over the events that the query found due; `turns` tells how many it got to. */
    method FlushPublications(due: seq<EventId>, now: int, outcomes: seq<Outcome>) returns (processed: Option<nat>, ghost turns: nat)
      requires |outcomes| == |due| && (forall id | id in due :: Due(View(), id, now))
      requires forall i, j | 0 <= i < j < |due| :: due[i] != due[j]
      modifies this
      ensures turns <= |due| && View() == FlushAll(old(View()), due[..turns], now, outcomes)
      ensures processed.Some? ==> turns == |due| && processed.value == CountSent(rows, due)
      ensures processed.None? ==> 0 < turns && outcomes[turns - 1].Raised?
      ensures processed.None? ==> Lookup(rows, due[turns - 1]) == Lookup(old(rows), due[turns - 1])
      ensures forall id | id in old(rows) && id !in due[..turns] :: id in rows && rows[id] == old(rows)[id]
    {
      var count := 0;
      turns := 0;
      for k := 0 to |due|
        invariant turns == k && View() == FlushAll(old(View()), due[..k], now, outcomes)
        invariant rows.Keys == old(rows).Keys
        invariant forall id | id in old(rows) && id !in due[..k] :: rows[id] == old(rows)[id]
        invariant count == CountSent(rows, due[..k])
      {
        assert due[..k + 1][..k] == due[..k] && due[k] !in due[..k] && due[k] in due;
        CountSentElsewhere(rows, due[..k], due[k], Flushed(View(), due[k], now, outcomes[k]).rows[due[k]]);
        var done, raised := FlushOne(due[k], now, outcomes[k]);
        turns := k + 1;
        if raised {
          return None, turns;
        }
        if done {
          count := count + 1;
        }
      }
      assert due[..|due|] == due;
      return Some(count), turns;
    }

    /** `requeue_unverified_dispatches`: the loop over the rows that the query selected. */
    method RequeueUnverifiedDispatches(selected: seq<EventId>, now: int, sentBefore: int, unverified: set<string>) returns (n: nat)
      requires forall id | id in selected :: Stalled(View(), id, sentBefore, unverified)
      modifies this`rows
      ensures rows == Requeued(old(rows), Among(selected), now) && n == |selected|
      ensures rows.Keys == old(rows).Keys && forall id | id in rows && id !in selected :: rows[id] == old(rows)[id]
      ensures forall id | id in selected ::
                && id in rows && rows[id].pending && rows[id].due == now && Due(View(), id, now)
                && rows[id].attempts == old(rows)[id].attempts < 3 && rows[id].content == old(rows)[id].content
                && rows[id].generation == old(rows)[id].generation == generation && rows[id].remote == old(rows)[id].remote
                && rows[id].updated == now && rows[id].error.Some? && rows[id].error.value.code == "verification_timeout"
      ensures forall id | id in selected ::
                && old(rows)[id].content.kind.VerifierDispatch? && !old(rows)[id].pending && old(rows)[id].updated <= sentBefore
                && old(rows)[id].content.receiptId.Some? && old(rows)[id].content.receiptId.value in unverified
    {
      for k := 0 to |selected|
        invariant rows == Requeued(old(rows), Among(selected[..k]), now)
      {
        var id := selected[k];
        assert selected[..k + 1] == selected[..k] + [id] && Among(selected[..k + 1]) == Among(selected[..k]) + {id};
        assert id in selected;
        rows := rows[id := TimedOut(rows[id], now)];
      }
      assert selected[..|selected|] == selected;
      return |selected|;
    }
  }
}
