/**
 * The journaled import of a legacy store (migration.py): a commit over two resources, the destination
 * database file and the registry row, that a crash or an exception may cut after any step.
 *
 * `Disk` is what survives a crash. `Recovered(d)` is the disk that a completed recovery of `d` leaves and
 * `Outcome(d)` the (file, row) pair it decides for; both are defined from the journal alone. Every atomic
 * step of commit, rollback, finish and recovery is shown to keep the outcome, except the one that writes
 * the committed marker, which switches it from the old pair to the new one.
 */
module ImportJournal {
  import opened Basics
  import opened Registration

  /** Files of the repository's directory; `token` is the random part of the staged name. */
  datatype Name = Destination | Staged(token: nat) | Backup(token: nat)

  /** A file identity: device, inode, size, digest and mode, preserved by rename. */
  type Stamp = nat

  datatype Phase = Prepared | Committed

  datatype Journal = Journal(
    token: nat, staged: Stamp, previous: Option<Stamp>, previousRow: Option<Row>, activatedRow: Row, phase: Phase)

  /** `hot` says that the registry database still has a rollback journal of an interrupted transaction. */
  datatype Disk = Disk(files: map<Name, Stamp>, row: Option<Row>, hot: bool, journal: Option<Journal>)

  type Pair = (Option<Stamp>, Option<Row>)

  function Moved(files: map<Name, Stamp>, from: Name, to: Name): map<Name, Stamp>
    requires from in files
  {
    (files - {from})[to := files[from]]
  }

  // ----- what the journal decides -----

  function OldPair(j: Journal): Pair { (j.previous, j.previousRow) }

  function NewPair(j: Journal): Pair { (Some(j.staged), Some(j.activatedRow)) }

  /** The pair on disk now, which may be mixed while a journal exists. */
  function Observed(d: Disk): Pair { (Lookup(d.files, Destination), d.row) }

  function Outcome(d: Disk): Pair {
    match d.journal
    case None => Observed(d)
    case Some(j) => if j.phase.Committed? then NewPair(j) else OldPair(j)
  }

  /** The whole disk after an undisturbed recovery. */
  function Recovered(d: Disk): Disk {
    match d.journal
    case None => d
    case Some(j) =>
      var rest := d.files - {Destination, Staged(j.token), Backup(j.token)};
      var (file, row) := Outcome(d);
      Disk(if file.Some? then rest[Destination := file.value] else rest, row, false, None)
  }

  // ----- validation of a journal against the disk -----

  datatype Refusal = UnknownFile | UnknownDestination | RegistryBusy | ChangedRow | LostBackup | NotCommitted

  /** `_validate_journal_files` without the registry recovery: the destination's stamp, or why it refuses. */
  function ValidateFiles(d: Disk, j: Journal): Result<Option<Stamp>, Refusal> {
    var current := Lookup(d.files, Destination);
    if Staged(j.token) in d.files && d.files[Staged(j.token)] != j.staged then Err(UnknownFile)
    else if Backup(j.token) in d.files && Some(d.files[Backup(j.token)]) != j.previous then Err(UnknownFile)
    else if current.Some? && current != Some(j.staged) && current != j.previous then Err(UnknownDestination)
    else if d.hot then Err(RegistryBusy)
    else if d.row != j.previousRow && d.row != Some(j.activatedRow) then Err(ChangedRow)
    else Ok(current)
  }

  function RollbackRefusal(d: Disk, j: Journal): Option<Refusal> {
    match ValidateFiles(d, j)
    case Err(e) => Some(e)
    case Ok(current) =>
      if j.previous.Some? && current != j.previous && Backup(j.token) !in d.files then Some(LostBackup) else None
  }

  function FinishRefusal(d: Disk, j: Journal): Option<Refusal> {
    match ValidateFiles(d, j)
    case Err(e) => Some(e)
    case Ok(current) =>
      if current != Some(j.staged) || d.row != Some(j.activatedRow) then Some(NotCommitted) else None
  }

  /** The states that the protocol, its failures and its crashes can leave on disk. */
  ghost predicate Protocol(d: Disk) {
    d.journal.Some? ==>
      var j := d.journal.value;
      && j.previous != Some(j.staged)
      && j.previousRow != Some(j.activatedRow)
      && (Staged(j.token) in d.files ==> d.files[Staged(j.token)] == j.staged)
      && (Backup(j.token) in d.files ==> Some(d.files[Backup(j.token)]) == j.previous)
      && (Destination in d.files ==> Some(d.files[Destination]) in {Some(j.staged), j.previous})
      && if j.phase.Committed? then Observed(d) == NewPair(j)
         else
           && d.row in {j.previousRow, Some(j.activatedRow)}
           && (j.previous.Some? ==> Backup(j.token) in d.files || Lookup(d.files, Destination) == j.previous)
  }

  /** A protocol-made state is never refused, once the registry's own journal has been rolled back. */
  lemma RecoveryNeverRefuses(d: Disk)
    requires Protocol(d) && d.journal.Some? && !d.hot
    ensures d.journal.value.phase.Prepared? ==> RollbackRefusal(d, d.journal.value).None?
    ensures d.journal.value.phase.Committed? ==> FinishRefusal(d, d.journal.value).None?
  {
  }

  /** Every file and row of the import is one that the journal knows. */
  ghost predicate Recognized(d: Disk, j: Journal) {
    && d.row in {j.previousRow, Some(j.activatedRow)}
    && Lookup(d.files, Staged(j.token)) in {None, Some(j.staged)}
    && Lookup(d.files, Backup(j.token)) in {None, j.previous}
    && Lookup(d.files, Destination) in {None, Some(j.staged), j.previous}
  }

  /** On any disk at all, also after interference: exactly what rollback and finish refuse. */
  lemma RefusalIff(d: Disk, j: Journal)
    ensures RollbackRefusal(d, j).None? <==>
              && !d.hot && Recognized(d, j)
              && (j.previous.Some? ==> Lookup(d.files, Destination) == j.previous || Lookup(d.files, Backup(j.token)) == j.previous)
    ensures FinishRefusal(d, j).None? <==>
              !d.hot && Recognized(d, j) && Lookup(d.files, Destination) == Some(j.staged) && d.row == Some(j.activatedRow)
  {
  }

  // ----- recovery, cut at any step and started again -----

  /**
   * The disks that one recovery attempt passes through, in the order of the code: the registry's own journal
   * is rolled back first, the import journal is removed last.
   */
  function AttemptDisks(d: Disk): seq<Disk>
    requires d.journal.Some?
  {
    var j := d.journal.value;
    var cold := d.(hot := false);
    if j.phase.Committed? then
      var noBackup := cold.(files := cold.files - {Backup(j.token)});
      var noStaged := noBackup.(files := noBackup.files - {Staged(j.token)});
      [d, cold, noBackup, noStaged, noStaged.(journal := None)]
    else
      var restored := cold.(row := j.previousRow);
      var undone := restored.(files :=
        if Backup(j.token) in d.files then Moved(d.files, Backup(j.token), Destination)
        else if j.previous.None? && Lookup(d.files, Destination) == Some(j.staged) then d.files - {Destination}
        else d.files);
      var noStaged := undone.(files := undone.files - {Staged(j.token)});
      [d, cold, restored, undone, noStaged, noStaged.(journal := None)]
  }

  /** One attempt cut after `n` steps; a crash inside a registry transaction leaves that database hot. */
  function Cut(d: Disk, n: nat, hot: bool): Disk {
    if d.journal.None? then d
    else
      var disks := AttemptDisks(d);
      var e := disks[if n < |disks| then n else |disks| - 1];
      if e.journal.None? then e else e.(hot := e.hot || hot)
  }

  /** An attempt on a disk whose registry is cold goes through the same disks. */
  lemma ColdCut(d: Disk, n: nat, hot: bool)
    requires d.journal.Some?
    ensures Cut(d.(hot := false), n, hot) == Cut(d, if n == 0 then 1 else n, hot)
  {
  }

  /**
   * Also after interference, an attempt that is not refused loses no file but the ones of this import and the one
   * that it brings back: a file that the journal does not know stays as it is, wherever the attempt is cut.
   */
  lemma ForeignIsKept(d: Disk, n: nat, hot: bool, name: Name)
    requires d.journal.Some? && name in d.files
    requires var cold := d.(hot := false); var j := d.journal.value;
             if j.phase.Prepared? then RollbackRefusal(cold, j).None? else FinishRefusal(cold, j).None?
    requires var j := d.journal.value; Some(d.files[name]) !in {Some(j.staged), j.previous}
    ensures name in Cut(d, n, hot).files && Cut(d, n, hot).files[name] == d.files[name]
  {
    RefusalIff(d.(hot := false), d.journal.value);
    assert Lookup(d.files, name) == Some(d.files[name]);
  }

  /** Two disks agree beside the three files of the import. */
  lemma SameBeside(d: Disk, e: Disk)
    requires d.journal.Some? && Protocol(d) && Protocol(e)
    requires var j := d.journal.value;
             var mine := {Destination, Staged(j.token), Backup(j.token)};
             d.files - mine == e.files - mine && (e.journal == d.journal || e.journal.None?)
    requires e.journal.None? ==> !e.hot && Observed(e) == Outcome(d)
                                 && Staged(d.journal.value.token) !in e.files && Backup(d.journal.value.token) !in e.files
    ensures Recovered(e) == Recovered(d)
  {
    if e.journal.None? {
      assert Recovered(d).files == e.files;
    }
  }

  lemma CommittedAttempt(d: Disk, n: nat)
    requires Protocol(d) && d.journal.Some? && d.journal.value.phase.Committed? && n < 5
    ensures Protocol(AttemptDisks(d)[n]) && Recovered(AttemptDisks(d)[n]) == Recovered(d)
  {
    var e := AttemptDisks(d)[n];
    var j := d.journal.value;
    var mine := {Destination, Staged(j.token), Backup(j.token)};
    assert e.files - mine == d.files - mine;
    SameBeside(d, e);
  }

  lemma PreparedAttempt(d: Disk, n: nat)
    requires Protocol(d) && d.journal.Some? && d.journal.value.phase.Prepared? && n < 6
    ensures Protocol(AttemptDisks(d)[n]) && Recovered(AttemptDisks(d)[n]) == Recovered(d)
  {
    var e := AttemptDisks(d)[n];
    var j := d.journal.value;
    var mine := {Destination, Staged(j.token), Backup(j.token)};
    if n < 3 {
      assert e.files == d.files;
    } else {
      var undone := AttemptDisks(d)[3];
      assert Lookup(undone.files, Destination) == j.previous;
      assert undone.files - mine == d.files - mine;
      assert e.files - mine == d.files - mine;
    }
    SameBeside(d, e);
  }

  lemma CutKeepsRecovered(d: Disk, n: nat, hot: bool)
    requires Protocol(d)
    ensures Protocol(Cut(d, n, hot)) && Recovered(Cut(d, n, hot)) == Recovered(d)
    ensures n >= 5 ==> Cut(d, n, hot) == Recovered(d)
  {
    if d.journal.Some? {
      var last := |AttemptDisks(d)| - 1;
      var k := if n < last then n else last;
      if d.journal.value.phase.Committed? { CommittedAttempt(d, k); } else { PreparedAttempt(d, k); }
    }
  }

  function Attempts(d: Disk, cuts: seq<(nat, bool)>): Disk
    decreases |cuts|
  {
    if cuts == [] then d else Attempts(Cut(d, cuts[0].0, cuts[0].1), cuts[1..])
  }

  lemma {:induction false} AttemptsThen(d: Disk, cuts: seq<(nat, bool)>, n: nat, hot: bool)
    ensures Attempts(d, cuts + [(n, hot)]) == Cut(Attempts(d, cuts), n, hot)
    decreases |cuts|
  {
    if cuts == [] {
      assert [(n, hot)][1..] == [] && cuts + [(n, hot)] == [(n, hot)];
    } else {
      assert (cuts + [(n, hot)])[1..] == cuts[1..] + [(n, hot)];
      AttemptsThen(Cut(d, cuts[0].0, cuts[0].1), cuts[1..], n, hot);
    }
  }

  /**
   * However often recovery is cut, and wherever, the disk still recovers to the same disk; an attempt that
   * runs to its end after them leaves exactly that disk, and so does any attempt that got rid of the journal.
   */
  lemma {:induction false} InterruptedRecovery(d: Disk, cuts: seq<(nat, bool)>)
    requires Protocol(d)
    ensures var e := Attempts(d, cuts);
            && Protocol(e) && Recovered(e) == Recovered(d)
            && (e.journal.None? ==> e == Recovered(d))
            && (forall n: nat, hot :: n >= 5 ==> Cut(e, n, hot) == Recovered(d))
    decreases |cuts|
  {
    if cuts == [] {
      forall n: nat, hot | n >= 5 ensures Cut(d, n, hot) == Recovered(d) {
        CutKeepsRecovered(d, n, hot);
      }
    } else {
      var (n, hot) := cuts[0];
      CutKeepsRecovered(d, n, hot);
      InterruptedRecovery(Cut(d, n, hot), cuts[1..]);
    }
  }

  /** What a recovery leaves is exactly the old pair or the new one, new just when the marker was written. */
  lemma RecoveredIsSettled(d: Disk)
    requires Protocol(d)
    ensures Recovered(d).journal.None? && Observed(Recovered(d)) == Outcome(d)
    ensures d.journal.Some? ==>
              var j := d.journal.value;
              && OldPair(j) != NewPair(j)
              && (Observed(Recovered(d)) == NewPair(j) <==> j.phase.Committed?)
              && (Observed(Recovered(d)) == OldPair(j) <==> j.phase.Prepared?)
              && Staged(j.token) !in Recovered(d).files && Backup(j.token) !in Recovered(d).files
  {
  }
}
