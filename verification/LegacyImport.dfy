/**
 * The import program itself (migration.py, with the registry's side of it): `_commit_import`,
 * `_rollback_import`, `_finish_committed_import`, `_recover_pending_import` and the command around them.
 *
 * Every atomic operation draws a fault from an arbitrary oracle. It may do nothing and raise, take effect and
 * then raise (a rename whose directory sync fails), or be where the process dies, before or after the effect.
 */
module LegacyImport {
  import opened Basics
  import opened Registration
  import opened ImportJournal

  /** `hot` is used by registry transactions only: one that did not take effect may leave a rollback journal. */
  datatype Fault = Fine | Fault(applied: bool, crash: bool, hot: bool)

  datatype Signal = Done | Raised | Crashed {
    predicate IsFailure() { !Done? }
    function PropagateFailure(): Signal requires IsFailure() { this }
  }

  function Broken(f: Fault): Signal
    requires f.Fault?
  {
    if f.crash then Crashed else Raised
  }

  /**
   * The answers of the read-only checks of one command, and what the command was given; `allowed` says that the
   * installation is valid and its owner allowed.
   */
  datatype Plan = Plan(
    installation: Installation, now: int, allowed: bool, capacityLeft: bool,
    stagedValid: bool, planUnchanged: bool, destinationEmpty: bool, sourceUnchanged: bool)

  ghost predicate AllChecksPass(p: Plan) {
    p.stagedValid && p.planUnchanged && p.destinationEmpty && p.sourceUnchanged
  }

  function LowerAscii(s: string): string {
    seq(|s|, i requires 0 <= i < |s| => if 'A' <= s[i] <= 'Z' then s[i] - 'A' + 'a' else s[i])
  }

  /** `preflight_legacy_import`: an unknown repository needs capacity, a known row must be active and the same. */
  predicate Preflight(row: Option<Row>, p: Plan) {
    && p.allowed
    && match row
       case None => p.capacityLeft
       case Some(r) =>
         && r.state.Active?
         && LowerAscii(r.repository) == LowerAscii(p.installation.repository)
         && r.ownerId == p.installation.ownerId && r.installationId == p.installation.installationId
  }

  /** The row that `legacy_activation` writes: a new one, or the old one with the same generation refreshed. */
  function Activation(row: Option<Row>, p: Plan): Row {
    match row
    case None => NewRow(p.installation, p.now)
    case Some(r) => r.(revision := r.revision + 1, lastVerifiedAt := p.now, updatedAt := p.now)
  }

  /**
   * What an import leaves as the row: an active row of the plan's installation, either the row that was there with
   * its generation and history, one revision further, or a first one.
   */
  ghost predicate ActivatedFrom(was: Option<Row>, row: Row, p: Plan) {
    && p.allowed && row.state.Active? && row.lastVerifiedAt == row.updatedAt == p.now
    && row.ownerId == p.installation.ownerId && row.installationId == p.installation.installationId
    && SameButCase(row.repository, p.installation.repository)
    && match was
       case None => && ContextOf(row) == Context(p.installation.repositoryId, p.installation.repository, p.installation.ownerId,
                                                 p.installation.installationId, 1)
                    && row.revision == 1 && row.verifiedAt == row.createdAt == p.now
       case Some(r) => && r.state.Active? && ContextOf(row) == ContextOf(r) && row.revision == r.revision + 1
                       && row.verifiedAt == r.verifiedAt && row.createdAt == r.createdAt
  }

  ghost predicate SameButCase(a: string, b: string) {
    && |a| == |b|
    && forall i | 0 <= i < |a| ::
         || a[i] == b[i]
         || ('A' <= a[i] <= 'Z' && b[i] as int == a[i] as int + 32)
         || ('A' <= b[i] <= 'Z' && a[i] as int == b[i] as int + 32)
  }

  lemma LowerIsSameButCase(a: string, b: string)
    ensures LowerAscii(a) == LowerAscii(b) <==> SameButCase(a, b)
  {
    var x, y := LowerAscii(a), LowerAscii(b);
    if x == y {
      forall i | 0 <= i < |a|
        ensures a[i] == b[i] || ('A' <= a[i] <= 'Z' && b[i] as int == a[i] as int + 32)
                || ('A' <= b[i] <= 'Z' && a[i] as int == b[i] as int + 32)
      {
        assert x[i] == y[i];
      }
    }
  }

  /** Which rows let an allowed import begin: none if there is room for one, or an active one of the same installation. */
  lemma PreflightIff(row: Option<Row>, p: Plan)
    ensures row.None? ==> (Preflight(row, p) <==> p.allowed && p.capacityLeft)
    ensures row.Some? ==> (Preflight(row, p) <==>
              && p.allowed && row.value.state.Active? && row.value.ownerId == p.installation.ownerId
              && row.value.installationId == p.installation.installationId
              && SameButCase(row.value.repository, p.installation.repository))
  {
    if row.Some? {
      LowerIsSameButCase(row.value.repository, p.installation.repository);
    }
  }

  lemma ActivationActivates(row: Option<Row>, p: Plan)
    requires Preflight(row, p)
    ensures ActivatedFrom(row, Activation(row, p), p)
  {
    PreflightIff(row, p);
  }

  /** The files that the import with this token never touches. */
  function Beside(files: map<Name, Stamp>, token: nat): map<Name, Stamp> {
    files - {Destination, Staged(token), Backup(token)}
  }

  /** One thing an operator or the gateway does. A gateway session may change its own store and row. */
  datatype Command = Import(p: Plan) | Gateway(rewrites: bool, newRow: Option<Row>, hot: bool)

  /** The command has put a pair of its own into place; `idle` says that no journal was on the disk before it. */
  predicate Changes(c: Command, stamp: Option<Stamp>, idle: bool) {
    match c
    case Import(_) => stamp.Some?
    case Gateway(_, _, _) => idle
  }

  /**
   * The pair after a command: an import leaves it alone or installs the file it staged with the row activated
   * from the old one, and a gateway session writes its own. `stamp` is the file that the command put into place.
   */
  function NextPair(pair: Pair, c: Command, stamp: Option<Stamp>, idle: bool): Pair {
    if !Changes(c, stamp, idle) then pair
    else
      match c
      case Import(p) => (stamp, Some(Activation(pair.1, p)))
      case Gateway(rewrites, newRow, _) => (if rewrites then stamp else pair.0, newRow)
  }

  /** What one command may do to the disk, whatever disturbs it. */
  ghost predicate Explained(c: Command, d: Disk, e: Disk, stamp: Option<Stamp>) {
    && Outcome(e) == NextPair(Outcome(d), c, stamp, d.journal.None?)
    && match c
       case Import(p) => stamp.Some? ==> AllChecksPass(p) && Preflight(Outcome(d).1, p)
       case Gateway(rewrites, _, _) => (d.journal.Some? ==> e == d) && (stamp.Some? <==> rewrites && d.journal.None?)
  }

  /** The pair after an import that went through: the file it staged, with an activated row. */
  ghost predicate Installed(was: Pair, pair: Pair, stamp: Stamp, p: Plan) {
    pair.0 == Some(stamp) && pair.1.Some? && ActivatedFrom(was.1, pair.1.value, p)
  }

  /** The pair is the first one of the history, or was made whole by one of its first `k` commands. */
  ghost predicate Accounted(pair: Pair, disks: seq<Disk>, commands: seq<Command>, stamps: seq<Option<Stamp>>, k: nat)
    requires k < |disks| && |disks| == |commands| + 1 == |stamps| + 1
  {
    || pair == Outcome(disks[0])
    || exists i | 0 <= i < k ::
         && Changes(commands[i], stamps[i], disks[i].journal.None?)
         && pair == NextPair(Outcome(disks[i]), commands[i], stamps[i], disks[i].journal.None?)
  }

  lemma {:induction false} HistoryIsAccounted(disks: seq<Disk>, commands: seq<Command>, stamps: seq<Option<Stamp>>, k: nat)
    requires k < |disks| && |disks| == |commands| + 1 == |stamps| + 1
    requires forall i | 0 <= i < |commands| :: Explained(commands[i], disks[i], disks[i + 1], stamps[i])
    ensures Accounted(Outcome(disks[k]), disks, commands, stamps, k)
  {
    if k > 0 {
      HistoryIsAccounted(disks, commands, stamps, k - 1);
      assert Explained(commands[k - 1], disks[k - 1], disks[k], stamps[k - 1]);
    }
  }

  /** Files that commands put into place are new ones: no two commands put the same, and none was there before. */
  ghost predicate FreshStamps(stamps: seq<Option<Stamp>>, low: nat, high: nat) {
    && (forall i | 0 <= i < |stamps| && stamps[i].Some? :: low <= stamps[i].value < high)
    && (forall i, j | 0 <= i < j < |stamps| && stamps[i].Some? && stamps[j].Some? :: stamps[i].value < stamps[j].value)
  }

  /** The files once the destination has what it held before the import. */
  function Undone(files: map<Name, Stamp>, j: Journal): map<Name, Stamp> {
    if Backup(j.token) in files then Moved(files, Backup(j.token), Destination)
    else if j.previous.None? && Lookup(files, Destination) == Some(j.staged) then files - {Destination}
    else files
  }

  lemma SameFiles(f: map<Name, Stamp>, g: map<Name, Stamp>, token: nat)
    requires Beside(f, token) == Beside(g, token) && Lookup(f, Destination) == Lookup(g, Destination)
    requires forall n | n in {Staged(token), Backup(token)} :: n !in f && n !in g
    ensures f == g
  {
    forall n ensures Lookup(f, n) == Lookup(g, n) {
      assert Lookup(Beside(f, token), n) == Lookup(Beside(g, token), n);
    }
    assert forall n :: n in f <==> Lookup(f, n).Some?;
    assert forall n :: n in g <==> Lookup(g, n).Some?;
    forall n | n in f ensures f[n] == g[n] { assert Lookup(f, n) == Lookup(g, n); }
  }

  class ImportHost {
    const fate: nat -> Fault
    var tick: nat
    var files: map<Name, Stamp>
    var row: Option<Row>
    var hot: bool
    var journal: Option<Journal>
    /** Tokens and file identities are drawn from here, so that no two are ever equal. */
    var unused: nat

    constructor (fate: nat -> Fault)
      ensures this.fate == fate && Valid() && View() == Disk(map[], None, false, None)
    {
      this.fate := fate;
      tick, unused, files, row, hot, journal := 0, 0, map[], None, false, None;
    }

    ghost function View(): Disk
      reads this
    {
      Disk(files, row, hot, journal)
    }

    ghost predicate Valid()
      reads this
    {
      && Protocol(View())
      && (forall n | n in files :: files[n] < unused && (!n.Destination? ==> n.token < unused))
      && (journal.Some? ==> journal.value.token < unused && journal.value.staged < unused)
    }

    /** No operation from here on is disturbed. */
    ghost predicate Quiet()
      reads this`tick
    {
      forall i :: i >= tick ==> fate(i).Fine?
    }

    /** This operation takes effect, whether or not it also raises. */
    ghost predicate Applies(i: nat) {
      fate(i).Fine? || fate(i).applied
    }

    /** The process dies in one of these operations. */
    ghost predicate Dies(from: nat, to: nat) {
      exists i | from <= i < to :: fate(i).Fault? && fate(i).crash
    }

    // ----- atomic operations -----

    method Draw() returns (f: Fault)
      modifies this`tick
      ensures tick == old(tick) + 1 && f == fate(old(tick))
    {
      f := fate(tick);
      tick := tick + 1;
    }

    method Read() returns (s: Signal)
      modifies this`tick
      ensures tick == old(tick) + 1 && (s.Crashed? <==> Dies(old(tick), tick))
      ensures s.Done? <==> fate(old(tick)).Fine?
    {
      var f := Draw();
      s := if f.Fine? then Done else Broken(f);
    }

    method Rename(from: Name, to: Name) returns (s: Signal)
      requires from in files
      modifies this`tick, this`files
      ensures tick == old(tick) + 1 && (s.Crashed? <==> Dies(old(tick), tick))
      ensures files == if Applies(old(tick)) then Moved(old(files), from, to) else old(files)
      ensures s.Done? ==> files == Moved(old(files), from, to)
      ensures s.Done? <==> fate(old(tick)).Fine?
    {
      var f := Draw();
      if f.Fine? || f.applied {
        files := Moved(files, from, to);
      }
      s := if f.Fine? then Done else Broken(f);
    }

    /** `unlink(missing_ok=True)`. */
    method Unlink(name: Name) returns (s: Signal)
      modifies this`tick, this`files
      ensures tick == old(tick) + 1 && (s.Crashed? <==> Dies(old(tick), tick))
      ensures files == if Applies(old(tick)) then old(files) - {name} else old(files)
      ensures s.Done? ==> files == old(files) - {name}
      ensures s.Done? <==> fate(old(tick)).Fine?
    {
      var f := Draw();
      if f.Fine? || f.applied {
        files := files - {name};
      }
      s := if f.Fine? then Done else Broken(f);
    }

    /** Written beside the journal and renamed over it, so the journal is the old one or the new one. */
    method WriteJournal(j: Option<Journal>) returns (s: Signal)
      modifies this`tick, this`journal
      ensures tick == old(tick) + 1 && (s.Crashed? <==> Dies(old(tick), tick))
      ensures journal == (if Applies(old(tick)) then j else old(journal))
      ensures s.Done? ==> journal == j
      ensures s.Done? <==> fate(old(tick)).Fine?
    {
      var f := Draw();
      if f.Fine? || f.applied {
        journal := j;
      }
      s := if f.Fine? then Done else Broken(f);
    }

    /** One registry transaction. */
    method WriteRow(r: Option<Row>) returns (s: Signal)
      modifies this`tick, this`row, this`hot
      ensures tick == old(tick) + 1 && (s.Crashed? <==> Dies(old(tick), tick))
      ensures if Applies(old(tick)) then row == r && !hot else row == old(row) && hot == fate(old(tick)).hot
      ensures s.Done? ==> row == r && !hot
      ensures s.Done? <==> fate(old(tick)).Fine?
    {
      var f := Draw();
      if f.Fine? || f.applied {
        row, hot := r, false;
      } else {
        hot := f.hot;
      }
      s := if f.Fine? then Done else Broken(f);
    }

    // ----- rollback, finish, recovery -----

    /** The common end of rollback and finish: the staged file goes, then the journal. */
    method ForgetImport(j: Journal) returns (s: Signal, ghost k: nat)
      requires Valid() && journal == Some(j) && !hot
      requires Observed(View()) == Outcome(View()) && Backup(j.token) !in files
      modifies this`tick, this`files, this`journal
      ensures Valid() && tick >= old(tick) && (s.Crashed? <==> Dies(old(tick), tick))
      ensures Recovered(View()) == old(Recovered(View()))
      ensures journal.None? || journal == Some(j)
      ensures s.Done? ==> View() == old(Recovered(View()))
      ensures old(Quiet()) ==> s.Done?
      ensures k <= 2 && files == (if k > 0 then old(files) - {Staged(j.token)} else old(files))
      ensures journal == if k > 1 then None else Some(j)
    {
      ghost var d := View();
      ghost var mine := {Destination, Staged(j.token), Backup(j.token)};
      s := Unlink(Staged(j.token));
      k := if files == d.files then 0 else 1;
      assert files - mine == d.files - mine;
      SameBeside(d, View());
      if !s.Done? { return; }
      s := WriteJournal(None);
      k := if journal.None? then 2 else 1;
      SameBeside(d, View());
    }

    /** The destination gets back what it held before the import. */
    method UndoDestination(j: Journal, current: Option<Stamp>) returns (s: Signal, ghost k: nat)
      requires Valid() && journal == Some(j) && j.phase.Prepared? && current == Lookup(files, Destination)
      modifies this`tick, this`files
      ensures Valid() && tick == old(tick) + 1 && (s.Crashed? <==> Dies(old(tick), tick))
      ensures Recovered(View()) == old(Recovered(View()))
      ensures s.Done? ==> k == 1 && Lookup(files, Destination) == j.previous && Backup(j.token) !in files
      ensures old(Quiet()) ==> s.Done?
      ensures k <= 1 && files == if k == 0 then old(files) else Undone(old(files), j)
    {
      ghost var d := View();
      ghost var mine := {Destination, Staged(j.token), Backup(j.token)};
      if Backup(j.token) in files {
        s := Rename(Backup(j.token), Destination);
      } else if j.previous.None? && current == Some(j.staged) {
        s := Unlink(Destination);
      } else {
        s := Read();
      }
      k := if files == Undone(d.files, j) then 1 else 0;
      assert files - mine == d.files - mine;
      SameBeside(d, View());
    }

    /** `_rollback_import`; `n` is how many steps of the attempt were taken. */
    method RollbackImport(j: Journal) returns (s: Signal, ghost n: nat)
      requires Valid() && journal == Some(j) && j.phase.Prepared?
      modifies this`tick, this`files, this`row, this`hot, this`journal
      ensures Valid() && tick >= old(tick) && (s.Crashed? <==> Dies(old(tick), tick))
      ensures Recovered(View()) == old(Recovered(View()))
      ensures journal.None? || journal == Some(j)
      ensures s.Done? ==> View() == old(Recovered(View()))
      ensures old(Quiet() && !hot) ==> s.Done?
      ensures View() == Cut(old(View()), n, hot)
    {
      n := 0;
      s := Read();
      if !s.Done? { return; }
      if RollbackRefusal(Disk(files, row, hot, journal), j).Some? {
        return Raised, 0;
      }
      var current := Lookup(files, Destination);
      s := WriteRow(j.previousRow);
      n := if row == j.previousRow && !hot then 2 else 1;
      if !s.Done? { return; }
      ghost var k;
      s, k := UndoDestination(j, current);
      n := 2 + k;
      if !s.Done? { return; }
      s, k := ForgetImport(j);
      n := 3 + k;
    }

    /** `_finish_committed_import`; `n` is how many steps of the attempt were taken. */
    method FinishCommittedImport(j: Journal) returns (s: Signal, ghost n: nat)
      requires Valid() && journal == Some(j) && j.phase.Committed?
      modifies this`tick, this`files, this`row, this`hot, this`journal
      ensures Valid() && tick >= old(tick) && (s.Crashed? <==> Dies(old(tick), tick))
      ensures Recovered(View()) == old(Recovered(View()))
      ensures journal.None? || journal == Some(j)
      ensures s.Done? ==> View() == old(Recovered(View()))
      ensures old(Quiet() && !hot) ==> s.Done?
      ensures View() == Cut(old(View()), n, hot)
    {
      ghost var d := View();
      n := 0;
      s := Read();
      if !s.Done? { return; }
      if FinishRefusal(Disk(files, row, hot, journal), j).Some? {
        return Raised, 0;
      }
      s := Unlink(Backup(j.token));
      n := if files == d.files then 1 else 2;
      ghost var mine := {Destination, Staged(j.token), Backup(j.token)};
      assert files - mine == d.files - mine;
      SameBeside(d, View());
      if !s.Done? { return; }
      ghost var k;
      s, k := ForgetImport(j);
      n := 2 + k;
    }

    /**
     * `_recover_pending_import` for the command that made the journal: `recovered` says that it found a
     * committed import and finished it. An undisturbed run always succeeds, whatever state it starts in.
     */
    method RecoverPendingImport() returns (s: Signal, recovered: bool, ghost n: nat)
      requires Valid()
      modifies this`tick, this`files, this`row, this`hot, this`journal
      ensures Valid() && tick >= old(tick) && (s.Crashed? <==> Dies(old(tick), tick))
      ensures Recovered(View()) == old(Recovered(View()))
      ensures s.Done? ==> View() == old(Recovered(View()))
      ensures s.Done? ==> (recovered <==> old(journal.Some? && journal.value.phase.Committed?))
      ensures old(Quiet()) ==> s.Done?
      ensures View() == Cut(old(View()), n, hot)
    {
      recovered, n := false, 0;
      if journal.None? {
        return Done, false, 0;
      }
      ghost var d := View();
      s := Read();
      if !s.Done? { return; }
      var j := journal.value;
      if ValidateFiles(Disk(files, row, false, journal), j).Err? {
        return Raised, false, 0;
      }
      s := WriteRow(row);
      n := 1;
      assert Recovered(View()) == old(Recovered(View()));
      if !s.Done? { return; }
      if j.phase.Committed? {
        s, n := FinishCommittedImport(j);
        recovered := true;
      } else {
        s, n := RollbackImport(j);
      }
      ColdCut(d, n, hot);
      n := if n == 0 then 1 else n;
    }

    // ----- commit -----

    /** Content is written into a file, which gets an identity that nothing had before. */
    method WriteFile(name: Name) returns (s: Signal, stamp: Stamp)
      requires Valid() && journal.None? && !name.Destination? && name.token <= unused
      modifies this`tick, this`files, this`unused
      ensures Valid() && tick == old(tick) + 1 && (s.Crashed? <==> Dies(old(tick), tick)) && unused > old(unused) && stamp == old(unused)
      ensures files == if Applies(old(tick)) then old(files)[name := stamp] else old(files)
      ensures s.Done? ==> files == old(files)[name := stamp]
      ensures s.Done? <==> fate(old(tick)).Fine?
    {
      var f := Draw();
      stamp := unused;
      unused := unused + 1;
      if f.Fine? || f.applied {
        files := files[name := stamp];
      }
      s := if f.Fine? then Done else Broken(f);
    }

    /**
     * The two renames and the registry transaction, between the prepared and the committed marker. At every
     * point where this can stop the journal still decides for the old pair.
     */
    method ExchangeFiles(j: Journal, p: Plan) returns (s: Signal)
      requires Valid() && journal == Some(j) && j.phase.Prepared?
      requires Observed(View()) == OldPair(j) && Lookup(files, Staged(j.token)) == Some(j.staged)
      requires Backup(j.token) !in files
      modifies this`tick, this`files, this`row, this`hot
      ensures Valid() && tick >= old(tick) && (s.Crashed? <==> Dies(old(tick), tick))
      ensures Recovered(View()) == old(Recovered(View())) && Beside(files, j.token) == old(Beside(files, j.token))
      ensures s.Done? ==> Observed(View()) == NewPair(j) && !hot
      ensures old(Quiet()) ==> !s.Crashed?
      ensures old(Quiet()) ==> (s.Done? <==> p.sourceUnchanged)
      ensures old(Quiet()) && !p.sourceUnchanged ==> hot == old(hot)
      ensures !p.sourceUnchanged ==> s.Raised? || s.Crashed?
    {
      ghost var d := View();
      ghost var mine := {Destination, Staged(j.token), Backup(j.token)};
      if j.previous.Some? {
        s := Rename(Destination, Backup(j.token));
        assert files - mine == d.files - mine;
        SameBeside(d, View());
        if !s.Done? { return; }
      }
      s := Rename(Staged(j.token), Destination);
      assert files - mine == d.files - mine;
      SameBeside(d, View());
      if !s.Done? { return; }
      if !p.sourceUnchanged {
        return Raised;
      }
      s := WriteRow(Some(j.activatedRow));
    }

    /**
     * The `try` block of `_commit_import` up to the prepared journal. Stopping here leaves no journal, or a
     * prepared one over an untouched destination and row.
     */
    method PrepareImport(p: Plan, token: nat) returns (s: Signal, j: Journal)
      requires Valid() && journal.None? && token < unused && Staged(token) in files && Backup(token) !in files
      modifies this
      ensures Valid() && tick >= old(tick) && unused >= old(unused) && (s.Crashed? <==> Dies(old(tick), tick))
      ensures Observed(View()) == old(Observed(View())) && Beside(files, token) == old(Beside(files, token))
      ensures j.token == token && j.phase.Prepared? && Backup(token) !in files
      ensures journal.None? || journal == Some(j)
      ensures journal.Some? ==> OldPair(j) == Observed(View()) && j.activatedRow == Activation(row, p)
      ensures journal.Some? ==> Lookup(files, Staged(token)) == Some(j.staged) && j.staged >= old(unused)
      ensures journal.Some? ==> p.stagedValid && p.planUnchanged && p.destinationEmpty && Preflight(row, p)
      ensures s.Done? ==> journal.Some?
      ensures old(Quiet()) ==>
                (s.Done? <==> p.stagedValid && p.planUnchanged && p.destinationEmpty && Preflight(row, p))
      ensures old(Quiet()) ==> !s.Crashed? && (s.Raised? ==> journal.None?) && (hot ==> old(hot))
    {
      j := Journal(token, 0, None, None, NewRow(p.installation, p.now), Prepared);
      if !p.stagedValid {
        return Raised, j;
      }
      s := WriteRow(row);
      if !s.Done? { return; }
      if !Preflight(row, p) || !p.planUnchanged {
        return Raised, j;
      }
      var stamp: Stamp;
      s, stamp := WriteFile(Staged(token));
      if !s.Done? || !p.destinationEmpty {
        return if s.Done? then Raised else s, j;
      }
      j := Journal(token, stamp, Lookup(files, Destination), row, Activation(row, p), Prepared);
      s := WriteJournal(Some(j));
    }

    /**
     * The whole `try` block of `_commit_import`. `marked` says whether the committed marker reached the disk;
     * until it did the outcome is the old pair, from then on it is the new one.
     */
    method PrepareAndMark(p: Plan, token: nat) returns (s: Signal, j: Journal, ghost marked: bool)
      requires Valid() && journal.None? && token < unused && Staged(token) in files && Backup(token) !in files
      modifies this
      ensures Valid() && tick >= old(tick) && (s.Crashed? <==> Dies(old(tick), tick))
      ensures unused >= old(unused) && Beside(files, token) == old(Beside(files, token))
      ensures journal.None? ==> !marked && Observed(View()) == old(Observed(View())) && Backup(token) !in files
      ensures journal.Some? ==>
                && j.token == token && journal == Some(j.(phase := if marked then Committed else Prepared))
                && OldPair(j) == old(Observed(View())) && j.activatedRow == Activation(old(row), p)
                && j.staged >= old(unused)
      ensures marked ==> AllChecksPass(p) && Preflight(old(row), p) && ActivatedFrom(old(row), j.activatedRow, p)
      ensures s.Done? ==> marked && !hot && journal == Some(j) && j.phase.Committed?
      ensures old(Quiet()) ==> (s.Done? <==> AllChecksPass(p) && Preflight(old(row), p))
      ensures old(Quiet()) ==> !s.Crashed? && !(s.Raised? && marked) && (hot ==> old(hot))
    {
      marked := false;
      if Preflight(row, p) {
        ActivationActivates(row, p);
      }
      s, j := PrepareImport(p, token);
      if !s.Done? { return; }
      ghost var d := View();
      s := ExchangeFiles(j, p);
      if !s.Done? { return; }
      s := WriteJournal(Some(j.(phase := Committed)));
      marked := journal == Some(j.(phase := Committed));
      if s.Done? {
        j := j.(phase := Committed);
      }
    }

    /** The end of `_commit_import`, from the disk `before` on: everything but the new pair goes. */
    method EndCommit(j: Journal, ghost before: Disk) returns (s: Signal)
      requires Valid() && journal == Some(j) && j.phase.Committed?
      requires Staged(j.token) !in before.files && Backup(j.token) !in before.files
      requires Beside(files, j.token) == Beside(before.files, j.token)
      modifies this`tick, this`files, this`row, this`hot, this`journal
      ensures Valid() && tick >= old(tick) && (s.Crashed? <==> Dies(old(tick), tick))
      ensures Outcome(View()) == NewPair(j)
      ensures s.Done? ==> View() == Disk(before.files[Destination := j.staged], Some(j.activatedRow), false, None)
      ensures old(Quiet() && !hot) ==> s.Done?
    {
      ghost var d := View();
      ghost var n;
      s, n := FinishCommittedImport(j);
      RecoveredIsSettled(d);
      RecoveredIsSettled(View());
      if s.Done? {
        SameFiles(files, before.files[Destination := j.staged], j.token);
      }
    }

    /** `_rollback_import` for the handler, which does not ask how far it got. */
    method Rollback(j: Journal) returns (s: Signal)
      requires Valid() && journal == Some(j) && j.phase.Prepared?
      modifies this`tick, this`files, this`row, this`hot, this`journal
      ensures Valid() && tick >= old(tick) && (s.Crashed? <==> Dies(old(tick), tick))
      ensures Recovered(View()) == old(Recovered(View()))
      ensures journal.None? || journal == Some(j)
      ensures s.Done? ==> View() == old(Recovered(View()))
      ensures old(Quiet() && !hot) ==> s.Done?
    {
      ghost var n;
      s, n := RollbackImport(j);
    }

    /** The first half of the handler: a prepared import is rolled back, a committed one is left to a recovery. */
    method RollbackUnlessMarked(token: nat) returns (s: Signal)
      requires Valid() && journal.Some? && journal.value.token == token
      modifies this`tick, this`files, this`row, this`hot, this`journal
      ensures Valid() && tick >= old(tick) && (s.Crashed? <==> Dies(old(tick), tick))
      ensures Outcome(View()) == old(Outcome(View())) && Beside(files, token) == old(Beside(files, token))
      ensures journal.None? || journal == old(journal)
      ensures journal.None? ==> Backup(token) !in files
      ensures old(Quiet() && !hot && journal.value.phase.Prepared?) ==>
                s.Done? && journal.None? && !hot && Staged(token) !in files
    {
      ghost var d := View();
      s := Read();
      if s.Done? && journal.value.phase.Prepared? {
        s := Rollback(journal.value);
        assert Recovered(d).journal.None?;
        assert Beside(files, token) == Beside(Recovered(View()).files, token);
        assert Beside(d.files, token) == Beside(Recovered(d).files, token);
      }
    }

    /**
     * The handler of `_commit_import`: what a failed attempt did is rolled back unless the marker is on disk. An
     * undisturbed handler brings back the disk from `before` the attempt.
     */
    method HandleFailure(token: nat, ghost before: Disk) returns (s: Signal)
      requires Valid() && (journal.Some? ==> journal.value.token == token)
      requires before.journal.None? && !before.hot && Staged(token) !in before.files && Backup(token) !in before.files
      requires Beside(files, token) == Beside(before.files, token)
      requires journal.None? ==> Observed(View()) == Observed(before) && Backup(token) !in files
      modifies this`tick, this`files, this`row, this`hot, this`journal
      ensures Valid() && tick >= old(tick) && (s.Crashed? <==> Dies(old(tick), tick))
      ensures Outcome(View()) == old(Outcome(View()))
      ensures s.Raised? || s.Crashed?
      ensures old(Quiet() && !hot && (journal.Some? ==> journal.value.phase.Prepared? && OldPair(journal.value) == Observed(before))) ==>
                s.Raised? && View() == before
    {
      s := Raised;
      if journal.Some? {
        var load := RollbackUnlessMarked(token);
        if load.Crashed? { return Crashed; }
      }
      if journal.None? {
        var unlink := Unlink(Staged(token));
        if unlink.Crashed? { return Crashed; }
        if unlink.Done? && Observed(View()) == Observed(before) {
          SameFiles(files, before.files, token);
        }
      }
    }

    /**
     * `_commit_import`. Wherever it is stopped, its outcome is the old pair before the committed marker and the
     * new pair after it; it succeeds exactly when every check passes and nothing disturbs it, and an undisturbed
     * refusal leaves the disk as it was.
     */
    method CommitImport(p: Plan) returns (s: Signal, ghost marked: bool, ghost j: Journal)
      requires Valid() && journal.None? && !hot
      modifies this
      ensures Valid() && tick >= old(tick) && unused >= old(unused) && (s.Crashed? <==> Dies(old(tick), tick))
      ensures Outcome(View()) == if marked then NewPair(j) else old(Observed(View()))
      ensures marked ==> old(unused) <= j.staged < unused
      ensures marked ==> AllChecksPass(p) && Preflight(old(row), p) && j.activatedRow == Activation(old(row), p)
      ensures marked ==> ActivatedFrom(old(row), j.activatedRow, p)
      ensures s.Done? ==> marked
      ensures s.Done? ==> View() == Disk(old(files)[Destination := j.staged], Some(j.activatedRow), false, None)
      ensures old(Quiet()) ==> (s.Done? <==> AllChecksPass(p) && Preflight(old(row), p))
      ensures old(Quiet()) && !s.Done? ==> View() == old(View())
    {
      ghost var d := View();
      var token := unused;
      assert Staged(token) !in files && Backup(token) !in files;
      var ignored: Stamp;
      marked, j := false, Journal(token, 0, None, None, NewRow(p.installation, p.now), Prepared);
      s, ignored := WriteFile(Staged(token));
      if s.Done? {
        var made: Journal;
        s, made, marked := PrepareAndMark(p, token);
        j := made;
        if s.Done? {
          s := EndCommit(made, d);
          return;
        }
      }
      if s.Raised? {
        s := HandleFailure(token, d);
      }
    }

    /**
     * `import_legacy_database` without dry run: an earlier import is settled first. `stamp` is the file that this
     * command staged, once its committed marker is on the disk.
     */
    method ImportLegacyDatabase(p: Plan) returns (s: Signal, ghost stamp: Option<Stamp>)
      requires Valid()
      modifies this
      ensures Valid() && Explained(Import(p), old(View()), View(), stamp)
      ensures unused >= old(unused) && tick >= old(tick) && (s.Crashed? <==> Dies(old(tick), tick))
      ensures stamp.None? ==> Outcome(View()) == old(Outcome(View()))
      ensures stamp.Some? ==> old(unused) <= stamp.value < unused
      ensures stamp.Some? ==> Installed(old(Outcome(View())), Outcome(View()), stamp.value, p)
      ensures s.Done? ==> journal.None?
      ensures old(Quiet()) ==> journal.None?
      ensures old(Quiet()) && s.Raised? ==> View() == old(Recovered(View()))
      ensures old(Quiet() && journal.Some? && journal.value.phase.Committed?) ==> s.Done?
    {
      ghost var d := View();
      stamp := None;
      var recovered;
      ghost var n;
      s, recovered, n := RecoverPendingImport();
      RecoveredIsSettled(d);
      RecoveredIsSettled(View());
      if !s.Done? || recovered {
        return;
      }
      if hot || !Preflight(row, p) || !p.destinationEmpty {
        return Raised, None;
      }
      ghost var marked, j;
      s, marked, j := CommitImport(p);
      stamp := if marked then Some(j.staged) else None;
    }

    /** A gateway start is refused while a journal exists, so a session only ever sees a settled pair. */
    method GatewaySession(c: Command) returns (started: bool, ghost stamp: Option<Stamp>)
      requires Valid() && c.Gateway?
      modifies this
      ensures Valid() && Explained(c, old(View()), View(), stamp) && tick == old(tick) && unused >= old(unused)
      ensures stamp.Some? ==> old(unused) <= stamp.value < unused
      ensures started <==> old(journal.None?)
      ensures started ==> old(Observed(View()) == Outcome(View())) && row == c.newRow
    {
      started, stamp := journal.None?, None;
      if started {
        if c.rewrites {
          stamp := Some(unused);
          files := files[Destination := unused];
          unused := unused + 1;
        }
        row, hot := c.newRow, c.hot;
      }
    }

    /**
     * Any history of imports, gateway sessions, failures and crashes, with the disk after every command and the
     * file that the command put into place: whenever no journal is left, the pair on the disk is the first one, a
     * session's, or the whole new pair of one import.
     */
    method RunHistory(commands: seq<Command>) returns (ghost disks: seq<Disk>, ghost stamps: seq<Option<Stamp>>)
      requires Valid()
      modifies this
      ensures Valid() && |disks| == |commands| + 1 == |stamps| + 1 && disks[0] == old(View()) && disks[|commands|] == View()
      ensures forall i | 0 <= i <= |commands| :: Protocol(disks[i])
      ensures forall i | 0 <= i < |commands| :: Explained(commands[i], disks[i], disks[i + 1], stamps[i])
      ensures FreshStamps(stamps, old(unused), unused)
      ensures forall i | 0 <= i < |commands| && commands[i].Import? && stamps[i].Some? ::
                Installed(Outcome(disks[i]), Outcome(disks[i + 1]), stamps[i].value, commands[i].p)
      ensures forall k | 0 <= k <= |commands| :: Accounted(Outcome(disks[k]), disks, commands, stamps, k)
      ensures forall k | 0 <= k <= |commands| && disks[k].journal.None? :: Accounted(Observed(disks[k]), disks, commands, stamps, k)
    {
      disks, stamps := [View()], [];
      for i := 0 to |commands|
        invariant Valid() && |disks| == i + 1 && |stamps| == i && disks[0] == old(View()) && disks[i] == View()
        invariant forall k | 0 <= k <= i :: Protocol(disks[k])
        invariant forall k | 0 <= k < i :: Explained(commands[k], disks[k], disks[k + 1], stamps[k])
        invariant forall k | 0 <= k < i && commands[k].Import? && stamps[k].Some? ::
                    Installed(Outcome(disks[k]), Outcome(disks[k + 1]), stamps[k].value, commands[k].p)
        invariant FreshStamps(stamps, old(unused), unused) && unused >= old(unused)
      {
        ghost var stamp;
        if commands[i].Import? {
          var s;
          s, stamp := ImportLegacyDatabase(commands[i].p);
        } else {
          var started;
          started, stamp := GatewaySession(commands[i]);
        }
        disks, stamps := disks + [View()], stamps + [stamp];
      }
      forall k | 0 <= k <= |commands| ensures Accounted(Outcome(disks[k]), disks, commands, stamps, k) {
        HistoryIsAccounted(disks, commands, stamps, k);
      }
    }
  }
}
