/** The unified-diff parser and the anchors of its hunks (diff.py). */
module UnifiedDiff {
  import opened Basics
  import opened Texts
  import opened GitPaths

  // ----- anchors -----

  function MakeAnchor(file: string, newStart: nat): string {
    file + ":L" + ToDecimal(newStart)
  }

  /** How many digits the text ends with. */
  function TailDigits(a: string): (n: nat)
    ensures n <= |a| && AllDigits(a[|a| - n..]) && (n < |a| ==> !IsDigit(a[|a| - n - 1]))
  {
    if a == "" || !IsDigit(a[|a| - 1]) then 0
    else
      var n := TailDigits(a[..|a| - 1]);
      assert a[|a| - n - 1..] == a[..|a| - 1][|a| - 1 - n..] + [a[|a| - 1]];
      n + 1
  }

  function ParseAnchor(a: string): Option<(string, nat)> {
    var k := |a| - TailDigits(a);
    if k < |a| && k >= 3 && a[k - 2] == ':' && a[k - 1] == 'L' && '\n' !in a[..k - 2]
    then Some((a[..k - 2], FromDecimal(a[k..]))) else None
  }

  /** The anchor has the form that the regular expression `(.+):L(\d+)` describes. */
  ghost predicate AnchorForm(a: string, file: string, digits: string) {
    a == file + ":L" + digits && file != "" && '\n' !in file && digits != "" && AllDigits(digits)
  }

  lemma {:induction false} TailDigitsOf(head: string, digits: string)
    requires AllDigits(digits) && (head == "" || !IsDigit(head[|head| - 1]))
    ensures TailDigits(head + digits) == |digits|
  {
    if digits == "" {
      assert head + digits == head;
    } else {
      assert (head + digits)[..|head + digits| - 1] == head + digits[..|digits| - 1];
      assert digits[|digits| - 1] in digits;
      TailDigitsOf(head, digits[..|digits| - 1]);
    }
  }

  /** The only way to read an anchor. */
  lemma AnchorReading(a: string, file: string, digits: string)
    requires AnchorForm(a, file, digits)
    ensures ParseAnchor(a) == Some((file, FromDecimal(digits)))
  {
    TailDigitsOf(file + ":L", digits);
    var k := |a| - |digits|;
    assert a[k..] == digits && a[..k - 2] == file;
  }

  lemma AnchorSplit(a: string, k: nat)
    requires 3 <= k <= |a| && a[k - 2] == ':' && a[k - 1] == 'L'
    ensures a == a[..k - 2] + ":L" + a[k..]
  {
    assert a[k - 2..k] == ":L";
    assert a == a[..k - 2] + a[k - 2..k] + a[k..];
  }

  /** Only texts of the form are read. */
  lemma AnchorParsesAs(a: string)
    requires ParseAnchor(a).Some?
    ensures exists digits :: AnchorForm(a, ParseAnchor(a).value.0, digits) && ParseAnchor(a).value.1 == FromDecimal(digits)
  {
    var n := TailDigits(a);
    AnchorSplit(a, |a| - n);
    assert AnchorForm(a, ParseAnchor(a).value.0, a[|a| - n..]);
  }

  /** An anchor comes back exactly when its file name is not empty and contains no newline. */
  lemma AnchorRoundTripIff(file: string, n: nat)
    ensures ParseAnchor(MakeAnchor(file, n)) == Some((file, n)) <==> file != "" && '\n' !in file
  {
    DecimalRoundTrip(n);
    var a := MakeAnchor(file, n);
    if file != "" && '\n' !in file {
      AnchorReading(a, file, ToDecimal(n));
    }
  }

  /** Whatever is read from an anchor makes an anchor that is read the same way. */
  lemma ParsedAnchorIsStable(a: string)
    requires ParseAnchor(a).Some?
    ensures var (file, n) := ParseAnchor(a).value; ParseAnchor(MakeAnchor(file, n)) == Some((file, n))
  {
    AnchorRoundTripIff(ParseAnchor(a).value.0, ParseAnchor(a).value.1);
  }

  // ----- results -----

  datatype Status = Added | Deleted | Modified | Renamed

  datatype FileChange = FileChange(
    file: string, status: Status, binary: bool, additions: nat, deletions: nat, hunkCount: nat, previous: Option<string>)

  datatype Hunk = Hunk(
    file: string, newStart: nat, oldStart: nat, anchor: string, added: seq<string>, removed: seq<string>, body: string,
    status: Status)

  datatype DiffResult = DiffResult(hunks: seq<Hunk>, files: seq<FileChange>)

  // ----- one line after another -----

  /** The hunk being read. */
  datatype OpenHunk = OpenHunk(newStart: nat, oldStart: nat, body: seq<string>, added: seq<string>, removed: seq<string>)

  datatype Reading = Reading(files: seq<FileChange>, hunks: seq<Hunk>, cur: Option<FileChange>, hunk: Option<OpenHunk>)

  const START := Reading([], [], None, None)
  const NEW_FILE := FileChange("", Modified, false, 0, 0, 0, None)

  function HunkOf(c: FileChange, o: OpenHunk): Hunk {
    Hunk(c.file, o.newStart, o.oldStart, MakeAnchor(c.file, o.newStart), o.added, o.removed, JoinLines(o.body), c.status)
  }

  /** A hunk of context lines only is not kept. */
  function HunkClosed(p: Reading): Reading {
    if p.cur.None? || p.hunk.None? then p
    else
      var c, o := p.cur.value, p.hunk.value;
      var kept := o.added != [] || o.removed != [];
      Reading(p.files, if kept then p.hunks + [HunkOf(c, o)] else p.hunks,
              Some(c.(additions := c.additions + |o.added|, deletions := c.deletions + |o.removed|,
                      hunkCount := if kept then c.hunkCount + 1 else c.hunkCount)), None)
  }

  function FileClosed(p: Reading): Reading {
    var q := HunkClosed(p);
    if q.cur.None? then q.(hunk := None) else Reading(q.files + [q.cur.value], q.hunks, None, None)
  }

  /** The starts of a hunk in its header line: `@@ -old[,n] +new[,n] @@`. */
  function HeaderStarts(line: string): Option<(nat, nat)> {
    if !("@@ -" <= line) then None
    else
      match RangeStart(line[4..])
      case None => None
      case Some((oldStart, n)) =>
        var rest := line[4..][n..];
        if !(" +" <= rest) then None
        else
          match RangeStart(rest[2..])
          case None => None
          case Some((newStart, k)) =>
            if " @@" <= rest[2..][k..] then Some((FromDecimal(oldStart), FromDecimal(newStart))) else None
  }

  /** A number, optionally followed by a comma and another one; the first number's digits and the length of it all. */
  function RangeStart(t: string): (r: Option<(string, nat)>)
    ensures r.Some? ==> AllDigits(r.value.0) && r.value.1 <= |t|
  {
    var n := DigitRun(t);
    if n == 0 then None else Some((t[..n], n + CommaNumber(t[n..])))
  }

  /** The length of a comma and the number after it, 0 when there is none. */
  function CommaNumber(t: string): (n: nat)
    ensures n <= |t|
  {
    if t != "" && t[0] == ',' && DigitRun(t[1..]) > 0 then 1 + DigitRun(t[1..]) else 0
  }

  /** Lines that the parser reads as a file name even inside a hunk. */
  predicate HeaderLike(line: string) {
    "--- " <= line || "+++ " <= line
  }

  predicate Plus(line: string) {
    line != "" && line[0] == '+'
  }

  predicate Minus(line: string) {
    line != "" && line[0] == '-'
  }

  function Extended(o: OpenHunk, line: string): OpenHunk {
    if Plus(line) then o.(added := o.added + [line], body := o.body + [line])
    else if Minus(line) then o.(removed := o.removed + [line], body := o.body + [line])
    else if " " <= line || line == "" then o.(body := o.body + [line])
    else o
  }

  /** Sets the file name from a `---` or `+++` line; the old name counts only while there is none. */
  function Named(p: Reading, path: Result<string, string>, always: bool): Result<Reading, string>
    requires p.cur.Some?
  {
    match path
    case Err(e) => Err(e)
    case Ok(name) =>
      if name != "/dev/null" && (always || p.cur.value.file == "") then Ok(p.(cur := Some(p.cur.value.(file := name)))) else Ok(p)
  }

  /** What a line says by the way it starts, asked in the order of the code. */
  datatype Line =
    | DiffGit | NewMode | DeletedMode | RenameFrom(text: string) | RenameTo(text: string) | BinaryFiles
    | OldName(text: string) | NewName(text: string) | At | Other

  function Classify(line: string): Line {
    if "diff --git " <= line then DiffGit
    else if "new file mode" <= line then NewMode
    else if "deleted file mode" <= line then DeletedMode
    else if "rename from " <= line then RenameFrom(line[12..])
    else if "rename to " <= line then RenameTo(line[10..])
    else if "Binary files " <= line then BinaryFiles
    else if "--- " <= line then OldName(line[4..])
    else if "+++ " <= line then NewName(line[4..])
    else if "@@" <= line then At
    else Other
  }

  function Renaming(c: FileChange, path: Result<string, string>, from: bool): Result<FileChange, string> {
    match path
    case Err(e) => Err(e)
    case Ok(name) => Ok(if from then c.(status := Renamed, previous := Some(name)) else c.(status := Renamed, file := name))
  }

  function WithCur(p: Reading, c: Result<FileChange, string>): Result<Reading, string> {
    match c
    case Err(e) => Err(e)
    case Ok(change) => Ok(p.(cur := Some(change)))
  }

  /** A hunk header ends the hunk before it; a line that only looks like one is ignored. */
  function Opened(p: Reading, starts: Option<(nat, nat)>): Reading {
    match starts
    case None => p
    case Some((oldStart, newStart)) => HunkClosed(p).(hunk := Some(OpenHunk(newStart, oldStart, [], [], [])))
  }

  function Fed(p: Reading, line: string): Result<Reading, string> {
    FedAs(p, Classify(line), line)
  }

  function FedAs(p: Reading, kind: Line, line: string): Result<Reading, string> {
    if kind.DiffGit? then Ok(FileClosed(p).(cur := Some(NEW_FILE)))
    else if p.cur.None? then Ok(p)
    else
      var c := p.cur.value;
      match kind
      case NewMode => Ok(p.(cur := Some(c.(status := Added))))
      case DeletedMode => Ok(p.(cur := Some(c.(status := Deleted))))
      case RenameFrom(text) => WithCur(p, Renaming(c, UnquotedPath(text), true))
      case RenameTo(text) => WithCur(p, Renaming(c, UnquotedPath(text), false))
      case BinaryFiles => Ok(p.(cur := Some(c.(binary := true))))
      case OldName(text) => Named(p, UnquotedPath(text), false)
      case NewName(text) => Named(p, UnquotedPath(text), true)
      case At => Ok(Opened(p, HeaderStarts(line)))
      case Other => if p.hunk.Some? then Ok(p.(hunk := Some(Extended(p.hunk.value, line)))) else Ok(p)
  }

  function FedAll(p: Reading, lines: seq<string>): Result<Reading, string>
    decreases |lines|
  {
    if lines == [] then Ok(p)
    else
      match Fed(p, lines[0])
      case Err(e) => Err(e)
      case Ok(q) => FedAll(q, lines[1..])
  }

  function Parsed(raw: string): Result<DiffResult, string> {
    match FedAll(START, SplitLines(raw))
    case Err(e) => Err(e)
    case Ok(p) => Ok(DiffResult(FileClosed(p).hunks, FileClosed(p).files))
  }

  // ----- conservation, for every input -----

  function Additions(files: seq<FileChange>): nat {
    if files == [] then 0 else Additions(files[..|files| - 1]) + files[|files| - 1].additions
  }

  function Deletions(files: seq<FileChange>): nat {
    if files == [] then 0 else Deletions(files[..|files| - 1]) + files[|files| - 1].deletions
  }

  function HunkCounts(files: seq<FileChange>): nat {
    if files == [] then 0 else HunkCounts(files[..|files| - 1]) + files[|files| - 1].hunkCount
  }

  function AddedLines(hunks: seq<Hunk>): nat {
    if hunks == [] then 0 else AddedLines(hunks[..|hunks| - 1]) + |hunks[|hunks| - 1].added|
  }

  function RemovedLines(hunks: seq<Hunk>): nat {
    if hunks == [] then 0 else RemovedLines(hunks[..|hunks| - 1]) + |hunks[|hunks| - 1].removed|
  }

  ghost predicate Balanced(p: Reading) {
    && Additions(p.files) + (if p.cur.Some? then p.cur.value.additions else 0) == AddedLines(p.hunks)
    && Deletions(p.files) + (if p.cur.Some? then p.cur.value.deletions else 0) == RemovedLines(p.hunks)
    && HunkCounts(p.files) + (if p.cur.Some? then p.cur.value.hunkCount else 0) == |p.hunks|
  }

  function Chosen(lines: seq<string>, marker: char): seq<string> {
    if lines == [] then []
    else
      var last := lines[|lines| - 1];
      Chosen(lines[..|lines| - 1], marker) + if last != "" && last[0] == marker then [last] else []
  }

  /** A line that can stand in the body of a hunk. */
  predicate BodyLine(line: string) {
    && (line == "" || line[0] == ' ' || line[0] == '+' || line[0] == '-')
    && !HeaderLike(line) && NoBreak(line)
  }

  ghost predicate BodyLines(lines: seq<string>) {
    forall k | 0 <= k < |lines| :: BodyLine(lines[k])
  }

  /** A hunk as the parser makes it: its lists are its marked body lines, in order. */
  ghost predicate Exact(h: Hunk) {
    && BodyLines(SplitNewline(h.body))
    && h.added == Chosen(SplitNewline(h.body), '+') && h.removed == Chosen(SplitNewline(h.body), '-')
    && h.anchor == MakeAnchor(h.file, h.newStart) && (h.added != [] || h.removed != [])
  }

  ghost predicate ExactOpen(o: OpenHunk) {
    BodyLines(o.body) && o.added == Chosen(o.body, '+') && o.removed == Chosen(o.body, '-')
  }

  ghost predicate Sound(p: Reading) {
    && Balanced(p) && (p.hunk.Some? ==> ExactOpen(p.hunk.value))
    && forall k | 0 <= k < |p.hunks| :: Exact(p.hunks[k])
  }

  lemma ClosingIsExact(c: FileChange, o: OpenHunk)
    requires ExactOpen(o) && (o.added != [] || o.removed != [])
    ensures Exact(HunkOf(c, o))
  {
    assert o.body != [];
    forall k | 0 <= k < |o.body| ensures '\n' !in o.body[k] {
      assert BodyLine(o.body[k]);
    }
    SplitJoined(o.body);
  }

  lemma ClosingIsSound(p: Reading)
    requires Sound(p)
    ensures Sound(HunkClosed(p)) && Sound(FileClosed(p))
  {
    var q := HunkClosed(p);
    if p.cur.Some? && p.hunk.Some? {
      var h := HunkOf(p.cur.value, p.hunk.value);
      assert (p.hunks + [h])[..|p.hunks|] == p.hunks;
      if p.hunk.value.added != [] || p.hunk.value.removed != [] {
        ClosingIsExact(p.cur.value, p.hunk.value);
      }
    }
    if q.cur.Some? {
      assert (q.files + [q.cur.value])[..|q.files|] == q.files;
    }
  }

  lemma ExtendingIsExact(o: OpenHunk, line: string)
    requires ExactOpen(o) && NoBreak(line) && !HeaderLike(line)
    ensures ExactOpen(Extended(o, line))
  {
    assert (o.body + [line])[..|o.body|] == o.body;
  }

  /** A line that is about the current file only. */
  ghost predicate SameCounts(p: Reading, q: Reading) {
    && q.files == p.files && q.hunks == p.hunks && q.hunk == p.hunk && (q.cur.Some? <==> p.cur.Some?)
    && (p.cur.Some? ==>
          && q.cur.value.additions == p.cur.value.additions && q.cur.value.deletions == p.cur.value.deletions
          && q.cur.value.hunkCount == p.cur.value.hunkCount)
  }

  lemma FedCases(p: Reading, kind: Line, line: string)
    requires FedAs(p, kind, line).Ok?
    ensures var q := FedAs(p, kind, line).value;
            || SameCounts(p, q)
            || q == FileClosed(p).(cur := Some(NEW_FILE))
            || (p.cur.Some? && exists a, b :: q == HunkClosed(p).(hunk := Some(OpenHunk(a, b, [], [], []))))
            || (p.hunk.Some? && kind.Other? && q == p.(hunk := Some(Extended(p.hunk.value, line))))
  {
  }

  lemma FeedingAsIsSound(p: Reading, kind: Line, line: string)
    requires Sound(p) && NoBreak(line) && FedAs(p, kind, line).Ok? && (kind.Other? ==> !HeaderLike(line))
    ensures Sound(FedAs(p, kind, line).value)
  {
    ClosingIsSound(p);
    FedCases(p, kind, line);
    if p.hunk.Some? && kind.Other? {
      ExtendingIsExact(p.hunk.value, line);
    }
  }

  lemma OtherIsNoHeader(line: string)
    ensures Classify(line).Other? ==> !HeaderLike(line)
  {
  }

  lemma FeedingIsSound(p: Reading, line: string)
    requires Sound(p) && NoBreak(line) && Fed(p, line).Ok?
    ensures Sound(Fed(p, line).value)
  {
    OtherIsNoHeader(line);
    FeedingAsIsSound(p, Classify(line), line);
  }

  lemma {:induction false} FeedingAllIsSound(p: Reading, lines: seq<string>)
    requires Sound(p) && forall k | 0 <= k < |lines| :: NoBreak(lines[k])
    ensures FedAll(p, lines).Ok? ==> Sound(FedAll(p, lines).value)
    decreases |lines|
  {
    if lines != [] {
      if Fed(p, lines[0]).Ok? {
        FeedingIsSound(p, lines[0]);
        FeedingAllIsSound(Fed(p, lines[0]).value, lines[1..]);
      }
    }
  }

  /** For every text that parses: the file totals are those of the hunks, and every hunk is exact. */
  lemma ParseConserves(raw: string)
    requires Parsed(raw).Ok?
    ensures var r := Parsed(raw).value;
            && Additions(r.files) == AddedLines(r.hunks) && Deletions(r.files) == RemovedLines(r.hunks)
            && HunkCounts(r.files) == |r.hunks|
            && forall k | 0 <= k < |r.hunks| :: Exact(r.hunks[k])
  {
    var lines := SplitLines(raw);
    forall k | 0 <= k < |lines| ensures NoBreak(lines[k]) {
      SplitLinesHaveNoBreak(raw, k);
    }
    FeedingAllIsSound(START, lines);
    ClosingIsSound(FedAll(START, lines).value);
  }

  // ----- the code -----

  /** The variables of `parse_hunks` that its nested functions share. */
  class DiffParser {
    var files: seq<FileChange>
    var hunks: seq<Hunk>
    var cur: Option<FileChange>
    var open_: bool
    var body: seq<string>
    var added: seq<string>
    var removed: seq<string>
    var newStart: nat
    var oldStart: nat

    constructor ()
      ensures View() == START
    {
      files, hunks, cur, open_ := [], [], None, false;
      body, added, removed, newStart, oldStart := [], [], [], 0, 0;
    }

    function View(): Reading
      reads this
    {
      Reading(files, hunks, cur, if open_ then Some(OpenHunk(newStart, oldStart, body, added, removed)) else None)
    }

    method CloseHunk()
      modifies this
      ensures View() == HunkClosed(old(View()))
    {
      if cur.None? || !open_ {
        return;
      }
      var c := cur.value;
      var count := c.hunkCount;
      if added != [] || removed != [] {
        hunks := hunks + [Hunk(c.file, newStart, oldStart, MakeAnchor(c.file, newStart), added, removed, JoinLines(body), c.status)];
        count := count + 1;
      }
      cur := Some(c.(additions := c.additions + |added|, deletions := c.deletions + |removed|, hunkCount := count));
      open_ := false;
    }

    method CloseFile()
      modifies this
      ensures View() == FileClosed(old(View()))
    {
      CloseHunk();
      if cur.Some? {
        files := files + [cur.value];
      }
      cur, open_ := None, false;
    }

    /** A `---` or `+++` line. */
    method NameFile(text: string, always: bool) returns (ok: bool)
      requires cur.Some?
      modifies this`cur
      ensures ok <==> Named(old(View()), UnquotedPath(text), always).Ok?
      ensures ok ==> View() == Named(old(View()), UnquotedPath(text), always).value
    {
      var path := Unquote(text);
      if path.Err? {
        return false;
      }
      if path.value != "/dev/null" && (always || cur.value.file == "") {
        cur := Some(cur.value.(file := path.value));
      }
      return true;
    }

    method Rename(text: string, from: bool) returns (ok: bool)
      requires cur.Some?
      modifies this`cur
      ensures ok <==> WithCur(old(View()), Renaming(old(cur).value, UnquotedPath(text), from)).Ok?
      ensures ok ==> View() == WithCur(old(View()), Renaming(old(cur).value, UnquotedPath(text), from)).value
    {
      var path := Unquote(text);
      if path.Err? {
        return false;
      }
      cur := Some(if from then cur.value.(status := Renamed, previous := Some(path.value))
                  else cur.value.(status := Renamed, file := path.value));
      return true;
    }

    method ExtendBody(line: string)
      requires open_
      modifies this
      ensures View() == old(View()).(hunk := Some(Extended(old(View()).hunk.value, line)))
    {
      if Plus(line) {
        added, body := added + [line], body + [line];
      } else if Minus(line) {
        removed, body := removed + [line], body + [line];
      } else if " " <= line || line == "" {
        body := body + [line];
      }
    }

    method OpenHunkAt(starts: Option<(nat, nat)>)
      requires cur.Some?
      modifies this
      ensures View() == Opened(old(View()), starts)
    {
      if starts.Some? {
        CloseHunk();
        oldStart, newStart := starts.value.0, starts.value.1;
        open_, body, added, removed := true, [], [], [];
      }
    }

    /** The body of the loop; false stands for an exception of `_unquote`. */
    method FeedLine(line: string) returns (ok: bool)
      modifies this
      ensures ok <==> Fed(old(View()), line).Ok?
      ensures ok ==> View() == Fed(old(View()), line).value
    {
      var kind := Classify(line);
      ok := true;
      if kind.DiffGit? {
        CloseFile();
        cur := Some(NEW_FILE);
      } else if cur.Some? {
        ok := FeedFileLine(kind, line);
      }
    }

    method FeedFileLine(kind: Line, line: string) returns (ok: bool)
      requires cur.Some? && !kind.DiffGit?
      modifies this
      ensures ok <==> FedAs(old(View()), kind, line).Ok?
      ensures ok ==> View() == FedAs(old(View()), kind, line).value
    {
      ok := true;
      match kind
      case NewMode => cur := Some(cur.value.(status := Added));
      case DeletedMode => cur := Some(cur.value.(status := Deleted));
      case RenameFrom(text) => ok := Rename(text, true);
      case RenameTo(text) => ok := Rename(text, false);
      case BinaryFiles => cur := Some(cur.value.(binary := true));
      case OldName(text) => ok := NameFile(text, false);
      case NewName(text) => ok := NameFile(text, true);
      case At => OpenHunkAt(HeaderStarts(line));
      case Other =>
        if open_ {
          ExtendBody(line);
        }
    }

    method ParseHunks(raw: string) returns (r: Result<DiffResult, string>)
      requires View() == START
      modifies this
      ensures r.Ok? <==> Parsed(raw).Ok?
      ensures r.Ok? ==> r == Parsed(raw)
    {
      var lines := SplitLines(raw);
      for k := 0 to |lines|
        invariant FedAll(View(), lines[k..]) == FedAll(START, lines)
      {
        assert lines[k..][1..] == lines[k + 1..];
        var ok := FeedLine(lines[k]);
        if !ok {
          return Err("unquote");
        }
      }
      CloseFile();
      return Ok(DiffResult(hunks, files));
    }
  }
}
