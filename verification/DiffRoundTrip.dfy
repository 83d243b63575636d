/**
 * Changes printed as git prints them, and what the parser of diff.py makes of the printed text: always one known
 * result, and the changes themselves under an exact condition.
 */
module DiffRoundTrip {
  import opened Basics
  import opened Texts
  import opened Utf8
  import opened GitPaths
  import opened UnifiedDiff

  /** A hunk with its header numbers, whose counts are optional; `section` is what follows the second `@@`. */
  datatype PatchHunk = PatchHunk(
    oldStart: nat, oldCount: Option<nat>, newStart: nat, newCount: Option<nat>, section: string, lines: seq<string>)

  /**
   * `mode` is that of an added or deleted file; `before` and `after` are the lines about changed modes, similarity
   * and blob ids, before and after what names the status.
   */
  datatype Patch = Patch(
    status: Status, path: string, previous: Option<string>, mode: string, before: seq<string>, after: seq<string>, binary: bool,
    hunks: seq<PatchHunk>)

  const NO_NEWLINE: string := "\\ No newline at end of file"

  predicate Marked(line: string) {
    line == NO_NEWLINE || ((line == "" || line[0] == ' ' || line[0] == '+' || line[0] == '-') && '\n' !in line)
  }

  predicate Note(line: string) {
    && NoBreak(line)
    && ("index " <= line || "old mode " <= line || "new mode " <= line || "similarity index " <= line
        || "dissimilarity index " <= line)
  }

  ghost predicate Notes(lines: seq<string>) {
    forall k | 0 <= k < |lines| :: Note(lines[k])
  }

  ghost predicate ProperHunk(h: PatchHunk) {
    && (forall k | 0 <= k < |h.lines| :: Marked(h.lines[k])) && NoBreak(h.section)
    && (Chosen(h.lines, '+') != [] || Chosen(h.lines, '-') != [])
  }

  /** Any change: of text, of a mode only, of an empty or binary file, or a rename, each with what git prints for it. */
  ghost predicate ProperPatch(p: Patch) {
    && p.path != "/dev/null" && (p.status.Renamed? <==> p.previous.Some?)
    && NoBreak(p.mode) && Notes(p.before) && Notes(p.after) && (p.binary ==> p.hunks == [])
    && forall k | 0 <= k < |p.hunks| :: ProperHunk(p.hunks[k])
  }

  ghost predicate AllProper(ps: seq<Patch>) {
    forall k | 0 <= k < |ps| :: ProperPatch(ps[k])
  }

  // ----- printing -----

  function Range(start: nat, count: Option<nat>): string {
    RangeText(ToDecimal(start), if count.None? then None else Some(ToDecimal(count.value)))
  }

  function RangeText(start: string, count: Option<string>): string {
    if count.None? then start else start + ("," + count.value)
  }

  function Header(h: PatchHunk): string {
    "@@ -" + (Range(h.oldStart, h.oldCount) + (" +" + (Range(h.newStart, h.newCount) + (" @@" + h.section))))
  }

  function PrintHunks(hunks: seq<PatchHunk>): seq<string> {
    if hunks == [] then [] else [Header(hunks[0])] + hunks[0].lines + PrintHunks(hunks[1..])
  }

  function OldPath(p: Patch): string {
    if p.status.Added? then "/dev/null" else if p.previous.Some? then GitPath(p.previous.value) else GitPath(p.path)
  }

  function NewPath(p: Patch): string {
    if p.status.Deleted? then "/dev/null" else GitPath(p.path)
  }

  /** Git ends a file name line with a tab when the name has a space. */
  function Label(name: string): string {
    if ' ' in name then name + "\t" else name
  }

  function Extras(p: Patch): seq<string> {
    match p.status
    case Added => ["new file mode " + p.mode]
    case Deleted => ["deleted file mode " + p.mode]
    case Modified => []
    case Renamed => if p.previous.None? then [] else ["rename from " + GitPath(p.previous.value), "rename to " + GitPath(p.path)]
  }

  function BinaryLine(p: Patch): seq<string> {
    if p.binary then ["Binary files " + (OldPath(p) + (" and " + (NewPath(p) + " differ")))] else []
  }

  function Names(p: Patch): seq<string> {
    if p.hunks == [] then [] else ["--- " + Label(OldPath(p)), "+++ " + Label(NewPath(p))]
  }

  function DiffLine(p: Patch): string {
    "diff --git " + (GitPath(if p.previous.Some? then p.previous.value else p.path) + (" " + GitPath(p.path)))
  }

  function PrintPatch(p: Patch): seq<string> {
    [DiffLine(p)] + p.before + Extras(p) + p.after + BinaryLine(p) + Names(p) + PrintHunks(p.hunks)
  }

  function Print(ps: seq<Patch>): seq<string> {
    if ps == [] then [] else PrintPatch(ps[0]) + Print(ps[1..])
  }

  // ----- what should come back -----

  /** The lines of a hunk without the marker of a missing newline. */
  function Kept(lines: seq<string>): seq<string> {
    if lines == [] then []
    else Kept(lines[..|lines| - 1]) + if lines[|lines| - 1] == NO_NEWLINE then [] else [lines[|lines| - 1]]
  }

  function HunkResult(p: Patch, h: PatchHunk): Hunk {
    Hunk(p.path, h.newStart, h.oldStart, MakeAnchor(p.path, h.newStart), Chosen(h.lines, '+'), Chosen(h.lines, '-'),
         JoinLines(Kept(h.lines)), p.status)
  }

  function HunkResults(p: Patch, hunks: seq<PatchHunk>): seq<Hunk> {
    if hunks == [] then [] else [HunkResult(p, hunks[0])] + HunkResults(p, hunks[1..])
  }

  function Count(hunks: seq<PatchHunk>, marker: char): nat {
    if hunks == [] then 0 else |Chosen(hunks[0].lines, marker)| + Count(hunks[1..], marker)
  }

  function FileResult(p: Patch): FileChange {
    FileChange(p.path, p.status, p.binary, Count(p.hunks, '+'), Count(p.hunks, '-'), |p.hunks|, p.previous)
  }

  function Expected(ps: seq<Patch>): DiffResult {
    if ps == [] then DiffResult([], [])
    else DiffResult(HunkResults(ps[0], ps[0].hunks) + Expected(ps[1..]).hunks, [FileResult(ps[0])] + Expected(ps[1..]).files)
  }

  // ----- what does come back -----

  function ReadLabel(path: string): string {
    if ' ' in path then GitPath(path) + "\t" else path
  }

  /** The name that the parser ends up with. */
  function ReadName(p: Patch): string {
    if p.hunks != [] then ReadLabel(p.path) else if p.status.Renamed? then p.path else ""
  }

  function AsRead(ps: seq<Patch>): seq<Patch> {
    seq(|ps|, k requires 0 <= k < |ps| => ps[k].(path := ReadName(ps[k])))
  }

  // ----- the condition -----

  ghost predicate CleanHunks(hunks: seq<PatchHunk>) {
    forall k | 0 <= k < |hunks| :: CleanLines(hunks[k].lines)
  }

  ghost predicate CleanLines(lines: seq<string>) {
    forall k | 0 <= k < |lines| :: lines[k] == NO_NEWLINE || BodyLine(lines[k])
  }

  /** No body line reads as a file name line or breaks in two. */
  ghost predicate CleanBodies(ps: seq<Patch>) {
    forall k | 0 <= k < |ps| :: CleanHunks(ps[k].hunks)
  }

  /** The name is printed where the parser reads it, and as it reads it. */
  predicate NameIsKept(p: Patch) {
    if p.hunks != [] then ' ' !in p.path else p.status.Renamed? || p.path == ""
  }

  ghost predicate Clean(ps: seq<Patch>) {
    CleanBodies(ps) && forall k | 0 <= k < |ps| :: NameIsKept(ps[k])
  }

  // ----- reading line by line -----

  lemma {:induction false} FedConcat(p: Reading, a: seq<string>, b: seq<string>)
    requires FedAll(p, a).Ok?
    ensures FedAll(p, a + b) == FedAll(FedAll(p, a).value, b)
    decreases |a|
  {
    if a == [] {
      assert a + b == b;
    } else {
      assert (a + b)[0] == a[0] && (a + b)[1..] == a[1..] + b;
      FedConcat(Fed(p, a[0]).value, a[1..], b);
    }
  }

  lemma FedOne(p: Reading, line: string)
    ensures FedAll(p, [line]) == Fed(p, line)
  {
    if Fed(p, line).Ok? {
      assert [line][1..] == [];
    }
  }

  lemma NumberReads(digits: string, rest: string)
    requires digits != "" && AllDigits(digits) && rest != "" && rest[0] == ' '
    ensures RangeStart(digits + rest) == Some((digits, |digits|))
  {
    DigitRunStops(digits, rest);
    Halves(digits, rest);
  }

  lemma PairReads(digits: string, more: string, rest: string)
    requires digits != "" && AllDigits(digits) && more != "" && AllDigits(more) && rest != "" && rest[0] == ' '
    ensures RangeStart(digits + ("," + more) + rest) == Some((digits, |digits| + 1 + |more|))
  {
    var tail := "," + (more + rest);
    Reassociate(",", more, rest);
    Reassociate(digits, "," + more, rest);
    DigitRunStops(digits, tail);
    Halves(digits, tail);
    CommaReads(more, rest);
  }

  lemma CommaReads(more: string, rest: string)
    requires more != "" && AllDigits(more) && rest != "" && rest[0] == ' '
    ensures CommaNumber("," + (more + rest)) == 1 + |more|
  {
    Halves(",", more + rest);
    DigitRunStops(more, rest);
  }

  lemma RangeReads(start: string, count: Option<string>, rest: string)
    requires rest != "" && rest[0] == ' ' && start != "" && AllDigits(start)
    requires count.Some? ==> count.value != "" && AllDigits(count.value)
    ensures RangeStart(RangeText(start, count) + rest) == Some((start, |RangeText(start, count)|))
  {
    if count.None? {
      NumberReads(start, rest);
    } else {
      PairReads(start, count.value, rest);
    }
  }

  lemma RangesRead(first: string, second: string, end: string, a: string, b: string)
    requires AllDigits(a) && AllDigits(b) && " @@" <= end
    requires RangeStart(first + (" +" + (second + end))) == Some((a, |first|))
    requires RangeStart(second + end) == Some((b, |second|))
    ensures HeaderStarts("@@ -" + (first + (" +" + (second + end)))) == Some((FromDecimal(a), FromDecimal(b)))
  {
    var last := second + end;
    var rest := " +" + last;
    Halves("@@ -", first + rest);
    Halves(first, rest);
    Halves(" +", last);
    Halves(second, end);
  }

  ghost predicate IsRange(start: string, count: Option<string>) {
    && start != "" && AllDigits(start)
    && (count.Some? ==> count.value != "" && AllDigits(count.value))
  }

  /** A hunk header: two ranges with optional counts, and anything after the second `@@`. */
  ghost predicate HeaderForm(line: string, a: string, c: Option<string>, b: string, d: Option<string>, rest: string) {
    && IsRange(a, c) && IsRange(b, d)
    && line == "@@ -" + (RangeText(a, c) + (" +" + (RangeText(b, d) + (" @@" + rest))))
  }

  /** What a range consists of when one is read. */
  lemma RangeIsRead(t: string) returns (count: Option<string>)
    requires RangeStart(t).Some?
    ensures var (start, n) := RangeStart(t).value; IsRange(start, count) && n <= |t| && t[..n] == RangeText(start, count)
  {
    var n := DigitRun(t);
    var rest := t[n..];
    if CommaNumber(rest) == 0 {
      count := None;
    } else {
      var m := DigitRun(rest[1..]);
      count := Some(rest[1..][..m]);
      assert t[..n + 1 + m] == t[..n] + ("," + rest[1..][..m]);
    }
  }

  lemma HeaderPieces(line: string, tail: string, end: string, n: nat, k: nat)
    requires "@@ -" <= line && n <= |line| - 4 && tail == line[4..][n..] && " +" <= tail
    requires k <= |tail| - 2 && end == tail[2..][k..] && " @@" <= end
    ensures line == "@@ -" + (line[4..][..n] + (" +" + (tail[2..][..k] + (" @@" + end[3..]))))
  {
    assert end == " @@" + end[3..];
    assert tail[2..] == tail[2..][..k] + end;
    assert tail == " +" + tail[2..];
    assert line[4..] == line[4..][..n] + tail;
    assert line == "@@ -" + line[4..];
  }

  lemma HeaderHasForm(line: string) returns (a: string, c: Option<string>, b: string, d: Option<string>, rest: string)
    requires HeaderStarts(line).Some?
    ensures HeaderForm(line, a, c, b, d, rest) && HeaderStarts(line) == Some((FromDecimal(a), FromDecimal(b)))
  {
    var n := RangeStart(line[4..]).value.1;
    a := RangeStart(line[4..]).value.0;
    c := RangeIsRead(line[4..]);
    var tail := line[4..][n..];
    var k := RangeStart(tail[2..]).value.1;
    b := RangeStart(tail[2..]).value.0;
    d := RangeIsRead(tail[2..]);
    var end := tail[2..][k..];
    HeaderPieces(line, tail, end, n, k);
    rest := end[3..];
  }

  lemma FormReads(line: string, a: string, c: Option<string>, b: string, d: Option<string>, rest: string)
    requires HeaderForm(line, a, c, b, d, rest)
    ensures HeaderStarts(line) == Some((FromDecimal(a), FromDecimal(b)))
  {
    var first, second, end := RangeText(a, c), RangeText(b, d), " @@" + rest;
    RangeReads(a, c, " +" + (second + end));
    RangeReads(b, d, end);
    RangesRead(first, second, end, a, b);
  }

  /** A line opens a hunk exactly when it has the form of a header, and the starts are those of its ranges. */
  lemma HeaderIff(line: string, x: nat, y: nat)
    ensures HeaderStarts(line) == Some((x, y)) <==>
              exists a, c, b, d, rest :: HeaderForm(line, a, c, b, d, rest) && FromDecimal(a) == x && FromDecimal(b) == y
  {
    if HeaderStarts(line) == Some((x, y)) {
      var a, c, b, d, rest := HeaderHasForm(line);
    }
    if a, c, b, d, rest :| HeaderForm(line, a, c, b, d, rest) && FromDecimal(a) == x && FromDecimal(b) == y {
      FormReads(line, a, c, b, d, rest);
    }
  }

  lemma HeaderReads(h: PatchHunk)
    ensures HeaderStarts(Header(h)) == Some((h.oldStart, h.newStart))
  {
    var first, second := Range(h.oldStart, h.oldCount), Range(h.newStart, h.newCount);
    var end := " @@" + h.section;
    RangeReads(ToDecimal(h.oldStart), if h.oldCount.None? then None else Some(ToDecimal(h.oldCount.value)), " +" + (second + end));
    RangeReads(ToDecimal(h.newStart), if h.newCount.None? then None else Some(ToDecimal(h.newCount.value)), end);
    RangesRead(first, second, end, ToDecimal(h.oldStart), ToDecimal(h.newStart));
    DecimalRoundTrip(h.oldStart);
    DecimalRoundTrip(h.newStart);
  }

  lemma ClassifyAt(line: string)
    requires "@@" <= line
    ensures Classify(line) == At
  {
    assert line[0] == '@';
  }

  lemma HeaderIsAt(h: PatchHunk)
    ensures Classify(Header(h)) == At
  {
    Halves("@@ -", Range(h.oldStart, h.oldCount) + (" +" + (Range(h.newStart, h.newCount) + (" @@" + h.section))));
    assert Header(h)[..4] == "@@ -";
    ClassifyAt(Header(h));
  }

  lemma HeaderFeeds(p: Reading, h: PatchHunk)
    requires p.cur.Some?
    ensures Fed(p, Header(h)) == Ok(HunkClosed(p).(hunk := Some(OpenHunk(h.newStart, h.oldStart, [], [], []))))
  {
    HeaderIsAt(h);
    HeaderReads(h);
    assert Fed(p, Header(h)) == Ok(Opened(p, Some((h.oldStart, h.newStart))));
  }

  lemma ClassifyBody(line: string)
    requires BodyLine(line)
    ensures Classify(line) == Other
  {
    if line != "" {
      assert line[0] != 'd' && line[0] != 'n' && line[0] != 'r' && line[0] != 'B' && line[0] != '@';
    }
  }

  function Filled(h: PatchHunk, k: nat): OpenHunk
    requires k <= |h.lines|
  {
    OpenHunk(h.newStart, h.oldStart, Kept(h.lines[..k]), Chosen(h.lines[..k], '+'), Chosen(h.lines[..k], '-'))
  }

  lemma ClassifyMarker()
    ensures Classify(NO_NEWLINE) == Other
  {
    assert NO_NEWLINE[0] == '\\';
  }

  lemma FilledExtends(h: PatchHunk, k: nat)
    requires k < |h.lines| && (h.lines[k] == NO_NEWLINE || BodyLine(h.lines[k]))
    ensures Extended(Filled(h, k), h.lines[k]) == Filled(h, k + 1)
  {
    var line := h.lines[k];
    assert h.lines[..k + 1][..k] == h.lines[..k];
    assert NO_NEWLINE[0] == '\\';
    if line != "" && line[0] == ' ' {
      assert line[..1] == " ";
    }
  }

  lemma LineFeeds(p: Reading, h: PatchHunk, k: nat)
    requires p.cur.Some? && k < |h.lines| && p.hunk == Some(Filled(h, k)) && (h.lines[k] == NO_NEWLINE || BodyLine(h.lines[k]))
    ensures Fed(p, h.lines[k]) == Ok(p.(hunk := Some(Filled(h, k + 1))))
  {
    if h.lines[k] == NO_NEWLINE {
      ClassifyMarker();
    } else {
      ClassifyBody(h.lines[k]);
    }
    FilledExtends(h, k);
  }

  lemma {:induction false} BodyFeeds(p: Reading, h: PatchHunk, k: nat)
    requires p.cur.Some? && k <= |h.lines| && p.hunk == Some(Filled(h, k)) && CleanLines(h.lines)
    ensures FedAll(p, h.lines[k..]) == Ok(p.(hunk := Some(Filled(h, |h.lines|))))
    decreases |h.lines| - k
  {
    if k < |h.lines| {
      LineFeeds(p, h, k);
      assert h.lines[k..][1..] == h.lines[k + 1..];
      BodyFeeds(p.(hunk := Some(Filled(h, k + 1))), h, k + 1);
    }
  }

  lemma HunkFeeds(p: Reading, h: PatchHunk)
    requires p.cur.Some? && CleanLines(h.lines)
    ensures FedAll(p, [Header(h)] + h.lines) == Ok(HunkClosed(p).(hunk := Some(Filled(h, |h.lines|))))
  {
    HeaderFeeds(p, h);
    var q := HunkClosed(p).(hunk := Some(OpenHunk(h.newStart, h.oldStart, [], [], [])));
    assert q.hunk.value == Filled(h, 0);
    BodyFeeds(q, h, 0);
    assert h.lines[0..] == h.lines && ([Header(h)] + h.lines)[1..] == h.lines;
  }

  /** The reading after some hunks of a file, with the last one closed. */
  function WithHunks(p: Reading, x: Patch, hunks: seq<PatchHunk>): Reading
    requires p.cur.Some?
  {
    var c := p.cur.value;
    Reading(p.files, p.hunks + HunkResults(x, hunks),
            Some(c.(additions := c.additions + Count(hunks, '+'), deletions := c.deletions + Count(hunks, '-'),
                    hunkCount := c.hunkCount + |hunks|)), None)
  }

  predicate About(p: Reading, x: Patch) {
    p.cur.Some? && p.cur.value.file == x.path && p.cur.value.status == x.status
  }

  lemma FilledCloses(p: Reading, x: Patch, h: PatchHunk)
    requires About(p, x) && p.hunk == Some(Filled(h, |h.lines|)) && ProperHunk(h)
    ensures HunkClosed(p) == WithHunks(p, x, [h])
  {
    assert h.lines[..|h.lines|] == h.lines;
    assert [h][1..] == [];
    assert HunkResults(x, [h]) == [HunkResult(x, h)];
    assert Count([h], '+') == |Chosen(h.lines, '+')| && Count([h], '-') == |Chosen(h.lines, '-')|;
  }

  lemma HunkOpenElsewhere(c: Reading, o: Option<OpenHunk>, x: Patch, hunks: seq<PatchHunk>)
    requires c.cur.Some?
    ensures WithHunks(c.(hunk := o), x, hunks) == WithHunks(c, x, hunks)
  {
  }

  lemma FirstHunkFeeds(p: Reading, x: Patch, h: PatchHunk)
    requires p.cur.Some? && About(HunkClosed(p), x) && CleanLines(h.lines) && ProperHunk(h)
    ensures var r := FedAll(p, [Header(h)] + h.lines);
            r.Ok? && r.value.cur.Some? && HunkClosed(r.value) == WithHunks(HunkClosed(p), x, [h])
  {
    HunkFeeds(p, h);
    var c := HunkClosed(p);
    var o := Some(Filled(h, |h.lines|));
    FilledCloses(c.(hunk := o), x, h);
    HunkOpenElsewhere(c, o, x, [h]);
  }

  lemma {:induction false} HunksFeed(p: Reading, x: Patch, hunks: seq<PatchHunk>)
    requires p.cur.Some? && About(HunkClosed(p), x) && CleanHunks(hunks) && forall k | 0 <= k < |hunks| :: ProperHunk(hunks[k])
    ensures FedAll(p, PrintHunks(hunks)).Ok?
    ensures HunkClosed(FedAll(p, PrintHunks(hunks)).value) == WithHunks(HunkClosed(p), x, hunks)
    decreases |hunks|
  {
    if hunks == [] {
      assert HunkClosed(p).hunks + [] == HunkClosed(p).hunks;
    } else {
      var block := [Header(hunks[0])] + hunks[0].lines;
      FirstHunkFeeds(p, x, hunks[0]);
      FedConcat(p, block, PrintHunks(hunks[1..]));
      var q := FedAll(p, block).value;
      HunksFeed(q, x, hunks[1..]);
      WithMore(HunkClosed(p), x, hunks);
    }
  }

  lemma WithMore(p: Reading, x: Patch, hunks: seq<PatchHunk>)
    requires p.cur.Some? && hunks != []
    ensures WithHunks(WithHunks(p, x, [hunks[0]]), x, hunks[1..]) == WithHunks(p, x, hunks)
  {
    assert [hunks[0]][1..] == [];
    assert Count([hunks[0]], '+') == |Chosen(hunks[0].lines, '+')|;
    assert Count([hunks[0]], '-') == |Chosen(hunks[0].lines, '-')|;
    assert HunkResults(x, [hunks[0]]) == [HunkResult(x, hunks[0])];
    assert (p.hunks + [HunkResult(x, hunks[0])]) + HunkResults(x, hunks[1..]) == p.hunks + HunkResults(x, hunks);
  }

  // ----- reading a whole change -----

  lemma ClassifyDiff(text: string)
    ensures Classify("diff --git " + text) == DiffGit
  {
    Halves("diff --git ", text);
  }

  lemma ClassifyRenames(text: string)
    ensures Classify("rename from " + text) == RenameFrom(text)
    ensures Classify("rename to " + text) == RenameTo(text)
  {
    var from, to := "rename from " + text, "rename to " + text;
    Halves("rename from ", text);
    Halves("rename to ", text);
    assert from[0] == 'r' && to[0] == 'r' && to[7] == 't';
    assert from[..12] == "rename from " && to[..10] == "rename to ";
  }

  lemma ClassifyNames(text: string)
    ensures Classify("--- " + text) == OldName(text)
    ensures Classify("+++ " + text) == NewName(text)
  {
    var before, after := "--- " + text, "+++ " + text;
    Halves("--- ", text);
    Halves("+++ ", text);
    assert before[0] == '-' && after[0] == '+';
    assert before[..4] == "--- " && after[..4] == "+++ ";
  }

  lemma ClassifyModes(mode: string)
    ensures Classify("new file mode " + mode) == NewMode && Classify("deleted file mode " + mode) == DeletedMode
  {
    var a, b := "new file mode " + mode, "deleted file mode " + mode;
    Halves("new file mode ", mode);
    Halves("deleted file mode ", mode);
    assert a[0] == 'n' && b[1] == 'e';
    assert a[..13] == "new file mode" && b[..17] == "deleted file mode";
  }

  lemma ClassifyNote(line: string)
    requires Note(line)
    ensures Classify(line) == Other
  {
    if "new mode " <= line {
      assert line[0] == 'n' && line[4] == 'm';
    } else if "dissimilarity index " <= line {
      assert line[0] == 'd' && line[2] == 's';
    } else {
      assert line[0] == 'i' || line[0] == 'o' || line[0] == 's';
    }
  }

  lemma ClassifyBinary(text: string)
    ensures Classify("Binary files " + text) == BinaryFiles
  {
    var line := "Binary files " + text;
    Halves("Binary files ", text);
    assert line[0] == 'B';
  }

  function AfterExtras(x: Patch): FileChange {
    NEW_FILE.(status := x.status, previous := x.previous, file := if x.status.Renamed? then x.path else "")
  }

  /** What is known of the file before its hunks. */
  function AfterNames(x: Patch): FileChange {
    NEW_FILE.(status := x.status, previous := x.previous, file := ReadName(x), binary := x.binary)
  }

  lemma {:induction false} NotesFeed(q: Reading, notes: seq<string>)
    requires q.cur.Some? && q.hunk.None? && Notes(notes)
    ensures FedAll(q, notes) == Ok(q)
    decreases |notes|
  {
    if notes != [] {
      ClassifyNote(notes[0]);
      assert Notes(notes[1..]) by {
        assert forall k | 0 <= k < |notes[1..]| :: notes[1..][k] == notes[k + 1];
      }
      NotesFeed(q, notes[1..]);
    }
  }

  lemma FedTwo(p: Reading, a: string, b: string)
    ensures FedAll(p, [a, b]) == if Fed(p, a).Ok? then Fed(Fed(p, a).value, b) else Fed(p, a)
  {
    assert [a, b][1..] == [b];
    if Fed(p, a).Ok? {
      FedOne(Fed(p, a).value, b);
    }
  }

  lemma ExtrasFeed(q: Reading, x: Patch)
    requires q.cur == Some(NEW_FILE) && ProperPatch(x)
    ensures FedAll(q, Extras(x)) == Ok(q.(cur := Some(AfterExtras(x))))
  {
    match x.status
    case Modified =>
    case Added =>
      ClassifyModes(x.mode);
      FedOne(q, "new file mode " + x.mode);
    case Deleted =>
      ClassifyModes(x.mode);
      FedOne(q, "deleted file mode " + x.mode);
    case Renamed =>
      var a, b := GitPath(x.previous.value), GitPath(x.path);
      ClassifyRenames(a);
      ClassifyRenames(b);
      PathRoundTrip(x.previous.value);
      PathRoundTrip(x.path);
      FedTwo(q, "rename from " + a, "rename to " + b);
  }

  // ----- file name lines -----

  lemma {:induction false} QuotedSpace(b: seq<byte>)
    ensures ' ' in QuoteBytes(b) <==> 32 in b
  {
    if b != [] {
      QuotedSpace(b[1..]);
      assert b == [b[0]] + b[1..];
      assert ' ' in QuoteByte(b[0]) <==> b[0] == 32;
    }
  }

  lemma {:induction false} EncodedSpace(s: string)
    ensures 32 in Encode(s) <==> ' ' in s
  {
    if s != "" {
      EncodedSpace(s[1..]);
      assert s == [s[0]] + s[1..];
      assert 32 in EncodeChar(s[0]) <==> s[0] == ' ';
    }
  }

  lemma GitPathSpace(path: string)
    ensures ' ' in GitPath(path) <==> ' ' in path
  {
    QuotedSpace(Encode(path));
    EncodedSpace(path);
  }

  lemma {:induction false} QuotedLength(b: seq<byte>)
    ensures |QuoteBytes(b)| >= |b|
  {
    if b != [] {
      QuotedLength(b[1..]);
      assert |QuoteByte(b[0])| >= 1;
    }
  }

  lemma {:induction false} EncodedLength(s: string)
    ensures |Encode(s)| >= |s|
  {
    if s != "" {
      EncodedLength(s[1..]);
    }
  }

  lemma GitPathLength(path: string)
    ensures |GitPath(path)| >= |path|
  {
    QuotedLength(Encode(path));
    EncodedLength(path);
  }

  lemma LabelReads(path: string)
    ensures UnquotedPath(Label(GitPath(path))) == Ok(ReadLabel(path))
    ensures ReadLabel(path) == path <==> ' ' !in path
    ensures path != "/dev/null" ==> ReadLabel(path) != "/dev/null"
  {
    GitPathSpace(path);
    GitPathLength(path);
    if ' ' in path {
      var printed := GitPath(path) + "\t";
      assert printed[|printed| - 1] == '\t' && !Quoted(printed);
      assert "/dev/null"[8] == 'l';
    } else {
      PathRoundTrip(path);
    }
  }

  lemma NullReads()
    ensures Label("/dev/null") == "/dev/null" && UnquotedPath("/dev/null") == Ok("/dev/null")
  {
    assert "/dev/null"[0] == '/';
  }

  function OldRead(x: Patch): string {
    if x.status.Added? then "/dev/null" else ReadLabel(if x.previous.Some? then x.previous.value else x.path)
  }

  lemma OldReads(x: Patch)
    ensures UnquotedPath(Label(OldPath(x))) == Ok(OldRead(x))
  {
    NullReads();
    LabelReads(if x.previous.Some? then x.previous.value else x.path);
  }

  /** What the `---` line leaves as the name. */
  function AfterOld(x: Patch): string {
    if AfterExtras(x).file != "" || OldRead(x) == "/dev/null" then AfterExtras(x).file else OldRead(x)
  }

  lemma OldNameFeeds(q: Reading, x: Patch)
    requires q.cur == Some(AfterExtras(x))
    ensures FedAs(q, OldName(Label(OldPath(x))), "--- " + Label(OldPath(x))) == Ok(q.(cur := Some(AfterExtras(x).(file := AfterOld(x)))))
  {
    OldReads(x);
    var c := AfterExtras(x);
    assert c.(file := c.file) == c;
  }

  lemma NewReads(x: Patch)
    ensures UnquotedPath(Label(NewPath(x))) == Ok(if x.status.Deleted? then "/dev/null" else ReadLabel(x.path))
  {
    NullReads();
    LabelReads(x.path);
  }

  lemma NamesAreRead(x: Patch)
    requires ProperPatch(x) && x.hunks != []
    ensures AfterNames(x) == AfterExtras(x).(file := ReadLabel(x.path))
    ensures x.status.Deleted? ==> AfterOld(x) == ReadLabel(x.path)
  {
    LabelReads(x.path);
  }

  lemma NewFeeds(q: Reading, text: string, name: string)
    requires q.cur.Some? && UnquotedPath(text) == Ok(name)
    ensures FedAs(q, NewName(text), "+++ " + text) == Ok(if name == "/dev/null" then q else q.(cur := Some(q.cur.value.(file := name))))
  {
  }

  lemma NewNameFeeds(q: Reading, x: Patch)
    requires q.cur == Some(AfterExtras(x).(file := AfterOld(x))) && ProperPatch(x) && x.hunks != []
    ensures FedAs(q, NewName(Label(NewPath(x))), "+++ " + Label(NewPath(x))) == Ok(q.(cur := Some(AfterNames(x))))
  {
    var name := if x.status.Deleted? then "/dev/null" else ReadLabel(x.path);
    NewReads(x);
    NewFeeds(q, Label(NewPath(x)), name);
    NamesAreRead(x);
    LabelReads(x.path);
    NamesSettle(q, AfterExtras(x), AfterOld(x), ReadLabel(x.path), name);
  }

  /** Whether the second name replaces the first or was the null name, the file ends with its own name. */
  lemma NamesSettle(q: Reading, c: FileChange, first: string, own: string, second: string)
    requires q.cur == Some(c.(file := first)) && own != "/dev/null"
    requires second == own || (second == "/dev/null" && first == own)
    ensures (if second == "/dev/null" then q else q.(cur := Some(q.cur.value.(file := second)))) == q.(cur := Some(c.(file := own)))
  {
  }

  lemma NamesFeed(q: Reading, x: Patch)
    requires q.cur == Some(AfterExtras(x)) && ProperPatch(x) && x.hunks != []
    ensures FedAll(q, Names(x)) == Ok(q.(cur := Some(AfterNames(x))))
  {
    var a, b := Label(OldPath(x)), Label(NewPath(x));
    ClassifyNames(a);
    ClassifyNames(b);
    OldNameFeeds(q, x);
    NewNameFeeds(q.(cur := Some(AfterExtras(x).(file := AfterOld(x)))), x);
    FedTwo(q, "--- " + a, "+++ " + b);
  }

  lemma BinaryFeeds(q: Reading, x: Patch)
    requires q.cur == Some(AfterExtras(x)) && x.hunks == []
    ensures FedAll(q, BinaryLine(x)) == Ok(q.(cur := Some(AfterNames(x))))
  {
    if x.binary {
      ClassifyBinary(OldPath(x) + (" and " + (NewPath(x) + " differ")));
      FedOne(q, BinaryLine(x)[0]);
    }
  }

  /** Everything before the hunks. */
  function Prelude(x: Patch): seq<string> {
    [DiffLine(x)] + x.before + Extras(x) + x.after + BinaryLine(x) + Names(x)
  }

  lemma ExtrasAndNotesFeed(p: Reading, x: Patch)
    requires ProperPatch(x)
    ensures FedAll(p, [DiffLine(x)] + x.before + Extras(x) + x.after) == Ok(FileClosed(p).(cur := Some(AfterExtras(x)), hunk := None))
  {
    ClassifyDiff(GitPath(if x.previous.Some? then x.previous.value else x.path) + (" " + GitPath(x.path)));
    FedOne(p, DiffLine(x));
    var q := FileClosed(p).(cur := Some(NEW_FILE));
    assert FileClosed(p).hunk == None;
    NotesFeed(q, x.before);
    FedConcat(p, [DiffLine(x)], x.before);
    ExtrasFeed(q, x);
    FedConcat(p, [DiffLine(x)] + x.before, Extras(x));
    NotesFeed(q.(cur := Some(AfterExtras(x))), x.after);
    FedConcat(p, [DiffLine(x)] + x.before + Extras(x), x.after);
  }

  lemma PreludeFeeds(p: Reading, x: Patch)
    requires ProperPatch(x)
    ensures FedAll(p, Prelude(x)) == Ok(FileClosed(p).(cur := Some(AfterNames(x)), hunk := None))
  {
    var first := [DiffLine(x)] + x.before + Extras(x) + x.after;
    var q := FileClosed(p).(cur := Some(AfterExtras(x)), hunk := None);
    ExtrasAndNotesFeed(p, x);
    FedConcat(p, first, BinaryLine(x));
    if x.hunks == [] {
      BinaryFeeds(q, x);
      assert Prelude(x) == first + BinaryLine(x);
    } else {
      NamesFeed(q, x);
      assert first + BinaryLine(x) == first;
      FedConcat(p, first, Names(x));
      assert Prelude(x) == first + Names(x);
    }
  }

  /** The file and hunks that are read, under the name that is read. */
  lemma PatchFeeds(p: Reading, x: Patch)
    requires ProperPatch(x) && CleanHunks(x.hunks)
    ensures var r := FedAll(p, PrintPatch(x)); var y := x.(path := ReadName(x));
            && r.Ok?
            && FileClosed(r.value) == Reading(FileClosed(p).files + [FileResult(y)],
                                              FileClosed(p).hunks + HunkResults(y, y.hunks), None, None)
  {
    var y := x.(path := ReadName(x));
    PreludeFeeds(p, x);
    var q := FileClosed(p).(cur := Some(AfterNames(x)), hunk := None);
    assert HunkClosed(q) == q;
    HunksFeed(q, y, x.hunks);
    FedConcat(p, Prelude(x), PrintHunks(x.hunks));
    assert PrintPatch(x) == Prelude(x) + PrintHunks(x.hunks);
  }

  lemma ExpectedNext(files: seq<FileChange>, hunks: seq<Hunk>, ps: seq<Patch>)
    requires ps != []
    ensures (files + [FileResult(ps[0])]) + Expected(ps[1..]).files == files + Expected(ps).files
    ensures (hunks + HunkResults(ps[0], ps[0].hunks)) + Expected(ps[1..]).hunks == hunks + Expected(ps).hunks
  {
    var rest := Expected(ps[1..]);
    Reassociate(files, [FileResult(ps[0])], rest.files);
    Reassociate(hunks, HunkResults(ps[0], ps[0].hunks), rest.hunks);
  }

  /** The reading `r` ends with the files and hunks of `e` after those of `p`. */
  ghost predicate Gains(p: Reading, r: Reading, e: DiffResult) {
    FileClosed(r).files == FileClosed(p).files + e.files && FileClosed(r).hunks == FileClosed(p).hunks + e.hunks
  }

  lemma GainsBoth(p: Reading, q: Reading, r: Reading, ps: seq<Patch>)
    requires ps != [] && Gains(q, r, Expected(ps[1..]))
    requires FileClosed(q).files == FileClosed(p).files + [FileResult(ps[0])]
    requires FileClosed(q).hunks == FileClosed(p).hunks + HunkResults(ps[0], ps[0].hunks)
    ensures Gains(p, r, Expected(ps))
  {
    ExpectedNext(FileClosed(p).files, FileClosed(p).hunks, ps);
  }

  lemma RestIsProper(ps: seq<Patch>)
    requires AllProper(ps) && CleanBodies(ps) && ps != []
    ensures ProperPatch(ps[0]) && CleanHunks(ps[0].hunks) && AllProper(ps[1..]) && CleanBodies(ps[1..])
    ensures AsRead(ps) == [ps[0].(path := ReadName(ps[0]))] + AsRead(ps[1..])
  {
    forall k | 0 <= k < |ps[1..]| ensures ProperPatch(ps[1..][k]) && CleanHunks(ps[1..][k].hunks) {
      assert ps[1..][k] == ps[k + 1];
    }
  }

  lemma {:induction false} PrintFeeds(p: Reading, ps: seq<Patch>)
    requires AllProper(ps) && CleanBodies(ps)
    ensures FedAll(p, Print(ps)).Ok? && Gains(p, FedAll(p, Print(ps)).value, Expected(AsRead(ps)))
    decreases |ps|
  {
    if ps == [] {
      GainsNothing(p);
    } else {
      var first, rest := PrintPatch(ps[0]), ps[1..];
      RestIsProper(ps);
      PatchFeeds(p, ps[0]);
      var q := FedAll(p, first).value;
      FedConcat(p, first, Print(rest));
      PrintFeeds(q, rest);
      assert AsRead(ps)[1..] == AsRead(rest);
      GainsBoth(p, q, FedAll(q, Print(rest)).value, AsRead(ps));
    }
  }

  lemma GainsNothing(p: Reading)
    ensures Gains(p, p, DiffResult([], []))
  {
  }

  // ----- the round trip, and exactly when it holds -----

  ghost predicate NoBreaks(lines: seq<string>) {
    forall k | 0 <= k < |lines| :: NoBreak(lines[k])
  }

  lemma NoBreaksConcat(a: seq<string>, b: seq<string>)
    requires NoBreaks(a) && NoBreaks(b)
    ensures NoBreaks(a + b)
  {
  }

  lemma LinesHaveNoBreak(lines: seq<string>)
    requires CleanLines(lines)
    ensures NoBreaks(lines)
  {
    forall k | 0 <= k < |lines| ensures NoBreak(lines[k]) {
      assert NoBreak(NO_NEWLINE);
    }
  }

  lemma {:induction false} HunksHaveNoBreak(hunks: seq<PatchHunk>)
    requires CleanHunks(hunks) && forall k | 0 <= k < |hunks| :: ProperHunk(hunks[k])
    ensures NoBreaks(PrintHunks(hunks))
  {
    if hunks != [] {
      HunksHaveNoBreak(hunks[1..]);
      HeaderHasNoBreak(hunks[0]);
      assert NoBreaks([Header(hunks[0])]);
      LinesHaveNoBreak(hunks[0].lines);
      NoBreaksConcat([Header(hunks[0])], hunks[0].lines);
      NoBreaksConcat([Header(hunks[0])] + hunks[0].lines, PrintHunks(hunks[1..]));
    }
  }

  lemma HeaderHasNoBreak(h: PatchHunk)
    requires NoBreak(h.section)
    ensures NoBreak(Header(h))
  {
    RangeHasNoBreak(h.oldStart, h.oldCount);
    RangeHasNoBreak(h.newStart, h.newCount);
  }

  lemma RangeHasNoBreak(start: nat, count: Option<nat>)
    ensures NoBreak(Range(start, count))
  {
    assert NoBreak(ToDecimal(start)) by {
      assert AllDigits(ToDecimal(start));
    }
    if count.Some? {
      assert NoBreak(ToDecimal(count.value)) by {
        assert AllDigits(ToDecimal(count.value));
      }
    }
  }

  lemma PathHasNoBreak(path: string)
    ensures NoBreak(GitPath(path))
  {
    GitPathIsPrintable(path);
  }

  lemma NoBreakConcat(a: string, b: string)
    requires NoBreak(a) && NoBreak(b)
    ensures NoBreak(a + b)
  {
  }

  lemma NoBreakPair(a: string, b: string)
    requires NoBreak(a) && NoBreak(b)
    ensures NoBreaks([a, b])
  {
  }

  lemma LabelsHaveNoBreak()
    ensures NoBreak("rename from ") && NoBreak("rename to ") && NoBreak("--- ") && NoBreak("+++ ") && NoBreak("/dev/null")
  {
  }

  lemma ModesHaveNoBreak(mode: string)
    requires NoBreak(mode)
    ensures NoBreak("new file mode " + mode) && NoBreak("deleted file mode " + mode)
  {
    assert NoBreak("new file mode ") && NoBreak("deleted file mode ");
    NoBreakConcat("new file mode ", mode);
    NoBreakConcat("deleted file mode ", mode);
  }

  lemma ExtrasHaveNoBreak(x: Patch)
    requires ProperPatch(x)
    ensures NoBreaks(Extras(x))
  {
    if x.previous.None? {
      ModesHaveNoBreak(x.mode);
    } else {
      LabelsHaveNoBreak();
      PathHasNoBreak(x.previous.value);
      PathHasNoBreak(x.path);
      NoBreakConcat("rename from ", GitPath(x.previous.value));
      NoBreakConcat("rename to ", GitPath(x.path));
      NoBreakPair("rename from " + GitPath(x.previous.value), "rename to " + GitPath(x.path));
    }
  }

  lemma LabelHasNoBreak(name: string)
    requires NoBreak(name)
    ensures NoBreak(Label(name))
  {
  }

  lemma PathsHaveNoBreak(x: Patch)
    ensures NoBreak(OldPath(x)) && NoBreak(NewPath(x)) && NoBreak(DiffLine(x))
  {
    LabelsHaveNoBreak();
    PathHasNoBreak(x.path);
    PathHasNoBreak(if x.previous.Some? then x.previous.value else x.path);
    NoBreakConcat(" ", GitPath(x.path));
    NoBreakConcat(GitPath(if x.previous.Some? then x.previous.value else x.path), " " + GitPath(x.path));
    NoBreakConcat("diff --git ", GitPath(if x.previous.Some? then x.previous.value else x.path) + (" " + GitPath(x.path)));
  }

  lemma NamesHaveNoBreak(x: Patch)
    ensures NoBreaks(Names(x))
  {
    LabelsHaveNoBreak();
    PathsHaveNoBreak(x);
    LabelHasNoBreak(OldPath(x));
    LabelHasNoBreak(NewPath(x));
    NoBreakConcat("--- ", Label(OldPath(x)));
    NoBreakConcat("+++ ", Label(NewPath(x)));
    NoBreakPair("--- " + Label(OldPath(x)), "+++ " + Label(NewPath(x)));
  }

  lemma BinaryTextHasNoBreak(first: string, second: string)
    requires NoBreak(first) && NoBreak(second)
    ensures NoBreak("Binary files " + (first + (" and " + (second + " differ"))))
  {
    BinaryWordsHaveNoBreak();
    NoBreakConcat(second, " differ");
    NoBreakConcat(" and ", second + " differ");
    NoBreakConcat(first, " and " + (second + " differ"));
    NoBreakConcat("Binary files ", first + (" and " + (second + " differ")));
  }

  lemma BinaryWordsHaveNoBreak()
    ensures NoBreak("Binary files ") && NoBreak(" and ") && NoBreak(" differ")
  {
  }

  lemma BinaryLineHasNoBreak(x: Patch)
    ensures NoBreaks(BinaryLine(x))
  {
    PathsHaveNoBreak(x);
    BinaryTextHasNoBreak(OldPath(x), NewPath(x));
  }

  lemma PatchHasNoBreak(x: Patch)
    requires ProperPatch(x) && CleanHunks(x.hunks)
    ensures NoBreaks(PrintPatch(x))
  {
    PathsHaveNoBreak(x);
    ExtrasHaveNoBreak(x);
    BinaryLineHasNoBreak(x);
    NamesHaveNoBreak(x);
    HunksHaveNoBreak(x.hunks);
    var a := [DiffLine(x)];
    NoBreaksConcat(a, x.before);
    NoBreaksConcat(a + x.before, Extras(x));
    NoBreaksConcat(a + x.before + Extras(x), x.after);
    NoBreaksConcat(a + x.before + Extras(x) + x.after, BinaryLine(x));
    NoBreaksConcat(a + x.before + Extras(x) + x.after + BinaryLine(x), Names(x));
    NoBreaksConcat(Prelude(x), PrintHunks(x.hunks));
  }

  lemma {:induction false} PrintHasNoBreak(ps: seq<Patch>)
    requires AllProper(ps) && CleanBodies(ps)
    ensures NoBreaks(Print(ps))
  {
    if ps != [] {
      PatchHasNoBreak(ps[0]);
      PrintHasNoBreak(ps[1..]);
      NoBreaksConcat(PrintPatch(ps[0]), Print(ps[1..]));
    }
  }

  lemma {:induction false} KeptHolds(lines: seq<string>, k: nat)
    requires k < |lines| && lines[k] != NO_NEWLINE
    ensures lines[k] in Kept(lines)
  {
    if k < |lines| - 1 {
      assert lines[..|lines| - 1][k] == lines[k];
      KeptHolds(lines[..|lines| - 1], k);
    }
  }

  lemma {:induction false} KeptIsMarked(lines: seq<string>)
    requires forall k | 0 <= k < |lines| :: Marked(lines[k])
    ensures forall k | 0 <= k < |Kept(lines)| :: '\n' !in Kept(lines)[k]
  {
    if lines != [] {
      KeptIsMarked(lines[..|lines| - 1]);
    }
  }

  lemma {:induction false} ChosenIsKept(lines: seq<string>, marker: char)
    requires Kept(lines) == [] && marker != '\\'
    ensures Chosen(lines, marker) == []
  {
    if lines != [] {
      assert NO_NEWLINE[0] == '\\';
      ChosenIsKept(lines[..|lines| - 1], marker);
    }
  }

  lemma ExactHunkIsClean(x: Patch, h: PatchHunk)
    requires ProperHunk(h) && Exact(HunkResult(x, h))
    ensures CleanLines(h.lines)
  {
    if Kept(h.lines) == [] {
      ChosenIsKept(h.lines, '+');
      ChosenIsKept(h.lines, '-');
      assert false;
    }
    KeptIsMarked(h.lines);
    SplitJoined(Kept(h.lines));
    forall k | 0 <= k < |h.lines| ensures h.lines[k] == NO_NEWLINE || BodyLine(h.lines[k]) {
      if h.lines[k] != NO_NEWLINE {
        KeptHolds(h.lines, k);
      }
    }
  }

  /** Exact hunks can only come from clean ones. */
  lemma {:induction false} ExactHunksAreClean(x: Patch, hunks: seq<PatchHunk>)
    requires forall k | 0 <= k < |hunks| :: ProperHunk(hunks[k])
    requires forall k | 0 <= k < |HunkResults(x, hunks)| :: Exact(HunkResults(x, hunks)[k])
    ensures CleanHunks(hunks)
  {
    if hunks != [] {
      var r := HunkResults(x, hunks);
      assert Exact(r[0]);
      ExactHunkIsClean(x, hunks[0]);
      forall k | 0 <= k < |HunkResults(x, hunks[1..])| ensures Exact(HunkResults(x, hunks[1..])[k]) {
        assert r[k + 1] == HunkResults(x, hunks[1..])[k];
      }
      ExactHunksAreClean(x, hunks[1..]);
      forall k | 0 <= k < |hunks| ensures CleanLines(hunks[k].lines) {
        if k > 0 {
          assert hunks[k] == hunks[1..][k - 1];
        }
      }
    }
  }

  lemma {:induction false} ExactResultIsClean(ps: seq<Patch>)
    requires AllProper(ps)
    requires forall k | 0 <= k < |Expected(ps).hunks| :: Exact(Expected(ps).hunks[k])
    ensures CleanBodies(ps)
  {
    if ps != [] {
      var first, rest := HunkResults(ps[0], ps[0].hunks), Expected(ps[1..]).hunks;
      forall k | 0 <= k < |first| ensures Exact(first[k]) {
        assert Expected(ps).hunks[k] == first[k];
      }
      ExactHunksAreClean(ps[0], ps[0].hunks);
      forall k | 0 <= k < |rest| ensures Exact(rest[k]) {
        assert Expected(ps).hunks[|first| + k] == rest[k];
      }
      ExactResultIsClean(ps[1..]);
      forall k | 0 <= k < |ps| ensures CleanHunks(ps[k].hunks) {
        if k > 0 {
          assert ps[k] == ps[1..][k - 1];
        }
      }
    }
  }

  lemma ParsedLines(lines: seq<string>)
    requires NoBreaks(lines) && FedAll(START, lines).Ok?
    ensures var r := FileClosed(FedAll(START, lines).value); Parsed(Text(lines)) == Ok(DiffResult(r.hunks, r.files))
  {
    SplitText(lines);
  }

  /** Whatever the names and kinds of the changes, as long as their bodies are clean: this is what is read. */
  lemma PrintedIsRead(ps: seq<Patch>)
    requires AllProper(ps) && CleanBodies(ps)
    ensures Parsed(Text(Print(ps))) == Ok(Expected(AsRead(ps)))
  {
    PrintHasNoBreak(ps);
    PrintFeeds(START, ps);
    ParsedLines(Print(ps));
    var e := Expected(AsRead(ps));
    assert FileClosed(START) == START;
    assert [] + e.files == e.files && [] + e.hunks == e.hunks;
  }

  lemma {:induction false} FilesExpected(ps: seq<Patch>, k: nat)
    requires k < |ps|
    ensures |Expected(ps).files| == |ps| && Expected(ps).files[k] == FileResult(ps[k])
    decreases |ps|
  {
    if |ps| > 1 {
      FilesExpected(ps[1..], if k > 0 then k - 1 else 0);
    }
  }

  lemma NameIsKeptIff(x: Patch)
    ensures ReadName(x) == x.path <==> NameIsKept(x)
  {
    LabelReads(x.path);
  }

  /**
   * The printed form of changes parses to those changes exactly when no body line starts like a file name line
   * (`--- `, `+++ `) or contains another of the line breaks of `splitlines`, no change with hunks has a space in
   * its path, and every change without hunks is a rename (or has the empty path).
   */
  lemma DiffRoundTripIff(ps: seq<Patch>)
    requires AllProper(ps)
    ensures Parsed(Text(Print(ps))) == Ok(Expected(ps)) <==> Clean(ps)
  {
    if Parsed(Text(Print(ps))) == Ok(Expected(ps)) {
      ParseConserves(Text(Print(ps)));
      ExactResultIsClean(ps);
      PrintedIsRead(ps);
      forall k | 0 <= k < |ps| ensures NameIsKept(ps[k]) {
        FilesExpected(ps, k);
        FilesExpected(AsRead(ps), k);
        NameIsKeptIff(ps[k]);
      }
    }
    if Clean(ps) {
      forall k | 0 <= k < |ps| ensures AsRead(ps)[k] == ps[k] {
        NameIsKeptIff(ps[k]);
      }
      assert AsRead(ps) == ps;
      PrintedIsRead(ps);
    }
  }

  const LOST: PatchHunk := PatchHunk(1, None, 1, None, "", ["--- x", "+y"])

  lemma LostIsProper()
    ensures ProperHunk(LOST) && !CleanLines(LOST.lines)
  {
    var lines := LOST.lines;
    assert lines[..1] == ["--- x"] && lines[..1][..0] == [];
    assert Chosen(lines, '+') == Chosen(lines[..1], '+') + ["+y"];
    assert lines[0][..4] == "--- " && NO_NEWLINE[0] == '\\';
    assert !BodyLine(lines[0]) && lines[0] != NO_NEWLINE;
  }

  /** A removed line `-- x`, such as an SQL comment, is read as a file name and lost. */
  lemma RemovedCommentIsLost(path: string)
    requires path != "/dev/null"
    ensures var ps := [Patch(Modified, path, None, "", [], [], false, [LOST])];
            ProperPatch(ps[0]) && Parsed(Text(Print(ps))) != Ok(Expected(ps))
  {
    var ps := [Patch(Modified, path, None, "", [], [], false, [LOST])];
    LostIsProper();
    assert ps[0].hunks[0] == LOST;
    DiffRoundTripIff(ps);
  }

  lemma ReadAlone(x: Patch)
    requires ProperPatch(x) && CleanHunks(x.hunks)
    ensures Parsed(Text(Print([x]))).Ok? && Parsed(Text(Print([x]))).value.files == [FileResult(x.(path := ReadName(x)))]
  {
    PrintedIsRead([x]);
    assert AsRead([x]) == [x.(path := ReadName(x))];
    FilesExpected(AsRead([x]), 0);
  }

  /** A path with a space comes back with git's tab at its end, and in its quotes if it had to be quoted. */
  lemma SpacedNameGainsTab(x: Patch)
    requires ProperPatch(x) && CleanHunks(x.hunks) && x.hunks != [] && ' ' in x.path
    ensures Parsed(Text(Print([x]))).Ok?
    ensures Parsed(Text(Print([x]))).value.files == [FileResult(x.(path := GitPath(x.path) + "\t"))]
    ensures GitPath(x.path) + "\t" != x.path
  {
    ReadAlone(x);
    LabelReads(x.path);
  }

  /** An empty or binary file, and a change of the mode only, have no file name line and come back without a name. */
  lemma HunklessIsNameless(x: Patch)
    requires ProperPatch(x) && x.hunks == [] && !x.status.Renamed?
    ensures Parsed(Text(Print([x]))).Ok? && Parsed(Text(Print([x]))).value.files == [FileResult(x.(path := ""))]
  {
    ReadAlone(x);
  }
}
