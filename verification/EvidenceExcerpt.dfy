/** Cutting evidence out of a file around some lines, within a budget (service.py, `excerpt_segments`). */
module EvidenceExcerpt {

  /** Line numbers count from 1. */
  datatype Window = Window(start: int, end: int)

  datatype Segment = Segment(start: int, lines: seq<string>)

  function Max(a: int, b: int): int {
    if a >= b then a else b
  }

  function Min(a: int, b: int): int {
    if a <= b then a else b
  }

  // ----- what is wanted -----

  predicate Near(centers: seq<int>, radius: int, n: int) {
    exists k | 0 <= k < |centers| :: centers[k] - radius <= n <= centers[k] + radius
  }

  /** The file's lines within the radius of some centre, in order, up to line `n`. */
  function Wanted(centers: seq<int>, radius: int, n: nat): seq<int> {
    if n == 0 then []
    else Wanted(centers, radius, n - 1) + if Near(centers, radius, n) then [n] else []
  }

  ghost predicate Ascending(s: seq<int>) {
    forall i, j | 0 <= i < j < |s| :: s[i] < s[j]
  }

  lemma {:induction false} WantedMembers(centers: seq<int>, radius: int, n: nat)
    ensures Ascending(Wanted(centers, radius, n))
    ensures forall x :: x in Wanted(centers, radius, n) <==> 1 <= x <= n && Near(centers, radius, x)
  {
    if n > 0 {
      WantedMembers(centers, radius, n - 1);
      var before, all := Wanted(centers, radius, n - 1), Wanted(centers, radius, n);
      forall i, j | 0 <= i < j < |all| ensures all[i] < all[j] {
        assert all[i] in before;
      }
    }
  }

  lemma HasFirst(s: seq<int>)
    requires s != []
    ensures s[0] in s
  {
  }

  lemma {:induction false} SameMembers(a: seq<int>, b: seq<int>)
    requires Ascending(a) && Ascending(b) && forall x :: x in a <==> x in b
    ensures a == b
  {
    if a == [] {
      if b != [] {
        HasFirst(b);
      }
    } else {
      assert a[|a| - 1] in a;
      assert a[|a| - 1] in b && b != [];
      var x, y := a[|a| - 1], b[|b| - 1];
      assert y in a;
      assert x == y;
      var c, d := a[..|a| - 1], b[..|b| - 1];
      assert a == c + [x] && b == d + [x];
      forall z ensures z in c <==> z in d {
        assert z in c <==> z in a && z != x;
        assert z in d <==> z in b && z != x;
      }
      SameMembers(c, d);
    }
  }

  // ----- windows -----

  function Numbers(start: int, end: int): (r: seq<int>)
    ensures |r| == (if start <= end then end - start + 1 else 0)
    ensures forall k | 0 <= k < |r| :: r[k] == start + k
    decreases end - start + 1
  {
    if start > end then [] else Numbers(start, end - 1) + [end]
  }

  function AllNumbers(ws: seq<Window>): seq<int> {
    if ws == [] then [] else AllNumbers(ws[..|ws| - 1]) + Numbers(ws[|ws| - 1].start, ws[|ws| - 1].end)
  }

  /** Windows inside the file, in order, with at least one line between two of them. */
  ghost predicate Apart(ws: seq<Window>, total: nat) {
    && (forall i | 0 <= i < |ws| :: 1 <= ws[i].start <= ws[i].end <= total)
    && (forall i, j | 0 <= i < j < |ws| :: ws[i].end + 1 < ws[j].start)
  }

  ghost predicate Inside(ws: seq<Window>, n: int) {
    exists i | 0 <= i < |ws| :: ws[i].start <= n <= ws[i].end
  }

  lemma NumbersMembers(start: int, end: int)
    ensures Ascending(Numbers(start, end)) && forall n :: n in Numbers(start, end) <==> start <= n <= end
  {
    forall n | start <= n <= end ensures n in Numbers(start, end) {
      assert Numbers(start, end)[n - start] == n;
    }
  }

  lemma InsideMore(ws: seq<Window>, w: Window, n: int)
    ensures Inside(ws + [w], n) <==> Inside(ws, n) || w.start <= n <= w.end
  {
    var all := ws + [w];
    assert all[|ws|] == w;
    if Inside(ws, n) {
      var i :| 0 <= i < |ws| && ws[i].start <= n <= ws[i].end;
      assert all[i] == ws[i];
    }
  }

  lemma JoinAscends(a: seq<int>, b: seq<int>)
    requires Ascending(a) && Ascending(b) && forall x, y | x in a && y in b :: x < y
    ensures Ascending(a + b)
  {
    forall i, j | 0 <= i < j < |a + b| ensures (a + b)[i] < (a + b)[j] {
      if i < |a| <= j {
        assert a[i] in a && b[j - |a|] in b;
      }
    }
  }

  lemma {:induction false} NumbersOfWindows(ws: seq<Window>, total: nat)
    requires Apart(ws, total)
    ensures Ascending(AllNumbers(ws))
    ensures forall n :: n in AllNumbers(ws) <==> Inside(ws, n)
  {
    if ws != [] {
      var before, w := ws[..|ws| - 1], ws[|ws| - 1];
      assert ws == before + [w];
      NumbersOfWindows(before, total);
      NumbersMembers(w.start, w.end);
      forall n ensures n in AllNumbers(ws) <==> Inside(ws, n) {
        InsideMore(before, w, n);
      }
      forall x, y | x in AllNumbers(before) && y in Numbers(w.start, w.end) ensures x < y {
        assert Inside(before, x);
      }
      JoinAscends(AllNumbers(before), Numbers(w.start, w.end));
    }
  }

  /** The windows cover exactly the wanted lines. */
  lemma WindowsAreWanted(ws: seq<Window>, centers: seq<int>, radius: int, total: nat)
    requires Apart(ws, total) && forall n :: Inside(ws, n) <==> 1 <= n <= total && Near(centers, radius, n)
    ensures AllNumbers(ws) == Wanted(centers, radius, total)
  {
    NumbersOfWindows(ws, total);
    WantedMembers(centers, radius, total);
    SameMembers(AllNumbers(ws), Wanted(centers, radius, total));
  }

  // ----- the centres in order -----

  function Insert(s: seq<int>, c: int): (r: seq<int>)
    ensures forall x :: x in r <==> x in s || x == c
  {
    if s == [] || c < s[0] then [c] + s
    else if c == s[0] then s
    else
      assert s == [s[0]] + s[1..];
      [s[0]] + Insert(s[1..], c)
  }

  lemma {:induction false} InsertAscends(s: seq<int>, c: int)
    requires Ascending(s)
    ensures Ascending(Insert(s, c))
  {
    if s != [] && c > s[0] {
      InsertAscends(s[1..], c);
      forall x, y | x in [s[0]] && y in Insert(s[1..], c) ensures x < y {
        assert y in s[1..] || y == c;
      }
      JoinAscends([s[0]], Insert(s[1..], c));
    }
  }

  /** `sorted(set(centers))`. */
  function SortedSet(centers: seq<int>): (r: seq<int>)
    ensures forall x :: x in r <==> x in centers
  {
    if centers == [] then [] else Insert(SortedSet(centers[..|centers| - 1]), centers[|centers| - 1])
  }

  lemma {:induction false} SortedSetAscends(centers: seq<int>)
    ensures Ascending(SortedSet(centers))
  {
    if centers != [] {
      SortedSetAscends(centers[..|centers| - 1]);
      InsertAscends(SortedSet(centers[..|centers| - 1]), centers[|centers| - 1]);
    }
  }

  lemma SameNear(a: seq<int>, b: seq<int>, radius: int, n: int)
    requires forall x :: x in a <==> x in b
    ensures Near(a, radius, n) <==> Near(b, radius, n)
  {
    if Near(a, radius, n) {
      var k :| 0 <= k < |a| && a[k] - radius <= n <= a[k] + radius;
      assert a[k] in b;
    }
    if Near(b, radius, n) {
      var k :| 0 <= k < |b| && b[k] - radius <= n <= b[k] + radius;
      assert b[k] in a;
    }
  }

  // ----- the code -----

  lemma NearMore(centers: seq<int>, k: nat, radius: int, n: int)
    requires k < |centers|
    ensures Near(centers[..k + 1], radius, n) <==> Near(centers[..k], radius, n) || centers[k] - radius <= n <= centers[k] + radius
  {
    var a, b := centers[..k], centers[..k + 1];
    assert b == a + [centers[k]];
    if Near(b, radius, n) && !(centers[k] - radius <= n <= centers[k] + radius) {
      var i :| 0 <= i < |b| && b[i] - radius <= n <= b[i] + radius;
      assert a[i] == b[i];
    }
    if Near(a, radius, n) {
      var i :| 0 <= i < |a| && a[i] - radius <= n <= a[i] + radius;
      assert b[i] == a[i];
    }
    assert b[k] == centers[k];
  }

  /** The windows with one more, merged with the last one when they touch. */
  function Added(ws: seq<Window>, start: int, end: int): seq<Window> {
    if start > end then ws
    else if ws != [] && start <= ws[|ws| - 1].end + 1 then
      ws[..|ws| - 1] + [Window(ws[|ws| - 1].start, Max(ws[|ws| - 1].end, end))]
    else ws + [Window(start, end)]
  }

  lemma AddedCovers(ws: seq<Window>, start: int, end: int, n: int)
    requires ws != [] ==> ws[|ws| - 1].start <= start && ws[|ws| - 1].start <= ws[|ws| - 1].end
    ensures Inside(Added(ws, start, end), n) <==> Inside(ws, n) || start <= n <= end
  {
    if start <= end {
      if ws != [] && start <= ws[|ws| - 1].end + 1 {
        var front, last := ws[..|ws| - 1], ws[|ws| - 1];
        assert ws == front + [last];
        InsideMore(front, last, n);
        InsideMore(front, Window(last.start, Max(last.end, end)), n);
      } else {
        InsideMore(ws, Window(start, end), n);
      }
    }
  }

  lemma AddedIsApart(ws: seq<Window>, start: int, end: int, total: nat)
    requires Apart(ws, total) && 1 <= start && end <= total && (ws != [] ==> ws[|ws| - 1].start <= start)
    ensures Apart(Added(ws, start, end), total)
    ensures var r := Added(ws, start, end); r != [] ==> r[|r| - 1].start <= start
  {
  }

  method MergedWindows(centers: seq<int>, radius: int, total: nat) returns (windows: seq<Window>)
    requires Ascending(centers)
    ensures Apart(windows, total)
    ensures forall n :: Inside(windows, n) <==> 1 <= n <= total && Near(centers, radius, n)
  {
    windows := [];
    for k := 0 to |centers|
      invariant Apart(windows, total)
      invariant forall n :: Inside(windows, n) <==> 1 <= n <= total && Near(centers[..k], radius, n)
      invariant windows != [] && k < |centers| ==> windows[|windows| - 1].start <= Max(1, centers[k] - radius)
    {
      ghost var before := windows;
      var start, end := Max(1, centers[k] - radius), Min(total, centers[k] + radius);
      AddedIsApart(before, start, end, total);
      forall n ensures Inside(Added(before, start, end), n) <==> 1 <= n <= total && Near(centers[..k + 1], radius, n) {
        AddedCovers(before, start, end, n);
        NearMore(centers, k, radius, n);
      }
      if start <= end {
        if windows != [] && start <= windows[|windows| - 1].end + 1 {
          var last := windows[|windows| - 1];
          windows := windows[..|windows| - 1] + [Window(last.start, Max(last.end, end))];
        } else {
          windows := windows + [Window(start, end)];
        }
      }
      assert windows == Added(before, start, end);
    }
    assert centers[..|centers|] == centers;
  }

  function Taken(segments: seq<Segment>): seq<Window> {
    seq(|segments|, i requires 0 <= i < |segments| => Window(segments[i].start, segments[i].start + |segments[i].lines| - 1))
  }

  ghost predicate Slices(segments: seq<Segment>, file: seq<string>) {
    forall i | 0 <= i < |segments| ::
      && 1 <= segments[i].start && segments[i].lines != [] && segments[i].start - 1 + |segments[i].lines| <= |file|
      && segments[i].lines == file[segments[i].start - 1..segments[i].start - 1 + |segments[i].lines|]
  }

  /** The first `n` elements, all of them when there are fewer, none when `n` is negative. */
  function Prefix(s: seq<int>, n: int): seq<int> {
    s[..Max(0, Min(n, |s|))]
  }

  lemma WholePrefix(s: seq<int>, n: int)
    requires |s| <= n
    ensures Prefix(s, n) == s
  {
  }

  lemma {:induction false} PrefixOfMore(ws: seq<Window>, w: Window, n: int)
    requires n <= |AllNumbers(ws)|
    ensures Prefix(AllNumbers(ws + [w]), n) == Prefix(AllNumbers(ws), n)
  {
    assert (ws + [w])[..|ws|] == ws;
  }

  lemma {:induction false} PrefixStays(ws: seq<Window>, k: nat, n: int)
    requires k <= |ws| && n <= |AllNumbers(ws[..k])|
    ensures Prefix(AllNumbers(ws), n) == Prefix(AllNumbers(ws[..k]), n)
    ensures n <= |AllNumbers(ws)|
    decreases |ws| - k
  {
    if k == |ws| {
      assert ws[..k] == ws;
    } else {
      assert ws[..k + 1] == ws[..k] + [ws[k]] && ws[..k + 1][..k] == ws[..k];
      PrefixOfMore(ws[..k], ws[k], n);
      PrefixStays(ws, k + 1, n);
    }
  }

  lemma {:induction false} NumbersPrefix(start: int, end: int, cut: int)
    requires start <= cut <= end
    ensures Numbers(start, cut) == Numbers(start, end)[..cut - start + 1]
  {
  }

  /** The segments are the first windows, each cut at most at its end. */
  ghost predicate Fitting(segments: seq<Segment>, windows: seq<Window>, file: seq<string>) {
    && |segments| <= |windows| && Slices(segments, file)
    && forall i | 0 <= i < |segments| ::
         segments[i].start == windows[i].start && segments[i].start + |segments[i].lines| - 1 <= windows[i].end
  }

  lemma FittingIsApart(segments: seq<Segment>, windows: seq<Window>, file: seq<string>)
    requires Fitting(segments, windows, file) && Apart(windows, |file|)
    ensures Apart(Taken(segments), |file|)
  {
    var ws := Taken(segments);
    forall i | 0 <= i < |ws| ensures 1 <= ws[i].start <= ws[i].end <= |file| {}
    forall i, j | 0 <= i < j < |ws| ensures ws[i].end + 1 < ws[j].start {
      assert windows[i].end + 1 < windows[j].start;
    }
  }

  /** One turn of the loop takes as much of the next window as the budget allows. */
  lemma TakesPrefix(segments: seq<Segment>, windows: seq<Window>, file: seq<string>, k: nat, maxLines: int, end: int)
    requires Apart(windows, |file|) && k < |windows| && |segments| == k
    requires AllNumbers(Taken(segments)) == AllNumbers(windows[..k])
    requires var budget := maxLines - |AllNumbers(windows[..k])|;
             budget > 0 && end == Min(windows[k].end, windows[k].start + budget - 1)
    ensures var more := segments + [Segment(windows[k].start, file[windows[k].start - 1..end])];
            AllNumbers(Taken(more)) == Prefix(AllNumbers(windows[..k + 1]), maxLines)
    ensures |AllNumbers(windows[..k + 1])| == |AllNumbers(windows[..k])| + (windows[k].end - windows[k].start + 1)
  {
    var w := windows[k];
    var before := AllNumbers(windows[..k]);
    TakenMore(segments, Segment(w.start, file[w.start - 1..end]), end);
    NextNumbers(windows, k);
    NumbersPrefix(w.start, w.end, end);
    PrefixOfJoin(before, Numbers(w.start, w.end), end - w.start + 1, maxLines);
  }

  lemma TakenMore(segments: seq<Segment>, s: Segment, end: int)
    requires end == s.start + |s.lines| - 1
    ensures AllNumbers(Taken(segments + [s])) == AllNumbers(Taken(segments)) + Numbers(s.start, end)
  {
    var more := segments + [s];
    assert Taken(more) == Taken(segments) + [Window(s.start, end)];
    assert Taken(more)[..|segments|] == Taken(segments);
  }

  lemma NextNumbers(windows: seq<Window>, k: nat)
    requires k < |windows|
    ensures AllNumbers(windows[..k + 1]) == AllNumbers(windows[..k]) + Numbers(windows[k].start, windows[k].end)
  {
    assert windows[..k + 1][..k] == windows[..k] && windows[..k + 1][k] == windows[k];
  }

  /** Taking `n` of the second list uses up the budget or the whole list. */
  lemma PrefixOfJoin(a: seq<int>, b: seq<int>, n: nat, maxLines: int)
    requires |a| < maxLines && n == Min(|b|, maxLines - |a|)
    ensures a + b[..n] == Prefix(a + b, maxLines)
  {
  }

  lemma FittingMore(segments: seq<Segment>, windows: seq<Window>, file: seq<string>, k: nat, end: int)
    requires Apart(windows, |file|) && Fitting(segments, windows, file) && |segments| == k < |windows|
    requires windows[k].start <= end <= windows[k].end
    ensures Fitting(segments + [Segment(windows[k].start, file[windows[k].start - 1..end])], windows, file)
  {
  }

  /** What the loop has done when it has looked at `k` windows. */
  ghost predicate Cutting(segments: seq<Segment>, windows: seq<Window>, file: seq<string>, k: nat, budget: int, maxLines: int) {
    && k <= |windows| && Fitting(segments, windows, file)
    && AllNumbers(Taken(segments)) == Prefix(AllNumbers(windows[..k]), maxLines)
    && (budget > 0 ==> |segments| == k && budget == maxLines - |AllNumbers(windows[..k])|)
    && (budget <= 0 ==> maxLines <= |AllNumbers(windows[..k])|)
  }

  lemma CuttingMore(segments: seq<Segment>, windows: seq<Window>, file: seq<string>, k: nat, budget: int, maxLines: int,
                    segment: Segment)
    requires Apart(windows, |file|) && Cutting(segments, windows, file, k, budget, maxLines) && k < |windows| && budget > 0
    requires var end := Min(windows[k].end, windows[k].start + budget - 1);
             segment == Segment(windows[k].start, file[windows[k].start - 1..end])
    ensures Cutting(segments + [segment], windows, file, k + 1, budget - |segment.lines|, maxLines)
  {
    var end := Min(windows[k].end, windows[k].start + budget - 1);
    WholePrefix(AllNumbers(windows[..k]), maxLines);
    TakesPrefix(segments, windows, file, k, maxLines, end);
    FittingMore(segments, windows, file, k, end);
  }

  lemma CuttingStarts(windows: seq<Window>, file: seq<string>, maxLines: int)
    ensures Cutting([], windows, file, 0, maxLines, maxLines)
  {
    assert Taken([]) == [] && windows[..0] == [];
  }

  lemma CuttingEnds(segments: seq<Segment>, windows: seq<Window>, file: seq<string>, k: nat, budget: int, maxLines: int)
    requires Cutting(segments, windows, file, k, budget, maxLines) && (k == |windows| || budget <= 0)
    ensures AllNumbers(Taken(segments)) == Prefix(AllNumbers(windows), maxLines)
  {
    if budget <= 0 {
      PrefixStays(windows, k, maxLines);
    } else {
      assert windows[..|windows|] == windows;
    }
  }

  /** The second loop: the windows are taken in order until the budget is used up. */
  method CutWindows(windows: seq<Window>, lines: seq<string>, maxLines: int) returns (segments: seq<Segment>)
    requires Apart(windows, |lines|)
    ensures Fitting(segments, windows, lines)
    ensures AllNumbers(Taken(segments)) == Prefix(AllNumbers(windows), maxLines)
  {
    segments := [];
    var budget := maxLines;
    var k := 0;
    CuttingStarts(windows, lines, maxLines);
    while k < |windows| && budget > 0
      invariant 0 <= k <= |windows| && Cutting(segments, windows, lines, k, budget, maxLines)
    {
      var start := windows[k].start;
      var end := Min(windows[k].end, start + budget - 1);
      var segment := Segment(start, lines[start - 1..end]);
      assert |segment.lines| == end - start + 1;
      CuttingMore(segments, windows, lines, k, budget, maxLines, segment);
      segments := segments + [segment];
      budget := budget - (end - start + 1);
      k := k + 1;
    }
    CuttingEnds(segments, windows, lines, k, budget, maxLines);
  }

  /**
   * Exactly the first `maxLines` of the wanted lines, as slices of the file in ascending order, no two of them
   * adjacent; for every radius and every budget.
   */
  method ExcerptSegments(lines: seq<string>, centers: seq<int>, radius: int, maxLines: int) returns (segments: seq<Segment>)
    ensures AllNumbers(Taken(segments)) == Prefix(Wanted(centers, radius, |lines|), maxLines)
    ensures Apart(Taken(segments), |lines|) && Slices(segments, lines)
  {
    SortedSetAscends(centers);
    var windows := MergedWindows(SortedSet(centers), radius, |lines|);
    forall n ensures Near(SortedSet(centers), radius, n) <==> Near(centers, radius, n) {
      SameNear(SortedSet(centers), centers, radius, n);
    }
    WindowsAreWanted(windows, centers, radius, |lines|);
    segments := CutWindows(windows, lines, maxLines);
    FittingIsApart(segments, windows, lines);
  }
}
