/**
 * The glob compiler (config.py, `glob_to_regex` and `matches`). The compiler writes regular-expression text; the
 * text is read back by a reader of Python's syntax for the constructs that can occur, and matched as `re` does.
 */
module GlobPatterns {
  import opened Basics
  import Texts

  // ----- what a glob means -----

  ghost predicate NoSlash(s: string, i: nat, j: nat)
    requires i <= j <= |s|
  {
    forall k | i <= k < j :: s[k] != '/'
  }

  /** How much of the pattern its first construct takes. */
  function Width(p: string): nat
    requires p != ""
    ensures 0 < Width(p) <= |p|
  {
    if "**/" <= p then 3 else if "**" <= p then 2 else 1
  }

  /**
   * What the first construct of the pattern may take of the path, from `i` to `k`: a leading directory part or
   * nothing, anything at all, anything inside a path segment, one character that is no slash, or itself.
   */
  ghost predicate Takes(p: string, s: string, i: nat, k: nat)
    requires p != "" && i <= k <= |s|
  {
    if "**/" <= p then i == k || s[k - 1] == '/'
    else if "**" <= p then true
    else if p[0] == '*' then NoSlash(s, i, k)
    else if p[0] == '?' then k == i + 1 && s[i] != '/'
    else k == i + 1 && s[i] == p[0]
  }

  /** The pattern matches the path from position `i` to its end. */
  ghost predicate Glob(p: string, s: string, i: nat)
    requires i <= |s|
    decreases |p|
  {
    if p == "" then i == |s|
    else exists k :: i <= k <= |s| && Takes(p, s, i, k) && Glob(p[Width(p)..], s, k)
  }

  // ----- regular expressions -----

  datatype Re = Chr(c: char) | AnyChar | NotSlashChar | End | Star(r: Re) | Opt(r: Re) | Group(items: seq<Re>)

  /** `k` cuts the stretch from `i` to `j` in two. */
  predicate Cut(i: nat, k: nat, j: nat) {
    i <= k <= j
  }

  /** `r` matches the characters from `i` to `j`. */
  ghost predicate Matches(r: Re, s: string, i: nat, j: nat)
    requires i <= j <= |s|
    decreases r, j - i
  {
    match r
    case Chr(c) => j == i + 1 && s[i] == c
    case AnyChar => j == i + 1
    case NotSlashChar => j == i + 1 && s[i] != '/'
    case End => i == j == |s|
    case Opt(a) => i == j || Matches(a, s, i, j)
    case Star(a) => i == j || exists k :: Cut(i, k, j) && i < k && Matches(a, s, i, k) && Matches(r, s, k, j)
    case Group(items) => MatchesItems(items, s, i, j)
  }

  ghost predicate MatchesItems(items: seq<Re>, s: string, i: nat, j: nat)
    requires i <= j <= |s|
    decreases items, j - i
  {
    if items == [] then i == j
    else exists k :: Cut(i, k, j) && Matches(items[0], s, i, k) && MatchesItems(items[1..], s, k, j)
  }

  /** What `match` looks for: the items match from `i` up to some position. */
  ghost predicate MatchesFrom(items: seq<Re>, s: string, i: nat)
    requires i <= |s|
    decreases |items|
  {
    items == [] || exists k :: Cut(i, k, |s|) && Matches(items[0], s, i, k) && MatchesFrom(items[1..], s, k)
  }

  // ----- reading regular-expression text -----

  predicate Alphanumeric(c: char) {
    'a' <= c <= 'z' || 'A' <= c <= 'Z' || '0' <= c <= '9'
  }

  predicate Quantifier(c: char) {
    c in "*?+{"
  }

  /** An atom at the start of the text, and its length. */
  function ReadAtom(t: string): (r: Option<(Re, nat)>)
    requires t != ""
    ensures r.Some? ==> 0 < r.value.1 <= |t|
    decreases |t|, 0
  {
    if t[0] == '\\' then
      if |t| < 2 then None
      else if t[1] == 'Z' then Some((End, 2))
      else if Alphanumeric(t[1]) then None
      else Some((Chr(t[1]), 2))
    else if t[0] == '.' then Some((AnyChar, 1))
    else if t[0] == '[' then (if "[^/]" <= t then Some((NotSlashChar, 4)) else None)
    else if t[0] == '(' then
      if "(?:" <= t then
        var inner := ReadItems(t[3..]);
        if inner.Some? && 3 + inner.value.1 < |t| && t[3 + inner.value.1] == ')'
        then Some((Group(inner.value.0), 4 + inner.value.1)) else None
      else None
    else if t[0] in "*?+{}]|^$" then None
    else Some((Chr(t[0]), 1))
  }

  /** Items up to a closing parenthesis or the end of the text, and the length of their text. */
  function ReadItems(t: string): (r: Option<(seq<Re>, nat)>)
    ensures r.Some? ==> r.value.1 <= |t|
    decreases |t|, 1
  {
    if t == "" || t[0] == ')' then Some(([], 0))
    else
      match ReadAtom(t)
      case None => None
      case Some((a, n)) =>
        if n < |t| && t[n] == '*' then After(Star(a), n + 1, ReadItems(t[n + 1..]))
        else if n < |t| && t[n] == '?' then After(Opt(a), n + 1, ReadItems(t[n + 1..]))
        else if n < |t| && Quantifier(t[n]) then None
        else After(a, n, ReadItems(t[n..]))
  }

  function After(a: Re, n: nat, rest: Option<(seq<Re>, nat)>): Option<(seq<Re>, nat)> {
    if rest.None? then None else Some(([a] + rest.value.0, n + rest.value.1))
  }

  /** A whole pattern: `(?s)` lets the dot match every character. */
  function Compile(text: string): Option<seq<Re>> {
    if "(?s)" <= text then
      var items := ReadItems(text[4..]);
      if items.Some? && items.value.1 == |text| - 4 then Some(items.value.0) else None
    else None
  }

  /** The reader refuses an escaped letter or digit, other than the end mark: it would be a class of characters. */
  lemma EscapesAreStrict(c: char, rest: string)
    requires c != 'Z'
    requires c in "abcdefghijklmnopqrstuvwxyz" || c in "ABCDEFGHIJKLMNOPQRSTUVWXYZ" || c in "0123456789"
    ensures ReadAtom("\\" + ([c] + rest)).None?
  {
    var text := "\\" + ([c] + rest);
    assert text[0] == '\\' && text[1] == c;
  }

  /** It refuses a special character that stands alone, and a quantifier that it does not know. */
  lemma SpecialsAreStrict(c: char, rest: string)
    ensures c in "*?+{}]|^$" ==> ReadAtom([c] + rest).None?
    ensures c in "+{" ==> ReadItems("a" + ([c] + rest)).None?
  {
    assert ([c] + rest)[0] == c;
    var text := "a" + ([c] + rest);
    assert text[0] == 'a' && text[1] == c;
    assert ReadAtom(text) == Some((Chr('a'), 1));
  }

  /** It refuses a group without its end, and an end without its group. */
  lemma GroupsAreStrict()
    ensures ReadAtom("(?:").None? && Compile("(?s))").None?
  {
    assert "(?:"[3..] == "" && "(?s))"[4..] == ")";
  }

  // ----- the compiler -----

  /** `re.escape` of one character. */
  function Escape(c: char): string {
    if c in "()[]{}?*+-|^$\\.&~# \t\n\r" || c == '\U{0B}' || c == '\U{0C}' then ['\\', c] else [c]
  }

  /** Exactly the characters that mean something in a verbose regular expression are escaped, and all blanks. */
  lemma EscapedIff(c: char)
    ensures Escape(c) == ['\\', c] || Escape(c) == [c]
    ensures |Escape(c)| == 2 <==>
              || c in ".^$*+?{}[]\\|()" || c in "-&~#"
              || c == ' ' || c == '\t' || c == '\n' || c == '\r' || c == '\U{0B}' || c == '\U{0C}'
  {
  }

  /** The text for a pattern, without the frame. */
  function Pieces(p: string): string
    decreases |p|
  {
    if p == "" then ""
    else if "**/" <= p then "(?:.*/)?" + Pieces(p[3..])
    else if "**" <= p then ".*" + Pieces(p[2..])
    else if p[0] == '*' then "[^/]*" + Pieces(p[1..])
    else if p[0] == '?' then "[^/]" + Pieces(p[1..])
    else Escape(p[0]) + Pieces(p[1..])
  }

  method GlobToRegex(pattern: string) returns (text: string)
    ensures text == "(?s)" + Pieces(pattern) + "\\Z"
    ensures Compile(text) == Some(Items(pattern) + [End])
  {
    var i := 0;
    var out := "(?s)";
    while i < |pattern|
      invariant 0 <= i <= |pattern|
      invariant out + Pieces(pattern[i..]) == "(?s)" + Pieces(pattern)
    {
      var c := pattern[i];
      ghost var rest := pattern[i..];
      if c == '*' {
        if i + 3 <= |pattern| && pattern[i..i + 3] == "**/" {
          assert "**/" <= rest && rest[3..] == pattern[i + 3..];
          Texts.Reassociate(out, "(?:.*/)?", Pieces(rest[3..]));
          out := out + "(?:.*/)?";
          i := i + 3;
          continue;
        }
        if i + 2 <= |pattern| && pattern[i..i + 2] == "**" {
          assert "**" <= rest && rest[2..] == pattern[i + 2..];
          Texts.Reassociate(out, ".*", Pieces(rest[2..]));
          out := out + ".*";
          i := i + 2;
          continue;
        }
        assert !("**" <= rest) && rest[1..] == pattern[i + 1..];
        Texts.Reassociate(out, "[^/]*", Pieces(rest[1..]));
        out := out + "[^/]*";
        i := i + 1;
      } else if c == '?' {
        assert rest[1..] == pattern[i + 1..];
        Texts.Reassociate(out, "[^/]", Pieces(rest[1..]));
        out := out + "[^/]";
        i := i + 1;
      } else {
        assert rest[1..] == pattern[i + 1..];
        Texts.Reassociate(out, Escape(c), Pieces(rest[1..]));
        out := out + Escape(c);
        i := i + 1;
      }
    }
    assert pattern[i..] == "";
    CompiledPieces(pattern);
    return out + "\\Z";
  }

  const OPTIONAL_PREFIX := Opt(Group([Star(AnyChar), Chr('/')]))

  function Items(p: string): seq<Re>
    decreases |p|
  {
    if p == "" then []
    else if "**/" <= p then [OPTIONAL_PREFIX] + Items(p[3..])
    else if "**" <= p then [Star(AnyChar)] + Items(p[2..])
    else if p[0] == '*' then [Star(NotSlashChar)] + Items(p[1..])
    else if p[0] == '?' then [NotSlashChar] + Items(p[1..])
    else [Chr(p[0])] + Items(p[1..])
  }

  /** The rest of a pattern's text never looks like a quantifier of what comes before. */
  predicate Detached(t: string) {
    t == "" || !Quantifier(t[0])
  }

  lemma PiecesAreDetached(p: string)
    ensures Detached(Pieces(p) + "\\Z")
  {
  }

  lemma ReadPrefix(rest: string)
    requires Detached(rest)
    ensures ReadItems("(?:.*/)?" + rest) == After(OPTIONAL_PREFIX, 8, ReadItems(rest))
  {
    var t := "(?:.*/)?" + rest;
    assert t[3..] == ".*/)?" + rest;
    var inner := ".*/)?" + rest;
    assert inner[2..] == "/)?" + rest;
    assert ("/)?" + rest)[1..] == ")?" + rest;
    assert ReadItems(")?" + rest) == Some(([], 0));
    assert ReadAtom("/)?" + rest) == Some((Chr('/'), 1));
    assert [Chr('/')] + [] == [Chr('/')];
    assert ReadItems("/)?" + rest) == Some(([Chr('/')], 1));
    assert ReadAtom(inner) == Some((AnyChar, 1)) && inner[1] == '*';
    assert [Star(AnyChar)] + [Chr('/')] == [Star(AnyChar), Chr('/')];
    assert ReadItems(inner) == Some(([Star(AnyChar), Chr('/')], 3));
    assert t[6] == ')';
    assert ReadAtom(t) == Some((Group([Star(AnyChar), Chr('/')]), 7));
    assert t[8..] == rest;
  }

  lemma ReadPlain(piece: string, a: Re, rest: string)
    requires Detached(rest)
    requires (piece == ".*" && a == Star(AnyChar)) || (piece == "[^/]*" && a == Star(NotSlashChar)) || (piece == "[^/]" && a == NotSlashChar)
    ensures ReadItems(piece + rest) == After(a, |piece|, ReadItems(rest))
  {
    var t := piece + rest;
    assert t[|piece|..] == rest;
    if piece == ".*" {
      assert ReadAtom(t) == Some((AnyChar, 1));
    } else {
      assert t[..4] == "[^/]" && "[^/]" <= t;
      assert ReadAtom(t) == Some((NotSlashChar, 4));
    }
  }

  lemma ReadEscaped(c: char, rest: string)
    requires Detached(rest)
    ensures ReadItems(Escape(c) + rest) == After(Chr(c), |Escape(c)|, ReadItems(rest))
  {
    var t := Escape(c) + rest;
    assert t[|Escape(c)|..] == rest;
    EscapedIsAtom(c, rest);
  }

  lemma EscapedIsAtom(c: char, rest: string)
    ensures ReadAtom(Escape(c) + rest) == Some((Chr(c), |Escape(c)|))
    ensures (Escape(c) + rest)[0] != ')'
  {
    var t := Escape(c) + rest;
    assert t[0] == Escape(c)[0] && (|Escape(c)| == 2 ==> t[1] == c);
  }

  function FirstPiece(p: string): string
    requires p != ""
  {
    if "**/" <= p then "(?:.*/)?" else if "**" <= p then ".*" else if p[0] == '*' then "[^/]*"
    else if p[0] == '?' then "[^/]" else Escape(p[0])
  }

  function FirstItem(p: string): Re
    requires p != ""
  {
    if "**/" <= p then OPTIONAL_PREFIX else if "**" <= p then Star(AnyChar) else if p[0] == '*' then Star(NotSlashChar)
    else if p[0] == '?' then NotSlashChar else Chr(p[0])
  }

  lemma ReadFirst(p: string, rest: string)
    requires p != "" && Detached(rest)
    ensures ReadItems(FirstPiece(p) + rest) == After(FirstItem(p), |FirstPiece(p)|, ReadItems(rest))
  {
    if "**/" <= p {
      ReadPrefix(rest);
    } else if p[0] == '*' || p[0] == '?' {
      ReadPlain(FirstPiece(p), FirstItem(p), rest);
    } else {
      ReadEscaped(p[0], rest);
    }
  }

  lemma Unfold(p: string)
    requires p != ""
    ensures Pieces(p) == FirstPiece(p) + Pieces(p[Width(p)..])
    ensures Items(p) == [FirstItem(p)] + Items(p[Width(p)..])
  {
  }

  lemma ReadEnd()
    ensures ReadItems("\\Z") == Some(([End], 2))
  {
    assert "\\Z"[2..] == "" && [End] + [] == [End];
    assert ReadItems("") == Some(([], 0));
  }

  /** The text of the rest of a pattern, up to the end of the whole text. */
  function Remainder(p: string): string {
    Pieces(p) + "\\Z"
  }

  lemma UnfoldRemainder(p: string)
    requires p != ""
    ensures Remainder(p) == FirstPiece(p) + Remainder(p[Width(p)..])
  {
    Unfold(p);
    Texts.Reassociate(FirstPiece(p), Pieces(p[Width(p)..]), "\\Z");
  }

  lemma ReadOne(p: string)
    requires p != ""
    ensures ReadItems(Remainder(p)) == After(FirstItem(p), |FirstPiece(p)|, ReadItems(Remainder(p[Width(p)..])))
  {
    PiecesAreDetached(p[Width(p)..]);
    ReadFirst(p, Remainder(p[Width(p)..]));
    UnfoldRemainder(p);
  }

  ghost predicate Reads(p: string) {
    ReadItems(Remainder(p)) == Some((Items(p) + [End], |Remainder(p)|))
  }

  lemma {:induction false} ReadPieces(p: string)
    ensures Reads(p)
    decreases |p|
  {
    if p == "" {
      ReadEnd();
      assert Remainder("") == "\\Z" && Items("") + [End] == [End];
    } else {
      ReadPieces(p[Width(p)..]);
      ReadMore(p);
    }
  }

  lemma ReadMore(p: string)
    requires p != "" && Reads(p[Width(p)..])
    ensures Reads(p)
  {
    ReadOne(p);
    ItemsUnfold(p);
    RemainderLength(p);
    AfterSome(FirstItem(p), |FirstPiece(p)|, Items(p[Width(p)..]) + [End], |Remainder(p[Width(p)..])|);
  }

  lemma AfterSome(a: Re, n: nat, items: seq<Re>, length: nat)
    ensures After(a, n, Some((items, length))) == Some(([a] + items, n + length))
  {
  }

  lemma ItemsUnfold(p: string)
    requires p != ""
    ensures Items(p) + [End] == [FirstItem(p)] + (Items(p[Width(p)..]) + [End])
  {
    Unfold(p);
    Texts.Reassociate([FirstItem(p)], Items(p[Width(p)..]), [End]);
  }

  lemma RemainderLength(p: string)
    requires p != ""
    ensures |Remainder(p)| == |FirstPiece(p)| + |Remainder(p[Width(p)..])|
  {
    UnfoldRemainder(p);
  }

  lemma CompiledPieces(p: string)
    ensures Compile("(?s)" + Pieces(p) + "\\Z") == Some(Items(p) + [End])
  {
    ReadPieces(p);
    var text := "(?s)" + Pieces(p) + "\\Z";
    assert text[4..] == Remainder(p);
  }

  // ----- the items match what the glob means -----

  lemma {:induction false} StarAny(s: string, i: nat, j: nat)
    requires i <= j <= |s|
    ensures Matches(Star(AnyChar), s, i, j)
    decreases j - i
  {
    if i < j {
      StarAny(s, i + 1, j);
      assert Cut(i, i + 1, j) && Matches(AnyChar, s, i, i + 1);
    }
  }

  lemma {:induction false} StarNotSlash(s: string, i: nat, j: nat)
    requires i <= j <= |s|
    ensures Matches(Star(NotSlashChar), s, i, j) <==> NoSlash(s, i, j)
    decreases j - i
  {
    if i < j {
      StarNotSlash(s, i + 1, j);
      assert Cut(i, i + 1, j) && (Matches(NotSlashChar, s, i, i + 1) <==> s[i] != '/');
    }
  }

  lemma PrefixMatches(s: string, i: nat, j: nat)
    requires i <= j <= |s|
    ensures Matches(OPTIONAL_PREFIX, s, i, j) <==> i == j || s[j - 1] == '/'
  {
    var slash := [Chr('/')];
    var items := [Star(AnyChar), Chr('/')];
    assert items[1..] == slash && slash[1..] == [];
    forall k: nat | Cut(i, k, j) ensures MatchesItems(slash, s, k, j) <==> k + 1 == j && s[k] == '/' {
      assert Cut(k, j, j);
    }
    if i < j && s[j - 1] == '/' {
      StarAny(s, i, j - 1);
      assert Cut(i, j - 1, j) && MatchesItems(items[1..], s, j - 1, j);
    }
    assert Matches(OPTIONAL_PREFIX, s, i, j) == (i == j || MatchesItems(items, s, i, j));
  }

  lemma {:induction false} ItemsMatchGlob(p: string, s: string, i: nat)
    requires i <= |s|
    ensures MatchesFrom(Items(p) + [End], s, i) <==> Glob(p, s, i)
    decreases |p|
  {
    var all := Items(p) + [End];
    if p == "" {
      assert all[1..] == [] && all[0] == End;
      assert Cut(i, |s|, |s|) && MatchesFrom(all[1..], s, |s|);
    } else {
      var n := Width(p);
      assert all[1..] == Items(p[n..]) + [End];
      forall k: nat | Cut(i, k, |s|) ensures MatchesFrom(all[1..], s, k) <==> Glob(p[n..], s, k) {
        ItemsMatchGlob(p[n..], s, k);
      }
      forall k: nat | Cut(i, k, |s|) ensures Matches(all[0], s, i, k) <==> Takes(p, s, i, k) {
        if "**/" <= p {
          PrefixMatches(s, i, k);
        } else if "**" <= p {
          StarAny(s, i, k);
        } else if p[0] == '*' {
          StarNotSlash(s, i, k);
        }
      }
    }
  }

  /** `matches`: the compiled text matches a path exactly when the glob does. */
  ghost predicate Accepts(text: string, path: string) {
    Compile(text).Some? && MatchesFrom(Compile(text).value, path, 0)
  }

  lemma CompilationPreservesMeaning(pattern: string, path: string)
    ensures Accepts("(?s)" + Pieces(pattern) + "\\Z", path) <==> Glob(pattern, path, 0)
  {
    CompiledPieces(pattern);
    ItemsMatchGlob(pattern, path, 0);
  }

  /** A pattern without wildcards matches itself and nothing else. */
  lemma {:induction false} LiteralMatchesItself(p: string, s: string, i: nat)
    requires i <= |s| && forall c | c in p :: c != '*' && c != '?'
    ensures Glob(p, s, i) <==> s[i..] == p
    decreases |p|
  {
    if p != "" {
      assert p[0] in p && forall c | c in p[1..] :: c in p;
      if i < |s| {
        assert Takes(p, s, i, i + 1) <==> s[i] == p[0];
        LiteralMatchesItself(p[1..], s, i + 1);
        assert s[i..] == [s[i]] + s[i + 1..] && p == [p[0]] + p[1..];
      }
    }
  }

  /** `*` and `?` stay inside one path segment; only `**` leaves it. */
  lemma {:induction false} SingleStarKeepsDepth(p: string, s: string, i: nat)
    requires i <= |s| && Glob(p, s, i)
    requires forall k | 0 <= k < |p| - 1 :: !(p[k] == '*' && p[k + 1] == '*')
    ensures Slashes(s[i..]) == Slashes(p)
    decreases |p|
  {
    if p != "" {
      assert !("**" <= p) by {
        if |p| >= 2 {
          assert !(p[0] == '*' && p[0 + 1] == '*');
        }
      }
      forall k | 0 <= k < |p[1..]| - 1 ensures !(p[1..][k] == '*' && p[1..][k + 1] == '*') {
        assert !(p[k + 1] == '*' && p[k + 1 + 1] == '*');
      }
      var k :| i <= k <= |s| && Takes(p, s, i, k) && Glob(p[1..], s, k);
      SingleStarKeepsDepth(p[1..], s, k);
      SlashesSkip(s, i, k);
    }
  }

  function Slashes(s: string): nat {
    if s == "" then 0 else (if s[0] == '/' then 1 else 0) + Slashes(s[1..])
  }

  lemma {:induction false} SlashesSkip(s: string, i: nat, k: nat)
    requires i <= k <= |s|
    ensures NoSlash(s, i, k) ==> Slashes(s[i..]) == Slashes(s[k..])
    ensures k == i + 1 ==> Slashes(s[i..]) == (if s[i] == '/' then 1 else 0) + Slashes(s[k..])
    decreases k - i
  {
    if i < k {
      assert s[i..][1..] == s[i + 1..];
      SlashesSkip(s, i + 1, k);
    }
  }
}
