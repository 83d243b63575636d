/**
 * Whole-module ownership read off CODEOWNERS rules (organization.py, `declared_contacts` and `_rule_relation`;
 * github.py, `current_codeowners`), against gitignore-style matching in which the last matching rule decides.
 */
module CodeOwners {
  import opened Basics
  import Texts

  datatype Rule = Rule(pattern: string, owners: string)

  datatype Relation = Covers | Disjoint | Uncertain

  // ----- text -----

  predicate EndsWith(s: string, tail: string) {
    |tail| <= |s| && s[|s| - |tail|..] == tail
  }

  function StripLeft(s: string): string {
    if s != "" && s[0] == '/' then StripLeft(s[1..]) else s
  }

  function StripRight(s: string): string {
    if s != "" && s[|s| - 1] == '/' then StripRight(s[..|s| - 1]) else s
  }

  function Strip(s: string): string {
    StripRight(StripLeft(s))
  }

  predicate Complex(s: string) {
    exists c | c in s :: c in "*?[]!\\"
  }

  // ----- what a pattern matches -----

  /** A path of the repository: components that are not empty, separated by single slashes. */
  predicate ProperPath(f: string) {
    && f != "" && f[0] != '/' && f[|f| - 1] != '/'
    && forall i | 0 <= i < |f| - 1 :: !(f[i] == '/' && f[i + 1] == '/')
  }

  /** A name is a path, and two paths joined by a slash are one; nothing else is. */
  lemma ProperJoin(a: string, b: string)
    ensures a != "" && '/' !in a ==> ProperPath(a)
    ensures ProperPath(a + "/" + b) <==> ProperPath(a) && ProperPath(b)
  {
    var f := a + "/" + b;
    if ProperPath(f) {
      assert f[|a|] == '/' && (a != "" ==> f[|a| - 1] == a[|a| - 1]) && (b != "" ==> f[|a| + 1] == b[0]);
      assert forall i | 0 <= i < |a| :: f[i] == a[i];
      assert forall i | 0 <= i < |b| :: b[i] == f[|a| + 1 + i];
    }
    if ProperPath(a) && ProperPath(b) {
      forall i | 0 <= i < |f| - 1 ensures !(f[i] == '/' && f[i + 1] == '/') {
        if i + 1 < |a| {
          assert f[i] == a[i] && f[i + 1] == a[i + 1];
        } else if i > |a| {
          assert f[i] == b[i - |a| - 1] && f[i + 1] == b[i - |a|];
        }
      }
    }
  }

  predicate Under(f: string, directory: string) {
    directory + "/" <= f
  }

  /** A file of a module; the empty module is the whole repository. */
  predicate InModule(f: string, m: string) {
    m == "" || Under(f, m)
  }

  /** The files of a module are those that its path and a slash lead to. */
  lemma ModuleMembers(f: string, m: string)
    ensures InModule(f, m) <==> m == "" || exists rest: string :: f == m + "/" + rest
  {
    if Under(f, m) {
      assert f == m + "/" + f[|m| + 1..];
    }
  }

  predicate AtOrUnder(f: string, target: string, directoryOnly: bool) {
    (f == target && !directoryOnly) || Under(f, target)
  }

  /** One leading and one trailing slash say how a literal pattern is meant and are not part of its text. */
  function Body(q: string): string {
    var a := if q != "" && q[0] == '/' then q[1..] else q;
    if a != "" && a[|a| - 1] == '/' then a[..|a| - 1] else a
  }

  predicate Everything(pattern: string) {
    pattern in {"*", "**", "/**", "/**/*"}
  }

  function Directory(pattern: string): string {
    if EndsWith(pattern, "/**") then pattern[..|pattern| - 2] else pattern
  }

  ghost predicate MatchesLiteral(pattern: string, f: string) {
    var q := Directory(pattern);
    var body, directoryOnly := Body(q), EndsWith(q, "/");
    if EndsWith(pattern, "/**") || (q != "" && q[0] == '/') || '/' in body then AtOrUnder(f, body, directoryOnly)
    else exists i :: 0 <= i <= |f| && (i == 0 || f[i - 1] == '/') && AtOrUnder(f[i..], body, directoryOnly)
  }

  /** `other` decides about patterns with wildcards; nothing is assumed about it. */
  ghost predicate Matches(pattern: string, f: string, other: (string, string) -> bool) {
    if Everything(pattern) then true
    else if Complex(Directory(pattern)) || Strip(Directory(pattern)) == "" then other(pattern, f)
    else MatchesLiteral(pattern, f)
  }

  /** The owners of a file: those of the last rule that matches it. */
  ghost function OwnersOf(rules: seq<Rule>, f: string, other: (string, string) -> bool): Option<string> {
    if rules == [] then None
    else if Matches(rules[|rules| - 1].pattern, f, other) then Some(rules[|rules| - 1].owners)
    else OwnersOf(rules[..|rules| - 1], f, other)
  }

  // ----- the analysis -----

  function RuleRelation(zone: string, pattern: string): Relation {
    var m := Strip(zone);
    if Everything(pattern) then Covers
    else
      var q := Directory(pattern);
      if Complex(q) then Uncertain
      else
        var rooted := (q != "" && q[0] == '/') || '/' in StripRight(q);
        var target := Strip(q);
        if target == "" then Uncertain
        else if m == target || target + "/" <= m then Covers
        else if m + "/" <= target then Uncertain
        else if rooted then Disjoint else Uncertain
  }

  function Declared(zone: string, rules: seq<Rule>): Option<string> {
    if rules == [] then None
    else
      match RuleRelation(zone, rules[|rules| - 1].pattern)
      case Covers => Some(rules[|rules| - 1].owners)
      case Uncertain => None
      case Disjoint => Declared(zone, rules[..|rules| - 1])
  }

  // ----- soundness -----

  /** A pattern whose text starts or ends with more slashes than mean something. */
  predicate Doubled(pattern: string) {
    var q := Directory(pattern);
    "//" <= q || EndsWith(q, "//")
  }

  lemma {:induction false} StripLeftKeepsEnd(s: string)
    ensures StripLeft(s) == "" || (StripLeft(s)[0] != '/' && EndsWith(s, StripLeft(s)))
  {
    if s != "" && s[0] == '/' {
      StripLeftKeepsEnd(s[1..]);
    }
  }

  lemma {:induction false} StripRightKeepsStart(s: string)
    ensures StripRight(s) <= s && (StripRight(s) == "" || StripRight(s)[|StripRight(s)| - 1] != '/')
  {
    if s != "" && s[|s| - 1] == '/' {
      StripRightKeepsStart(s[..|s| - 1]);
    }
  }

  lemma StripIsBare(s: string)
    ensures Strip(s) == "" || (Strip(s)[0] != '/' && Strip(s)[|Strip(s)| - 1] != '/')
  {
    StripLeftKeepsEnd(s);
    StripRightKeepsStart(StripLeft(s));
  }

  lemma BodyIsStripped(q: string)
    requires Strip(q) != "" && !("//" <= q || EndsWith(q, "//"))
    ensures Body(q) == Strip(q)
  {
    var a := if q != "" && q[0] == '/' then q[1..] else q;
    assert a != "" && a[0] != '/' by {
      if q != "" && q[0] == '/' {
        assert a == "" ==> StripLeft(a) == "";
        if |q| >= 2 {
          assert q[..2] == [q[0], q[1]];
        }
      }
    }
    assert StripLeft(q) == a;
    if a[|a| - 1] == '/' {
      if |a| >= 2 {
        assert q[|q| - 2..] == [q[|q| - 2], q[|q| - 1]];
        assert StripRight(a[..|a| - 1]) == a[..|a| - 1];
      }
    }
  }

  /** "covers" is right: the pattern matches every file of the module. */
  lemma CoversIsJustified(zone: string, pattern: string, f: string, other: (string, string) -> bool)
    requires RuleRelation(zone, pattern).Covers? && !Doubled(pattern) && Strip(zone) != "" && InModule(f, Strip(zone))
    ensures Matches(pattern, f, other)
  {
    if !Everything(pattern) {
      var q, m := Directory(pattern), Strip(zone);
      BodyIsStripped(q);
      var target := Strip(q);
      assert Under(f, target) by {
        assert m + "/" <= f && (m == target || target + "/" <= m);
        assert f[..|target| + 1] == target + "/";
      }
      assert f[0..] == f;
    }
  }

  lemma BodyOfRooted(q: string)
    requires Strip(q) != "" && ((q != "" && q[0] == '/') || '/' in StripRight(q)) && q[0] != '/'
    ensures '/' in Body(q)
  {
    StripRightKeepsStart(q);
    var t := StripRight(q);
    var i :| 0 <= i < |t| && t[i] == '/';
    assert i < |t| - 1;
    assert Body(q)[i] == '/';
  }

  lemma {:induction false} BodyAgainstStrip(q: string)
    requires Strip(q) != ""
    ensures Body(q) == Strip(q) || Body(q) == "" || Body(q)[0] == '/' || Body(q)[|Body(q)| - 1] == '/'
  {
    if !("//" <= q || EndsWith(q, "//")) {
      BodyIsStripped(q);
    } else if "//" <= q {
      assert q[0] == '/' && q[1] == '/';
    } else {
      assert q[|q| - 2..] == "//";
      assert q[|q| - 1] == '/' && q[|q| - 2] == '/';
    }
  }

  lemma UnderKeepsEnds(f: string, target: string)
    requires Under(f, target) && target != ""
    ensures f[0] == target[0] && f[|target| - 1] == target[|target| - 1] && f[|target|] == '/' && |target| < |f|
  {
    assert f[..|target| + 1] == target + "/";
  }

  lemma ProperNotUnder(f: string, target: string, directoryOnly: bool)
    requires ProperPath(f) && target != "" && (target[0] == '/' || target[|target| - 1] == '/')
    ensures !AtOrUnder(f, target, directoryOnly)
  {
    if Under(f, target) {
      UnderKeepsEnds(f, target);
    }
  }

  /** "disjoint" is right: the pattern matches no file of the module. */
  lemma DisjointIsJustified(zone: string, pattern: string, f: string, other: (string, string) -> bool)
    requires RuleRelation(zone, pattern).Disjoint? && Strip(zone) != "" && ProperPath(f) && InModule(f, Strip(zone))
    ensures !Matches(pattern, f, other)
  {
    var q, m := Directory(pattern), Strip(zone);
    var target := Strip(q);
    StripIsBare(zone);
    if q[0] != '/' {
      BodyOfRooted(q);
    }
    BodyAgainstStrip(q);
    if Body(q) != target && Body(q) != "" {
      ProperNotUnder(f, Body(q), EndsWith(q, "/"));
    } else if Body(q) == target {
      if Under(f, target) {
        DirectoriesNest(f, m, target);
      }
    }
  }

  lemma DirectoriesNest(f: string, a: string, b: string)
    requires Under(f, a) && Under(f, b)
    ensures a == b || a + "/" <= b || b + "/" <= a
  {
    assert f[..|a| + 1] == a + "/" && f[..|b| + 1] == b + "/";
    assert a == f[..|a|] && b == f[..|b|];
    if |a| < |b| {
      assert b[..|a| + 1] == f[..|a| + 1];
    } else if |b| < |a| {
      assert a[..|b| + 1] == f[..|b| + 1];
    }
  }

  /** The rule that decides what is declared: the last one that covers, if nothing after it is uncertain. */
  function Deciding(zone: string, rules: seq<Rule>): (r: Option<nat>)
    ensures r.Some? ==> r.value < |rules|
    ensures Declared(zone, rules) == if r.Some? then Some(rules[r.value].owners) else None
  {
    if rules == [] then None
    else
      match RuleRelation(zone, rules[|rules| - 1].pattern)
      case Covers => Some(|rules| - 1)
      case Uncertain => None
      case Disjoint => Deciding(zone, rules[..|rules| - 1])
  }

  /** A pattern whose "covers" verdict is right. */
  predicate Straight(pattern: string) {
    Everything(pattern) || !Doubled(pattern)
  }

  /** For a pattern with doubled slashes, "covers" is wrong for every file of the module. */
  lemma DoubledIsUnsound(zone: string, pattern: string, f: string, other: (string, string) -> bool)
    requires RuleRelation(zone, pattern).Covers? && !Everything(pattern) && Doubled(pattern) && ProperPath(f)
    ensures !Matches(pattern, f, other)
  {
    var q := Directory(pattern);
    DoubledBody(q);
    BodyAgainstStrip(q);
    if Body(q) != "" {
      ProperNotUnder(f, Body(q), EndsWith(q, "/"));
    }
  }

  /** "covers" is right for a file of the module exactly when no slash of the pattern is doubled at an end. */
  lemma CoversIff(zone: string, pattern: string, f: string, other: (string, string) -> bool)
    requires RuleRelation(zone, pattern).Covers? && Strip(zone) != "" && ProperPath(f) && InModule(f, Strip(zone))
    ensures Matches(pattern, f, other) <==> Everything(pattern) || !Doubled(pattern)
  {
    if !Doubled(pattern) {
      CoversIsJustified(zone, pattern, f, other);
    } else if !Everything(pattern) {
      DoubledIsUnsound(zone, pattern, f, other);
    }
  }

  lemma DoubledBody(q: string)
    requires Strip(q) != "" && ("//" <= q || EndsWith(q, "//"))
    ensures Body(q) != "" && (Body(q)[0] == '/' || Body(q)[|Body(q)| - 1] == '/')
  {
    assert Strip("//") == "" by {
      assert "//"[1..] == "/" && "/"[1..] == "";
    }
    assert |q| == 2 && "//" <= q ==> q == "//";
    if "//" <= q {
      assert q[0] == '/' && q[1] == '/';
    } else {
      assert q[|q| - 2..] == "//";
      assert q[|q| - 1] == '/' && q[|q| - 2] == '/';
    }
  }

  /**
   * When owners are declared for a module and the deciding pattern has no doubled slashes, they are the owners of
   * every file of the module, whatever any other rule looks like; with doubled slashes the deciding rule owns
   * nothing, and the owners are those that the rules before it give.
   */
  lemma {:induction false} DeclaredIsSound(zone: string, rules: seq<Rule>, f: string, other: (string, string) -> bool)
    requires Strip(zone) != "" && ProperPath(f) && InModule(f, Strip(zone)) && Deciding(zone, rules).Some?
    ensures var k := Deciding(zone, rules).value;
            OwnersOf(rules, f, other)
            == if Straight(rules[k].pattern) then Declared(zone, rules) else OwnersOf(rules[..k], f, other)
  {
    var front, pattern := rules[..|rules| - 1], rules[|rules| - 1].pattern;
    if RuleRelation(zone, pattern).Covers? {
      CoversIff(zone, pattern, f, other);
    } else {
      DisjointIsJustified(zone, pattern, f, other);
      DeclaredIsSound(zone, front, f, other);
      assert front[..Deciding(zone, rules).value] == rules[..Deciding(zone, rules).value];
    }
  }

  /** Declared owners are right for a file exactly when the deciding pattern is straight or the rules before it agree. */
  lemma DeclaredIff(zone: string, rules: seq<Rule>, f: string, other: (string, string) -> bool)
    requires Strip(zone) != "" && ProperPath(f) && InModule(f, Strip(zone)) && Deciding(zone, rules).Some?
    ensures var k := Deciding(zone, rules).value;
            OwnersOf(rules, f, other) == Declared(zone, rules)
            <==> Straight(rules[k].pattern) || OwnersOf(rules[..k], f, other) == Declared(zone, rules)
  {
    DeclaredIsSound(zone, rules, f, other);
  }

  // ----- the empty module -----

  /** A literal rooted pattern that some file of the repository matches. */
  predicate Effective(pattern: string) {
    !Doubled(pattern) && ProperPath(Strip(Directory(pattern)))
  }

  predicate DirectoryOnly(pattern: string) {
    EndsWith(Directory(pattern), "/")
  }

  /** The later pattern matches everything that the earlier one matches. */
  predicate Beats(later: string, earlier: string) {
    var a, b := Strip(Directory(later)), Strip(Directory(earlier));
    && Effective(later)
    && (Under(b, a) || (a == b && (DirectoryOnly(earlier) || !DirectoryOnly(later))))
  }

  /** Whatever follows the deciding rule and names other owners can match nothing, or is beaten by a later rule. */
  ghost predicate NothingInTheWay(rules: seq<Rule>, k: nat)
    requires k < |rules|
  {
    forall j | k < j < |rules| && Effective(rules[j].pattern) && rules[j].owners != rules[k].owners ::
      exists l :: j < l < |rules| && Beats(rules[l].pattern, rules[j].pattern)
  }

  /** For the empty module only the patterns for everything cover, and all that is disjoint is rooted and literal. */
  lemma EmptyModuleRelation(zone: string, pattern: string)
    requires Strip(zone) == ""
    ensures RuleRelation(zone, pattern).Covers? ==> Everything(pattern)
    ensures RuleRelation(zone, pattern).Disjoint? ==> RootedLiteral(pattern)
  {
    StripIsBare(Directory(pattern));
  }

  predicate RootedLiteral(pattern: string) {
    var q := Directory(pattern);
    && !Everything(pattern) && !Complex(q) && Strip(q) != ""
    && ((q != "" && q[0] == '/') || '/' in StripRight(q))
  }

  /** What a rooted literal pattern matches: its own path, unless it is a directory's, and everything below it. */
  lemma RootedMatches(pattern: string, f: string, other: (string, string) -> bool)
    requires RootedLiteral(pattern) && ProperPath(f)
    ensures Matches(pattern, f, other) <==> !Doubled(pattern) && AtOrUnder(f, Strip(Directory(pattern)), DirectoryOnly(pattern))
  {
    var q := Directory(pattern);
    if q[0] != '/' {
      BodyOfRooted(q);
    }
    if Doubled(pattern) {
      DoubledBody(q);
      ProperNotUnder(f, Body(q), EndsWith(q, "/"));
    } else {
      BodyIsStripped(q);
    }
  }

  lemma ProperPrefix(f: string, target: string)
    requires ProperPath(f) && Under(f, target) && target != ""
    ensures ProperPath(target)
  {
    assert f[..|target| + 1] == target + "/";
    assert forall i | 0 <= i < |target| :: f[i] == target[i];
    assert f[|target|] == '/' && f[|target| - 1] != '/';
  }

  lemma EffectiveIfMatched(pattern: string, f: string, other: (string, string) -> bool)
    requires RootedLiteral(pattern) && ProperPath(f) && Matches(pattern, f, other)
    ensures Effective(pattern)
  {
    RootedMatches(pattern, f, other);
    if Under(f, Strip(Directory(pattern))) {
      ProperPrefix(f, Strip(Directory(pattern)));
    }
  }

  lemma UnderIsTransitive(f: string, b: string, a: string)
    requires Under(f, b) && (Under(b, a) || a == b)
    ensures Under(f, a)
  {
    if a != b {
      assert f[..|b| + 1] == b + "/";
      assert b[..|a| + 1] == a + "/";
      assert f[..|a| + 1] == a + "/";
    }
  }

  /** A rule that beats another one matches every file that the other one matches. */
  lemma BeatingMatches(later: string, earlier: string, f: string, other: (string, string) -> bool)
    requires RootedLiteral(later) && RootedLiteral(earlier) && ProperPath(f)
    requires Beats(later, earlier) && Matches(earlier, f, other)
    ensures Matches(later, f, other)
  {
    RootedMatches(earlier, f, other);
    RootedMatches(later, f, other);
    var a, b := Strip(Directory(later)), Strip(Directory(earlier));
    if Under(f, b) {
      UnderIsTransitive(f, b, a);
    }
  }

  /** A path below `b` that none of the patterns names. */
  function Below(b: string, n: nat): string {
    b + "/" + seq(n + 1, _ => 'x')
  }

  lemma BelowIsProper(b: string, n: nat)
    requires ProperPath(b)
    ensures ProperPath(Below(b, n)) && Under(Below(b, n), b) && |Below(b, n)| > n
  {
    var f := Below(b, n);
    assert f[..|b| + 1] == b + "/";
    forall i | 0 <= i < |f| - 1 ensures !(f[i] == '/' && f[i + 1] == '/') {
      if i + 1 < |b| {
        assert f[i] == b[i] && f[i + 1] == b[i + 1];
      } else if i + 1 == |b| {
        assert f[i] == b[i];
      } else {
        assert f[i + 1] == 'x';
      }
    }
  }

  lemma UnderBelow(b: string, n: nat, a: string)
    requires ProperPath(b) && Under(Below(b, n), a)
    ensures a == b || Under(b, a)
  {
    var w := Below(b, n);
    BelowIsProper(b, n);
    assert w[..|a| + 1] == a + "/" && w[|a|] == '/';
    assert |a| <= |b| by {
      assert forall i | |b| < i < |w| :: w[i] == 'x';
    }
    DirectoriesNest(w, a, b);
  }

  /**
   * For a rooted literal pattern and a proper module the verdict is exact: "covers" when every file of the module
   * matches, "disjoint" when none does, and "uncertain" when the pattern's path lies inside the module.
   */
  lemma RootedIsExact(zone: string, pattern: string, other: (string, string) -> bool)
    requires RootedLiteral(pattern) && Effective(pattern) && ProperPath(Strip(zone))
    ensures RuleRelation(zone, pattern).Covers? <==>
              forall f | ProperPath(f) && InModule(f, Strip(zone)) :: Matches(pattern, f, other)
    ensures RuleRelation(zone, pattern).Disjoint? <==>
              forall f | ProperPath(f) && InModule(f, Strip(zone)) :: !Matches(pattern, f, other)
    ensures RuleRelation(zone, pattern).Uncertain? <==> Under(Strip(Directory(pattern)), Strip(zone))
  {
    var m, a := Strip(zone), Strip(Directory(pattern));
    BelowIsProper(m, 0);
    match RuleRelation(zone, pattern)
    case Covers =>
      forall f | ProperPath(f) && InModule(f, m) ensures Matches(pattern, f, other) {
        CoversIsJustified(zone, pattern, f, other);
      }
      assert InModule(Below(m, 0), m) && (Under(a, m) ==> |m| < |a|);
    case Disjoint =>
      forall f | ProperPath(f) && InModule(f, m) ensures !Matches(pattern, f, other) {
        DisjointIsJustified(zone, pattern, f, other);
      }
      assert InModule(Below(m, 0), m);
    case Uncertain =>
      var f := InsideMatches(m, pattern, other);
      var g := BesideDoesNot(m, pattern, other);
  }

  /** A file of the module that a pattern inside the module matches. */
  lemma InsideMatches(m: string, pattern: string, other: (string, string) -> bool) returns (f: string)
    requires RootedLiteral(pattern) && Effective(pattern) && ProperPath(m) && Under(Strip(Directory(pattern)), m)
    ensures ProperPath(f) && InModule(f, m) && Matches(pattern, f, other)
  {
    var a := Strip(Directory(pattern));
    f := Below(a, 0);
    BelowIsProper(a, 0);
    UnderIsTransitive(f, a, m);
    RootedMatches(pattern, f, other);
  }

  lemma InsideIsLonger(a: string, m: string)
    requires Under(a, m)
    ensures |m| < |a| && !Under(m, a)
  {
    assert a[..|m| + 1] == m + "/";
  }

  /** A file of the module that it does not match. */
  lemma BesideDoesNot(m: string, pattern: string, other: (string, string) -> bool) returns (f: string)
    requires RootedLiteral(pattern) && Effective(pattern) && ProperPath(m) && Under(Strip(Directory(pattern)), m)
    ensures ProperPath(f) && InModule(f, m) && !Matches(pattern, f, other)
  {
    var a := Strip(Directory(pattern));
    f := Below(m, |a|);
    BelowIsProper(m, |a|);
    InsideIsLonger(a, m);
    RootedMatches(pattern, f, other);
    if Under(f, a) {
      UnderBelow(m, |a|, a);
    }
  }

  /** A directory followed by two stars is understood as the directory. */
  lemma StarsAreDirectories(zone: string, d: string)
    requires d != ""
    ensures RuleRelation(zone, d + "/**") == RuleRelation(zone, d + "/")
  {
    var p, q := d + "/**", d + "/";
    assert p[|p| - 3..] == "/**" && p[..|p| - 2] == q;
    assert q[|q| - 1] == '/' && p[|p| - 3] == '/';
    assert |q| >= 3 ==> q[|q| - 3..][2] == '/';
    assert q !in {"*", "**", "/**", "/**/*"};
    assert p !in {"*", "**", "/**", "/**/*"};
  }

  /** A pattern that is not rooted is never found disjoint: it may match at any depth. */
  lemma UnrootedIsNeverDisjoint(zone: string, pattern: string)
    requires !RootedLiteral(pattern)
    ensures !RuleRelation(zone, pattern).Disjoint?
  {
  }

  function Longest(rules: seq<Rule>): (n: nat)
    ensures forall i | 0 <= i < |rules| :: |Strip(Directory(rules[i].pattern))| <= n
  {
    if rules == [] then 0
    else
      var a, b := Longest(rules[..|rules| - 1]), |Strip(Directory(rules[|rules| - 1].pattern))|;
      assert forall i | 0 <= i < |rules| - 1 :: rules[i] == rules[..|rules| - 1][i];
      if a >= b then a else b
  }

  /** A file that the pattern matches and that a later rule takes from it only by beating it. */
  function Witness(pattern: string, n: nat): string {
    var b := Strip(Directory(pattern));
    if DirectoryOnly(pattern) then Below(b, n) else b
  }

  lemma WitnessIsTaken(pattern: string, n: nat, later: string, other: (string, string) -> bool)
    requires RootedLiteral(pattern) && Effective(pattern) && RootedLiteral(later) && |Strip(Directory(later))| <= n
    ensures var w := Witness(pattern, n);
            ProperPath(w) && Matches(pattern, w, other) && (Matches(later, w, other) ==> Beats(later, pattern))
  {
    var w, a, b := Witness(pattern, n), Strip(Directory(later)), Strip(Directory(pattern));
    BelowIsProper(b, n);
    RootedMatches(pattern, w, other);
    RootedMatches(later, w, other);
    if Matches(later, w, other) {
      EffectiveIfMatched(later, w, other);
      if DirectoryOnly(pattern) {
        UnderBelow(b, n, a);
      }
    }
  }

  /** The last rule from `k` on that matches decides. */
  lemma {:induction false} LastMatchOwns(rules: seq<Rule>, j: nat, f: string, other: (string, string) -> bool)
    requires j < |rules| && Matches(rules[j].pattern, f, other)
    requires forall l | j < l < |rules| :: !Matches(rules[l].pattern, f, other)
    ensures OwnersOf(rules, f, other) == Some(rules[j].owners)
    decreases |rules|
  {
    if j < |rules| - 1 {
      LastMatchOwns(rules[..|rules| - 1], j, f, other);
    }
  }

  lemma {:induction false} LastHit(hits: seq<bool>, k: nat) returns (j: nat)
    requires k < |hits| && hits[k]
    ensures k <= j < |hits| && hits[j] && forall l | j < l < |hits| :: !hits[l]
  {
    if hits[|hits| - 1] {
      j := |hits| - 1;
    } else {
      j := LastHit(hits[..|hits| - 1], k);
    }
  }

  lemma LastMatch(rules: seq<Rule>, k: nat, f: string, other: (string, string) -> bool) returns (j: nat)
    requires k < |rules| && Matches(rules[k].pattern, f, other)
    ensures k <= j < |rules| && Matches(rules[j].pattern, f, other)
    ensures forall l | j < l < |rules| :: !Matches(rules[l].pattern, f, other)
  {
    var hits := seq(|rules|, i requires 0 <= i < |rules| => Matches(rules[i].pattern, f, other));
    j := LastHit(hits, k);
    forall l | j < l < |rules| ensures !Matches(rules[l].pattern, f, other) {
      assert !hits[l];
    }
  }

  lemma {:induction false} AfterDeciding(zone: string, rules: seq<Rule>, j: nat)
    requires Strip(zone) == "" && Deciding(zone, rules).Some? && Deciding(zone, rules).value <= j < |rules|
    ensures j == Deciding(zone, rules).value ==> Everything(rules[j].pattern)
    ensures j > Deciding(zone, rules).value ==> RootedLiteral(rules[j].pattern)
    decreases |rules|
  {
    EmptyModuleRelation(zone, rules[|rules| - 1].pattern);
    if j < |rules| - 1 && RuleRelation(zone, rules[|rules| - 1].pattern).Disjoint? {
      AfterDeciding(zone, rules[..|rules| - 1], j);
    }
  }

  lemma EmptyModuleIsRight(zone: string, rules: seq<Rule>, f: string, other: (string, string) -> bool)
    requires Strip(zone) == "" && Deciding(zone, rules).Some? && NothingInTheWay(rules, Deciding(zone, rules).value) && ProperPath(f)
    ensures OwnersOf(rules, f, other) == Declared(zone, rules)
  {
    var k := Deciding(zone, rules).value;
    AfterDeciding(zone, rules, k);
    var j := LastMatch(rules, k, f, other);
    LastMatchOwns(rules, j, f, other);
    if j > k && rules[j].owners != rules[k].owners {
      AfterDeciding(zone, rules, j);
      EffectiveIfMatched(rules[j].pattern, f, other);
      var l :| j < l < |rules| && Beats(rules[l].pattern, rules[j].pattern);
      AfterDeciding(zone, rules, l);
      BeatingMatches(rules[l].pattern, rules[j].pattern, f, other);
    }
  }

  lemma EmptyModuleIsWrong(zone: string, rules: seq<Rule>, j: nat, other: (string, string) -> bool)
    requires Strip(zone) == "" && Deciding(zone, rules).Some? && Deciding(zone, rules).value < j < |rules|
    requires Effective(rules[j].pattern) && rules[j].owners != rules[Deciding(zone, rules).value].owners
    requires forall l | j < l < |rules| :: !Beats(rules[l].pattern, rules[j].pattern)
    ensures var w := Witness(rules[j].pattern, Longest(rules));
            ProperPath(w) && OwnersOf(rules, w, other) == Some(rules[j].owners) && OwnersOf(rules, w, other) != Declared(zone, rules)
  {
    var w := Witness(rules[j].pattern, Longest(rules));
    AfterDeciding(zone, rules, j);
    WitnessIsTaken(rules[j].pattern, Longest(rules), rules[j].pattern, other);
    forall l | j < l < |rules| ensures !Matches(rules[l].pattern, w, other) {
      AfterDeciding(zone, rules, l);
      WitnessIsTaken(rules[j].pattern, Longest(rules), rules[l].pattern, other);
    }
    LastMatchOwns(rules, j, w, other);
  }

  ghost predicate RightForAll(rules: seq<Rule>, declared: Option<string>, other: (string, string) -> bool) {
    forall f :: ProperPath(f) ==> OwnersOf(rules, f, other) == declared
  }

  /**
   * The empty module is the whole repository, and "disjoint" is then wrong. Owners declared for it are right for
   * every file exactly when nothing that follows the deciding rule is in the way.
   */
  lemma EmptyModuleIff(zone: string, rules: seq<Rule>, other: (string, string) -> bool)
    requires Strip(zone) == "" && Deciding(zone, rules).Some?
    ensures RightForAll(rules, Declared(zone, rules), other) <==> NothingInTheWay(rules, Deciding(zone, rules).value)
  {
    var k := Deciding(zone, rules).value;
    if NothingInTheWay(rules, k) {
      forall f | ProperPath(f) ensures OwnersOf(rules, f, other) == Declared(zone, rules) {
        EmptyModuleIsRight(zone, rules, f, other);
      }
    } else {
      var j :| k < j < |rules| && Effective(rules[j].pattern) && rules[j].owners != rules[k].owners
               && !exists l :: j < l < |rules| && Beats(rules[l].pattern, rules[j].pattern);
      EmptyModuleIsWrong(zone, rules, j, other);
    }
  }

  lemma DocsPattern()
    ensures Strip("/docs/") == "docs" && Directory("/docs/") == "/docs/" && !Complex("/docs/") && DirectoryOnly("/docs/")
  {
    var q := "/docs/";
    assert StripLeft(q) == "docs/" by {
      assert q[1..] == "docs/";
    }
    assert StripRight("docs/") == "docs" by {
      assert "docs/"[..4] == "docs";
    }
    assert q[5..] == "/";
  }

  lemma RootModule()
    ensures Strip("/") == ""
  {
    assert "/"[1..] == "";
  }

  /** A module path of slashes only, which the caller lets through, with one rule for everything and one for a directory. */
  lemma EmptyModuleIsUnsound(other: (string, string) -> bool)
    ensures var rules := [Rule("*", "@a"), Rule("/docs/", "@b")];
            && Declared("/", rules) == Some("@a") && ProperPath("docs/x") && InModule("docs/x", Strip("/"))
            && OwnersOf(rules, "docs/x", other) == Some("@b")
  {
    var rules := [Rule("*", "@a"), Rule("/docs/", "@b")];
    assert rules[..1] == [Rule("*", "@a")];
    DocsPattern();
    RootModule();
    assert RuleRelation("/", "/docs/") == Disjoint && RuleRelation("/", "*") == Covers;
    assert "docs" + "/" == "docs/" && "docs/x"[..5] == "docs/";
    RootedMatches("/docs/", "docs/x", other);
    LastMatchOwns(rules, 1, "docs/x", other);
  }

  // ----- the rules of the file -----

  function Without(rules: seq<Rule>, pattern: string): seq<Rule> {
    if rules == [] then []
    else
      var rest := Without(rules[..|rules| - 1], pattern);
      if rules[|rules| - 1].pattern == pattern then rest else rest + [rules[|rules| - 1]]
  }

  /** The dictionary that `current_codeowners` builds: a pattern declared again moves to the end. */
  function LastDeclared(rules: seq<Rule>): seq<Rule> {
    if rules == [] then []
    else Without(LastDeclared(rules[..|rules| - 1]), rules[|rules| - 1].pattern) + [rules[|rules| - 1]]
  }

  lemma {:induction false} WithoutUnmatched(rules: seq<Rule>, pattern: string, f: string, other: (string, string) -> bool)
    requires !Matches(pattern, f, other)
    ensures OwnersOf(Without(rules, pattern), f, other) == OwnersOf(rules, f, other)
  {
    if rules != [] {
      var rest, last := Without(rules[..|rules| - 1], pattern), rules[|rules| - 1];
      WithoutUnmatched(rules[..|rules| - 1], pattern, f, other);
      if last.pattern != pattern {
        assert (rest + [last])[..|rest|] == rest;
      }
    }
  }

  /** Keeping only the last declaration of each pattern changes nobody's owners. */
  lemma {:induction false} DictionaryKeepsOwners(rules: seq<Rule>, f: string, other: (string, string) -> bool)
    ensures OwnersOf(LastDeclared(rules), f, other) == OwnersOf(rules, f, other)
  {
    if rules != [] {
      var front, last := rules[..|rules| - 1], rules[|rules| - 1];
      var kept := Without(LastDeclared(front), last.pattern);
      assert (kept + [last])[..|kept|] == kept;
      DictionaryKeepsOwners(front, f, other);
      if !Matches(last.pattern, f, other) {
        WithoutUnmatched(LastDeclared(front), last.pattern, f, other);
      }
    }
  }

  /** This declaration of a pattern is the last one. */
  ghost predicate IsLast(rules: seq<Rule>, r: Rule) {
    exists k | 0 <= k < |rules| :: rules[k] == r && forall l | k < l < |rules| :: rules[l].pattern != r.pattern
  }

  lemma {:induction false} WithoutMembers(rules: seq<Rule>, pattern: string, r: Rule)
    ensures r in Without(rules, pattern) <==> r in rules && r.pattern != pattern
  {
    if rules != [] {
      WithoutMembers(rules[..|rules| - 1], pattern, r);
      assert rules == rules[..|rules| - 1] + [rules[|rules| - 1]];
    }
  }

  lemma LastOfMore(front: seq<Rule>, last: Rule, r: Rule)
    ensures IsLast(front + [last], r) <==> r == last || (IsLast(front, r) && r.pattern != last.pattern)
  {
    var rules := front + [last];
    if r == last {
      assert rules[|front|] == r;
    }
    if IsLast(front, r) && r.pattern != last.pattern {
      var k :| 0 <= k < |front| && front[k] == r && forall l | k < l < |front| :: front[l].pattern != r.pattern;
      assert rules[k] == r && forall l | k < l < |rules| :: rules[l] == if l < |front| then front[l] else last;
    }
    if IsLast(rules, r) && r != last {
      var k :| 0 <= k < |rules| && rules[k] == r && forall l | k < l < |rules| :: rules[l].pattern != r.pattern;
      assert front[k] == r && rules[|front|] == last && forall l | k < l < |front| :: rules[l] == front[l];
    }
  }

  /** The dictionary holds exactly the last declaration of every pattern. */
  lemma {:induction false} DictionaryMembers(rules: seq<Rule>, r: Rule)
    ensures r in LastDeclared(rules) <==> IsLast(rules, r)
  {
    if rules != [] {
      var front, last := rules[..|rules| - 1], rules[|rules| - 1];
      assert rules == front + [last];
      DictionaryMembers(front, r);
      WithoutMembers(LastDeclared(front), last.pattern, r);
      LastOfMore(front, last, r);
    }
  }

  // ----- the code -----

  function Labels(owners: string): seq<string> {
    if owners == "" then []
    else
      var n := WordEnd(owners);
      if n == 0 then Labels(owners[1..]) else [owners[..n]] + Labels(owners[n..])
  }

  function WordEnd(s: string): (n: nat)
    ensures n <= |s|
  {
    if s == "" || s[0] in Texts.PYTHON_WHITESPACE then 0 else 1 + WordEnd(s[1..])
  }

  ghost predicate Word(s: string) {
    s != "" && forall c | c in s :: c !in Texts.PYTHON_WHITESPACE
  }

  lemma {:induction false} WordEndStops(s: string)
    ensures forall i | 0 <= i < WordEnd(s) :: s[i] !in Texts.PYTHON_WHITESPACE
    ensures WordEnd(s) < |s| ==> s[WordEnd(s)] in Texts.PYTHON_WHITESPACE
  {
    if s != "" && s[0] !in Texts.PYTHON_WHITESPACE {
      WordEndStops(s[1..]);
      assert forall i | 0 < i < |s| :: s[i] == s[1..][i - 1];
    }
  }

  /** Words with one blank between any two. */
  function Spaced(words: seq<string>): string {
    if words == [] then "" else if |words| == 1 then words[0] else words[0] + " " + Spaced(words[1..])
  }

  /** Labels are the words of the text. */
  lemma {:induction false} LabelsAreWords(owners: string)
    ensures forall l | l in Labels(owners) :: Word(l)
    decreases |owners|
  {
    if owners != "" {
      var n := WordEnd(owners);
      WordEndStops(owners);
      if n == 0 {
        LabelsAreWords(owners[1..]);
      } else {
        LabelsAreWords(owners[n..]);
        assert Word(owners[..n]);
      }
    }
  }

  lemma {:induction false} WordEndsAt(word: string, rest: string)
    requires (forall c | c in word :: c !in Texts.PYTHON_WHITESPACE) && (rest == "" || rest[0] == ' ')
    ensures WordEnd(word + rest) == |word|
  {
    if word == "" {
      assert word + rest == rest;
    } else {
      assert (word + rest)[0] == word[0] && (word + rest)[1..] == word[1..] + rest;
      WordEndsAt(word[1..], rest);
    }
  }

  lemma WordIsLabel(word: string, rest: string)
    requires Word(word) && (rest == "" || rest[0] == ' ')
    ensures Labels(word + rest) == [word] + Labels(rest)
  {
    WordEndsAt(word, rest);
    assert (word + rest)[..|word|] == word && (word + rest)[|word|..] == rest;
  }

  lemma SpaceIsSkipped(s: string)
    ensures Labels(" " + s) == Labels(s)
  {
    var t := " " + s;
    assert t[0] == ' ' && t[1..] == s && WordEnd(t) == 0;
  }

  /** Words written with blanks between them come back as labels. */
  lemma {:induction false} LabelsComeBack(words: seq<string>)
    requires forall k | 0 <= k < |words| :: Word(words[k])
    ensures Labels(Spaced(words)) == words
  {
    if |words| == 1 {
      WordIsLabel(words[0], "");
      assert words[0] + "" == words[0];
    } else if |words| > 1 {
      var rest := Spaced(words[1..]);
      LabelsComeBack(words[1..]);
      WordIsLabel(words[0], " " + rest);
      SpaceIsSkipped(rest);
      Texts.Reassociate(words[0], " ", rest);
    }
  }

  /** The accepted labels, each where it appears first. */
  function AcceptedOnce(labels: seq<string>, accepted: string -> bool): seq<string> {
    if labels == [] then []
    else
      var before, last := AcceptedOnce(labels[..|labels| - 1], accepted), labels[|labels| - 1];
      if accepted(last) && last !in before then before + [last] else before
  }

  lemma {:induction false} AcceptedOnceMembers(labels: seq<string>, accepted: string -> bool)
    ensures forall c :: c in AcceptedOnce(labels, accepted) <==> c in labels && accepted(c)
    ensures forall i, j | 0 <= i < j < |AcceptedOnce(labels, accepted)| ::
              AcceptedOnce(labels, accepted)[i] != AcceptedOnce(labels, accepted)[j]
  {
    if labels != [] {
      var front, last := labels[..|labels| - 1], labels[|labels| - 1];
      AcceptedOnceMembers(front, accepted);
      assert labels == front + [last];
    }
  }

  /**
   * `declared_contacts`; `accepted` tells which labels are handles. Every contact is a label of owners that are
   * declared, each of them once, in order of first appearance; `note` is shown when there are none.
   */
  method DeclaredContacts(zone: string, rules: Option<seq<Rule>>, accepted: string -> bool)
    returns (contacts: seq<string>, note: string, ghost declared: Option<string>)
    ensures declared == if rules.Some? then Declared(zone, rules.value) else None
    ensures contacts == if declared.Some? then AcceptedOnce(Labels(declared.value), accepted) else []
    ensures forall c :: c in contacts <==> declared.Some? && c in Labels(declared.value) && accepted(c)
    ensures note == if rules.None? then "Contact unavailable" else if contacts == [] then "Not declared" else ""
  {
    if rules.None? {
      return [], "Contact unavailable", None;
    }
    var owners: Option<string> := None;
    for k := 0 to |rules.value|
      invariant owners == Declared(zone, rules.value[..k])
    {
      assert rules.value[..k + 1][..k] == rules.value[..k];
      match RuleRelation(zone, rules.value[k].pattern)
      case Covers => owners := Some(rules.value[k].owners);
      case Uncertain => owners := None;
      case Disjoint =>
    }
    assert rules.value[..|rules.value|] == rules.value;
    declared, contacts := owners, [];
    var labels := Labels(if owners.Some? then owners.value else "");
    for k := 0 to |labels|
      invariant contacts == AcceptedOnce(labels[..k], accepted)
    {
      assert labels[..k + 1][..k] == labels[..k];
      if !accepted(labels[k]) {
        continue;
      }
      if labels[k] !in contacts {
        contacts := contacts + [labels[k]];
      }
    }
    assert labels[..|labels|] == labels;
    AcceptedOnceMembers(labels, accepted);
    note := if contacts == [] then "Not declared" else "";
  }
}
