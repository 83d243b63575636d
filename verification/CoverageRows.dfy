/**
 * The rows of the coverage dashboard (coverage.py): which seeds are accepted, how live counts and a seed make the
 * rows, their order by risk, their rates, and the actions that are proposed.
 */
module CoverageRows {
  import opened Basics
  import Texts
  import opened ZoneTable

  datatype Row = Row(counts: Counts, answerers: nat)

  datatype Out = Out(zone: string, row: Row)

  datatype SeedZone<Z> = SeedZone(zone: Z, row: Row)

  datatype Summary = Summary(merged: nat, gated: nat, attested: nat, forced: nat, waiting: nat)

  datatype Seed = Seed(zones: seq<SeedZone<string>>, totals: Summary)

  /** The numbers of a seed file before they are checked. */
  datatype RawZone = RawZone(zone: string, merged: int, gated: int, attested: int, forced: int, answerers: int)

  datatype RawTotals = RawTotals(merged: int, gated: int, attested: int, forced: int, waiting: int)

  const MIN_SAMPLE: nat := 5
  const MAX_SEED_ZONES: nat := 200
  const MAX_ACTIONS: nat := 5
  const NO_ROW := Row(ZERO, 0)

  // ----- accepted seeds -----

  predicate AcceptableZone(z: RawZone) {
    && !Texts.Blank(z.zone) && 0 <= z.attested && 0 <= z.forced && 0 <= z.answerers
    && z.attested + z.forced <= z.gated <= z.merged
  }

  predicate AcceptableTotals(t: RawTotals) {
    0 <= t.attested && 0 <= t.forced && 0 <= t.waiting && t.attested + t.forced <= t.gated <= t.merged
  }

  ghost predicate AcceptableSeed(zones: seq<RawZone>, totals: RawTotals) {
    && |zones| <= MAX_SEED_ZONES && AcceptableTotals(totals)
    && (forall i | 0 <= i < |zones| :: AcceptableZone(zones[i]))
    && (forall i, j | 0 <= i < j < |zones| :: zones[i].zone != zones[j].zone)
  }

  ghost predicate FairSeed(s: Seed) {
    && (forall i | 0 <= i < |s.zones| :: Consistent(s.zones[i].row.counts))
    && s.totals.attested + s.totals.forced <= s.totals.gated <= s.totals.merged
  }

  function RowOf(z: RawZone): Row
    requires AcceptableZone(z)
  {
    Row(Counts(z.merged, z.gated, z.attested, z.forced), z.answerers)
  }

  /** `load_seed` accepts exactly the seeds whose numbers fit, and changes none of them. */
  method LoadSeed(zones: seq<RawZone>, totals: RawTotals) returns (r: Result<Seed, string>)
    ensures r.Ok? <==> AcceptableSeed(zones, totals)
    ensures r.Ok? <==>
              && |zones| <= 200 && (forall i, j | 0 <= i < j < |zones| :: zones[i].zone != zones[j].zone)
              && (forall i | 0 <= i < |zones| :: var z := zones[i];
                   && !Texts.Blank(z.zone) && z.attested >= 0 && z.forced >= 0 && z.answerers >= 0
                   && z.merged >= z.gated >= z.attested + z.forced)
              && totals.attested >= 0 && totals.forced >= 0 && totals.waiting >= 0
              && totals.merged >= totals.gated >= totals.attested + totals.forced
    ensures r.Ok? ==> r.value.totals == Summary(totals.merged, totals.gated, totals.attested, totals.forced, totals.waiting)
    ensures r.Ok? ==> FairSeed(r.value) && |r.value.zones| == |zones|
    ensures r.Ok? ==> forall i | 0 <= i < |zones| :: r.value.zones[i] == SeedZone(zones[i].zone, RowOf(zones[i]))
  {
    if |zones| > MAX_SEED_ZONES {
      return Err("seed zones must be a list");
    }
    var seen: set<string> := {};
    var out: seq<SeedZone<string>> := [];
    for i := 0 to |zones|
      invariant |out| == i && (forall k | 0 <= k < i :: AcceptableZone(zones[k]) && zones[k].zone in seen)
      invariant forall k | 0 <= k < i :: out[k] == SeedZone(zones[k].zone, RowOf(zones[k]))
      invariant forall z | z in seen :: exists k :: 0 <= k < i && zones[k].zone == z
      invariant forall k, l | 0 <= k < l < i :: zones[k].zone != zones[l].zone
    {
      var z := zones[i];
      if Texts.Blank(z.zone) || z.zone in seen {
        return Err("zone must be a unique non-empty string");
      }
      seen := seen + {z.zone};
      if z.merged < 0 || z.gated < 0 || z.attested < 0 || z.forced < 0 || z.answerers < 0 {
        return Err("must be an integer >= 0");
      }
      if z.attested + z.forced > z.gated {
        return Err("attested + forced must not exceed gated");
      }
      if z.gated > z.merged {
        return Err("gated must not exceed merged");
      }
      out := out + [SeedZone(z.zone, RowOf(z))];
    }
    if !AcceptableTotals(totals) {
      return Err("seed totals are inconsistent");
    }
    return Ok(Seed(out, Summary(totals.merged, totals.gated, totals.attested, totals.forced, totals.waiting)));
  }

  // ----- the rows -----

  function Plus(a: Row, b: Row): Row {
    Row(Sum(a.counts, b.counts), a.answerers + b.answerers)
  }

  function RowAt<Z>(rows: map<Z, Row>, z: Z): Row {
    if z in rows then rows[z] else NO_ROW
  }

  /** What the seed adds to a zone. */
  function SeedAt<Z(==)>(zones: seq<SeedZone<Z>>, z: Z): Row {
    if zones == [] then NO_ROW
    else
      var rest, last := SeedAt(zones[..|zones| - 1], z), zones[|zones| - 1];
      if last.zone == z then Plus(rest, last.row) else rest
  }

  function SeedNames<Z(==)>(zones: seq<SeedZone<Z>>): set<Z> {
    if zones == [] then {} else SeedNames(zones[..|zones| - 1]) + {zones[|zones| - 1].zone}
  }

  function SeedZones(seed: Option<Seed>): seq<SeedZone<string>> {
    if seed.Some? then seed.value.zones else []
  }

  /** The row that a zone should end up with. */
  function FinalRow(live: map<string, Row>, seed: Option<Seed>, z: string): Row {
    Plus(RowAt(live, z), SeedAt(SeedZones(seed), z))
  }

  function Names(zones: seq<string>): set<string> {
    set z | z in zones
  }

  function FinalZones(live: map<string, Row>, all: seq<string>, seed: Option<Seed>): set<string> {
    Names(all) + live.Keys + SeedNames(SeedZones(seed))
  }

  lemma {:induction false} SeedIsConsistent<Z>(zones: seq<SeedZone<Z>>, z: Z)
    requires forall i | 0 <= i < |zones| :: Consistent(zones[i].row.counts)
    ensures Consistent(SeedAt(zones, z).counts)
  {
    if zones != [] {
      SeedIsConsistent(zones[..|zones| - 1], z);
    }
  }

  /** Consistent live counts and an accepted seed make consistent rows. */
  lemma FinalRowIsConsistent(live: map<string, Row>, seed: Option<Seed>, z: string)
    requires z in live ==> Consistent(live[z].counts)
    requires seed.Some? ==> FairSeed(seed.value)
    ensures Consistent(FinalRow(live, seed, z).counts)
  {
    SeedIsConsistent(SeedZones(seed), z);
  }

  ghost predicate ZonesDiffer<Z(!new)>(zones: seq<SeedZone<Z>>) {
    forall i, j | 0 <= i < j < |zones| :: zones[i].zone != zones[j].zone
  }

  /** A seed whose zones differ holds for each of them just what its entry says, and nothing for others. */
  lemma {:induction false} SeedOfDistinct<Z(!new)>(zones: seq<SeedZone<Z>>, k: nat)
    requires ZonesDiffer(zones) && k < |zones|
    ensures SeedAt(zones, zones[k].zone) == zones[k].row
    decreases |zones|
  {
    var front, last := zones[..|zones| - 1], zones[|zones| - 1];
    if k == |zones| - 1 {
      NotInFront(zones);
      NotSeeded(front, last.zone);
    } else {
      SeedOfDistinct(front, k);
    }
  }

  lemma NotInFront<Z(!new)>(zones: seq<SeedZone<Z>>)
    requires ZonesDiffer(zones) && zones != []
    ensures zones[|zones| - 1].zone !in SeedNames(zones[..|zones| - 1])
  {
    SeedNamesMembers(zones[..|zones| - 1], zones[|zones| - 1].zone);
  }

  lemma {:induction false} SeedNamesMembers<Z(!new)>(zones: seq<SeedZone<Z>>, z: Z)
    ensures z in SeedNames(zones) <==> exists i | 0 <= i < |zones| :: zones[i].zone == z
  {
    if zones != [] {
      var front, last := zones[..|zones| - 1], zones[|zones| - 1];
      SeedNamesMembers(front, z);
      assert forall i | 0 <= i < |front| :: front[i] == zones[i];
      if z == last.zone {
        assert zones[|zones| - 1].zone == z;
      }
    }
  }

  lemma PlusMeans(a: Row, b: Row)
    ensures Plus(a, b) == Row(Counts(a.counts.merged + b.counts.merged, a.counts.gated + b.counts.gated,
                                     a.counts.attested + b.counts.attested, a.counts.forced + b.counts.forced),
                              a.answerers + b.answerers)
  {
  }

  /** A zone ends up with its live counts and those of its entry in the seed, added one by one. */
  lemma FinalRowAdds(live: map<string, Row>, seed: Seed, k: nat)
    requires k < |seed.zones| && ZonesDiffer(seed.zones)
    ensures var z := seed.zones[k].zone; var more := seed.zones[k].row;
            var was := if z in live then live[z] else Row(Counts(0, 0, 0, 0), 0);
            FinalRow(live, Some(seed), z)
            == Row(Counts(was.counts.merged + more.counts.merged, was.counts.gated + more.counts.gated,
                          was.counts.attested + more.counts.attested, was.counts.forced + more.counts.forced),
                   was.answerers + more.answerers)
  {
    SeedOfDistinct(seed.zones, k);
    PlusMeans(RowAt(live, seed.zones[k].zone), seed.zones[k].row);
  }

  /** A zone without an entry keeps its live counts. */
  lemma FinalRowKeeps(live: map<string, Row>, seed: Option<Seed>, z: string)
    requires z in live && (seed.Some? ==> z !in SeedNames(seed.value.zones))
    ensures FinalRow(live, seed, z) == live[z]
  {
    NotSeeded(SeedZones(seed), z);
  }

  lemma {:induction false} NotSeeded<Z>(zones: seq<SeedZone<Z>>, z: Z)
    requires z !in SeedNames(zones)
    ensures SeedAt(zones, z) == NO_ROW
  {
    if zones != [] {
      NotSeeded(zones[..|zones| - 1], z);
    }
  }

  // ----- the order by risk -----

  predicate TextLe(a: string, b: string) {
    a == "" || (b != "" && (a[0] < b[0] || (a[0] == b[0] && TextLe(a[1..], b[1..]))))
  }

  lemma {:induction false} TextLeIsTotal(a: string, b: string)
    ensures TextLe(a, b) || TextLe(b, a)
    ensures TextLe(a, b) && TextLe(b, a) ==> a == b
    decreases |a|
  {
    if a != "" && b != "" && a[0] == b[0] {
      TextLeIsTotal(a[1..], b[1..]);
      assert a == [a[0]] + a[1..] && b == [b[0]] + b[1..];
    }
  }

  lemma {:induction false} TextLeIsTransitive(a: string, b: string, c: string)
    requires TextLe(a, b) && TextLe(b, c)
    ensures TextLe(a, c)
    decreases |a|
  {
    if a != "" && b != "" && c != "" && a[0] == b[0] == c[0] {
      TextLeIsTransitive(a[1..], b[1..], c[1..]);
    }
  }

  function Tier(r: Row): nat {
    if r.counts.gated > 0 then r.answerers else if r.counts.merged > 0 then 50 else 99
  }

  /** The order of the keys `(tier, -forced, -merged, zone)`. */
  predicate RankLe(a: Out, b: Out) {
    var s, t := Tier(a.row), Tier(b.row);
    || s < t
    || (s == t && a.row.counts.forced > b.row.counts.forced)
    || (s == t && a.row.counts.forced == b.row.counts.forced && a.row.counts.merged > b.row.counts.merged)
    || (s == t && a.row.counts.forced == b.row.counts.forced && a.row.counts.merged == b.row.counts.merged
        && TextLe(a.zone, b.zone))
  }

  lemma RankIsTotal(a: Out, b: Out)
    ensures RankLe(a, b) || RankLe(b, a)
    ensures RankLe(a, b) && RankLe(b, a) ==> a.zone == b.zone
  {
    TextLeIsTotal(a.zone, b.zone);
  }

  lemma RankIsTransitive(a: Out, b: Out, c: Out)
    requires RankLe(a, b) && RankLe(b, c)
    ensures RankLe(a, c)
  {
    if TextLe(a.zone, b.zone) && TextLe(b.zone, c.zone) {
      TextLeIsTransitive(a.zone, b.zone, c.zone);
    }
  }

  ghost predicate ByRisk(s: seq<Out>) {
    forall i, j | 0 <= i < j < |s| :: RankLe(s[i], s[j])
  }

  /**
   * What the order puts first: of two gated rows the one with fewer answerers, then with more exceptions, then with
   * more merges; gated rows with fewer than fifty answerers before the others, merged rows before untouched ones.
   */
  lemma RiskOrder(s: seq<Out>, i: nat, j: nat)
    requires ByRisk(s) && i < j < |s|
    ensures var a, b := s[i].row, s[j].row; var x, y := a.counts, b.counts;
            && (x.gated > 0 && y.gated > 0 ==>
                  && a.answerers <= b.answerers
                  && (a.answerers == b.answerers ==> x.forced > y.forced || (x.forced == y.forced && x.merged >= y.merged)))
            && (x.gated == 0 && y.gated > 0 ==> b.answerers >= 50 && (x.merged == 0 ==> b.answerers >= 99))
            && (x.gated == 0 && y.gated == 0 ==> x.merged > 0 || y.merged == 0)
            && (a == b ==> TextLe(s[i].zone, s[j].zone))
  {
  }

  /** `a` and `b` are equal up to here, and here `a` comes first. */
  predicate Precedes(a: string, b: string, k: nat) {
    k < |a| && k < |b| && a[..k] == b[..k] && a[k] < b[k]
  }

  /** The order of names is by the first place where they differ. */
  lemma {:induction false} TextLeIff(a: string, b: string)
    ensures TextLe(a, b) <==> a <= b || exists k: nat :: Precedes(a, b, k)
    decreases |a|
  {
    if a != "" && b != "" {
      assert a == [a[0]] + a[1..] && b == [b[0]] + b[1..];
      TextLeIff(a[1..], b[1..]);
      if a[0] < b[0] {
        assert Precedes(a, b, 0);
      } else if a[0] == b[0] {
        if k: nat :| Precedes(a[1..], b[1..], k) {
          assert a[..k + 1] == [a[0]] + a[1..][..k] && b[..k + 1] == [b[0]] + b[1..][..k];
          assert Precedes(a, b, k + 1);
        }
        if k: nat :| Precedes(a, b, k) {
          assert a[1..][..k - 1] == a[..k][1..] && b[1..][..k - 1] == b[..k][1..];
          assert Precedes(a[1..], b[1..], k - 1);
        }
      }
    }
  }

  /** A place that keeps the order. */
  method PlaceFor(s: seq<Out>, x: Out) returns (k: nat)
    requires ByRisk(s)
    ensures k <= |s| && (forall i | 0 <= i < k :: RankLe(s[i], x)) && (forall i | k <= i < |s| :: RankLe(x, s[i]))
  {
    k := 0;
    while k < |s| && RankLe(s[k], x)
      invariant 0 <= k <= |s| && forall i | 0 <= i < k :: RankLe(s[i], x)
    {
      k := k + 1;
    }
    if k < |s| {
      RankIsTotal(s[k], x);
      forall i | k <= i < |s| ensures RankLe(x, s[i]) {
        if i > k {
          RankIsTransitive(x, s[k], s[i]);
        }
      }
    }
  }

  function Zones(s: seq<Out>): set<string> {
    set o | o in s :: o.zone
  }

  /** Puts a row with a zone of its own where it belongs. */
  method Place(s: seq<Out>, x: Out) returns (r: seq<Out>)
    requires ByRisk(s)
    ensures ByRisk(r) && |r| == |s| + 1 && forall o :: o in r <==> o in s || o == x
    ensures Zones(r) == Zones(s) + {x.zone}
  {
    var k := PlaceFor(s, x);
    r := s[..k] + [x] + s[k..];
    PlacedMembers(s, k, x);
    PlacedByRisk(s, k, x);
    ZonesGrow(s, x, r);
  }

  lemma PlacedMembers<T>(s: seq<T>, k: nat, x: T)
    requires k <= |s|
    ensures forall o :: o in s[..k] + [x] + s[k..] <==> o in s || o == x
  {
    var r := s[..k] + [x] + s[k..];
    assert s == s[..k] + s[k..] && r[k] == x;
  }

  lemma PlacedByRisk(s: seq<Out>, k: nat, x: Out)
    requires k <= |s| && ByRisk(s) && (forall i | 0 <= i < k :: RankLe(s[i], x)) && (forall i | k <= i < |s| :: RankLe(x, s[i]))
    ensures ByRisk(s[..k] + [x] + s[k..])
  {
    var r := s[..k] + [x] + s[k..];
    forall i, j | 0 <= i < j < |r| ensures RankLe(r[i], r[j]) {
      assert r[i] == if i < k then s[i] else if i == k then x else s[i - 1];
      assert r[j] == if j < k then s[j] else if j == k then x else s[j - 1];
    }
  }

  lemma ZonesGrow(s: seq<Out>, x: Out, r: seq<Out>)
    requires forall o :: o in r <==> o in s || o == x
    ensures Zones(r) == Zones(s) + {x.zone}
  {
    assert x in r;
    forall z ensures z in Zones(r) <==> z in Zones(s) || z == x.zone {
      if z in Zones(s) {
        var o :| o in s && o.zone == z;
        assert o in r;
      }
    }
  }

  method SortRows(rows: map<string, Row>) returns (s: seq<Out>)
    ensures ByRisk(s) && |s| == |rows| && Zones(s) == rows.Keys
    ensures forall o | o in s :: o.zone in rows && o.row == rows[o.zone]
  {
    s := [];
    var left := rows.Keys;
    while left != {}
      invariant left <= rows.Keys && |s| + |left| == |rows.Keys|
      invariant ByRisk(s) && (forall o | o in s :: o.zone in rows.Keys - left && o.row == rows[o.zone])
      invariant Zones(s) == rows.Keys - left
      decreases left
    {
      var z :| z in left;
      s := Place(s, Out(z, rows[z]));
      left := left - {z};
    }
  }

  // ----- the page -----

  /** The attested share, unless the sample is too small. */
  function Share(attested: nat, gated: nat): Option<real> {
    if gated < MIN_SAMPLE then None else Some(attested as real / gated as real)
  }

  function Rate(r: Row): Option<real> {
    Share(r.counts.attested, r.counts.gated)
  }

  /** A rate that is shown is between nothing and everything. */
  predicate InUnit(rate: Option<real>) {
    rate.Some? ==> 0.0 <= rate.value <= 1.0
  }

  /** Multiplied by the whole, a share is its part. */
  lemma ShareIsShare(attested: nat, gated: nat)
    requires attested <= gated
    ensures InUnit(Share(attested, gated))
    ensures Share(attested, gated).Some? <==> gated >= 5
    ensures Share(attested, gated).Some? ==> Share(attested, gated).value * gated as real == attested as real
  {
    if gated >= MIN_SAMPLE {
      var a, g := attested as real, gated as real;
      assert 0.0 <= a <= g && g > 0.0;
      assert a / g * g == a;
      assert a / g <= 1.0 && 0.0 <= a / g;
    }
  }

  /** What would raise the numbers of a gated zone, and how many can answer for it now. */
  datatype Action = VerifyAfterTheFact(zone: string, exceptions: nat, answerers: nat) | OneMoreChange(zone: string, answerers: nat)

  predicate NeedsAction(r: Row) {
    r.counts.gated > 0 && (r.counts.forced > 0 || r.answerers <= 1)
  }

  function ActionOf(o: Out): Action {
    if o.row.counts.forced > 0 then VerifyAfterTheFact(o.zone, o.row.counts.forced, o.row.answerers)
    else OneMoreChange(o.zone, o.row.answerers)
  }

  function Needing(s: seq<Out>): seq<Action> {
    if s == [] then []
    else Needing(s[..|s| - 1]) + if NeedsAction(s[|s| - 1].row) then [ActionOf(s[|s| - 1])] else []
  }

  /** What a row asks for: a verification of its exceptions, or one more change where at most one person can answer. */
  ghost predicate Asks(o: Out, a: Action) {
    && o.row.counts.gated > 0
    && if o.row.counts.forced > 0 then a == VerifyAfterTheFact(o.zone, o.row.counts.forced, o.row.answerers)
       else o.row.answerers in {0, 1} && a == OneMoreChange(o.zone, o.row.answerers)
  }

  /** The actions are those that the rows ask for, and each row asks for one at most. */
  lemma {:induction false} NeedingMembers(s: seq<Out>, a: Action)
    ensures a in Needing(s) <==> exists k | 0 <= k < |s| :: Asks(s[k], a)
    ensures |Needing(s)| <= |s|
  {
    if s != [] {
      var front, last := s[..|s| - 1], s[|s| - 1];
      NeedingMembers(front, a);
      LastAsks(last, a);
      if a in Needing(front) {
        var k :| 0 <= k < |front| && Asks(front[k], a);
        assert Asks(s[k], a);
      }
    }
  }

  lemma LastAsks(o: Out, a: Action)
    ensures Asks(o, a) <==> NeedsAction(o.row) && a == ActionOf(o)
  {
  }

  /** `actions_for`: the first rows, in order, that need something. */
  method ActionsFor(s: seq<Out>) returns (actions: seq<Action>)
    ensures |actions| == (if |Needing(s)| < 5 then |Needing(s)| else 5) && actions == Needing(s)[..|actions|]
  {
    var out: seq<Action> := [];
    for k := 0 to |s|
      invariant out == Needing(s[..k])
    {
      assert s[..k + 1][..k] == s[..k];
      var row := s[k].row;
      if row.counts.gated == 0 {
        continue;
      }
      if row.counts.forced > 0 {
        out := out + [VerifyAfterTheFact(s[k].zone, row.counts.forced, row.answerers)];
      } else if row.answerers <= 1 {
        out := out + [OneMoreChange(s[k].zone, row.answerers)];
      }
    }
    assert s[..|s|] == s;
    return out[..if |out| <= MAX_ACTIONS then |out| else MAX_ACTIONS];
  }

  function Added(t: Summary, seed: Option<Seed>): Summary {
    if seed.None? then t
    else
      var s := seed.value.totals;
      Summary(t.merged + s.merged, t.gated + s.gated, t.attested + s.attested, t.forced + s.forced, t.waiting + s.waiting)
  }

  function WithSeed<Z(==)>(rows: map<Z, Row>, s: SeedZone<Z>): map<Z, Row> {
    rows[s.zone := Plus(RowAt(rows, s.zone), s.row)]
  }

  function Merged<Z(==)>(base: map<Z, Row>, zones: seq<SeedZone<Z>>): map<Z, Row> {
    if zones == [] then base else WithSeed(Merged(base, zones[..|zones| - 1]), zones[|zones| - 1])
  }

  lemma PlusIsAssociative(a: Row, b: Row, c: Row)
    ensures Plus(Plus(a, b), c) == Plus(a, Plus(b, c))
  {
  }

  lemma PlusNothing(a: Row)
    ensures Plus(a, NO_ROW) == a
  {
  }

  lemma WithSeedAt<Z>(rows: map<Z, Row>, s: SeedZone<Z>, z: Z, a: Row, b: Row)
    requires RowAt(rows, z) == Plus(a, b)
    ensures RowAt(WithSeed(rows, s), z) == Plus(a, if s.zone == z then Plus(b, s.row) else b)
  {
    if s.zone == z {
      PlusIsAssociative(a, b, s.row);
    }
  }

  /** Adding the seed zone by zone gives every zone its base row and all that the seed holds for it. */
  lemma {:induction false} MergedAt<Z>(base: map<Z, Row>, zones: seq<SeedZone<Z>>, z: Z)
    ensures RowAt(Merged(base, zones), z) == Plus(RowAt(base, z), SeedAt(zones, z))
  {
    if zones == [] {
      PlusNothing(RowAt(base, z));
    } else {
      var rest, last := zones[..|zones| - 1], zones[|zones| - 1];
      MergedAt(base, rest, z);
      WithSeedAt(Merged(base, rest), last, z, RowAt(base, z), SeedAt(rest, z));
    }
  }

  lemma {:induction false} MergedNames<Z>(base: map<Z, Row>, zones: seq<SeedZone<Z>>)
    ensures Merged(base, zones).Keys == base.Keys + SeedNames(zones)
  {
    if zones != [] {
      MergedNames(base, zones[..|zones| - 1]);
    }
  }

  method AddSeed<Z(==)>(base: map<Z, Row>, zones: seq<SeedZone<Z>>) returns (rows: map<Z, Row>)
    ensures rows == Merged(base, zones)
  {
    rows := base;
    for k := 0 to |zones|
      invariant rows == Merged(base, zones[..k])
    {
      assert zones[..k + 1][..k] == zones[..k];
      rows := WithSeed(rows, zones[k]);
    }
    assert zones[..|zones|] == zones;
  }

  method BaseRows(live: map<string, Row>, all: seq<string>) returns (rows: map<string, Row>)
    ensures rows.Keys == Names(all) + live.Keys && forall z | z in rows :: rows[z] == RowAt(live, z)
  {
    rows := map[];
    for k := 0 to |all|
      invariant rows.Keys == Names(all[..k]) && forall z | z in rows :: rows[z] == NO_ROW
    {
      assert all[..k + 1] == all[..k] + [all[k]];
      rows := rows[all[k] := NO_ROW];
    }
    assert all[..|all|] == all;
    rows := rows + live;
  }

  method CountUnanswered(rows: seq<Out>) returns (n: nat)
    ensures n == Unanswered(rows)
  {
    n := 0;
    for k := 0 to |rows|
      invariant n == Unanswered(rows[..k])
    {
      assert rows[..k + 1][..k] == rows[..k];
      if rows[k].row.counts.gated > 0 && rows[k].row.answerers == 0 {
        n := n + 1;
      }
    }
    assert rows[..|rows|] == rows;
  }

  method FinalTable(live: map<string, Row>, all: seq<string>, seed: Option<Seed>) returns (table: map<string, Row>)
    ensures table.Keys == FinalZones(live, all, seed) && forall z | z in table :: table[z] == FinalRow(live, seed, z)
  {
    var base := BaseRows(live, all);
    table := AddSeed(base, SeedZones(seed));
    MergedNames(base, SeedZones(seed));
    forall z | z in table ensures table[z] == FinalRow(live, seed, z) {
      assert RowAt(base, z) == RowAt(live, z);
      MergedAt(base, SeedZones(seed), z);
    }
  }

  ghost predicate ConsistentRows(rows: map<string, Row>) {
    forall z | z in rows :: Consistent(rows[z].counts)
  }

  ghost predicate FairTotals(t: Summary) {
    t.attested + t.forced <= t.gated <= t.merged
  }

  /** A row of the page as it must be: consistent, with its own share as its rate. */
  ghost predicate SoundRow(o: Out, rate: Option<real>) {
    Consistent(o.row.counts) && rate == Rate(o.row) && InUnit(rate)
  }

  method Rates(rows: seq<Out>) returns (rates: seq<Option<real>>)
    ensures |rates| == |rows| && forall k | 0 <= k < |rows| :: rates[k] == Rate(rows[k].row)
  {
    rates := [];
    for k := 0 to |rows|
      invariant |rates| == k && forall i | 0 <= i < k :: rates[i] == Rate(rows[i].row)
    {
      var c := rows[k].row.counts;
      rates := rates + [if c.gated < MIN_SAMPLE then None else Some(c.attested as real / c.gated as real)];
    }
  }

  /**
   * `finalize`: one row for every zone, by risk, with the live and the seeded counts added up and a rate each.
   * Consistent counts and an accepted seed make sound rows and a sound summary.
   */
  method Finalize(live: map<string, Row>, all: seq<string>, totals: Summary, seed: Option<Seed>)
    returns (rows: seq<Out>, rates: seq<Option<real>>, summary: Summary, rate: Option<real>, zeroAnswerers: nat, actions: seq<Action>)
    ensures Zones(rows) == FinalZones(live, all, seed) && |rows| == |FinalZones(live, all, seed)| && ByRisk(rows)
    ensures forall o | o in rows :: o.row == FinalRow(live, seed, o.zone)
    ensures |rates| == |rows| && forall k | 0 <= k < |rows| :: rates[k] == Rate(rows[k].row)
    ensures summary == Added(totals, seed) && rate == Share(summary.attested, summary.gated)
    ensures seed.None? ==> summary == totals
    ensures seed.Some? ==>
              && summary.merged == totals.merged + seed.value.totals.merged && summary.gated == totals.gated + seed.value.totals.gated
              && summary.attested == totals.attested + seed.value.totals.attested
              && summary.forced == totals.forced + seed.value.totals.forced
              && summary.waiting == totals.waiting + seed.value.totals.waiting
    ensures zeroAnswerers == Unanswered(rows)
    ensures |actions| == (if |Needing(rows)| < 5 then |Needing(rows)| else 5) && actions == Needing(rows)[..|actions|]
    ensures ConsistentRows(live) && (seed.Some? ==> FairSeed(seed.value)) ==> forall k | 0 <= k < |rows| :: SoundRow(rows[k], rates[k])
    ensures FairTotals(totals) && (seed.Some? ==> FairSeed(seed.value)) ==> FairTotals(summary) && InUnit(rate)
  {
    var table := FinalTable(live, all, seed);
    rows := SortRows(table);
    rates := Rates(rows);
    summary := Added(totals, seed);
    rate := if summary.gated < MIN_SAMPLE then None else Some(summary.attested as real / summary.gated as real);
    zeroAnswerers := CountUnanswered(rows);
    actions := ActionsFor(rows);
    if seed.Some? ==> FairSeed(seed.value) {
      if ConsistentRows(live) {
        forall k | 0 <= k < |rows| ensures SoundRow(rows[k], rates[k]) {
          assert rows[k] in rows;
          FinalRowIsConsistent(live, seed, rows[k].zone);
          ShareIsShare(rows[k].row.counts.attested, rows[k].row.counts.gated);
        }
      }
      if FairTotals(totals) {
        ShareIsShare(summary.attested, summary.gated);
      }
    }
  }

  /** The gated rows for which nobody can answer. */
  lemma {:induction false} UnansweredIsSize(s: seq<Out>)
    ensures Unanswered(s) == |set k | 0 <= k < |s| && s[k].row.counts.gated > 0 && s[k].row.answerers == 0|
  {
    if s != [] {
      var n := |s| - 1;
      UnansweredIsSize(s[..n]);
      var before := set k | 0 <= k < n && s[k].row.counts.gated > 0 && s[k].row.answerers == 0;
      assert before == set k | 0 <= k < |s[..n]| && s[..n][k].row.counts.gated > 0 && s[..n][k].row.answerers == 0;
      assert (set k | 0 <= k < |s| && s[k].row.counts.gated > 0 && s[k].row.answerers == 0)
             == if s[n].row.counts.gated > 0 && s[n].row.answerers == 0 then before + {n} else before;
    }
  }

  function Unanswered(s: seq<Out>): nat {
    if s == [] then 0
    else Unanswered(s[..|s| - 1]) + if s[|s| - 1].row.counts.gated > 0 && s[|s| - 1].row.answerers == 0 then 1 else 0
  }
}
