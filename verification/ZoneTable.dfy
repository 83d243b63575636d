/** The dashboard's dictionaries of counts and of people by zone, and the loops that raise them (service.py, `dashboard`). */
module ZoneTable {

  datatype Counts = Counts(merged: nat, gated: nat, attested: nat, forced: nat)

  const ZERO := Counts(0, 0, 0, 0)

  function Sum(a: Counts, b: Counts): Counts {
    Counts(a.merged + b.merged, a.gated + b.gated, a.attested + b.attested, a.forced + b.forced)
  }

  function One(b: bool): nat {
    if b then 1 else 0
  }

  function CountsAt<Z>(live: map<Z, Counts>, z: Z): Counts {
    if z in live then live[z] else ZERO
  }

  function PeopleAt<Z>(people: map<Z, set<int>>, z: Z): set<int> {
    if z in people then people[z] else {}
  }

  /** `setdefault`, then fields go up by `one`. */
  function Raise<Z>(live: map<Z, Counts>, z: Z, one: Counts): map<Z, Counts> {
    live[z := Sum(CountsAt(live, z), one)]
  }

  predicate Adds(before: Counts, after: Counts, one: Counts) {
    after == Sum(before, one)
  }

  predicate Goes(up: bool, before: Counts, after: Counts, one: Counts) {
    after == if up then Sum(before, one) else before
  }

  /** `r` are the rows after an inner loop over some zones. */
  ghost predicate Raised<Z(!new)>(live: map<Z, Counts>, r: map<Z, Counts>, zones: set<Z>, one: Counts) {
    && r.Keys == live.Keys + zones
    && forall z :: Goes(z in zones, CountsAt(live, z), CountsAt(r, z), one)
  }

  method Bump<Z(!new)>(live: map<Z, Counts>, zones: set<Z>, one: Counts) returns (r: map<Z, Counts>)
    ensures Raised(live, r, zones, one)
  {
    r := live;
    var left := zones;
    while left != {}
      invariant left <= zones && Raised(live, r, zones - left, one)
      decreases left
    {
      var z :| z in left;
      r := Raise(r, z, one);
      left := left - {z};
    }
    assert zones - {} == zones;
  }

  /** The inner loops over zones for one gated merge. */
  method BumpGated<Z(!new)>(live: map<Z, Counts>, touched: set<Z>, credited: set<Z>, attested: bool) returns (rows: map<Z, Counts>)
    requires touched <= live.Keys && credited <= touched
    ensures rows.Keys == live.Keys
    ensures forall z :: Adds(CountsAt(live, z), CountsAt(rows, z),
                             Counts(0, One(z in touched), One(z in credited), One(z in touched && !attested)))
  {
    var a := Bump(live, touched, Counts(0, 1, 0, 0));
    var b := a;
    if !attested {
      b := Bump(a, touched, Counts(0, 0, 0, 1));
    }
    rows := Bump(b, credited, Counts(0, 0, 1, 0));
    forall z ensures Adds(CountsAt(live, z), CountsAt(rows, z),
                          Counts(0, One(z in touched), One(z in credited), One(z in touched && !attested))) {
      RaisedThrice(live, a, b, rows, touched, credited, attested, z);
    }
  }

  lemma RaisedThrice<Z(!new)>(live: map<Z, Counts>, a: map<Z, Counts>, b: map<Z, Counts>, rows: map<Z, Counts>,
                              touched: set<Z>, credited: set<Z>, attested: bool, z: Z)
    requires Raised(live, a, touched, Counts(0, 1, 0, 0)) && Raised(b, rows, credited, Counts(0, 0, 1, 0))
    requires if attested then b == a else Raised(a, b, touched, Counts(0, 0, 0, 1))
    ensures CountsAt(rows, z) ==
            Sum(CountsAt(live, z), Counts(0, One(z in touched), One(z in credited), One(z in touched && !attested)))
  {
    assert Goes(z in touched && !attested, CountsAt(a, z), CountsAt(b, z), Counts(0, 0, 0, 1));
    GoesThrice(CountsAt(live, z), CountsAt(a, z), CountsAt(b, z), CountsAt(rows, z), z in touched, z in credited, attested);
  }

  lemma GoesThrice(c0: Counts, c1: Counts, c2: Counts, c3: Counts, touched: bool, credited: bool, attested: bool)
    requires Goes(touched, c0, c1, Counts(0, 1, 0, 0)) && Goes(touched && !attested, c1, c2, Counts(0, 0, 0, 1))
    requires Goes(credited, c2, c3, Counts(0, 0, 1, 0))
    ensures c3 == Sum(c0, Counts(0, One(touched), One(credited), One(touched && !attested)))
  {
  }

  /** `setdefault(zone, set()).add(actor)`. */
  function WithPerson<Z>(people: map<Z, set<int>>, z: Z, actor: int): map<Z, set<int>> {
    people[z := PeopleAt(people, z) + {actor}]
  }

  lemma WithPersonAt<Z>(people: map<Z, set<int>>, z: Z, actor: int, x: Z)
    ensures PeopleAt(WithPerson(people, z, actor), x) == PeopleAt(people, x) + if x == z then {actor} else {}
  {
  }

  // ----- accounting -----

  /**
   * What a merge means for the dashboard: the zones it touched, whether a receipt attested it in time, and who
   * answered for which zone.
   */
  datatype Facts<Z> = Facts(measured: bool, triggered: bool, touched: set<Z>, attested: bool, credits: map<Z, set<int>>)

  ghost predicate Proper<Z(!new)>(f: Facts<Z>) {
    && (!f.measured ==> !f.triggered && f.touched == {}) && (f.attested ==> f.triggered)
    && (forall z | z in f.credits :: f.credits[z] != {} && z in f.touched && f.attested)
  }

  datatype Totals = Totals(merged: nat, gated: nat, attested: nat, forced: nat, measured: nat, unmeasured: nat)

  function ZoneCount<Z>(f: Facts<Z>, z: Z): Counts {
    var t := z in f.touched;
    Counts(One(t), One(t && f.triggered), One(z in f.credits), One(t && f.triggered && !f.attested))
  }

  function Tally<Z>(merges: seq<Facts<Z>>, z: Z): Counts {
    if merges == [] then ZERO else Sum(Tally(merges[..|merges| - 1], z), ZoneCount(merges[|merges| - 1], z))
  }

  function AllAnswerers<Z>(merges: seq<Facts<Z>>, z: Z): set<int> {
    if merges == [] then {} else AllAnswerers(merges[..|merges| - 1], z) + PeopleAt(merges[|merges| - 1].credits, z)
  }

  function LiveZones<Z>(merges: seq<Facts<Z>>): set<Z> {
    if merges == [] then {} else LiveZones(merges[..|merges| - 1]) + merges[|merges| - 1].touched
  }

  function WithMerge<Z>(t: Totals, f: Facts<Z>): Totals {
    Totals(t.merged + 1, t.gated + One(f.triggered), t.attested + One(f.attested), t.forced + One(f.triggered && !f.attested),
           t.measured + One(f.measured), t.unmeasured + One(!f.measured))
  }

  function Totaled<Z>(merges: seq<Facts<Z>>): Totals {
    if merges == [] then Totals(0, 0, 0, 0, 0, 0) else WithMerge(Totaled(merges[..|merges| - 1]), merges[|merges| - 1])
  }

  ghost predicate AllProper<Z(!new)>(merges: seq<Facts<Z>>) {
    forall k | 0 <= k < |merges| :: Proper(merges[k])
  }

  /** Totals are conserved: every gated merge is attested or forced, every merge measured or not. */
  lemma {:induction false} TotalsConserve<Z(!new)>(merges: seq<Facts<Z>>)
    requires AllProper(merges)
    ensures var t := Totaled(merges);
            t.gated == t.attested + t.forced && t.merged == t.measured + t.unmeasured == |merges| && t.gated <= t.measured
  {
    if merges != [] {
      assert Proper(merges[|merges| - 1]);
      TotalsConserve(merges[..|merges| - 1]);
    }
  }

  ghost predicate Consistent(c: Counts) {
    c.attested + c.forced <= c.gated <= c.merged
  }

  /** Every zone: attested and forced merges are gated ones, gated ones are merges, and none exceeds the totals. */
  lemma {:induction false} TallyIsConsistent<Z(!new)>(merges: seq<Facts<Z>>, z: Z)
    requires AllProper(merges)
    ensures var c, t := Tally(merges, z), Totaled(merges);
            Consistent(c) && c.merged <= t.measured && c.gated <= t.gated && c.attested <= t.attested && c.forced <= t.forced
  {
    if merges != [] {
      assert Proper(merges[|merges| - 1]);
      TallyIsConsistent(merges[..|merges| - 1], z);
    }
  }

  lemma UnionIsEmpty<T>(a: set<T>, b: set<T>)
    ensures a + b == {} <==> a == {} && b == {}
  {
    assert a <= a + b && b <= a + b;
  }

  /** A zone has answerers exactly when a merge of it was attested there. */
  lemma {:induction false} AnswerersIffAttested<Z(!new)>(merges: seq<Facts<Z>>, z: Z)
    requires AllProper(merges)
    ensures AllAnswerers(merges, z) != {} <==> Tally(merges, z).attested > 0
  {
    if merges != [] {
      assert Proper(merges[|merges| - 1]);
      AnswerersIffAttested(merges[..|merges| - 1], z);
      UnionIsEmpty(AllAnswerers(merges[..|merges| - 1], z), PeopleAt(merges[|merges| - 1].credits, z));
    }
  }

  /** What one merge does to a zone's row and people. */
  ghost predicate CountedAt<Z>(f: Facts<Z>, live: map<Z, Counts>, rows: map<Z, Counts>,
                               people: map<Z, set<int>>, more: map<Z, set<int>>, z: Z) {
    && Adds(CountsAt(live, z), CountsAt(rows, z), ZoneCount(f, z))
    && Joins(PeopleAt(people, z), PeopleAt(more, z), PeopleAt(f.credits, z))
  }

  predicate Joins(before: set<int>, after: set<int>, actors: set<int>) {
    after == before + actors
  }

  /** The people after the credits of one merge. */
  ghost predicate CreditedSo<Z(!new)>(people: map<Z, set<int>>, more: map<Z, set<int>>, credits: map<Z, set<int>>) {
    forall z :: Joins(PeopleAt(people, z), PeopleAt(more, z), PeopleAt(credits, z))
  }

  lemma ThisCount(before: Counts, begun: Counts, after: Counts, touched: bool, triggered: bool, credited: bool, attested: bool)
    requires Goes(touched, before, begun, Counts(1, 0, 0, 0)) && (credited ==> triggered)
    requires after == if triggered then Sum(begun, Counts(0, One(touched), One(credited), One(touched && !attested))) else begun
    ensures after == Sum(before, Counts(One(touched), One(touched && triggered), One(credited), One(touched && triggered && !attested)))
  {
  }

  lemma MergeCounted<Z>(f: Facts<Z>, before: Counts, begun: Counts, after: Counts, z: Z)
    requires Goes(z in f.touched, before, begun, Counts(1, 0, 0, 0)) && (z in f.credits ==> f.triggered)
    requires if f.triggered
             then Adds(begun, after, Counts(0, One(z in f.touched), One(z in f.credits.Keys), One(z in f.touched && !f.attested)))
             else after == begun
    ensures Adds(before, after, ZoneCount(f, z))
  {
    ThisCount(before, begun, after, z in f.touched, f.triggered, z in f.credits, f.attested);
  }

  /** The rows after one measured merge. */
  method CountMerge<Z(!new)>(f: Facts<Z>, live: map<Z, Counts>) returns (rows: map<Z, Counts>)
    requires Proper(f) && f.measured
    ensures rows.Keys == live.Keys + f.touched
    ensures forall z :: Adds(CountsAt(live, z), CountsAt(rows, z), ZoneCount(f, z))
  {
    var begun := Bump(live, f.touched, Counts(1, 0, 0, 0));
    assert f.credits.Keys <= f.touched;
    if f.triggered {
      rows := BumpGated(begun, f.touched, f.credits.Keys, f.attested);
    } else {
      rows := begun;
    }
    forall z ensures Adds(CountsAt(live, z), CountsAt(rows, z), ZoneCount(f, z)) {
      MergeCounted(f, CountsAt(live, z), CountsAt(begun, z), CountsAt(rows, z), z);
    }
  }

  lemma Uncredited<Z(!new)>(f: Facts<Z>, people: map<Z, set<int>>)
    requires Proper(f) && !f.triggered
    ensures CreditedSo(people, people, f.credits)
  {
  }

  lemma Uncounted<Z(!new)>(f: Facts<Z>, live: map<Z, Counts>, z: Z)
    requires Proper(f) && !f.measured
    ensures Adds(CountsAt(live, z), CountsAt(live, z), ZoneCount(f, z)) && live.Keys + f.touched == live.Keys
  {
    NoCount(f, z);
    AddsZero(CountsAt(live, z));
  }

  lemma NoCount<Z(!new)>(f: Facts<Z>, z: Z)
    requires Proper(f) && !f.measured
    ensures ZoneCount(f, z) == ZERO
  {
  }

  lemma AddsZero(c: Counts)
    ensures Adds(c, c, ZERO)
  {
  }

  /** Rows and people, put together. */
  lemma CountedFrom<Z(!new)>(f: Facts<Z>, live: map<Z, Counts>, rows: map<Z, Counts>, people: map<Z, set<int>>, more: map<Z, set<int>>, z: Z)
    requires Adds(CountsAt(live, z), CountsAt(rows, z), ZoneCount(f, z)) && CreditedSo(people, more, f.credits)
    ensures CountedAt(f, live, rows, people, more, z)
  {
    assert Joins(PeopleAt(people, z), PeopleAt(more, z), PeopleAt(f.credits, z));
  }

  method CountTotals<Z>(t: Totals, f: Facts<Z>) returns (r: Totals)
    requires (!f.measured ==> !f.triggered) && (f.attested ==> f.triggered)
    ensures r == WithMerge(t, f)
  {
    r := t.(merged := t.merged + 1);
    if !f.measured {
      return r.(unmeasured := r.unmeasured + 1);
    }
    r := r.(measured := r.measured + 1);
    if f.triggered {
      r := r.(gated := r.gated + 1);
      if f.attested {
        r := r.(attested := r.attested + 1);
      } else {
        r := r.(forced := r.forced + 1);
      }
    }
  }

  /** A zone's row and people after all merges. */
  ghost predicate TalliedAt<Z>(live: map<Z, Counts>, people: map<Z, set<int>>, merges: seq<Facts<Z>>, z: Z) {
    && CountsAt(live, z) == Tally(merges, z) && PeopleAt(people, z) == AllAnswerers(merges, z)
    && (z in live <==> z in LiveZones(merges))
  }

  lemma TalliedMore<Z>(live: map<Z, Counts>, people: map<Z, set<int>>, rows: map<Z, Counts>, more: map<Z, set<int>>,
                       merges: seq<Facts<Z>>, f: Facts<Z>, z: Z)
    requires TalliedAt(live, people, merges, z) && CountedAt(f, live, rows, people, more, z)
    requires rows.Keys == live.Keys + f.touched
    ensures TalliedAt(rows, more, merges + [f], z)
  {
    TallyMore(merges, f, z);
  }

  lemma TallyMore<Z>(merges: seq<Facts<Z>>, f: Facts<Z>, z: Z)
    ensures Tally(merges + [f], z) == Sum(Tally(merges, z), ZoneCount(f, z))
    ensures AllAnswerers(merges + [f], z) == AllAnswerers(merges, z) + PeopleAt(f.credits, z)
    ensures z in LiveZones(merges + [f]) <==> z in LiveZones(merges) || z in f.touched
    ensures Totaled(merges + [f]) == WithMerge(Totaled(merges), f)
  {
    assert (merges + [f])[..|merges|] == merges && (merges + [f])[|merges|] == f;
  }

  /** What the counts of the dashboard always satisfy, zone by zone. */
  lemma DashboardConserves<Z(!new)>(live: map<Z, Counts>, people: map<Z, set<int>>, merges: seq<Facts<Z>>, z: Z)
    requires AllProper(merges) && TalliedAt(live, people, merges, z)
    ensures var t, row := Totaled(merges), CountsAt(live, z);
            && t.gated == t.attested + t.forced && t.merged == t.measured + t.unmeasured
            && Consistent(row) && row.merged <= t.measured && row.gated <= t.gated
            && (|PeopleAt(people, z)| > 0 <==> row.attested > 0)
  {
    TotalsConserve(merges);
    TallyIsConsistent(merges, z);
    AnswerersIffAttested(merges, z);
  }
}
