/**
 * The dashboard as a whole (service.py, `dashboard`, with coverage.py, `finalize`): from any history of merges,
 * snapshots and receipts and any accepted seed to the rows, rates and totals of the page.
 */
module CoveragePage {
  import opened Basics
  import opened ZoneTable
  import D = CoverageDashboard
  import opened CoverageRows

  function LiveRow(live: map<string, Counts>, people: map<string, set<int>>, z: string): Row {
    Row(CountsAt(live, z), |PeopleAt(people, z)|)
  }

  /** The `answerers` of every live row are set last, from the people by zone. */
  function LiveRows(live: map<string, Counts>, people: map<string, set<int>>): map<string, Row> {
    map z | z in live :: LiveRow(live, people, z)
  }

  function TotalsOf(t: Totals, waiting: nat): Summary {
    Summary(t.merged, t.gated, t.attested, t.forced, waiting)
  }

  /** Where the history and the seed put together leave a zone. */
  ghost predicate Accounted(o: Out, facts: seq<Facts<string>>, seed: Option<Seed>) {
    o.row == Plus(Row(Tally(facts, o.zone), |AllAnswerers(facts, o.zone)|), SeedAt(SeedZones(seed), o.zone))
  }

  lemma LiveRowsAreConsistent(live: map<string, Counts>, people: map<string, set<int>>, facts: seq<Facts<string>>)
    requires AllProper(facts) && forall z :: TalliedAt(live, people, facts, z)
    ensures ConsistentRows(LiveRows(live, people))
  {
    forall z | z in live ensures Consistent(CountsAt(live, z)) {
      DashboardConserves(live, people, facts, z);
    }
  }

  lemma RowIsAccounted(live: map<string, Counts>, people: map<string, set<int>>, facts: seq<Facts<string>>, seed: Option<Seed>, o: Out)
    requires AllProper(facts) && TalliedAt(live, people, facts, o.zone)
    requires o.row == FinalRow(LiveRows(live, people), seed, o.zone)
    ensures Accounted(o, facts, seed)
  {
    DashboardConserves(live, people, facts, o.zone);
    if o.zone !in live {
      assert CountsAt(live, o.zone) == NO_ROW.counts;
      assert PeopleAt(people, o.zone) == {};
    }
  }

  lemma LiveKeys(live: map<string, Counts>, people: map<string, set<int>>, facts: seq<Facts<string>>)
    requires forall z :: TalliedAt(live, people, facts, z)
    ensures live.Keys == LiveZones(facts)
  {
    forall z ensures z in live <==> z in LiveZones(facts) {
      assert TalliedAt(live, people, facts, z);
    }
  }

  lemma SeedlessIsAnswered(o: Out, facts: seq<Facts<string>>)
    requires AllProper(facts) && Accounted(o, facts, None)
    ensures o.row.answerers > 0 <==> o.row.counts.attested > 0
  {
    AnswerersIffAttested(facts, o.zone);
    assert SeedZones(None) == [];
  }

  lemma {:induction false} OneFactPerMerge(merges: seq<D.Merge>, glob: (string, string) -> bool)
    ensures |D.AllFacts(merges, glob)| == |merges|
  {
    if merges != [] {
      OneFactPerMerge(merges[..|merges| - 1], glob);
    }
  }

  // ----- the zones to show -----

  /** `(merge.merged_at or "") >= latest`, where None stands for the empty text. */
  predicate NotBefore(at: Option<int>, latest: Option<int>) {
    latest.None? || (at.Some? && at.value >= latest.value)
  }

  /** When the latest measured merge happened, and the zones of its snapshot. */
  function Latest(merges: seq<D.Merge>): (Option<int>, seq<string>) {
    if merges == [] then (None, [])
    else
      var before, m := Latest(merges[..|merges| - 1]), merges[|merges| - 1];
      if m.snapshot.Some? && NotBefore(m.mergedAt, before.0) then (m.mergedAt, m.snapshot.value.zones) else before
  }

  /** `pending` are the open snapshots with their zones, or None where a snapshot is gone; the last one is asked. */
  function AllZones(merges: seq<D.Merge>, pending: seq<Option<seq<string>>>): seq<string> {
    var zones := Latest(merges).1;
    if zones == [] && pending != [] && pending[|pending| - 1].Some? then pending[|pending| - 1].value else zones
  }

  /** The zones shown are those of the last of the latest measured merges. */
  lemma {:induction false} LatestIsLast(merges: seq<D.Merge>, k: nat)
    requires k < |merges| && merges[k].snapshot.Some?
    ensures NotBefore(Latest(merges).0, merges[k].mergedAt)
    ensures (forall i | k < i < |merges| && merges[i].snapshot.Some? :: !NotBefore(merges[i].mergedAt, merges[k].mergedAt))
            && (forall i | 0 <= i < k && merges[i].snapshot.Some? :: NotBefore(merges[k].mergedAt, merges[i].mergedAt))
            ==> Latest(merges) == (merges[k].mergedAt, merges[k].snapshot.value.zones)
  {
    var front := merges[..|merges| - 1];
    if k < |front| {
      LatestIsLast(front, k);
    } else {
      LatestIsReached(front);
    }
  }

  lemma {:induction false} LatestIsReached(merges: seq<D.Merge>)
    ensures Latest(merges).0.None? || exists i :: 0 <= i < |merges| && merges[i].snapshot.Some? && merges[i].mergedAt == Latest(merges).0
  {
    if merges != [] {
      var front := merges[..|merges| - 1];
      LatestIsReached(front);
      if Latest(front).0.Some? {
        var i :| 0 <= i < |front| && front[i].snapshot.Some? && front[i].mergedAt == Latest(front).0;
        assert merges[i] == front[i];
      }
    }
  }

  /** In times: a measured merge at `t` that no later one follows, and no other at `t` after it in the list, decides. */
  lemma LatestByTime(merges: seq<D.Merge>, k: nat, t: int)
    requires k < |merges| && merges[k].snapshot.Some? && merges[k].mergedAt == Some(t)
    requires forall i | k < i < |merges| && merges[i].snapshot.Some? && merges[i].mergedAt.Some? :: merges[i].mergedAt.value < t
    requires forall i | 0 <= i < k && merges[i].snapshot.Some? && merges[i].mergedAt.Some? :: merges[i].mergedAt.value <= t
    ensures Latest(merges) == (Some(t), merges[k].snapshot.value.zones)
  {
    LatestIsLast(merges, k);
  }

  method FindZones(merges: seq<D.Merge>, pending: seq<Option<seq<string>>>) returns (all: seq<string>)
    ensures all == AllZones(merges, pending)
  {
    var latest: Option<int> := None;
    all := [];
    for k := 0 to |merges|
      invariant (latest, all) == Latest(merges[..k])
    {
      assert merges[..k + 1][..k] == merges[..k];
      if merges[k].snapshot.Some? && NotBefore(merges[k].mergedAt, latest) {
        latest, all := merges[k].mergedAt, merges[k].snapshot.value.zones;
      }
    }
    assert merges[..|merges|] == merges;
    if all == [] && pending != [] && pending[|pending| - 1].Some? {
      all := pending[|pending| - 1].value;
    }
  }

  // ----- the page -----

  /** Every row of the page, whatever the order. */
  ghost predicate AllAccounted(rows: seq<Out>, facts: seq<Facts<string>>, seed: Option<Seed>) {
    forall k | 0 <= k < |rows| :: Accounted(rows[k], facts, seed)
  }

  lemma RowsAreAccounted(live: map<string, Counts>, people: map<string, set<int>>, facts: seq<Facts<string>>, seed: Option<Seed>,
                         rows: seq<Out>)
    requires AllProper(facts) && forall z :: TalliedAt(live, people, facts, z)
    requires forall o | o in rows :: o.row == FinalRow(LiveRows(live, people), seed, o.zone)
    ensures AllAccounted(rows, facts, seed)
  {
    forall k | 0 <= k < |rows| ensures Accounted(rows[k], facts, seed) {
      assert rows[k] in rows;
      assert TalliedAt(live, people, facts, rows[k].zone);
      RowIsAccounted(live, people, facts, seed, rows[k]);
    }
  }

  /**
   * For any history and any accepted seed: every row is what its zone's merges, answers and seed add up to, is
   * consistent and has a rate between nothing and everything, and so has the summary; without a seed every gated
   * merge of the summary was attested or forced, and every zone was answered for exactly if it was attested.
   */
  method Dashboard(merges: seq<D.Merge>, pending: seq<Option<seq<string>>>, seed: Option<Seed>, glob: (string, string) -> bool)
    returns (rows: seq<Out>, rates: seq<Option<real>>, summary: Summary, rate: Option<real>)
    requires seed.Some? ==> FairSeed(seed.value)
    ensures |rates| == |rows| && forall k | 0 <= k < |rows| :: SoundRow(rows[k], rates[k])
    ensures AllAccounted(rows, D.AllFacts(merges, glob), seed)
    ensures Zones(rows) == Names(AllZones(merges, pending)) + LiveZones(D.AllFacts(merges, glob)) + SeedNames(SeedZones(seed))
    ensures ByRisk(rows)
    ensures FairTotals(summary) && rate == Share(summary.attested, summary.gated) && InUnit(rate)
    ensures summary == Added(TotalsOf(Totaled(D.AllFacts(merges, glob)), |pending|), seed)
    ensures seed.None? ==> summary.gated == summary.attested + summary.forced && summary.merged == |merges|
    ensures seed.None? ==> forall k | 0 <= k < |rows| :: rows[k].row.answerers > 0 <==> rows[k].row.counts.attested > 0
  {
    ghost var facts := D.AllFacts(merges, glob);
    var t, live, people := D.CountMerges(merges, glob);
    LiveRowsAreConsistent(live, people, facts);
    LiveKeys(live, people, facts);
    TotalsConserve(facts);
    OneFactPerMerge(merges, glob);
    var liveRows, totals := LiveRows(live, people), TotalsOf(t, |pending|);
    assert liveRows.Keys == LiveZones(facts) && FairTotals(totals);
    var all := FindZones(merges, pending);
    var zero, actions;
    rows, rates, summary, rate, zero, actions := Finalize(liveRows, all, totals, seed);
    RowsAreAccounted(live, people, facts, seed, rows);
    if seed.None? {
      forall k | 0 <= k < |rows| ensures rows[k].row.answerers > 0 <==> rows[k].row.counts.attested > 0 {
        SeedlessIsAnswered(rows[k], facts);
      }
    }
  }
}
