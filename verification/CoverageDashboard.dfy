/**
 * Coverage accounting of the dashboard (service.py, `dashboard`; coverage.py; ledger.py, `zone_of`): which merges
 * were gated, attested or forced, zone by zone, and how rows, seed and summary are put together.
 */
module CoverageDashboard {
  import opened Basics
  import opened UnifiedDiff
  import opened ZoneTable

  datatype Receipt = Receipt(actorId: int, createdAt: int, verifiedAt: Option<int>, anchors: seq<string>)

  datatype Measured = Measured(triggered: bool, files: seq<string>, zones: seq<string>, receipts: seq<Receipt>)

  /** `snapshot` is None for a merge that was not measured or whose snapshot is gone. */
  datatype Merge = Merge(pr: int, mergedAt: Option<int>, snapshot: Option<Measured>)

  // ----- zones -----

  function DropSlashes(s: string): string {
    if s != "" && s[0] == '/' then DropSlashes(s[1..]) else s
  }

  /** `glob` is `fnmatch`, about which nothing is assumed. */
  predicate Belongs(path: string, zone: string, glob: (string, string) -> bool) {
    var pattern := if zone != "" && zone[|zone| - 1] == '/' then zone else zone + "/";
    DropSlashes(pattern) <= path || glob(path, zone)
  }

  lemma {:induction false} SlashesDrop(slashes: string, s: string)
    requires (forall c | c in slashes :: c == '/') && (s == "" || s[0] != '/')
    ensures DropSlashes(slashes + s) == s
  {
    if slashes == "" {
      assert slashes + s == s;
    } else {
      assert slashes[0] in slashes && (slashes + s)[0] == slashes[0] && (slashes + s)[1..] == slashes[1..] + s;
      assert forall c | c in slashes[1..] :: c in slashes;
      SlashesDrop(slashes[1..], s);
    }
  }

  /** However many slashes a zone starts with, and with one at its end or not, the files below its directory are its own. */
  lemma BelongsIff(path: string, slashes: string, directory: string, glob: (string, string) -> bool)
    requires (forall c | c in slashes :: c == '/') && directory != "" && directory[0] != '/' && directory[|directory| - 1] != '/'
    ensures Belongs(path, slashes + directory, glob) <==> directory + "/" <= path || glob(path, slashes + directory)
    ensures Belongs(path, slashes + directory + "/", glob) <==> directory + "/" <= path || glob(path, slashes + directory + "/")
  {
    var zone := slashes + directory;
    assert zone[|zone| - 1] == directory[|directory| - 1];
    assert zone + "/" == slashes + (directory + "/");
    SlashesDrop(slashes, directory + "/");
  }

  /** A zone of slashes only has every file. */
  lemma RootHasAll(path: string, slashes: string, glob: (string, string) -> bool)
    requires forall c | c in slashes :: c == '/'
    ensures Belongs(path, slashes, glob)
  {
    var pattern := if slashes != "" then slashes else "/";
    if slashes != "" {
      assert slashes[|slashes| - 1] in slashes;
    }
    assert pattern + "" == pattern;
    SlashesDrop(pattern, "");
  }

  function ZoneOf(path: string, zones: seq<string>, glob: (string, string) -> bool): Option<string> {
    if zones == [] then None
    else
      var best, z := ZoneOf(path, zones[..|zones| - 1], glob), zones[|zones| - 1];
      if Belongs(path, z, glob) && (best.None? || |z| > |best.value|) then Some(z) else best
  }

  /** `zones[k]` is the first of the longest zones that the path belongs to. */
  ghost predicate MostSpecific(path: string, zones: seq<string>, k: nat, glob: (string, string) -> bool) {
    && k < |zones| && Belongs(path, zones[k], glob)
    && (forall i | 0 <= i < |zones| && Belongs(path, zones[i], glob) :: |zones[i]| <= |zones[k]|)
    && (forall i | 0 <= i < k && Belongs(path, zones[i], glob) :: |zones[i]| < |zones[k]|)
  }

  lemma MostSpecificGrows(path: string, front: seq<string>, z: string, k: nat, glob: (string, string) -> bool)
    requires MostSpecific(path, front, k, glob)
    ensures if Belongs(path, z, glob) && |z| > |front[k]| then MostSpecific(path, front + [z], |front|, glob)
            else MostSpecific(path, front + [z], k, glob)
  {
  }

  /** The most specific zone wins; there is none only when the path belongs to no zone. */
  lemma {:induction false} ZoneOfIsMostSpecific(path: string, zones: seq<string>, glob: (string, string) -> bool) returns (k: nat)
    ensures ZoneOf(path, zones, glob).None? ==> forall z | z in zones :: !Belongs(path, z, glob)
    ensures ZoneOf(path, zones, glob).Some? ==>
              MostSpecific(path, zones, k, glob) && zones[k] == ZoneOf(path, zones, glob).value
  {
    k := 0;
    if zones != [] {
      var front, z := zones[..|zones| - 1], zones[|zones| - 1];
      k := ZoneOfIsMostSpecific(path, front, glob);
      assert zones == front + [z];
      var best := ZoneOf(path, front, glob);
      if best.Some? {
        MostSpecificGrows(path, front, z, k, glob);
      }
      if Belongs(path, z, glob) && (best.None? || |z| > |best.value|) {
        k := |front|;
      }
    }
  }

  method FindZone(path: string, zones: seq<string>, glob: (string, string) -> bool) returns (best: Option<string>)
    ensures best == ZoneOf(path, zones, glob)
  {
    best := None;
    for k := 0 to |zones|
      invariant best == ZoneOf(path, zones[..k], glob)
    {
      assert zones[..k + 1][..k] == zones[..k];
      if Belongs(path, zones[k], glob) && (best.None? || |zones[k]| > |best.value|) {
        best := Some(zones[k]);
      }
    }
    assert zones[..|zones|] == zones;
  }

  // ----- one merge -----

  /** A zone with the empty name is falsy and not counted. */
  predicate Counted(zone: Option<string>) {
    zone.Some? && zone.value != ""
  }

  function Touched(s: Measured, glob: (string, string) -> bool): set<string> {
    set f | f in s.files && Counted(ZoneOf(f, s.zones, glob)) :: ZoneOf(f, s.zones, glob).value
  }

  /** A zone is touched exactly when it has a name and is the most specific one of a changed file. */
  lemma TouchedMembers(s: Measured, z: string, glob: (string, string) -> bool)
    ensures z in Touched(s, glob) <==> z != "" && exists f | f in s.files :: ZoneOf(f, s.zones, glob) == Some(z)
  {
    if z != "" && exists f | f in s.files :: ZoneOf(f, s.zones, glob) == Some(z) {
      var f :| f in s.files && ZoneOf(f, s.zones, glob) == Some(z);
      assert Counted(ZoneOf(f, s.zones, glob));
    }
  }

  predicate Eligible(r: Receipt, mergedAt: Option<int>) {
    mergedAt.Some? && r.verifiedAt.Some? && r.createdAt <= mergedAt.value && r.verifiedAt.value <= mergedAt.value
  }

  predicate IsGated(m: Merge) {
    m.snapshot.Some? && m.snapshot.value.triggered
  }

  predicate IsAttested(m: Merge) {
    IsGated(m) && exists r | r in m.snapshot.value.receipts :: Eligible(r, m.mergedAt)
  }

  /** An answer of the receipt is anchored in the zone, and the change touched that zone. */
  predicate AnswersIn(r: Receipt, s: Measured, z: string, glob: (string, string) -> bool) {
    && z in Touched(s, glob)
    && exists a | a in r.anchors :: ParseAnchor(a).Some? && ZoneOf(ParseAnchor(a).value.0, s.zones, glob) == Some(z)
  }

  // ----- the counting loop -----

  /** The touched zone that an anchor lies in, if it lies in one. */
  function ZoneOfAnchor(anchor: string, s: Measured, glob: (string, string) -> bool): Option<string> {
    var parsed := ParseAnchor(anchor);
    if parsed.None? then None
    else
      var z := ZoneOf(parsed.value.0, s.zones, glob);
      if z.Some? && z.value in Touched(s, glob) then z else None
  }

  /** The touched zones that some of the anchors lie in. */
  function AnchorZones(anchors: seq<string>, s: Measured, glob: (string, string) -> bool): set<string> {
    if anchors == [] then {}
    else
      var rest, z := AnchorZones(anchors[..|anchors| - 1], s, glob), ZoneOfAnchor(anchors[|anchors| - 1], s, glob);
      if z.Some? then rest + {z.value} else rest
  }

  lemma {:induction false} AnchorZonesMembers(anchors: seq<string>, s: Measured, z: string, glob: (string, string) -> bool)
    ensures z in AnchorZones(anchors, s, glob) <==> exists a | a in anchors :: ZoneOfAnchor(a, s, glob) == Some(z)
  {
    if anchors != [] {
      var front, last := anchors[..|anchors| - 1], anchors[|anchors| - 1];
      AnchorZonesMembers(front, s, z, glob);
      assert anchors == front + [last];
    }
  }

  lemma AnchorZonesAreAnswered(anchors: seq<string>, s: Measured, z: string, glob: (string, string) -> bool)
    ensures z in AnchorZones(anchors, s, glob) <==>
              && z in Touched(s, glob)
              && exists a | a in anchors :: ParseAnchor(a).Some? && ZoneOf(ParseAnchor(a).value.0, s.zones, glob) == Some(z)
  {
    AnchorZonesMembers(anchors, s, z, glob);
    if a :| a in anchors && ZoneOfAnchor(a, s, glob) == Some(z) {
      assert ParseAnchor(a).Some? && ZoneOf(ParseAnchor(a).value.0, s.zones, glob) == Some(z);
    }
    if a :| a in anchors && ParseAnchor(a).Some? && ZoneOf(ParseAnchor(a).value.0, s.zones, glob) == Some(z) {
      assert z in Touched(s, glob) ==> ZoneOfAnchor(a, s, glob) == Some(z);
    }
  }

  /** People with one more person in some zones. */
  function Joined(people: map<string, set<int>>, zones: set<string>, actor: int): map<string, set<int>> {
    map z | z in people.Keys + zones :: PeopleAt(people, z) + PersonIn(z in zones, actor)
  }

  function PersonIn(here: bool, actor: int): set<int> {
    if here then {actor} else {}
  }

  lemma JoinedAt(people: map<string, set<int>>, zones: set<string>, actor: int, z: string)
    ensures PeopleAt(Joined(people, zones, actor), z) == PeopleAt(people, z) + PersonIn(z in zones, actor)
    ensures z in Joined(people, zones, actor) <==> z in people || z in zones
  {
  }

  /** Who has answered where, in the first receipts of a merge. */
  function Credits(receipts: seq<Receipt>, m: Merge, glob: (string, string) -> bool): map<string, set<int>>
    requires m.snapshot.Some?
  {
    if receipts == [] then map[]
    else
      var rest, r := Credits(receipts[..|receipts| - 1], m, glob), receipts[|receipts| - 1];
      if Eligible(r, m.mergedAt) then Joined(rest, AnchorZones(r.anchors, m.snapshot.value, glob), r.actorId) else rest
  }

  ghost predicate Answered(receipts: seq<Receipt>, m: Merge, z: string, actor: int, glob: (string, string) -> bool)
    requires m.snapshot.Some?
  {
    exists r | r in receipts :: Eligible(r, m.mergedAt) && AnswersIn(r, m.snapshot.value, z, glob) && r.actorId == actor
  }

  lemma AnsweredMore(front: seq<Receipt>, r: Receipt, m: Merge, z: string, actor: int, glob: (string, string) -> bool)
    requires m.snapshot.Some?
    ensures Answered(front + [r], m, z, actor, glob) <==>
              Answered(front, m, z, actor, glob)
              || (Eligible(r, m.mergedAt) && AnswersIn(r, m.snapshot.value, z, glob) && r.actorId == actor)
  {
    var all := front + [r];
    assert all[|front|] == r;
    assert forall x :: x in all <==> x in front || x == r;
  }

  /** The credits are exactly the timely verified receipts with an answer anchored in a touched zone. */
  lemma {:induction false} CreditsAreReceipts(receipts: seq<Receipt>, m: Merge, z: string, actor: int, glob: (string, string) -> bool)
    requires m.snapshot.Some?
    ensures actor in PeopleAt(Credits(receipts, m, glob), z) <==> Answered(receipts, m, z, actor, glob)
  {
    if receipts != [] {
      var front, last := receipts[..|receipts| - 1], receipts[|receipts| - 1];
      CreditsAreReceipts(front, m, z, actor, glob);
      AnchorZonesAreAnswered(last.anchors, m.snapshot.value, z, glob);
      AnsweredMore(front, last, m, z, actor, glob);
      assert receipts == front + [last];
      JoinedAt(Credits(front, m, glob), AnchorZones(last.anchors, m.snapshot.value, glob), last.actorId, z);
    }
  }

  /** Every credited zone was touched, has somebody, and needs a receipt in time. */
  lemma {:induction false} CreditsAreProper(receipts: seq<Receipt>, m: Merge, z: string, glob: (string, string) -> bool)
    requires m.snapshot.Some? && z in Credits(receipts, m, glob)
    ensures Credits(receipts, m, glob)[z] != {} && z in Touched(m.snapshot.value, glob)
    ensures exists r | r in receipts :: Eligible(r, m.mergedAt)
  {
    if receipts != [] {
      var front, last := receipts[..|receipts| - 1], receipts[|receipts| - 1];
      var zones := AnchorZones(last.anchors, m.snapshot.value, glob);
      AnchorZonesAreAnswered(last.anchors, m.snapshot.value, z, glob);
      assert last in receipts && forall x | x in front :: x in receipts;
      if z in Credits(front, m, glob) {
        CreditsAreProper(front, m, z, glob);
      }
      JoinedAt(Credits(front, m, glob), zones, last.actorId, z);
      if Eligible(last, m.mergedAt) && z in zones {
        assert last.actorId in PeopleAt(Joined(Credits(front, m, glob), zones, last.actorId), z);
      }
    }
  }

  /** What a merge means for the dashboard. */
  function FactsOf(m: Merge, glob: (string, string) -> bool): Facts<string> {
    if m.snapshot.None? then Facts(false, false, {}, false, map[])
    else
      Facts(true, m.snapshot.value.triggered, Touched(m.snapshot.value, glob), IsAttested(m),
            if m.snapshot.value.triggered then Credits(m.snapshot.value.receipts, m, glob) else map[])
  }

  /** A receipt from before the merge, verified before it. */
  ghost predicate InTime(r: Receipt, m: Merge) {
    m.mergedAt.Some? && r.verifiedAt.Some? && r.createdAt <= m.mergedAt.value && r.verifiedAt.value <= m.mergedAt.value
  }

  /**
   * What counts for a merge: it is measured if its snapshot is there, gated if that was triggered, attested if some
   * receipt was in time, and each person is credited in every named zone of a changed file where one of their
   * answers in time is anchored.
   */
  lemma FactsMean(m: Merge, z: string, actor: int, glob: (string, string) -> bool)
    ensures var f := FactsOf(m, glob);
            && (f.measured <==> m.snapshot.Some?)
            && (f.triggered <==> m.snapshot.Some? && m.snapshot.value.triggered)
            && (f.attested <==> f.triggered && exists r | r in m.snapshot.value.receipts :: InTime(r, m))
            && (z in f.touched <==> z != "" && m.snapshot.Some?
                                    && exists file | file in m.snapshot.value.files ::
                                         ZoneOf(file, m.snapshot.value.zones, glob) == Some(z))
            && (actor in PeopleAt(f.credits, z) <==>
                  f.triggered && exists r | r in m.snapshot.value.receipts ::
                    InTime(r, m) && r.actorId == actor && AnswersIn(r, m.snapshot.value, z, glob))
  {
    FactsAreReceipts(m, z, actor, glob);
    if m.snapshot.Some? {
      TouchedMembers(m.snapshot.value, z, glob);
    }
    assert forall r: Receipt :: Eligible(r, m.mergedAt) <==> InTime(r, m);
  }

  /** Somebody is credited in a zone for a merge exactly when a timely receipt of theirs answers there. */
  lemma FactsAreReceipts(m: Merge, z: string, actor: int, glob: (string, string) -> bool)
    ensures actor in PeopleAt(FactsOf(m, glob).credits, z) <==>
              IsGated(m) && Answered(m.snapshot.value.receipts, m, z, actor, glob)
  {
    if IsGated(m) {
      CreditsAreReceipts(m.snapshot.value.receipts, m, z, actor, glob);
    }
  }

  lemma FactsAreProper(m: Merge, glob: (string, string) -> bool)
    ensures Proper(FactsOf(m, glob))
  {
    var f := FactsOf(m, glob);
    forall z | z in f.credits ensures f.credits[z] != {} && z in f.touched && f.attested {
      CreditsAreProper(m.snapshot.value.receipts, m, z, glob);
    }
  }

  lemma JoinsNext(people: map<string, set<int>>, was: map<string, set<int>>, before: set<string>, zone: string, actor: int, z: string)
    requires Joins(PeopleAt(people, z), PeopleAt(was, z), PersonIn(z in before, actor))
    ensures Joins(PeopleAt(people, z), PeopleAt(WithPerson(was, zone, actor), z), PersonIn(z in before + {zone}, actor))
  {
    WithPersonAt(was, zone, actor, z);
  }

  method FindAnchorZone(anchor: string, s: Measured, glob: (string, string) -> bool) returns (zone: Option<string>)
    ensures zone == ZoneOfAnchor(anchor, s, glob)
  {
    var parsed := ParseAnchor(anchor);
    if parsed.None? {
      return None;
    }
    zone := FindZone(parsed.value.0, s.zones, glob);
    if zone.Some? && zone.value !in Touched(s, glob) {
      zone := None;
    }
  }

  /** `more` is `people` with this actor in the credited zones. */
  ghost predicate CreditedIn(people: map<string, set<int>>, more: map<string, set<int>>, credited: set<string>, actor: int) {
    forall z :: Joins(PeopleAt(people, z), PeopleAt(more, z), PersonIn(z in credited, actor))
  }

  lemma CreditedNext(people: map<string, set<int>>, was: map<string, set<int>>, credited: set<string>, zone: string, actor: int)
    requires CreditedIn(people, was, credited, actor)
    ensures CreditedIn(people, WithPerson(was, zone, actor), credited + {zone}, actor)
  {
    forall z ensures Joins(PeopleAt(people, z), PeopleAt(WithPerson(was, zone, actor), z), PersonIn(z in credited + {zone}, actor)) {
      JoinsNext(people, was, credited, zone, actor, z);
    }
  }

  lemma AnchorZonesNext(anchors: seq<string>, k: nat, s: Measured, glob: (string, string) -> bool)
    requires k < |anchors|
    ensures var z := ZoneOfAnchor(anchors[k], s, glob); var before := AnchorZones(anchors[..k], s, glob);
            AnchorZones(anchors[..k + 1], s, glob) == if z.Some? then before + {z.value} else before
  {
    assert anchors[..k + 1][..k] == anchors[..k];
  }

  /** The innermost loop: the answers of one eligible receipt. */
  method CreditReceipt(r: Receipt, s: Measured, people: map<string, set<int>>, glob: (string, string) -> bool)
    returns (credited: set<string>, more: map<string, set<int>>)
    ensures credited == AnchorZones(r.anchors, s, glob) && CreditedIn(people, more, credited, r.actorId)
  {
    credited, more := {}, people;
    for k := 0 to |r.anchors|
      invariant credited == AnchorZones(r.anchors[..k], s, glob) && CreditedIn(people, more, credited, r.actorId)
    {
      AnchorZonesNext(r.anchors, k, s, glob);
      var zone := FindAnchorZone(r.anchors[k], s, glob);
      if zone.Some? {
        CreditedNext(people, more, credited, zone.value, r.actorId);
        credited := credited + {zone.value};
        more := WithPerson(more, zone.value, r.actorId);
      }
    }
    assert r.anchors[..|r.anchors|] == r.anchors;
  }

  lemma CreditsNext(receipts: seq<Receipt>, k: nat, m: Merge, z: string, glob: (string, string) -> bool)
    requires m.snapshot.Some? && k < |receipts|
    ensures var zones := AnchorZones(receipts[k].anchors, m.snapshot.value, glob);
            PeopleAt(Credits(receipts[..k + 1], m, glob), z) ==
            PeopleAt(Credits(receipts[..k], m, glob), z)
            + PersonIn(Eligible(receipts[k], m.mergedAt) && z in zones, receipts[k].actorId)
  {
    assert receipts[..k + 1][..k] == receipts[..k];
    JoinedAt(Credits(receipts[..k], m, glob), AnchorZones(receipts[k].anchors, m.snapshot.value, glob), receipts[k].actorId, z);
  }

  method CreditMerge(m: Merge, people: map<string, set<int>>, glob: (string, string) -> bool)
    returns (more: map<string, set<int>>)
    requires m.snapshot.Some?
    ensures CreditedSo(people, more, Credits(m.snapshot.value.receipts, m, glob))
  {
    more := people;
    var receipts := m.snapshot.value.receipts;
    for k := 0 to |receipts|
      invariant CreditedSo(people, more, Credits(receipts[..k], m, glob))
    {
      ghost var was := more;
      ghost var zones := {};
      if Eligible(receipts[k], m.mergedAt) {
        var credited;
        credited, more := CreditReceipt(receipts[k], m.snapshot.value, more, glob);
        zones := credited;
      }
      forall z ensures Joins(PeopleAt(people, z), PeopleAt(more, z), PeopleAt(Credits(receipts[..k + 1], m, glob), z)) {
        CreditsNext(receipts, k, m, z, glob);
        assert Joins(PeopleAt(people, z), PeopleAt(was, z), PeopleAt(Credits(receipts[..k], m, glob), z));
        if Eligible(receipts[k], m.mergedAt) {
          assert Joins(PeopleAt(was, z), PeopleAt(more, z), PersonIn(z in zones, receipts[k].actorId));
        }
      }
    }
    assert receipts[..|receipts|] == receipts;
  }

  function AllFacts(merges: seq<Merge>, glob: (string, string) -> bool): seq<Facts<string>> {
    if merges == [] then [] else AllFacts(merges[..|merges| - 1], glob) + [FactsOf(merges[|merges| - 1], glob)]
  }

  lemma {:induction false} AllFactsAreProper(merges: seq<Merge>, glob: (string, string) -> bool)
    ensures AllProper(AllFacts(merges, glob))
  {
    if merges != [] {
      AllFactsAreProper(merges[..|merges| - 1], glob);
      FactsAreProper(merges[|merges| - 1], glob);
    }
  }

  /** One turn of the loop of `dashboard`. */
  method CountOne(m: Merge, f: Facts<string>, live: map<string, Counts>, people: map<string, set<int>>,
                  glob: (string, string) -> bool)
    returns (rows: map<string, Counts>, more: map<string, set<int>>)
    requires f == FactsOf(m, glob) && Proper(f)
    ensures rows.Keys == live.Keys + f.touched
    ensures forall z :: CountedAt(f, live, rows, people, more, z)
  {
    rows, more := live, people;
    if f.measured {
      rows := CountMerge(f, live);
    }
    if f.triggered {
      more := CreditMerge(m, people, glob);
    } else {
      Uncredited(f, people);
    }
    forall z ensures CountedAt(f, live, rows, people, more, z) {
      if !f.measured {
        Uncounted(f, live, z);
      }
      CountedFrom(f, live, rows, people, more, z);
    }
    if !f.measured {
      Uncounted(f, live, "");
    }
  }

  /** The loop of `dashboard` over all merges. */
  method CountMerges(merges: seq<Merge>, glob: (string, string) -> bool)
    returns (t: Totals, live: map<string, Counts>, people: map<string, set<int>>)
    ensures t == Totaled(AllFacts(merges, glob)) && AllProper(AllFacts(merges, glob))
    ensures forall z :: TalliedAt(live, people, AllFacts(merges, glob), z)
  {
    t, live, people := Totals(0, 0, 0, 0, 0, 0), map[], map[];
    ghost var facts: seq<Facts<string>> := [];
    for k := 0 to |merges|
      invariant facts == AllFacts(merges[..k], glob)
      invariant t == Totaled(facts) && forall z :: TalliedAt(live, people, facts, z)
    {
      assert merges[..k + 1][..k] == merges[..k];
      var f := FactsOf(merges[k], glob);
      FactsAreProper(merges[k], glob);
      var rows, more := CountOne(merges[k], f, live, people, glob);
      forall z ensures TalliedAt(rows, more, facts + [f], z) {
        TalliedMore(live, people, rows, more, facts, f, z);
      }
      TallyMore(facts, f, "");
      t := CountTotals(t, f);
      live, people, facts := rows, more, facts + [f];
    }
    assert merges[..|merges|] == merges;
    AllFactsAreProper(merges, glob);
  }
}
