/**
 * What an import does to the receipts and publications of a legacy store: receipts are bound to the activated
 * generation, event targets move below the repository's own path, and events that nobody may deliver any more are
 * retired (migration.py, `_plan_legacy_outbox`, `_apply_legacy_outbox`).
 */
module LegacyOutbox {
  import opened Basics
  import opened Texts

  datatype Kind =
    | PendingStatus | NeutralStatus | SuccessStatus | StartComment | SuccessComment | PresentationCard | PresentationCheck
    | VerifierDispatch | PresentationCheckCancel | ClosedProjection

  /** The payload's `target_url`: absent or null, a value that is no string, or a string. */
  datatype Target = NoTarget | Unreadable | Url(url: string)

  /** `rest` stands for everything of the event that an import never touches. */
  datatype Row = Row(
    kind: Kind, pending: bool, generation: Option<int>, target: Target, error: Option<string>, remote: Option<string>,
    rest: string)

  datatype Key = Key(snapshotId: string, version: string, actorId: int, appId: int, installationId: int)

  /** The generation is None when the column holds no integer, and 0 when the legacy table lacks the column. */
  datatype Receipt = Receipt(key: Key, generation: Option<int>)

  /** `origin` is the base URL without its trailing slashes. */
  datatype Context = Context(origin: string, repositoryId: nat, generation: int, appId: int, installationId: int)

  datatype Change = Change(id: string, target: Target, retire: bool, rebind: bool)

  const RETIRED: string := "legacy_import_unscoped_url"
  const SKIPPED: string := "legacy_import_resync_required"

  predicate Presentation(k: Kind) {
    !k.VerifierDispatch? && !k.PresentationCheckCancel? && !k.ClosedProjection?
  }

  function NewOrigin(ctx: Context): string {
    ctx.origin + "/repos/" + ToDecimal(ctx.repositoryId)
  }

  predicate Scoped(url: string, ctx: Context) {
    NewOrigin(ctx) + "/" <= url
  }

  predicate Movable(url: string, ctx: Context) {
    ctx.origin + "/prs/" <= url || ctx.origin + "/receipts/" <= url
  }

  /** `_rebased_payload`: the new target, and whether the event must be retired; None is its error. */
  function Rebased(t: Target, ctx: Context, pending: bool, kind: Kind): Option<(Target, bool)> {
    match t
    case NoTarget => Some((t, false))
    case Unreadable => None
    case Url(url) =>
      if Scoped(url, ctx) then Some((t, false))
      else if Movable(url, ctx) then Some((Url(NewOrigin(ctx) + url[|ctx.origin|..]), false))
      else Some((t, pending && Presentation(kind)))
  }

  // ----- what an import should do -----

  /** A pending event stays so only if the installation is proven and a presentation target can be scoped. */
  predicate Survives(row: Row, ctx: Context, proven: bool) {
    && row.pending && proven
    && (Presentation(row.kind) && row.target.Url? ==> Scoped(row.target.url, ctx) || Movable(row.target.url, ctx))
  }

  function MovedTarget(t: Target, ctx: Context): Target {
    if t.Url? && !Scoped(t.url, ctx) && Movable(t.url, ctx) then Url(NewOrigin(ctx) + t.url[|ctx.origin|..]) else t
  }

  function Settled(row: Row, ctx: Context, proven: bool): Row {
    var moved := row.(target := MovedTarget(row.target, ctx),
                      generation := if row.generation.None? && proven then Some(ctx.generation) else row.generation);
    if row.pending && !Survives(row, ctx, proven) then moved.(pending := false, error := Some(RETIRED), remote := Some(SKIPPED))
    else moved
  }

  function SettledAll(outbox: map<string, Row>, ctx: Context, proven: bool): map<string, Row> {
    map id | id in outbox :: Settled(outbox[id], ctx, proven)
  }

  function Bound(receipts: seq<Receipt>, ctx: Context): seq<Receipt> {
    seq(|receipts|, i requires 0 <= i < |receipts| =>
      if receipts[i].generation == Some(0) then receipts[i].(generation := Some(ctx.generation)) else receipts[i])
  }

  predicate Proven(receipts: seq<Receipt>, ctx: Context) {
    exists i | 0 <= i < |receipts| :: receipts[i].key.appId == ctx.appId && receipts[i].key.installationId == ctx.installationId
  }

  ghost predicate KeysDiffer(receipts: seq<Receipt>) {
    forall i, j | 0 <= i < j < |receipts| :: receipts[i].key != receipts[j].key
  }

  predicate GenerationFits(r: Receipt, ctx: Context) {
    r.generation == Some(0) || r.generation == Some(ctx.generation)
  }

  /** What `_validate_receipt_generations` lets through. */
  ghost predicate Bindable(receipts: seq<Receipt>, ctx: Context) {
    KeysDiffer(receipts) && forall i | 0 <= i < |receipts| :: GenerationFits(receipts[i], ctx)
  }

  predicate RowFits(row: Row, ctx: Context) {
    !row.target.Unreadable? && (row.generation.None? || row.generation == Some(ctx.generation))
  }

  ghost predicate Importable(receipts: seq<Receipt>, outbox: map<string, Row>, ctx: Context) {
    Bindable(receipts, ctx) && forall id | id in outbox :: RowFits(outbox[id], ctx)
  }

  // ----- what that gives -----

  lemma MovedIsScoped(url: string, ctx: Context)
    requires Movable(url, ctx)
    ensures Scoped(NewOrigin(ctx) + url[|ctx.origin|..], ctx)
  {
    var tail := url[|ctx.origin|..];
    if ctx.origin + "/prs/" <= url {
      assert url[|ctx.origin|] == (ctx.origin + "/prs/")[|ctx.origin|];
    } else {
      assert url[|ctx.origin|] == (ctx.origin + "/receipts/")[|ctx.origin|];
    }
    assert tail[0] == '/';
    assert (NewOrigin(ctx) + tail)[..|NewOrigin(ctx)| + 1] == NewOrigin(ctx) + "/";
  }

  /** Whatever is pending after an import belongs to the generation, and a presentation target is below its path. */
  lemma PendingIsBound(row: Row, ctx: Context, proven: bool)
    requires RowFits(row, ctx)
    ensures var n := Settled(row, ctx, proven);
            && (n.pending <==> Survives(row, ctx, proven))
            && (n.pending ==> n.generation == Some(ctx.generation) && n.error == row.error && n.remote == row.remote)
            && (n.pending && Presentation(n.kind) && n.target.Url? ==> Scoped(n.target.url, ctx))
  {
    if row.target.Url? && Movable(row.target.url, ctx) {
      MovedIsScoped(row.target.url, ctx);
    }
  }

  /** An event that had been sent keeps its evidence, and no event loses more than its old origin. */
  lemma EvidenceIsKept(row: Row, ctx: Context, proven: bool)
    ensures var n := Settled(row, ctx, proven);
            && n.kind == row.kind && n.rest == row.rest && (!row.pending ==> !n.pending && n.error == row.error && n.remote == row.remote)
            && (n.target != row.target ==>
                  && row.target.Url? && ctx.origin <= row.target.url
                  && n.target == Url(NewOrigin(ctx) + row.target.url[|ctx.origin|..]))
  {
    if row.target.Url? && Movable(row.target.url, ctx) {
      var url := row.target.url;
      if ctx.origin + "/prs/" <= url {
        assert url[..|ctx.origin|] == (ctx.origin + "/prs/")[..|ctx.origin|] == ctx.origin;
      } else {
        assert url[..|ctx.origin|] == (ctx.origin + "/receipts/")[..|ctx.origin|] == ctx.origin;
      }
    }
  }

  /** The URL is below this path of the service. */
  predicate Below(url: string, origin: string, path: string) {
    origin + path <= url
  }

  /**
   * Everything that an import does to an event: a target below `/prs/` or `/receipts/` moves below the repository's
   * path, a missing generation is filled in for a proven installation, and a pending event is retired, with its
   * reason, when the installation is not proven or a presentation target cannot be scoped.
   */
  lemma SettledMeans(row: Row, ctx: Context, proven: bool)
    ensures var n := Settled(row, ctx, proven); var own := "/repos/" + ToDecimal(ctx.repositoryId);
            var moves := row.target.Url? && !Below(row.target.url, ctx.origin, own + "/")
                         && (Below(row.target.url, ctx.origin, "/prs/") || Below(row.target.url, ctx.origin, "/receipts/"));
            var lost := row.target.Url? && !moves && !Below(row.target.url, ctx.origin, own + "/")
                        && row.kind !in {VerifierDispatch, PresentationCheckCancel, ClosedProjection};
            && n.kind == row.kind && n.rest == row.rest
            && n.target == (if moves then Url(ctx.origin + own + row.target.url[|ctx.origin|..]) else row.target)
            && n.generation == (if row.generation.None? && proven then Some(ctx.generation) else row.generation)
            && (n.pending <==> row.pending && proven && !lost)
            && (row.pending && !n.pending ==>
                  n.error == Some("legacy_import_unscoped_url") && n.remote == Some("legacy_import_resync_required"))
            && (row.pending == n.pending ==> n.error == row.error && n.remote == row.remote)
  {
    var own := "/repos/" + ToDecimal(ctx.repositoryId);
    Texts.Reassociate(ctx.origin, "/repos/", ToDecimal(ctx.repositoryId));
    Texts.Reassociate(ctx.origin, own, "/");
    assert NewOrigin(ctx) == ctx.origin + own;
    assert NewOrigin(ctx) + "/" == ctx.origin + (own + "/");
  }

  lemma SettledTwice(row: Row, ctx: Context, proven: bool)
    ensures Settled(Settled(row, ctx, proven), ctx, proven) == Settled(row, ctx, proven)
  {
    if row.target.Url? && Movable(row.target.url, ctx) {
      MovedIsScoped(row.target.url, ctx);
    }
  }

  /** Receipts can be bound exactly when their full keys stay unique in the one generation. */
  lemma BoundStayUniqueIff(receipts: seq<Receipt>, ctx: Context)
    requires forall i | 0 <= i < |receipts| :: GenerationFits(receipts[i], ctx)
    ensures (forall i, j | 0 <= i < j < |receipts| :: Bound(receipts, ctx)[i] != Bound(receipts, ctx)[j]) <==> KeysDiffer(receipts)
    ensures forall i | 0 <= i < |receipts| :: Bound(receipts, ctx)[i] == Receipt(receipts[i].key, Some(ctx.generation))
  {
    var bound := Bound(receipts, ctx);
    forall i | 0 <= i < |receipts| ensures bound[i] == Receipt(receipts[i].key, Some(ctx.generation)) {
      assert GenerationFits(receipts[i], ctx);
    }
    if !KeysDiffer(receipts) {
      var i, j :| 0 <= i < j < |receipts| && receipts[i].key == receipts[j].key;
      assert bound[i] == bound[j];
    }
  }

  /** Exactly which stores can be imported. */
  lemma ImportableIff(receipts: seq<Receipt>, outbox: map<string, Row>, ctx: Context)
    ensures Importable(receipts, outbox, ctx) <==>
              && (forall i | 0 <= i < |receipts| :: receipts[i].generation in {Some(0), Some(ctx.generation)})
              && (forall i, j | 0 <= i < |receipts| && 0 <= j < |receipts| && i != j :: receipts[i].key != receipts[j].key)
              && (forall id | id in outbox :: outbox[id].generation in {None, Some(ctx.generation)} && !outbox[id].target.Unreadable?)
    ensures (forall i | 0 <= i < |receipts| :: receipts[i].generation in {Some(0), Some(ctx.generation)}) <==>
              forall i | 0 <= i < |receipts| :: GenerationFits(receipts[i], ctx)
  {
    if forall i | 0 <= i < |receipts| :: receipts[i].generation in {Some(0), Some(ctx.generation)} {
      forall i | 0 <= i < |receipts| ensures GenerationFits(receipts[i], ctx) {
        assert receipts[i].generation in {Some(0), Some(ctx.generation)};
      }
    }
    if forall id | id in outbox :: outbox[id].generation in {None, Some(ctx.generation)} && !outbox[id].target.Unreadable? {
      forall id | id in outbox ensures RowFits(outbox[id], ctx) {
        assert outbox[id].generation in {None, Some(ctx.generation)};
      }
    }
    if Importable(receipts, outbox, ctx) {
      forall i | 0 <= i < |receipts| ensures receipts[i].generation in {Some(0), Some(ctx.generation)} {
        assert GenerationFits(receipts[i], ctx);
      }
      forall id | id in outbox ensures outbox[id].generation in {None, Some(ctx.generation)} && !outbox[id].target.Unreadable? {
        assert RowFits(outbox[id], ctx);
      }
    }
  }

  /** A store proves its installation by one receipt of this App and installation. */
  lemma ProvenIff(receipts: seq<Receipt>, ctx: Context)
    ensures Proven(receipts, ctx) <==> exists r | r in receipts :: r.key.appId == ctx.appId && r.key.installationId == ctx.installationId
  {
    if Proven(receipts, ctx) {
      var i :| 0 <= i < |receipts| && receipts[i].key.appId == ctx.appId && receipts[i].key.installationId == ctx.installationId;
      assert receipts[i] in receipts;
    }
  }

  lemma BoundIsBindable(receipts: seq<Receipt>, ctx: Context)
    requires Bindable(receipts, ctx)
    ensures Bindable(Bound(receipts, ctx), ctx) && Bound(Bound(receipts, ctx), ctx) == Bound(receipts, ctx)
    ensures Proven(Bound(receipts, ctx), ctx) <==> Proven(receipts, ctx)
  {
    BoundStayUniqueIff(receipts, ctx);
    var bound := Bound(receipts, ctx);
    if Proven(receipts, ctx) {
      var i :| 0 <= i < |receipts| && receipts[i].key.appId == ctx.appId && receipts[i].key.installationId == ctx.installationId;
      assert bound[i].key == receipts[i].key;
    }
  }

  /** An imported store can be imported again, and that changes nothing. */
  lemma ImportedIsStable(receipts: seq<Receipt>, outbox: map<string, Row>, ctx: Context)
    requires Importable(receipts, outbox, ctx)
    ensures var bound, settled := Bound(receipts, ctx), SettledAll(outbox, ctx, Proven(receipts, ctx));
            && Importable(bound, settled, ctx)
            && Bound(bound, ctx) == bound && SettledAll(settled, ctx, Proven(bound, ctx)) == settled
  {
    BoundIsBindable(receipts, ctx);
    var proven := Proven(receipts, ctx);
    var settled := SettledAll(outbox, ctx, proven);
    forall id | id in outbox ensures RowFits(settled[id], ctx) && Settled(settled[id], ctx, proven) == settled[id] {
      assert RowFits(outbox[id], ctx);
      SettledTwice(outbox[id], ctx, proven);
    }
  }

  // ----- the plan -----

  /** The change that a row needs, if it needs one. */
  function ChangeOf(id: string, row: Row, ctx: Context, proven: bool): Option<Change>
    requires RowFits(row, ctx)
  {
    var (target, unscoped) := Rebased(row.target, ctx, row.pending, row.kind).value;
    var retire := unscoped || (!proven && row.pending);
    if target != row.target || row.generation.None? || retire then
      Some(Change(id, target, retire, row.generation.None? && proven))
    else None
  }

  /** One `UPDATE` of the plan. */
  function Updated(row: Row, c: Change, ctx: Context): Row {
    Row(row.kind, row.pending && !c.retire, if c.rebind then Some(ctx.generation) else row.generation, c.target,
        if c.retire then Some(RETIRED) else row.error, if c.retire then Some(SKIPPED) else row.remote, row.rest)
  }

  lemma ChangeSettles(id: string, row: Row, ctx: Context, proven: bool)
    requires RowFits(row, ctx)
    ensures match ChangeOf(id, row, ctx, proven)
            case Some(c) => c.id == id && Updated(row, c, ctx) == Settled(row, ctx, proven)
            case None => row == Settled(row, ctx, proven)
  {
  }

  /** A change is planned exactly for the rows that change, and for those whose generation is missing. */
  lemma ChangeIff(id: string, row: Row, ctx: Context, proven: bool)
    requires RowFits(row, ctx)
    ensures ChangeOf(id, row, ctx, proven).Some? <==> row.generation.None? || Settled(row, ctx, proven) != row
  {
    if row.target.Url? && Movable(row.target.url, ctx) {
      MovedIsScoped(row.target.url, ctx);
    }
  }

  /** The first so many changes of a plan, applied. */
  function AppliedTo(outbox: map<string, Row>, changes: seq<Change>, ctx: Context): map<string, Row> {
    if changes == [] then outbox
    else
      var before, c := AppliedTo(outbox, changes[..|changes| - 1], ctx), changes[|changes| - 1];
      if c.id in before then before[c.id := Updated(before[c.id], c, ctx)] else before
  }

  /** A plan for the rows of `order` so far: every change that one of them needs, once, in that order. */
  function PlanOf(outbox: map<string, Row>, order: seq<string>, ctx: Context, proven: bool): seq<Change>
    requires forall id | id in order :: id in outbox && RowFits(outbox[id], ctx)
  {
    if order == [] then []
    else
      var before, id := PlanOf(outbox, order[..|order| - 1], ctx, proven), order[|order| - 1];
      match ChangeOf(id, outbox[id], ctx, proven)
      case Some(c) => before + [c]
      case None => before
  }

  /** The plan, applied, settles the rows that it was made for and leaves all others. */
  lemma {:induction false} PlanSettles(outbox: map<string, Row>, order: seq<string>, ctx: Context, proven: bool, id: string)
    requires forall x | x in order :: x in outbox && RowFits(outbox[x], ctx)
    requires forall i, j | 0 <= i < j < |order| :: order[i] != order[j]
    ensures var after := AppliedTo(outbox, PlanOf(outbox, order, ctx, proven), ctx);
            && after.Keys == outbox.Keys
            && (id in outbox ==> after[id] == if id in order then Settled(outbox[id], ctx, proven) else outbox[id])
  {
    if order != [] {
      var front, last := order[..|order| - 1], order[|order| - 1];
      assert order == front + [last];
      var before := PlanOf(outbox, front, ctx, proven);
      PlanSettles(outbox, front, ctx, proven, id);
      PlanSettles(outbox, front, ctx, proven, last);
      ChangeSettles(last, outbox[last], ctx, proven);
      var change := ChangeOf(last, outbox[last], ctx, proven);
      if change.Some? {
        assert (before + [change.value])[..|before|] == before;
      }
    }
  }

  ghost predicate Lists(order: seq<string>, ids: set<string>) {
    && (forall id :: id in order <==> id in ids)
    && (forall i, j | 0 <= i < j < |order| :: order[i] != order[j])
  }

  class StagedStore {
    var receipts: seq<Receipt>
    var outbox: map<string, Row>

    constructor (receipts: seq<Receipt>, outbox: map<string, Row>)
      ensures this.receipts == receipts && this.outbox == outbox
    {
      this.receipts, this.outbox := receipts, outbox;
    }

    /** `_validate_receipt_generations`: the loop, then the query for keys that occur twice. */
    method ValidateReceiptGenerations(ctx: Context) returns (ok: bool)
      ensures ok <==> Bindable(receipts, ctx)
    {
      for k := 0 to |receipts|
        invariant forall i | 0 <= i < k :: GenerationFits(receipts[i], ctx)
      {
        if !GenerationFits(receipts[k], ctx) {
          return false;
        }
      }
      var keys: set<Key> := {};
      for k := 0 to |receipts|
        invariant forall x :: x in keys <==> exists i :: 0 <= i < k && receipts[i].key == x
        invariant forall i, j | 0 <= i < j < k :: receipts[i].key != receipts[j].key
      {
        if receipts[k].key in keys {
          return false;
        }
        keys := keys + {receipts[k].key};
      }
      return true;
    }

    /** `_plan_legacy_outbox` over the events in the order of their ids. */
    method PlanLegacyOutbox(ctx: Context, order: seq<string>) returns (plan: Option<seq<Change>>)
      requires Lists(order, outbox.Keys)
      ensures plan.Some? <==> Importable(receipts, outbox, ctx)
      ensures plan.Some? ==> plan.value == PlanOf(outbox, order, ctx, Proven(receipts, ctx))
    {
      var ok := ValidateReceiptGenerations(ctx);
      if !ok {
        return None;
      }
      var proven := Proven(receipts, ctx);
      var changes: seq<Change> := [];
      for k := 0 to |order|
        invariant forall id | id in order[..k] :: id in outbox && RowFits(outbox[id], ctx)
        invariant changes == PlanOf(outbox, order[..k], ctx, proven)
      {
        assert order[..k + 1][..k] == order[..k] && order[k] in order;
        var row := outbox[order[k]];
        if row.generation.Some? && row.generation.value != ctx.generation {
          return None;
        }
        var rebased := Rebased(row.target, ctx, row.pending, row.kind);
        if rebased.None? {
          return None;
        }
        var (target, unscoped) := rebased.value;
        var retire := unscoped || (!proven && row.pending);
        if target != row.target || row.generation.None? || retire {
          changes := changes + [Change(order[k], target, retire, row.generation.None? && proven)];
        }
      }
      assert order[..|order|] == order;
      return Some(changes);
    }

    /** `_apply_legacy_outbox`: one transaction, so a refusal leaves the store as it was. */
    method ApplyLegacyOutbox(changes: seq<Change>, ctx: Context) returns (ok: bool)
      modifies this
      ensures ok <==> old(Bindable(receipts, ctx))
      ensures !ok ==> receipts == old(receipts) && outbox == old(outbox)
      ensures ok ==> receipts == Bound(old(receipts), ctx) && outbox == AppliedTo(old(outbox), changes, ctx)
    {
      ok := ValidateReceiptGenerations(ctx);
      if !ok {
        return;
      }
      receipts := Bound(receipts, ctx);
      for k := 0 to |changes|
        invariant receipts == Bound(old(receipts), ctx)
        invariant outbox == AppliedTo(old(outbox), changes[..k], ctx)
      {
        assert changes[..k + 1][..k] == changes[..k];
        var c := changes[k];
        if c.id in outbox {
          outbox := outbox[c.id := Updated(outbox[c.id], c, ctx)];
        }
      }
      assert changes[..|changes|] == changes;
    }

    /** Planning and applying, as an import does it on its staged copy: all rows are settled, or nothing changes. */
    method RebindStore(ctx: Context, order: seq<string>) returns (ok: bool)
      requires Lists(order, outbox.Keys)
      modifies this
      ensures ok <==> old(Importable(receipts, outbox, ctx))
      ensures !ok ==> receipts == old(receipts) && outbox == old(outbox)
      ensures ok ==> receipts == Bound(old(receipts), ctx) && outbox == SettledAll(old(outbox), ctx, Proven(old(receipts), ctx))
    {
      var plan := PlanLegacyOutbox(ctx, order);
      if plan.None? {
        return false;
      }
      ghost var proven := Proven(receipts, ctx);
      ghost var before := outbox;
      ok := ApplyLegacyOutbox(plan.value, ctx);
      forall id | id in before ensures id in outbox && outbox[id] == Settled(before[id], ctx, proven) {
        PlanSettles(before, order, ctx, proven, id);
      }
      PlanSettles(before, order, ctx, proven, "");
      assert outbox == SettledAll(before, ctx, proven);
    }
  }
}
