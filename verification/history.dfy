/** What the content tables look like after any run: append-only rows, permanent paths, agreeing pointers. */
module EditorialRuns {
  import opened Base
  import opened Ordering
  import opened Schema
  import opened Content
  import opened Workflow
  import opened Editorial
  import opened CommandProofs
  import opened Projection
  import opened Completeness
  import opened Publication
  import opened PublicationSafety
  import opened PublicationRuns

  lemma StepGrows(cfg: Config, ledger: Ledger, s: Sys, a: Action)
    requires Inv(cfg, ledger, s) && Lawful(cfg.rules)
    ensures Grows(s.db, Step(cfg, s, a).db)
  {
    hide After, Good, ViewOf, LedgerOk, AllJobsOk, LatestOk, LogOk, ObjectsOk, StageOk, WorkStep, RetryStep, Grows;
    match a
    case Do(u, c, now) =>
      StepGood(cfg.rules, s.db, u, c, now);
      GrowsSame(s.db, s.db);
    case Work(o, now) =>
      GrowsSame(s.db, WorkStep(cfg, s, o, now).db);
    case Retry(u, id, _) =>
      GrowsSame(s.db, RetryStep(s, u, id).db);
    case Crash => GrowsSame(s.db, s.db);
  }

  lemma GrowsSame(a: Db, b: Db)
    requires b == a.(jobs := b.jobs) && |a.jobs| <= |b.jobs|
    ensures Grows(a, b)
  {
  }

  /** Rows are only ever added: items keep owner and kind, revisions and reviews never change, paths never move. */
  lemma {:induction false} RowsOnlyGrow(cfg: Config, actions: seq<Action>, i: nat, j: nat)
    requires Lawful(cfg.rules) && i <= j <= |actions|
    ensures Grows(StateAt(cfg, actions, i).db, StateAt(cfg, actions, j).db)
    decreases j
  {
    hide Inv, Step, StateAt, Extend, Grows;
    if i == j {
      GrowsSame(StateAt(cfg, actions, i).db, StateAt(cfg, actions, i).db);
    } else {
      RowsOnlyGrow(cfg, actions, i, j - 1);
      RunInv(cfg, actions, j - 1);
      NextState(cfg, actions, j - 1);
      StepGrows(cfg, LedgerAt(cfg, actions, j - 1), StateAt(cfg, actions, j - 1), actions[j - 1]);
      GrowsTransitive(StateAt(cfg, actions, i).db, StateAt(cfg, actions, j - 1).db, StateAt(cfg, actions, j).db);
    }
  }

  /**
   * In every reachable state: under review exactly when a pending revision exists, which then holds the draft's
   * material and has no review; in step with the publication only with the published material; archived means
   * neither pending nor published.
   */
  lemma DraftsAgree(cfg: Config, actions: seq<Action>, n: nat, i: nat)
    requires Lawful(cfg.rules) && n <= |actions| && i < |StateAt(cfg, actions, n).db.items|
    ensures var db := StateAt(cfg, actions, n).db;
      |db.drafts| == |db.items| && ItemOk(db.items[i], i + 1, db.drafts[i], db.revisions, db.reviews)
  {
    hide StateAt, ViewOf, LedgerAt, StageOk, LatestOk, ObjectsOk, LedgerOk, AllJobsOk, LogOk, RevisionsOk, RoutesOk;
    RunInv(cfg, actions, n);
  }

  datatype Resolution = Resolution(owner: int, kind: RouteKind, canonicalPath: string)

  // A path joined with the canonical path of the content that owns it.
  function ResolveRoute(db: Db, path: string): Option<Resolution> {
    if path !in db.routes || !Row(db.items, db.routes[path].owner) then None
    else
      match HomePath(db.routes, db.routes[path].owner)
      case None => None
      case Some(home) => Some(Resolution(db.routes[path].owner, db.routes[path].kind, home))
  }

  lemma ResolvesOnce(db: Db, path: string)
    requires RoutesOk(db) && path in db.routes
    ensures ResolveRoute(db, path).Some?
    ensures var r := ResolveRoute(db, path).value;
      && r.owner == db.routes[path].owner
      && (db.routes[path].kind.Canonical? <==> r.canonicalPath == path)
      && ResolveRoute(db, r.canonicalPath) == Some(Resolution(r.owner, Canonical, r.canonicalPath))
  {
    var id := db.routes[path].owner;
    assert HasHome(db.routes, id);
    var q :| IsHome(db.routes, id, q);
    HomeIsPath(db.routes, id, q);
  }

  /**
   * A path once claimed stays with its owner for ever and resolves in one hop to the owner's only canonical
   * path, which for published content is the path of the published revision.
   */
  lemma PathsArePermanent(cfg: Config, actions: seq<Action>, i: nat, n: nat, path: string)
    requires Lawful(cfg.rules) && i <= n <= |actions| && path in StateAt(cfg, actions, i).db.routes
    ensures var was, db := StateAt(cfg, actions, i).db, StateAt(cfg, actions, n).db;
      && path in db.routes && db.routes[path].owner == was.routes[path].owner
      && var r := ResolveRoute(db, path);
         && r.Some? && r.value.owner == was.routes[path].owner
         && ResolveRoute(db, r.value.canonicalPath) == Some(Resolution(r.value.owner, Canonical, r.value.canonicalPath))
         && Row(db.items, r.value.owner)
         && (At(db.items, r.value.owner).published.Some? ==>
               && Row(db.revisions, At(db.items, r.value.owner).published.value)
               && CandidatePath(At(db.items, r.value.owner).kind, At(db.revisions, At(db.items, r.value.owner).published.value).fields)
                    == Ok(r.value.canonicalPath))
  {
    hide StateAt, LedgerAt, Inv, Good, ItemOk, RevisionOk, CandidatePath, ResolveRoute;
    RowsOnlyGrow(cfg, actions, i, n);
    RunInv(cfg, actions, n);
    var db := StateAt(cfg, actions, n).db;
    Parts(cfg, LedgerAt(cfg, actions, n), StateAt(cfg, actions, n));
    GoodParts(cfg.rules, db);
    ResolvesOnce(db, path);
    PublishedHome(cfg.rules, db, path);
  }

  lemma PublishedHome(rules: Rules, db: Db, path: string)
    requires Good(rules, db) && path in db.routes && ResolveRoute(db, path).Some?
    ensures var r := ResolveRoute(db, path).value;
      && Row(db.items, r.owner)
      && (At(db.items, r.owner).published.Some? ==>
            && Row(db.revisions, At(db.items, r.owner).published.value)
            && CandidatePath(At(db.items, r.owner).kind, At(db.revisions, At(db.items, r.owner).published.value).fields)
                 == Ok(r.canonicalPath))
  {
    hide FieldsFault, CandidatePath, TaxonomyOk;
    var id := db.routes[path].owner;
    var c := At(db.items, id);
    assert ItemOk(c, id, db.drafts[id - 1], db.revisions, db.reviews) && Homed(db, id - 1);
    if c.published.Some? {
      var r := At(db.revisions, c.published.value);
      assert RevisionOk(rules, db, r);
      HomeIsPath(db.routes, id, CandidatePath(c.kind, r.fields).value);
    }
  }
}
