/** What a successful export says, row by row of the database and with every condition written out. */
module SnapshotMeaning {
  import opened Base
  import opened Text
  import opened Ordering
  import opened Schema
  import opened Content
  import opened Workflow
  import opened Editorial
  import opened Projection
  import opened Exporting
  import opened Exporter
  import opened Listing
  import opened Completeness
  import opened Topics
  import opened Publication
  import opened PublicationSafety
  import opened PublicationRuns
  import opened EditorialRuns
  import Graph
  import Undo

  // Readers see this item: it has a publication and is not archived.
  predicate Shown(db: Db, id: int) {
    0 < id <= |db.items| && db.items[id - 1].published != None && db.items[id - 1].archivedAt == None
  }

  // ----- routes -----

  /**
   * The routes of a snapshot are all rows of the path table whose owner is shown, canonical paths and redirects
   * alike, as they are stored and ascending by path.
   */
  lemma RoutesAreThoseOfTheTable(rules: Rules, b: Budget, db: Db, generation: int, s: Snapshot)
    requires Export(rules, b, ViewOf(db), generation) == Ok(s)
    ensures forall p, k, o :: PublicRoute(p, k, o) in s.routes <==>
      p != "" && p in db.routes && db.routes[p].owner == o && db.routes[p].kind == k && Shown(db, o)
    ensures forall i, j | 0 <= i < j < |s.routes| :: PathLess(s.routes[i].path, s.routes[j].path)
  {
    RoutesOf(rules, b, db, generation, s);
    hide Export, RouteRows, PublicRoutes, ViewOf;
    forall p, k, o
      ensures PublicRoute(p, k, o) in s.routes <==>
        p != "" && p in db.routes && db.routes[p].owner == o && db.routes[p].kind == k && Shown(db, o)
    {
      RouteIn(PublicRoutes(db), p, k, o);
      PublicRouteIs(db, p);
    }
    RoutesAscend(PublicRoutes(db));
  }

  lemma RoutesOf(rules: Rules, b: Budget, db: Db, generation: int, s: Snapshot)
    requires Export(rules, b, ViewOf(db), generation) == Ok(s)
    ensures s.routes == RouteRows(PublicRoutes(db))
  {
    hide Acceptable, Rows, Collect, RouteRows, PublicRoutes;
  }

  lemma PublicRouteIs(db: Db, p: string)
    ensures p in PublicRoutes(db) <==> p != "" && p in db.routes && Shown(db, db.routes[p].owner)
    ensures p in PublicRoutes(db) ==> PublicRoutes(db)[p] == db.routes[p]
  {
  }

  lemma RouteIn(routes: map<string, Route>, p: string, k: RouteKind, o: int)
    ensures PublicRoute(p, k, o) in RouteRows(routes) <==> p in routes && routes[p] == Route(o, k)
  {
    var paths, rows := SortedPaths(routes.Keys), RouteRows(routes);
    if PublicRoute(p, k, o) in rows {
      var i :| 0 <= i < |rows| && rows[i] == PublicRoute(p, k, o);
      assert paths[i] in paths;
    }
    if p in routes && routes[p] == Route(o, k) {
      assert p in paths;
      var i :| 0 <= i < |paths| && paths[i] == p;
      assert rows[i] == PublicRoute(p, k, o);
    }
  }

  lemma RoutesAscend(routes: map<string, Route>)
    ensures forall i, j | 0 <= i < j < |RouteRows(routes)| :: PathLess(RouteRows(routes)[i].path, RouteRows(routes)[j].path)
  {
    hide SortedPaths, PathLess;
  }

  /**
   * No link goes dead: a path claimed at any moment of a run is in the snapshot of every later state whose export
   * succeeds and shows its owner, and leads there to the owner's one canonical path.
   */
  lemma ClaimedPathsAreListed(cfg: Config, actions: seq<Action>, i: nat, n: nat, path: string, s: Snapshot)
    requires Lawful(cfg.rules) && i <= n <= |actions| && path in StateAt(cfg, actions, i).db.routes
    requires var db := StateAt(cfg, actions, n).db;
      && Export(cfg.rules, cfg.budget, ViewOf(db), db.generation) == Ok(s)
      && Shown(db, StateAt(cfg, actions, i).db.routes[path].owner)
    ensures var owner := StateAt(cfg, actions, i).db.routes[path].owner;
      && (exists kind :: PublicRoute(path, kind, owner) in s.routes)
      && exists home :: PublicRoute(home, Canonical, owner) in s.routes
                        && forall other | PublicRoute(other, Canonical, owner) in s.routes :: other == home
  {
    hide StateAt, LedgerAt, Inv, Good, Export, ViewOf, ResolveRoute;
    PathsArePermanent(cfg, actions, i, n, path);
    var db := StateAt(cfg, actions, n).db;
    RoutesAreThoseOfTheTable(cfg.rules, cfg.budget, db, db.generation, s);
    var owner := StateAt(cfg, actions, i).db.routes[path].owner;
    RunInv(cfg, actions, n);
    Parts(cfg, LedgerAt(cfg, actions, n), StateAt(cfg, actions, n));
    HomeInTable(cfg.rules, db, path);
    assert PublicRoute(path, db.routes[path].kind, owner) in s.routes;
    var home :| OnlyHome(db.routes, owner, home);
    assert PublicRoute(home, Canonical, owner) in s.routes;
  }

  // The one canonical path of an owner.
  ghost predicate OnlyHome(routes: map<string, Route>, owner: int, home: string) {
    && home != "" && home in routes && routes[home] == Route(owner, Canonical)
    && forall other | other in routes && routes[other] == Route(owner, Canonical) :: other == home
  }

  lemma HomeInTable(rules: Rules, db: Db, path: string)
    requires Good(rules, db) && path in db.routes
    ensures path != ""
    ensures exists home :: OnlyHome(db.routes, db.routes[path].owner, home)
  {
    hide ItemsOk, RevisionsOk, TaxonomyOk, Homed;
    assert HasHome(db.routes, db.routes[path].owner);
    var home :| IsHome(db.routes, db.routes[path].owner, home);
    assert OnlyHome(db.routes, db.routes[path].owner, home);
  }

  // ----- documents -----

  // The public address of a revision, spelled out.
  function Address(kind: Kind, slug: string, payload: Payload): string {
    match kind
    case CuratedArticle => "/articles/" + slug + "/"
    case Post => "/posts/" + slug + "/"
    case Topic => "/topics/" + slug + "/"
    case Note => "/notes/" + (if payload.NotePayload? then payload.groupSlug else "") + "/" + slug + "/"
  }

  ghost predicate SamePayload(p: PublicPayload, of: Payload) {
    match of
    case PostPayload => p == PublicPost
    case NotePayload(slug, order, _) => p == PublicNote(slug, order)
    case TopicPayload(order, count) => p == PublicTopic(order, count)
    case CuratedPayload(source) => p == PublicCurated(source)
  }

  // A document is the published revision of its item, as the rows have it.
  ghost predicate Tells(db: Db, d: PublicContent) {
    && Shown(db, d.id) && 0 < db.items[d.id - 1].published.value <= |db.revisions|
    && var item, r := db.items[d.id - 1], db.revisions[db.items[d.id - 1].published.value - 1];
       && r.content == d.id && d.kind == item.kind && d.revisionNo == r.no
       && item.firstPublished == Some(d.firstPublished) && item.lastPublished == Some(d.lastPublished)
       && d.prose == r.fields.prose && d.slug == r.fields.slug && d.authorId == r.fields.byline
       && d.featured == r.fields.featured && d.cover == r.fields.cover && SamePayload(d.payload, r.fields.payload)
       && d.english == (match r.fields.english
                        case None => None
                        case Some(e) => if e.enabled then Some(e) else None)
       && d.canonicalPath == Address(item.kind, r.fields.slug, r.fields.payload)
       && (forall t :: t in d.tagIds <==> t in r.tags) && (forall i, j | 0 <= i < j < |d.tagIds| :: d.tagIds[i] < d.tagIds[j])
       && |d.entries| == |r.entries|
       && forall k | 0 <= k < |r.entries| :: d.entries[k].position == k + 1 && d.entries[k].target == r.entries[k]
  }

  // What a document refers to is in the snapshot, as the rows have it.
  ghost predicate Complete(db: Db, s: Snapshot, d: PublicContent) {
    && (exists a :: a in s.authors && a.id == d.authorId && 0 < a.id <= |db.profiles| && a.author == db.profiles[a.id - 1])
    && (d.cover.Some? ==>
          exists a :: a in s.assets && a.id == d.cover.value && 0 < a.id <= |db.assets| && a.card == db.assets[a.id - 1].card)
    && (d.kind.Note? ==>
          && d.payload.PublicNote?
          && exists g :: g in s.groups && g.group.slug == d.payload.groupSlug && 0 < g.id <= |db.groups|
                         && g.group == db.groups[g.id - 1])
    && (forall t | t in d.tagIds :: exists row :: row in s.tags && row.id == t && TagTells(db, row))
    && forall e | e in d.entries :: e.target != d.id && exists c :: c in s.content && c.id == e.target && c.kind.CuratedArticle?
  }

  ghost predicate TagTells(db: Db, row: PublicTag) {
    && 0 < row.id <= |db.tags|
    && var t := db.tags[row.id - 1];
       && row.name == t.name && row.slug == t.slug && row.description == t.description
       && (row.nameEn, row.descriptionEn)
            == match t.english
               case None => ("", "")
               case Some(e) => (e.name, e.description)
  }

  /**
   * A successful export of a good database tells exactly what is shown: every shown item once, by ascending
   * identifier, as its published revision, and everything it refers to, as stored.
   */
  lemma SnapshotTellsAll(rules: Rules, b: Budget, db: Db, generation: int, s: Snapshot)
    requires Good(rules, db) && Export(rules, b, ViewOf(db), generation) == Ok(s)
    ensures forall id :: Shown(db, id) <==> exists k :: 0 <= k < |s.content| && s.content[k].id == id
    ensures forall j, k | 0 <= j < k < |s.content| :: s.content[j].id < s.content[k].id
    ensures forall k | 0 <= k < |s.content| :: Tells(db, s.content[k]) && Complete(db, s, s.content[k])
    ensures s.schemaVersion == 3 && s.generation == generation == db.generation && s.exportedAt == db.updatedAt
  {
    hide Export, Good, ViewOf, Rows, Tells, Complete, Addable, Document, Graph.Closed, RowValid;
    ExportLists(rules, b, db, generation, s);
    Facts(rules, b, db, generation, s);
    var rows := Rows(db, |db.items|);
    forall k | 0 <= k < |s.content|
      ensures Tells(db, s.content[k]) && Complete(db, s, s.content[k])
    {
      RowIs(db, |db.items|, k);
      RowTells(rules, db, rows[k].id - 1);
      DocumentComplete(rules, db, s, k);
    }
    forall id
      ensures Shown(db, id) <==> exists k :: 0 <= k < |s.content| && s.content[k].id == id
    {
      if Shown(db, id) {
        ShownIsExported(rules, db, id);
        RowFound(db, |db.items|, id - 1);
        var k :| 0 <= k < |rows| && rows[k].id == id;
        DocumentId(rows[k]);
        assert s.content[k].id == id;
      }
      if k :| 0 <= k < |s.content| && s.content[k].id == id {
        assert Tells(db, s.content[k]);
        TellsShown(db, s.content[k]);
      }
    }
  }

  /** A successful export keeps every limit: rows, links, and the bytes of the document, at most 128 MiB. */
  lemma SnapshotKeepsLimits(rules: Rules, b: Budget, db: Db, generation: int, s: Snapshot)
    requires Export(rules, b, ViewOf(db), generation) == Ok(s)
    ensures |s.content| <= 10000 && |s.authors| <= 10000 && |s.assets| <= 10000 && |s.groups| <= 10000
    ensures |s.tags| <= 100000 && |s.routes| <= 100000
    ensures b.size(SnapshotDoc(s)) <= 134217728 && (0 < b.maxBytes <= 134217728 ==> b.size(SnapshotDoc(s)) <= b.maxBytes)
  {
    hide RowValid, Rows, Collect, RouteRows, SortBy, PublicRoutes, Graph.GroupsClosed, Graph.ContentClosed, Graph.RoutesClosed;
  }

  lemma DocumentId(row: PublicRow)
    requires Addable(row)
    ensures Document(row).id == row.id
  {
  }

  lemma TellsShown(db: Db, d: PublicContent)
    requires Tells(db, d)
    ensures Shown(db, d.id)
  {
  }

  // The facts of an export besides its lists.
  lemma Facts(rules: Rules, b: Budget, db: Db, generation: int, s: Snapshot)
    requires Export(rules, b, ViewOf(db), generation) == Ok(s)
    ensures s.schemaVersion == 3 && s.generation == generation == db.generation && s.exportedAt == db.updatedAt
    ensures forall k | 0 <= k < |Rows(db, |db.items|)| :: RowValid(rules, Rows(db, |db.items|)[k])
    ensures Graph.Closed(rules, s)
  {
    hide RowValid, Graph.Closed, Rows, Collect, RouteRows, SortBy, Fits, PublicRoutes;
  }

  lemma {:induction false} RowIs(db: Db, n: int, k: int)
    requires 0 <= n <= |db.items| && 0 <= k < |Rows(db, n)|
    ensures var i := Rows(db, n)[k].id - 1; 0 <= i < n && Exported(db, i) && Rows(db, n)[k] == RowOf(db, i)
  {
    hide Fetch, HomePath;
    if n > 0 && k < |Rows(db, n - 1)| {
      RowIs(db, n - 1, k);
      assert Rows(db, n)[k] == Rows(db, n - 1)[k];
    }
  }

  lemma {:induction false} RowFound(db: Db, n: int, i: int)
    requires 0 <= i < n <= |db.items| && Exported(db, i)
    ensures exists k :: 0 <= k < |Rows(db, n)| && Rows(db, n)[k].id == i + 1
  {
    hide Fetch, HomePath;
    if i == n - 1 {
      assert Rows(db, n)[|Rows(db, n - 1)|].id == i + 1;
    } else {
      RowFound(db, n - 1, i);
      var k :| 0 <= k < |Rows(db, n - 1)| && Rows(db, n - 1)[k].id == i + 1;
      assert Rows(db, n)[k].id == i + 1;
    }
  }

  lemma ShownIsExported(rules: Rules, db: Db, id: int)
    requires Good(rules, db) && Shown(db, id)
    ensures Exported(db, id - 1)
  {
    hide RevisionsOk, RoutesOk, TaxonomyOk;
    assert ItemOk(db.items[id - 1], id, db.drafts[id - 1], db.revisions, db.reviews);
  }

  lemma RowTells(rules: Rules, db: Db, i: int)
    requires 0 <= i < |db.items| && Exported(db, i) && Addable(RowOf(db, i)) && RowValid(rules, RowOf(db, i))
    ensures Tells(db, Document(RowOf(db, i)))
  {
    hide FieldsFault, EnglishFault, HomePath, Fetch, ValidSlug;
    var r := At(db.revisions, db.items[i].published.value);
    assert CandidatePath(db.items[i].kind, r.fields) == Ok(Address(db.items[i].kind, r.fields.slug, r.fields.payload));
  }

  lemma DocumentComplete(rules: Rules, db: Db, s: Snapshot, k: int)
    requires Graph.Closed(rules, s) && 0 <= k < |s.content|
    requires exists used :: AuthorsListed(db, s.authors, used)
    requires exists used :: AssetsListed(db, s.assets, used)
    requires exists used :: GroupsListed(db, s.groups, used)
    requires exists used :: TagsListed(db, s.tags, used)
    ensures Complete(db, s, s.content[k])
  {
    var d := s.content[k];
    hide ValidGroup;
    assert Graph.ContentRow(rules, s.content, k, Graph.GroupSlugs(s.groups), Graph.AuthorIds(s.authors), Graph.AssetIds(s.assets),
                            Graph.TagIds(s.tags));
    assert Graph.EntriesClosed(d, Graph.CuratedIds(s.content));
    forall t | t in d.tagIds
      ensures exists row :: row in s.tags && row.id == t && TagTells(db, row)
    {
      assert t in Graph.TagIds(s.tags);
      var row :| row in s.tags && row.id == t;
      assert FetchTag(db.tags, row.id) == Some(row);
    }
  }
}
