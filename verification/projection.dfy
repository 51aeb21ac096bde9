/** The published view: everything the exporter reads, and why a generation number determines it. */
module Projection {
  import opened Base
  import opened Ordering
  import opened Schema
  import opened Content
  import opened Workflow

  // The rows one published revision pulls in: profile, cover, note group and tags.
  datatype Joins = Joins(author: Option<Author>, card: Option<string>, group: Option<PublicGroup>,
                         tags: seq<Option<PublicTag>>)

  // One row of ExportPublishedContent together with the lookups made for it.
  datatype PublicRow = PublicRow(id: int, kind: Kind, firstPublished: Option<int>, lastPublished: Option<int>,
                                 revision: Revision, canonicalPath: Option<string>, joins: Joins)

  datatype View = View(generation: int, updatedAt: int, ready: bool, expected: int,
                       rows: seq<PublicRow>, routes: map<string, Route>)

  function FetchTag(tags: seq<Tag>, id: int): Option<PublicTag> {
    if !Row(tags, id) then None
    else
      var t := At(tags, id);
      match t.english
      case None => Some(PublicTag(id, t.name, t.slug, t.description, "", ""))
      case Some(e) => Some(PublicTag(id, t.name, t.slug, t.description, e.name, e.description))
  }

  function FetchGroup(groups: seq<Group>, p: Payload): Option<PublicGroup> {
    if !p.NotePayload? then None
    else
      match FindGroup(groups, p.groupSlug)
      case None => None
      case Some(id) => Some(PublicGroup(id, At(groups, id)))
  }

  function Fetch(db: Db, kind: Kind, r: Revision): Joins {
    var ids := SortedIds(r.tags);
    Joins(if Row(db.profiles, r.fields.byline) then Some(At(db.profiles, r.fields.byline)) else None,
          if r.fields.cover.Some? && Row(db.assets, r.fields.cover.value)
          then Some(At(db.assets, r.fields.cover.value).card) else None,
          if kind.Note? then FetchGroup(db.groups, r.fields.payload) else None,
          seq(|ids|, i requires 0 <= i < |ids| => FetchTag(db.tags, ids[i])))
  }

  function Homes(routes: map<string, Route>, id: int): set<string> {
    set p | p in routes && routes[p] == Route(id, Canonical)
  }

  // (SELECT path FROM content_routes WHERE content_id = c.id AND kind = 'canonical')
  function HomePath(routes: map<string, Route>, id: int): Option<string> {
    var homes := Homes(routes, id);
    PathOrder();
    if homes == {} then None else Some(Least(PathLess, homes))
  }

  // Published, not archived, and joined with a revision of its own.
  predicate Exported(db: Db, i: int)
    requires 0 <= i < |db.items|
  {
    var c := db.items[i];
    Public(c) && Row(db.revisions, c.published.value) && At(db.revisions, c.published.value).content == i + 1
  }

  function RowOf(db: Db, i: int): PublicRow
    requires 0 <= i < |db.items| && Exported(db, i)
  {
    var c := db.items[i];
    var r := At(db.revisions, c.published.value);
    PublicRow(i + 1, c.kind, c.firstPublished, c.lastPublished, r, HomePath(db.routes, i + 1), Fetch(db, c.kind, r))
  }

  // The exported rows among the first n items, ascending by id.
  function Rows(db: Db, n: int): (rows: seq<PublicRow>)
    requires 0 <= n <= |db.items|
    ensures |rows| <= n
  {
    if n == 0 then []
    else if Exported(db, n - 1) then Rows(db, n - 1) + [RowOf(db, n - 1)]
    else Rows(db, n - 1)
  }

  function CountPublic(items: seq<Item>): (n: nat)
    ensures n <= |items|
  {
    if items == [] then 0
    else CountPublic(items[..|items| - 1]) + if Public(items[|items| - 1]) then 1 else 0
  }

  // ... WHERE r.path > after, and the first cursor is the empty path.
  function PublicRoutes(db: Db): map<string, Route> {
    map p | p in db.routes && p != "" && Row(db.items, db.routes[p].owner) && Public(At(db.items, db.routes[p].owner))
      :: db.routes[p]
  }

  function ViewOf(db: Db): View {
    View(db.generation, db.updatedAt, db.ready, CountPublic(db.items), Rows(db, |db.items|), PublicRoutes(db))
  }

  // ----- when two databases show the same thing -----

  ghost predicate SameItem(a: Item, b: Item) {
    && Public(a) == Public(b)
    && (Public(a) ==> a.kind == b.kind && a.published == b.published
                      && a.firstPublished == b.firstPublished && a.lastPublished == b.lastPublished)
  }

  ghost predicate SameFetch(a: Db, b: Db) {
    forall i | 0 <= i < |a.items| && Exported(a, i) ::
      var r := At(a.revisions, a.items[i].published.value);
      Fetch(a, a.items[i].kind, r) == Fetch(b, a.items[i].kind, r)
  }

  ghost predicate Quiet(a: Db, b: Db) {
    && a.generation == b.generation && a.updatedAt == b.updatedAt && a.ready == b.ready
    && a.routes == b.routes && a.revisions <= b.revisions && |a.items| <= |b.items|
    && (forall i | 0 <= i < |a.items| :: SameItem(a.items[i], b.items[i]))
    && (forall i | |a.items| <= i < |b.items| :: !Public(b.items[i]))
    && (forall i | 0 <= i < |a.items| && Public(a.items[i]) :: Row(a.revisions, a.items[i].published.value))
    && (forall p | p in a.routes :: Row(a.items, a.routes[p].owner))
  }

  lemma {:induction false} SameRows(a: Db, b: Db, n: int)
    requires Quiet(a, b) && SameFetch(a, b) && 0 <= n <= |b.items|
    ensures n <= |a.items| ==> Rows(b, n) == Rows(a, n)
    ensures n > |a.items| ==> Rows(b, n) == Rows(a, |a.items|)
  {
    if n > 0 {
      SameRows(a, b, n - 1);
      if n <= |a.items| {
        assert SameItem(a.items[n - 1], b.items[n - 1]);
        assert Exported(a, n - 1) == Exported(b, n - 1);
      }
    }
  }

  lemma {:induction false} SameCount(a: seq<Item>, b: seq<Item>)
    requires |a| <= |b| && (forall i | 0 <= i < |a| :: SameItem(a[i], b[i]))
    requires forall i | |a| <= i < |b| :: !Public(b[i])
    ensures CountPublic(a) == CountPublic(b)
  {
    if b != [] {
      var n := |b| - 1;
      if |a| == |b| {
        assert SameItem(a[n], b[n]);
        SameCount(a[..n], b[..n]);
      } else {
        SameCount(a, b[..n]);
      }
    }
  }

  lemma SameView(a: Db, b: Db)
    requires Quiet(a, b) && SameFetch(a, b)
    ensures ViewOf(a) == ViewOf(b)
  {
    SameRows(a, b, |b.items|);
    SameCount(a.items, b.items);
    forall p | p in a.routes
      ensures p in PublicRoutes(a) <==> p in PublicRoutes(b)
    {
      var o := a.routes[p].owner;
      assert SameItem(a.items[o - 1], b.items[o - 1]);
    }
    assert PublicRoutes(a) == PublicRoutes(b);
  }
}
