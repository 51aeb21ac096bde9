/** The limits of an export in numbers: rows, links, and the bytes of every document that goes into it. */
module ExportLimits {
  import opened Base
  import opened Ordering
  import opened Schema
  import opened Editorial
  import opened Workflow
  import opened Projection
  import opened Exporting
  import opened Listing
  import opened Completeness
  import Graph

  // ----- sums over lists -----

  function Weight<T>(of: T -> int, s: seq<T>): int {
    if s == [] then 0 else of(s[0]) + Weight(of, s[1..])
  }

  lemma {:induction false} WeightAppend<T>(of: T -> int, s: seq<T>, x: T)
    ensures Weight(of, s + [x]) == Weight(of, s) + of(x)
  {
    if s == [] {
      assert [x][1..] == [];
    } else {
      assert (s + [x])[1..] == s[1..] + [x];
      WeightAppend(of, s[1..], x);
    }
  }

  lemma {:induction false} WeightInsert<T(!new)>(of: T -> int, key: T -> int, x: T, s: seq<T>)
    ensures Weight(of, Insert(key, x, s)) == of(x) + Weight(of, s)
  {
    if s == [] || key(x) <= key(s[0]) {
      assert ([x] + s)[1..] == s;
    } else {
      WeightInsert(of, key, x, s[1..]);
      assert ([s[0]] + Insert(key, x, s[1..]))[1..] == Insert(key, x, s[1..]);
    }
  }

  lemma {:induction false} WeightSorted<T(!new)>(of: T -> int, key: T -> int, s: seq<T>)
    ensures Weight(of, SortBy(key, s)) == Weight(of, s)
  {
    if s != [] {
      WeightSorted(of, key, s[1..]);
      WeightInsert(of, key, s[0], SortBy(key, s[1..]));
    }
  }

  // ----- bytes -----

  // A document costs its encoding and two bytes around it.
  function AuthorBytes(b: Budget): PublicAuthor -> int { (x: PublicAuthor) => b.size(AuthorDoc(x)) + 2 }
  function AssetBytes(b: Budget): PublicAsset -> int { (x: PublicAsset) => b.size(AssetDoc(x)) + 2 }
  function GroupBytes(b: Budget): PublicGroup -> int { (x: PublicGroup) => b.size(GroupDoc(x)) + 2 }
  function TagBytes(b: Budget): PublicTag -> int { (x: PublicTag) => b.size(TagDoc(x)) + 2 }
  function ContentBytes(b: Budget): PublicContent -> int { (x: PublicContent) => b.size(ContentDoc(x)) + 2 }
  function RouteBytes(b: Budget): PublicRoute -> int { (x: PublicRoute) => b.size(RouteDoc(x)) + 2 }

  function ListedBytes(b: Budget, authors: seq<PublicAuthor>, assets: seq<PublicAsset>, groups: seq<PublicGroup>,
                       tags: seq<PublicTag>, content: seq<PublicContent>): int
  {
    Weight(AuthorBytes(b), authors) + Weight(AssetBytes(b), assets) + Weight(GroupBytes(b), groups)
    + Weight(TagBytes(b), tags) + Weight(ContentBytes(b), content)
  }

  // What the documents of a snapshot cost together, on top of a fixed kibibyte.
  function Bytes(b: Budget, s: Snapshot): int {
    1024 + ListedBytes(b, s.authors, s.assets, s.groups, s.tags, s.content) + Weight(RouteBytes(b), s.routes)
  }

  // The configured limit, at most and by default 128 MiB.
  function Allowed(b: Budget): int {
    if 0 < b.maxBytes <= 134217728 then b.maxBytes else 134217728
  }

  predicate Accounted(b: Budget, a: Acc) {
    a.total == 1024 + ListedBytes(b, a.authors, a.assets, a.groups, a.tags, a.content)
  }

  lemma StartAccounted(b: Budget)
    ensures Accounted(b, START)
  {
  }

  lemma GroupAccounted(b: Budget, a: Acc, g: PublicGroup)
    requires Accounted(b, a)
    ensures Accounted(b, AddGroup(b, a, g))
  {
    WeightAppend(GroupBytes(b), a.groups, g);
  }

  lemma AuthorAccounted(b: Budget, a: Acc, x: PublicAuthor)
    requires Accounted(b, a)
    ensures Accounted(b, AddAuthor(b, a, x))
  {
    WeightAppend(AuthorBytes(b), a.authors, x);
  }

  lemma AssetAccounted(b: Budget, a: Acc, x: PublicAsset)
    requires Accounted(b, a)
    ensures Accounted(b, AddAsset(b, a, x))
  {
    WeightAppend(AssetBytes(b), a.assets, x);
  }

  lemma {:induction false} TagsAccounted(b: Budget, a: Acc, tags: seq<Option<PublicTag>>)
    requires Accounted(b, a) && forall i | 0 <= i < |tags| :: tags[i].Some?
    ensures Accounted(b, AddTags(b, a, tags))
  {
    if tags != [] {
      var before, t := AddTags(b, a, tags[..|tags| - 1]), tags[|tags| - 1].value;
      TagsAccounted(b, a, tags[..|tags| - 1]);
      WeightAppend(TagBytes(b), before.tags, t);
    }
  }

  lemma ContentAccounted(b: Budget, a: Acc, c: PublicContent)
    requires Accounted(b, a)
    ensures Accounted(b, AddContent(b, a, c))
  {
    WeightAppend(ContentBytes(b), a.content, c);
  }

  lemma RowAccounted(b: Budget, a: Acc, row: PublicRow)
    requires Accounted(b, a) && Addable(row)
    ensures Accounted(b, AddRow(b, a, row))
  {
    hide Accounted, AddGroup, AddAuthor, AddAsset, AddTags, AddContent, Document;
    if row.kind.Note? { GroupAccounted(b, a, row.joins.group.value); }
    var a1, f := Grouped(b, a, row), row.revision.fields;
    AuthorAccounted(b, a1, PublicAuthor(f.byline, row.joins.author.value));
    var a2 := Authored(b, a1, row);
    if f.cover.Some? { AssetAccounted(b, a2, PublicAsset(f.cover.value, row.joins.card.value)); }
    TagsAccounted(b, Covered(b, a2, row), row.joins.tags);
    ContentAccounted(b, Exporting.References(b, a1, row), Document(row));
  }

  /** The running total of an export is a kibibyte and the documents listed so far. */
  lemma {:induction false} CollectAccounted(b: Budget, rows: seq<PublicRow>)
    requires forall i | 0 <= i < |rows| :: Addable(rows[i])
    ensures Accounted(b, Collect(b, rows)) && |Collect(b, rows).content| == |rows|
  {
    hide Accounted, AddRow, Addable;
    if rows == [] {
      StartAccounted(b);
    } else {
      var n := |rows| - 1;
      CollectAccounted(b, rows[..n]);
      RowAccounted(b, Collect(b, rows[..n]), rows[n]);
      OneDocument(b, Collect(b, rows[..n]), rows[n]);
    }
  }

  lemma OneDocument(b: Budget, a: Acc, row: PublicRow)
    requires Addable(row)
    ensures |AddRow(b, a, row).content| == |a.content| + 1
  {
    RowEffect(b, a, row);
  }

  lemma {:induction false} RoutesWeigh(b: Budget, routes: seq<PublicRoute>)
    ensures RouteCost(b, routes) == Weight(RouteBytes(b), routes)
  {
    if routes != [] {
      var n := |routes| - 1;
      RoutesWeigh(b, routes[..n]);
      WeightAppend(RouteBytes(b), routes[..n], routes[n]);
      assert routes == routes[..n] + [routes[n]];
    }
  }

  // Few enough documents and paths, and few enough bytes, piece by piece and as a whole.
  ghost predicate Fit(b: Budget, db: Db, s: Snapshot) {
    && CountPublic(db.items) <= 10000 && |s.routes| <= 100000 && |s.tags| <= 100000
    && (s.content != [] || s.routes != [] ==> Bytes(b, s) <= Allowed(b)) && b.size(SnapshotDoc(s)) <= Allowed(b)
  }

  lemma FitsMeans(b: Budget, db: Db, rows: seq<PublicRow>)
    requires rows == ViewOf(db).rows && forall k | 0 <= k < |rows| :: Addable(rows[k])
    ensures var v := ViewOf(db); var s := Assemble(v, Collect(b, rows));
      Fits(b, v, Collect(b, rows)) && |s.tags| <= 100000 <==> Fit(b, db, s)
  {
    hide Addable, Collect, Rows, RouteRows, SortBy, Weight, PublicRoutes, RouteCost;
    var v, a := ViewOf(db), Collect(b, rows);
    CollectAccounted(b, rows);
    WeightSorted(AuthorBytes(b), AuthorKey, a.authors);
    WeightSorted(AssetBytes(b), AssetKey, a.assets);
    WeightSorted(GroupBytes(b), GroupKey, a.groups);
    WeightSorted(TagBytes(b), TagKey, a.tags);
    RoutesWeigh(b, RouteRows(v.routes));
  }

  // Topic i is published with an entry for item e.
  predicate Recommends(db: Db, i: int, e: int) {
    && 0 <= i < |db.items| && db.items[i].kind == Topic && db.items[i].archivedAt == None && db.items[i].published.Some?
    && 0 < db.items[i].published.value <= |db.revisions| && e in db.revisions[db.items[i].published.value - 1].entries
  }

  predicate IsShownArticle(db: Db, e: int) {
    && 0 < e <= |db.items| && db.items[e - 1].kind == CuratedArticle
    && db.items[e - 1].published.Some? && db.items[e - 1].archivedAt == None
  }

  // A published topic points at published articles only.
  ghost predicate TopicsShow(db: Db) {
    forall i, e | Recommends(db, i, e) :: IsShownArticle(db, e)
  }

  lemma TopicsShowIs(db: Db)
    ensures TopicsShow(db) <==> TopicsLive(db)
  {
    if TopicsLive(db) {
      forall i, e | Recommends(db, i, e)
        ensures IsShownArticle(db, e)
      {
        assert TopicLive(db, i);
        assert e in At(db.revisions, db.items[i].published.value).entries;
        assert Publishable(db.items, e);
      }
    }
    if TopicsShow(db) {
      forall i | 0 <= i < |db.items|
        ensures TopicLive(db, i)
      {
        assert forall e | Recommends(db, i, e) :: IsShownArticle(db, e);
        TopicIs(db, i);
      }
    }
  }

  lemma TopicIs(db: Db, i: int)
    requires 0 <= i < |db.items| && forall e | Recommends(db, i, e) :: IsShownArticle(db, e)
    ensures TopicLive(db, i)
  {
    var c := db.items[i];
    if c.kind.Topic? && Public(c) && Row(db.revisions, c.published.value) {
      forall e | e in At(db.revisions, c.published.value).entries
        ensures Publishable(db.items, e)
      {
        assert Recommends(db, i, e);
      }
    }
  }

  /** A reachable database exports iff it is at the generation asked for, its topics show, and the snapshot fits. */
  lemma ExportsExactly(rules: Rules, b: Budget, db: Db, generation: int)
    requires Good(rules, db) && db.ready
    ensures var v := ViewOf(db);
      && (forall k | 0 <= k < |v.rows| :: Addable(v.rows[k]))
      && (Export(rules, b, v, generation).Ok? <==>
            generation == db.generation && TopicsShow(db) && Fit(b, db, Assemble(v, Collect(b, v.rows))))
  {
    hide Good, Addable, Collect, Rows, Fits, Fit, TopicsLive, TopicsShow, Tagged, RouteRows, PublicRoutes, Acceptable, RowValid,
         SortBy, Matches, Graph.GroupsClosed, Graph.AuthorsClosed, Graph.AssetsClosed, Graph.TagsClosed, RouteCost;
    ExportIff(rules, b, db);
    TopicsShowIs(db);
    FitsMeans(b, db, ViewOf(db).rows);
    RowsOk(rules, db);
    AssembleFine(rules, b, db);
  }
}
