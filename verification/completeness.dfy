/** Exactly when a database the commands can reach exports: limits, and topics whose targets are all published. */
module Completeness {
  import opened Base
  import opened Text
  import opened Ordering
  import opened Pages
  import opened Schema
  import opened Content
  import opened Workflow
  import opened Editorial
  import opened Projection
  import opened Graph
  import opened Exporting
  import opened Exporter
  import opened Listing

  ghost predicate TopicLive(db: Db, i: int)
    requires 0 <= i < |db.items|
  {
    var c := db.items[i];
    c.kind.Topic? && Public(c) && Row(db.revisions, c.published.value) ==>
      forall e | e in At(db.revisions, c.published.value).entries :: Publishable(db.items, e)
  }

  // Every published topic points at published articles only.
  ghost predicate TopicsLive(db: Db) {
    forall i | 0 <= i < |db.items| :: TopicLive(db, i)
  }

  // ----- rows -----

  lemma HomeIsPath(routes: map<string, Route>, id: int, path: string)
    requires HomesOk(routes) && IsHome(routes, id, path)
    ensures HomePath(routes, id) == Some(path)
  {
    assert Homes(routes, id) == {path};
  }

  // Readers see the payload without its mirrors; the English check does not look at notes.
  lemma EnglishKept(rules: Rules, kind: Kind, f: Fields)
    requires FieldsFault(rules, kind, f, true).None?
    ensures EnglishFault(rules, kind, AsPayload(PublicOf(f.payload)), Opted(f.english), true).None?
    ensures FieldsFault(rules, kind, f.(english := None, cover := None), true).None?
  {
  }

  lemma JoinsFound(rules: Rules, db: Db, kind: Kind, r: Revision)
    requires TaxonomyOk(rules, db) && Editorial.References(db, r) && (kind.Note? ==> r.fields.payload.NotePayload?)
    ensures var j := Fetch(db, kind, r);
      && j.author.Some? && rules.markdown(j.author.value.bio)
      && (kind.Note? ==> j.group.Some? && ValidGroup(j.group.value.group))
      && (r.fields.cover.Some? ==> j.card.Some?)
      && (forall k | 0 <= k < |j.tags| :: j.tags[k].Some?)
  {
    hide ValidGroup;
    var ids := SortedIds(r.tags);
    assert forall k | 0 <= k < |ids| :: ids[k] in r.tags;
  }

  lemma RowOk(rules: Rules, db: Db, i: int)
    requires Good(rules, db) && 0 <= i < |db.items| && Public(db.items[i])
    ensures Exported(db, i) && RowValid(rules, RowOf(db, i)) && Addable(RowOf(db, i)) && FetchedRow(db, RowOf(db, i))
  {
    hide FieldsFault, EnglishFault, ValidGroup, CandidatePath, HomePath, Fetch;
    var c := db.items[i];
    assert ItemOk(c, i + 1, db.drafts[i], db.revisions, db.reviews);
    var r := At(db.revisions, c.published.value);
    assert RevisionOk(rules, db, r) && Homed(db, i);
    HomeIsPath(db.routes, i + 1, CandidatePath(c.kind, r.fields).value);
    EnglishKept(rules, c.kind, r.fields);
    NotesHaveGroups(rules, c.kind, r.fields);
    JoinsFound(rules, db, c.kind, r);
  }

  lemma NotesHaveGroups(rules: Rules, kind: Kind, f: Fields)
    requires FieldsFault(rules, kind, f, true).None?
    ensures kind.Note? ==> f.payload.NotePayload?
    ensures kind.Topic? ==> f.payload.TopicPayload?
  {
  }

  ghost predicate OwnRow(db: Db, row: PublicRow) {
    && Row(db.items, row.id) && Public(At(db.items, row.id))
    && Exported(db, row.id - 1) && row == RowOf(db, row.id - 1)
  }

  function RowIds(rows: seq<PublicRow>): set<int> {
    set r | r in rows :: r.id
  }

  // The rows are exactly those of the public items among the first n.
  ghost predicate Matches(db: Db, rows: seq<PublicRow>, n: int)
    requires 0 <= n <= |db.items|
  {
    && (forall r | r in rows :: OwnRow(db, r))
    && RowIds(rows) == set i | 0 <= i < n && Public(db.items[i]) :: i + 1
  }

  lemma MatchStep(db: Db, rows: seq<PublicRow>, n: int)
    requires 0 < n <= |db.items| && Matches(db, rows, n - 1)
    requires Public(db.items[n - 1]) ==> Exported(db, n - 1)
    ensures Matches(db, if Public(db.items[n - 1]) then rows + [RowOf(db, n - 1)] else rows, n)
  {
    hide RowOf, Exported, Public;
    var public := set i | 0 <= i < n - 1 && Public(db.items[i]) :: i + 1;
    if Public(db.items[n - 1]) {
      var row := RowOf(db, n - 1);
      RowId(db, n - 1);
      assert RowIds(rows + [row]) == RowIds(rows) + {n};
      assert (set i | 0 <= i < n && Public(db.items[i]) :: i + 1) == public + {n};
    } else {
      assert (set i | 0 <= i < n && Public(db.items[i]) :: i + 1) == public;
    }
  }

  lemma {:induction false} RowsMatch(rules: Rules, db: Db, n: int)
    requires Good(rules, db) && 0 <= n <= |db.items|
    ensures Matches(db, Rows(db, n), n)
    ensures |Rows(db, n)| == CountPublic(db.items[..n])
  {
    hide Good, RowOf, Matches;
    if n > 0 {
      RowsMatch(rules, db, n - 1);
      assert db.items[..n][..n - 1] == db.items[..n - 1];
      if Public(db.items[n - 1]) { RowOk(rules, db, n - 1); }
      MatchStep(db, Rows(db, n - 1), n);
    } else {
      NoneMatch(db);
    }
  }

  lemma NoneMatch(db: Db)
    ensures Matches(db, [], 0)
  {
  }

  lemma RowId(db: Db, i: int)
    requires 0 <= i < |db.items| && Exported(db, i)
    ensures RowOf(db, i).id == i + 1 && RowOf(db, i).kind == db.items[i].kind
    ensures RowOf(db, i).revision == At(db.revisions, db.items[i].published.value)
    ensures RowOf(db, i).canonicalPath == HomePath(db.routes, i + 1)
  {
  }

  // Every public item passes the checks made on its row.
  lemma RowsOk(rules: Rules, db: Db)
    requires Good(rules, db)
    ensures var v := ViewOf(db);
      && |v.rows| == v.expected && Matches(db, v.rows, |db.items|)
      && forall k | 0 <= k < |v.rows| :: RowValid(rules, v.rows[k]) && Addable(v.rows[k]) && FetchedRow(db, v.rows[k])
  {
    hide Good, RowOf, RowValid, FetchedRow, Addable;
    RowsMatch(rules, db, |db.items|);
    assert db.items[..|db.items|] == db.items;
    forall k | 0 <= k < |Rows(db, |db.items|)|
      ensures var row := Rows(db, |db.items|)[k]; RowValid(rules, row) && Addable(row) && FetchedRow(db, row)
    {
      assert Rows(db, |db.items|)[k] in Rows(db, |db.items|);
      RowOk(rules, db, Rows(db, |db.items|)[k].id - 1);
    }
  }

  // ----- the listed tables are closed -----

  lemma AuthorsFine(db: Db, s: seq<PublicAuthor>, used: set<int>)
    requires AuthorsListed(db, s, used)
    ensures AuthorsClosed(SortBy(AuthorKey, s)) && AuthorIds(SortBy(AuthorKey, s)) == used
    ensures Strictly(AuthorKey, SortBy(AuthorKey, s))
  {
    SortSorts(AuthorKey, s);
    var r := SortBy(AuthorKey, s);
    assert forall i | 0 <= i < |r| :: r[i] in s;
    assert forall i, j | 0 <= i < j < |r| :: AuthorKey(r[i]) < AuthorKey(r[j]);
  }

  lemma AssetsFine(rules: Rules, db: Db, s: seq<PublicAsset>, used: set<int>)
    requires AssetsListed(db, s, used) && TaxonomyOk(rules, db)
    ensures AssetsClosed(rules, SortBy(AssetKey, s)) && AssetIds(SortBy(AssetKey, s)) == used
    ensures Strictly(AssetKey, SortBy(AssetKey, s))
  {
    SortSorts(AssetKey, s);
    var r := SortBy(AssetKey, s);
    assert forall i | 0 <= i < |r| :: r[i] in s;
    assert forall i, j | 0 <= i < j < |r| :: AssetKey(r[i]) < AssetKey(r[j]);
  }

  lemma GroupsFine(rules: Rules, db: Db, s: seq<PublicGroup>, used: set<string>)
    requires GroupsListed(db, s, used) && TaxonomyOk(rules, db)
    ensures GroupsClosed(SortBy(GroupKey, s)) && GroupSlugs(SortBy(GroupKey, s)) == used
    ensures Strictly(GroupKey, SortBy(GroupKey, s))
  {
    hide ValidGroup;
    SortSorts(GroupKey, s);
    var r := SortBy(GroupKey, s);
    forall i | 0 <= i < |r|
      ensures FreshGroup(r, i)
    {
      assert r[i] in s;
      forall j | 0 <= j < i
        ensures r[j].id != r[i].id && r[j].group.slug != r[i].group.slug
      {
        assert r[j] in s && GroupKey(r[j]) < GroupKey(r[i]);
      }
    }
  }

  lemma TagRowFine(rules: Rules, db: Db, t: PublicTag)
    requires TaxonomyOk(rules, db) && FetchTag(db.tags, t.id) == Some(t)
    ensures Row(db.tags, t.id) && ValidPublicTag(t) && t.slug == At(db.tags, t.id).slug
  {
    assert TagOk(db.tags[t.id - 1]);
  }

  lemma TagsFine(rules: Rules, db: Db, s: seq<PublicTag>, used: set<int>)
    requires TagsListed(db, s, used) && TaxonomyOk(rules, db)
    ensures TagsClosed(SortBy(TagKey, s)) && TagIds(SortBy(TagKey, s)) == used
    ensures Strictly(TagKey, SortBy(TagKey, s))
  {
    hide ValidPublicTag, TagOk, FetchTag;
    SortSorts(TagKey, s);
    var r := SortBy(TagKey, s);
    forall i | 0 <= i < |r|
      ensures Row(db.tags, r[i].id) && ValidPublicTag(r[i]) && r[i].slug == At(db.tags, r[i].id).slug
    {
      assert r[i] in s;
      TagRowFine(rules, db, r[i]);
    }
    forall i, j | 0 <= i < j < |r|
      ensures r[i].id != r[j].id && r[i].slug != r[j].slug
    {
      assert TagKey(r[i]) < TagKey(r[j]);
      assert db.tags[r[i].id - 1].slug != db.tags[r[j].id - 1].slug;
    }
  }

  // ----- sizes -----

  function Keys<T(==), K(==)>(key: T -> K, s: seq<T>): set<K> {
    set x | x in s :: key(x)
  }

  lemma {:induction false} KeyCount<T, K>(key: T -> K, s: seq<T>)
    requires forall i, j | 0 <= i < j < |s| :: key(s[i]) != key(s[j])
    ensures |Keys(key, s)| == |s|
  {
    if s != [] {
      var n := |s| - 1;
      KeyCount(key, s[..n]);
      assert s == s[..n] + [s[n]];
      assert Keys(key, s) == Keys(key, s[..n]) + {key(s[n])};
    }
  }

  lemma {:induction false} UsedCounts(rows: seq<PublicRow>)
    ensures |Bylines(rows)| <= |rows| && |Covers(rows)| <= |rows| && |NoteSlugs(rows)| <= |rows|
  {
    if rows == [] {
      assert Bylines(rows) == {} && Covers(rows) == {} && NoteSlugs(rows) == {};
    } else {
      UsedCounts(rows[..|rows| - 1]);
      UsedStep(rows);
    }
  }

  lemma ListedCounts(db: Db, rows: seq<PublicRow>, a: Acc)
    requires Listed(db, rows, a)
    ensures |a.authors| <= |rows| && |a.assets| <= |rows| && |a.groups| <= |rows| && |a.tags| == |Tagged(rows)|
  {
    UsedCounts(rows);
    KeyCount(AuthorKey, a.authors);
    assert Keys(AuthorKey, a.authors) == AuthorIds(a.authors);
    KeyCount(AssetKey, a.assets);
    assert Keys(AssetKey, a.assets) == AssetIds(a.assets);
    KeyCount(TagKey, a.tags);
    assert Keys(TagKey, a.tags) == TagIds(a.tags);
    GroupCount(db, a.groups, NoteSlugs(rows));
  }

  function SlugOf(g: PublicGroup): string { g.group.slug }

  lemma GroupCount(db: Db, s: seq<PublicGroup>, used: set<string>)
    requires GroupsListed(db, s, used)
    ensures |s| == |used|
  {
    forall i, j | 0 <= i < j < |s|
      ensures SlugOf(s[i]) != SlugOf(s[j])
    {
      assert s[i] in s && s[j] in s && GroupKey(s[i]) != GroupKey(s[j]);
    }
    KeyCount(SlugOf, s);
    assert Keys(SlugOf, s) == GroupSlugs(s);
  }

  // ----- the documents -----

  ghost predicate Documents(rows: seq<PublicRow>, content: seq<PublicContent>) {
    && |content| == |rows|
    && forall k | 0 <= k < |rows| :: Addable(rows[k]) && content[k] == Document(rows[k])
  }

  lemma RowOfDocument(rows: seq<PublicRow>, content: seq<PublicContent>, c: PublicContent) returns (r: PublicRow)
    requires Documents(rows, content) && c in content
    ensures r in rows && Addable(r) && c == Document(r)
  {
    hide Document, Addable;
    var k :| 0 <= k < |content| && content[k] == c;
    r := rows[k];
  }

  lemma DocumentOfRow(rows: seq<PublicRow>, content: seq<PublicContent>, r: PublicRow)
    requires Documents(rows, content) && r in rows
    ensures Addable(r) && Document(r) in content
  {
    hide Document;
    var k :| 0 <= k < |rows| && rows[k] == r;
    assert content[k] == Document(r);
  }

  lemma IdsMatch(rows: seq<PublicRow>, content: seq<PublicContent>)
    requires Documents(rows, content)
    ensures ContentIds(content) == RowIds(rows) && UsedGroups(content) == NoteSlugs(rows)
  {
    hide Addable, Documents;
    forall c | c in content
      ensures c.id in RowIds(rows)
      ensures c.kind.Note? && c.payload.PublicNote? ==> c.payload.groupSlug in NoteSlugs(rows)
    {
      var r := RowOfDocument(rows, content, c);
    }
    forall r | r in rows
      ensures r.id in ContentIds(content)
      ensures r.kind.Note? && r.revision.fields.payload.NotePayload? ==>
        r.revision.fields.payload.groupSlug in UsedGroups(content)
    {
      DocumentOfRow(rows, content, r);
    }
  }

  lemma OwnKind(db: Db, row: PublicRow)
    requires OwnRow(db, row)
    ensures Row(db.items, row.id) && Public(At(db.items, row.id))
    ensures row.kind == At(db.items, row.id).kind
    ensures row.revision == At(db.revisions, At(db.items, row.id).published.value)
  {
    RowId(db, row.id - 1);
  }

  // The curated documents of a snapshot are the published articles.
  lemma CuratedMatch(db: Db, rows: seq<PublicRow>, content: seq<PublicContent>, id: int)
    requires Documents(rows, content) && Matches(db, rows, |db.items|)
    ensures id in CuratedIds(content) <==> Publishable(db.items, id)
  {
    hide Documents, OwnRow;
    if id in CuratedIds(content) {
      var c :| c in content && c.kind.CuratedArticle? && c.id == id;
      var r := RowOfDocument(rows, content, c);
      OwnKind(db, r);
      assert OwnRow(db, r);
    }
    if Publishable(db.items, id) {
      assert (id - 1) + 1 in RowIds(rows);
      var r :| r in rows && r.id == id;
      OwnKind(db, r);
      DocumentOfRow(rows, content, r);
      assert Document(r).id == id && Document(r).kind.CuratedArticle?;
    }
  }

  // A valid row resolves against the tables listed for all rows.
  lemma DocumentResolved(rules: Rules, rows: seq<PublicRow>, r: PublicRow)
    requires r in rows && RowValid(rules, r) && Addable(r) && r.id > 0
    ensures Resolved(rules, Document(r), NoteSlugs(rows), Bylines(rows), Covers(rows), Tagged(rows))
  {
    hide EnglishFault;
    var f, c := r.revision.fields, Document(r);
    NotesAreOrdered(rules, r.kind, f.(english := None, cover := None));
    assert r.canonicalPath.value != "";
    forall t | t in c.tagIds
      ensures t in Tagged(rows)
    {
      assert t in r.revision.tags;
    }
  }

  lemma NotesAreOrdered(rules: Rules, kind: Kind, f: Fields)
    requires FieldsFault(rules, kind, f, true).None?
    ensures kind.Note? ==> f.payload.NotePayload? && Ordered(f.payload.order)
  {
  }

  // The entries of a document are in order by construction; what remains is that each target is published.
  lemma EntriesIff(rules: Rules, db: Db, i: int, content: seq<PublicContent>)
    requires Good(rules, db) && 0 <= i < |db.items| && Exported(db, i) && Addable(RowOf(db, i))
    requires forall id :: id in CuratedIds(content) <==> Publishable(db.items, id)
    ensures EntriesClosed(Document(RowOf(db, i)), CuratedIds(content)) <==> TopicLive(db, i)
  {
    hide FieldsFault, CuratedIds, HomePath, Fetch, CandidatePath;
    var r := At(db.revisions, db.items[i].published.value);
    assert RevisionOk(rules, db, r);
    NotesHaveGroups(rules, db.items[i].kind, r.fields);
    var c := Document(RowOf(db, i));
    assert |c.entries| == |r.entries| && forall k | 0 <= k < |r.entries| :: c.entries[k] == Entry(k + 1, r.entries[k]);
    assert db.items[i].kind.Topic? ==> c.tagIds == [];
    if EntriesClosed(c, CuratedIds(content)) {
      forall e | e in r.entries
        ensures Publishable(db.items, e)
      {
        var k :| 0 <= k < |r.entries| && r.entries[k] == e;
        assert c.entries[k].target in CuratedIds(content);
      }
    }
    if TopicLive(db, i) {
      assert forall k | 0 <= k < |r.entries| :: r.entries[k] in r.entries;
      assert EntriesClosed(c, CuratedIds(content));
    }
  }

  // ----- the routes -----

  lemma RouteFacts(db: Db, k: int)
    requires 0 <= k < |RouteRows(PublicRoutes(db))|
    ensures var r := RouteRows(PublicRoutes(db))[k];
      && r.path in db.routes && db.routes[r.path] == Route(r.contentId, r.kind)
      && Row(db.items, r.contentId) && Public(At(db.items, r.contentId))
  {
    var paths := SortedPaths(PublicRoutes(db).Keys);
    assert paths[k] in PublicRoutes(db);
  }

  lemma RoutesDistinct(db: Db, i: int, j: int)
    requires 0 <= i < j < |RouteRows(PublicRoutes(db))|
    ensures RouteRows(PublicRoutes(db))[i].path != RouteRows(PublicRoutes(db))[j].path
  {
    var paths := SortedPaths(PublicRoutes(db).Keys);
    PathOrder();
    assert PathLess(paths[i], paths[j]);
  }

  lemma RouteListed(db: Db, path: string) returns (k: int)
    requires path in PublicRoutes(db)
    ensures 0 <= k < |RouteRows(PublicRoutes(db))| && RouteRows(PublicRoutes(db))[k].path == path
  {
    var paths := SortedPaths(PublicRoutes(db).Keys);
    k :| 0 <= k < |paths| && paths[k] == path;
  }

  // ----- the whole snapshot -----

  // A snapshot over the public rows of a database, with the tables those rows use.
  ghost predicate Assembled(rules: Rules, db: Db, s: Snapshot, rows: seq<PublicRow>) {
    && Matches(db, rows, |db.items|) && Documents(rows, s.content) && Keyed(RowKey, IdLess, rows)
    && (forall r | r in rows :: RowValid(rules, r) && Addable(r))
    && GroupSlugs(s.groups) == NoteSlugs(rows) && AuthorIds(s.authors) == Bylines(rows)
    && AssetIds(s.assets) == Covers(rows) && TagIds(s.tags) == Tagged(rows)
    && s.routes == RouteRows(PublicRoutes(db))
  }

  lemma ContentRowsFine(rules: Rules, db: Db, s: Snapshot, rows: seq<PublicRow>, k: int)
    requires Assembled(rules, db, s, rows) && 0 <= k < |s.content|
    ensures ContentRow(rules, s.content, k, GroupSlugs(s.groups), AuthorIds(s.authors), AssetIds(s.assets), TagIds(s.tags))
  {
    hide Resolved, RowValid, OwnRow;
    var r := rows[k];
    assert r in rows;
    OwnKind(db, r);
    DocumentResolved(rules, rows, r);
    forall j | 0 <= j < k
      ensures s.content[j].id != s.content[k].id
    {
      assert IdLess(RowKey(rows[j]), RowKey(rows[k]));
    }
  }

  lemma RowTopic(rules: Rules, db: Db, s: Snapshot, rows: seq<PublicRow>, k: int)
    requires Good(rules, db) && Assembled(rules, db, s, rows) && 0 <= k < |s.content|
    ensures Row(db.items, rows[k].id)
    ensures EntriesClosed(s.content[k], CuratedIds(s.content)) <==> TopicLive(db, rows[k].id - 1)
  {
    hide Good, EntriesClosed, TopicLive, RowValid, CuratedIds, RowOf, Publishable;
    assert rows[k] in rows && OwnRow(db, rows[k]);
    forall id
      ensures id in CuratedIds(s.content) <==> Publishable(db.items, id)
    {
      CuratedMatch(db, rows, s.content, id);
    }
    EntriesIff(rules, db, rows[k].id - 1, s.content);
  }

  lemma ContentIff(rules: Rules, db: Db, s: Snapshot, rows: seq<PublicRow>)
    requires Good(rules, db) && Assembled(rules, db, s, rows)
    ensures ContentClosed(rules, s) <==> TopicsLive(db)
  {
    hide Good, RowValid, ContentRow, EntriesClosed, OwnRow, CuratedIds, Document;
    IdsMatch(rows, s.content);
    forall k | 0 <= k < |s.content|
      ensures ContentRow(rules, s.content, k, GroupSlugs(s.groups), AuthorIds(s.authors), AssetIds(s.assets), TagIds(s.tags))
      ensures Row(db.items, rows[k].id)
      ensures EntriesClosed(s.content[k], CuratedIds(s.content)) <==> TopicLive(db, rows[k].id - 1)
    {
      ContentRowsFine(rules, db, s, rows, k);
      RowTopic(rules, db, s, rows, k);
    }
    if ContentClosed(rules, s) {
      forall i | 0 <= i < |db.items| && Public(db.items[i])
        ensures TopicLive(db, i)
      {
        assert i + 1 in RowIds(rows);
        var k :| 0 <= k < |rows| && rows[k].id == i + 1;
        assert EntriesClosed(s.content[k], CuratedIds(s.content));
      }
    }
  }

  lemma HomeOfRow(rules: Rules, db: Db, r: PublicRow)
    requires Good(rules, db) && OwnRow(db, r) && RowValid(rules, r) && Addable(r)
    ensures IsHome(db.routes, Document(r).id, Document(r).canonicalPath) && Document(r).canonicalPath != ""
    ensures Document(r).canonicalPath in PublicRoutes(db)
  {
    hide Good, RowValid, RowOf;
    OwnKind(db, r);
    ValidHome(rules, r);
    PublicHome(rules, db, r.id - 1);
  }

  lemma ValidHome(rules: Rules, row: PublicRow)
    requires RowValid(rules, row)
    ensures CandidatePath(row.kind, row.revision.fields).Ok? && Addable(row)
    ensures row.canonicalPath == Some(CandidatePath(row.kind, row.revision.fields).value) && row.canonicalPath != Some("")
  {
    hide FieldsFault, EnglishFault;
  }

  lemma PublicHome(rules: Rules, db: Db, i: int)
    requires Good(rules, db) && 0 <= i < |db.items| && Public(db.items[i]) && Exported(db, i)
    ensures var path := CandidatePath(db.items[i].kind, At(db.revisions, db.items[i].published.value).fields);
      path.Ok? ==> IsHome(db.routes, i + 1, path.value)
  {
    hide CandidatePath, ItemsOk, RevisionsOk, TaxonomyOk, HomesOk;
    assert Homed(db, i);
  }

  lemma RoutesFine(rules: Rules, db: Db, s: Snapshot, rows: seq<PublicRow>)
    requires Good(rules, db) && Assembled(rules, db, s, rows)
    ensures RoutesClosed(s)
  {
    hide RowValid, OwnRow, Document, Addable, RouteRows, PublicRoutes, Keyed, FieldsFault, TaxonomyOk, RevisionsOk, ItemsOk;
    IdsMatch(rows, s.content);
    forall i | 0 <= i < |s.routes|
      ensures s.routes[i].contentId in ContentIds(s.content)
    {
      RouteFacts(db, i);
      assert (s.routes[i].contentId - 1) + 1 in RowIds(rows);
    }
    forall i, j | 0 <= i < j < |s.routes|
      ensures s.routes[i].path != s.routes[j].path
    {
      RoutesDistinct(db, i, j);
    }
    forall i, k | 0 <= i < |s.routes| && 0 <= k < |s.content| && HomeRoute(s.routes[i], s.content[k].id)
      ensures s.routes[i].path == s.content[k].canonicalPath
    {
      RouteFacts(db, i);
      assert rows[k] in rows;
      HomeOfRow(rules, db, rows[k]);
    }
    forall k | 0 <= k < |s.content|
      ensures Housed(s, k)
    {
      assert rows[k] in rows;
      HomeOfRow(rules, db, rows[k]);
      var i := RouteListed(db, s.content[k].canonicalPath);
      RouteFacts(db, i);
      assert HomeRoute(s.routes[i], s.content[k].id);
    }
  }

  // Collecting a reachable view and sorting its tables.
  lemma AssembleFine(rules: Rules, b: Budget, db: Db)
    requires Good(rules, db)
    requires forall k | 0 <= k < |Rows(db, |db.items|)| :: Addable(Rows(db, |db.items|)[k])
    ensures var v, rows := ViewOf(db), Rows(db, |db.items|); var a := Collect(b, rows); var s := Assemble(v, a);
      && Assembled(rules, db, s, rows) && |s.content| == |rows|
      && GroupsClosed(s.groups) && AuthorsClosed(s.authors) && AssetsClosed(rules, s.assets) && TagsClosed(s.tags)
      && |s.authors| <= |rows| && |s.assets| <= |rows| && |s.groups| <= |rows| && |s.tags| == |Tagged(rows)|
  {
    hide Good, RowValid, Addable, OwnRow, FetchedRow, GroupsClosed, AuthorsClosed, AssetsClosed, TagsClosed,
         AuthorsListed, AssetsListed, GroupsListed, TagsListed, Matches, Collect, Document, TaxonomyOk,
         GroupSlugs, AuthorIds, AssetIds, TagIds, NoteSlugs, Bylines, Covers, Tagged, Rows, RowOf, RouteRows, PublicRoutes;
    var rows := Rows(db, |db.items|);
    var a := Collect(b, rows);
    RowsOk(rules, db);
    RowsSound(db, |db.items|);
    CollectLists(b, db, rows);
    ListedCounts(db, rows, a);
    assert TaxonomyOk(rules, db) by { GoodParts(rules, db); }
    AuthorsFine(db, a.authors, Bylines(rows));
    AssetsFine(rules, db, a.assets, Covers(rows));
    GroupsFine(rules, db, a.groups, NoteSlugs(rows));
    TagsFine(rules, db, a.tags, Tagged(rows));
  }

  lemma GoodParts(rules: Rules, db: Db)
    requires Good(rules, db)
    ensures TaxonomyOk(rules, db) && RoutesOk(db) && ItemsOk(db)
  {
  }

  /**
   * A reachable database exports exactly when it fits the limits and every published topic points at
   * published articles. Nothing else can go wrong, and nothing less is accepted.
   */
  lemma ExportIff(rules: Rules, b: Budget, db: Db)
    requires Good(rules, db) && db.ready
    ensures var v := ViewOf(db);
      && (forall k | 0 <= k < |v.rows| :: Addable(v.rows[k]))
      && (Acceptable(rules, b, v) <==> Fits(b, v, Collect(b, v.rows)) && |Tagged(v.rows)| <= MAX_LINKS && TopicsLive(db))
  {
    hide Good, RowValid, Addable, Matches, Rows, Collect, TopicsLive, ContentClosed, RoutesClosed,
         GroupsClosed, AuthorsClosed, AssetsClosed, TagsClosed, Tagged, RouteCost, SortBy, RouteRows, PublicRoutes;
    RowsOk(rules, db);
    AssembleFine(rules, b, db);
    var s := Assemble(ViewOf(db), Collect(b, Rows(db, |db.items|)));
    ContentIff(rules, db, s, Rows(db, |db.items|));
    RoutesFine(rules, db, s, Rows(db, |db.items|));
  }
}
