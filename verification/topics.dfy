/** When published topics keep pointing at published articles, and what a successful export lists. */
module Topics {
  import opened Base
  import opened Ordering
  import opened Pages
  import opened Schema
  import opened Content
  import opened Workflow
  import opened Editorial
  import opened CommandProofs
  import opened Projection
  import opened GenerationProofs
  import opened Graph
  import opened Exporting
  import opened Exporter
  import opened Listing
  import opened Completeness

  // Commands that move a published pointer.
  predicate Publishes(c: Command) {
    c.PublishReviewed? || c.PublishDirect?
  }

  predicate Retracts(c: Command) {
    c.Unpublish? || c.Archive?
  }

  // No item but c.id changes what readers see of it, and new items start out unpublished.
  ghost predicate OthersStay(a: Db, b: Db, id: int) {
    && a.revisions <= b.revisions && |a.items| <= |b.items|
    && (forall i | 0 <= i < |a.items| && i + 1 != id :: SameItem(a.items[i], b.items[i]))
    && (forall i | |a.items| <= i < |b.items| :: !Public(b.items[i]))
    && (forall i | 0 <= i < |a.items| :: a.items[i].kind == b.items[i].kind)
  }

  lemma SideItems(rules: Rules, db: Db, u: Actor, c: Command, now: int, next: Db)
    requires Apply(rules, db, u, c, now) == Ok(next)
    requires c.PutTag? || c.PutNoteGroup? || c.UpdateProfile? || c.Upload? || c.SetAssetDeleted? || c.Login?
    ensures next.items == db.items && next.revisions == db.revisions
  {
    hide TagRow, GroupRow, PublishedUsesTag, PublishedUsesGroup, PublishedUsesByline, ValidGroup, FindGroup, PutRow;
  }

  lemma SideStays(rules: Rules, db: Db, u: Actor, c: Command, now: int, next: Db)
    requires Apply(rules, db, u, c, now) == Ok(next)
    requires c.PutTag? || c.PutNoteGroup? || c.UpdateProfile? || c.Upload? || c.SetAssetDeleted? || c.Login? || c.Create?
    ensures OthersStay(db, next, 0)
  {
    if c.Create? {
      assert next.revisions == db.revisions;
    } else {
      hide Apply;
      SideItems(rules, db, u, c, now, next);
    }
  }

  lemma RetractStays(rules: Rules, db: Db, u: Actor, c: Command, now: int, next: Db)
    requires Apply(rules, db, u, c, now) == Ok(next) && Retracts(c)
    ensures Row(db.items, c.id) && OthersStay(db, next, c.id) && !Public(At(next.items, c.id))
  {
  }

  // What a publication leaves: the item is public, and a topic points at what was publishable.
  ghost predicate PublishedIn(db: Db, next: Db, id: int) {
    && Row(db.items, id) && OthersStay(db, next, id)
    && |db.items| == |next.items| && Public(At(next.items, id)) && Row(next.revisions, At(next.items, id).published.value)
    && (At(next.items, id).kind.Topic? ==>
          forall e | e in At(next.revisions, At(next.items, id).published.value).entries :: Publishable(db.items, e))
  }

  lemma ReviewedStays(rules: Rules, db: Db, u: Actor, id: int, rid: int, comment: string, now: int, next: Db)
    requires DoPublishReviewed(rules, db, u, id, rid, comment, now) == Ok(next)
    ensures PublishedIn(db, next, id)
  {
    hide FieldsFault, HydrateNote, CandidatePath, Claim, Demote;
  }

  lemma DirectStays(rules: Rules, db: Db, u: Actor, id: int, version: int, dates: Option<LegacyDates>, now: int, next: Db)
    requires DoPublishDirect(rules, db, u, id, version, dates, now) == Ok(next)
    ensures PublishedIn(db, next, id)
  {
    hide FieldsFault, HydrateNote, CandidatePath, Claim, Demote, TakeSnapshot;
    var taken := TakeSnapshot(rules, db, u, id, version, now).value;
    SnapshotTakes(rules, db, u, id, version, now, taken);
  }

  lemma PublishStays(rules: Rules, db: Db, u: Actor, c: Command, now: int, next: Db)
    requires Apply(rules, db, u, c, now) == Ok(next) && Publishes(c)
    ensures PublishedIn(db, next, c.id)
  {
    hide DoPublishReviewed, DoPublishDirect, PublishedIn;
    if c.PublishDirect? {
      DirectStays(rules, db, u, c.id, c.version, c.dates, now, next);
    } else {
      ReviewedStays(rules, db, u, c.id, c.revision, c.comment, now, next);
    }
  }

  lemma QuietStays(rules: Rules, db: Db, u: Actor, c: Command, now: int, next: Db)
    requires Good(rules, db) && Apply(rules, db, u, c, now) == Ok(next)
    requires c.Save? || c.Submit? || c.RequestChanges? || c.Withdraw? || c.RestoreArchive? || c.RestoreRevision?
    ensures OthersStay(db, next, 0)
  {
    hide Apply;
    if c.Submit? || c.RequestChanges? {
      ReviewShape(rules, db, u, c, now, next);
    } else {
      DraftShape(rules, db, u, c, now, next);
      assert ItemOk(At(db.items, c.id), c.id, At(db.drafts, c.id), db.revisions, db.reviews);
    }
  }

  // A topic other than the one written stays live when the articles it points at stay published.
  lemma TopicStays(a: Db, b: Db, id: int, i: int)
    requires ItemsOk(a) && OthersStay(a, b, id) && 0 <= i < |a.items| && i + 1 != id && TopicLive(a, i)
    requires id > 0 && Row(b.items, id) ==> Public(At(b.items, id))
    ensures TopicLive(b, i)
  {
    assert SameItem(a.items[i], b.items[i]);
    assert ItemOk(a.items[i], i + 1, a.drafts[i], a.revisions, a.reviews);
    if Public(a.items[i]) && a.items[i].kind.Topic? {
      forall e | e in At(a.revisions, a.items[i].published.value).entries
        ensures Publishable(b.items, e)
      {
        assert Publishable(a.items, e) && (e == id || SameItem(a.items[e - 1], b.items[e - 1]));
      }
    }
  }

  lemma AllTopicsStay(a: Db, b: Db, id: int)
    requires ItemsOk(a) && OthersStay(a, b, id) && TopicsLive(a)
    requires id > 0 ==> Row(b.items, id) && Public(At(b.items, id)) && (Row(a.items, id) ==> TopicLive(b, id - 1))
    ensures TopicsLive(b)
  {
    forall i | 0 <= i < |b.items|
      ensures TopicLive(b, i)
    {
      if i < |a.items| && i + 1 != id { TopicStays(a, b, id, i); }
    }
  }

  lemma NewTopicLive(db: Db, next: Db, id: int)
    requires OthersStay(db, next, id) && Row(db.items, id) && Public(At(next.items, id))
    requires Row(next.revisions, At(next.items, id).published.value)
    requires At(next.items, id).kind.Topic? ==>
      forall e | e in At(next.revisions, At(next.items, id).published.value).entries :: Publishable(db.items, e)
    ensures TopicLive(next, id - 1)
  {
    if At(next.items, id).kind.Topic? {
      forall e | e in At(next.revisions, At(next.items, id).published.value).entries
        ensures Publishable(next.items, e)
      {
        assert e != id && SameItem(db.items[e - 1], next.items[e - 1]);
      }
    }
  }

  // A published topic other than id that points at id.
  ghost predicate PointsAt(db: Db, i: int, id: int)
    requires 0 <= i < |db.items|
  {
    var c := db.items[i];
    c.kind.Topic? && Public(c) && Row(db.revisions, c.published.value) && i + 1 != id
    && id in At(db.revisions, c.published.value).entries
  }

  lemma RetractedTopic(a: Db, b: Db, id: int, i: int)
    requires ItemsOk(a) && OthersStay(a, b, id) && Row(a.items, id) && !Public(At(b.items, id))
    requires 0 <= i < |a.items| && TopicLive(a, i)
    ensures TopicLive(b, i) <==> !PointsAt(a, i, id)
  {
    assert ItemOk(a.items[i], i + 1, a.drafts[i], a.revisions, a.reviews);
    if i + 1 != id {
      assert SameItem(a.items[i], b.items[i]);
      if Public(a.items[i]) && a.items[i].kind.Topic? {
        var entries := At(a.revisions, a.items[i].published.value).entries;
        forall e | e in entries && e != id
          ensures Publishable(b.items, e)
        {
          assert Publishable(a.items, e) && SameItem(a.items[e - 1], b.items[e - 1]);
        }
        assert !Publishable(b.items, id);
        assert b.items[i].published == a.items[i].published && b.items[i].kind.Topic?;
        assert At(b.revisions, b.items[i].published.value).entries == entries;
      }
    }
  }

  lemma Retracted(a: Db, b: Db, id: int)
    requires ItemsOk(a) && OthersStay(a, b, id) && Row(a.items, id) && !Public(At(b.items, id)) && TopicsLive(a)
    ensures TopicsLive(b) <==> forall i | 0 <= i < |a.items| :: !PointsAt(a, i, id)
  {
    hide TopicLive, PointsAt, OthersStay;
    forall i | 0 <= i < |a.items|
      ensures i < |b.items| && (TopicLive(b, i) <==> !PointsAt(a, i, id))
    {
      StaysLonger(a, b, id);
      RetractedTopic(a, b, id, i);
    }
    forall i | |a.items| <= i < |b.items|
      ensures TopicLive(b, i)
    {
      NewItemsLive(a, b, id, i);
    }
  }

  lemma StaysLonger(a: Db, b: Db, id: int)
    requires OthersStay(a, b, id)
    ensures |a.items| <= |b.items|
  {
  }

  lemma NewItemsLive(a: Db, b: Db, id: int, i: int)
    requires OthersStay(a, b, id) && |a.items| <= i < |b.items|
    ensures TopicLive(b, i)
  {
  }

  /**
   * Publishing establishes the topic condition for what it publishes and no command but a retraction can
   * break it; a retraction breaks it exactly when some published topic points at the retracted item.
   */
  lemma TopicsStayLive(rules: Rules, db: Db, u: Actor, c: Command, now: int, next: Db)
    requires Good(rules, db) && Apply(rules, db, u, c, now) == Ok(next)
    ensures Publishes(c) ==> Row(next.items, c.id) && TopicLive(next, c.id - 1)
    ensures !Retracts(c) && TopicsLive(db) ==> TopicsLive(next)
    ensures Retracts(c) && TopicsLive(db) ==>
      (TopicsLive(next) <==> forall i | 0 <= i < |db.items| :: !PointsAt(db, i, c.id))
  {
    hide Apply, TopicLive, PointsAt, OthersStay, RevisionsOk, TaxonomyOk, RoutesOk, ItemsOk;
    GoodParts(rules, db);
    if Retracts(c) {
      RetractStays(rules, db, u, c, now, next);
      if TopicsLive(db) { Retracted(db, next, c.id); }
    } else if Publishes(c) {
      PublishStays(rules, db, u, c, now, next);
      NewTopicLive(db, next, c.id);
      if TopicsLive(db) { AllTopicsStay(db, next, c.id); }
    } else {
      if c.Save? || c.Submit? || c.RequestChanges? || c.Withdraw? || c.RestoreArchive? || c.RestoreRevision? {
        QuietStays(rules, db, u, c, now, next);
      } else {
        SideStays(rules, db, u, c, now, next);
      }
      if TopicsLive(db) { AllTopicsStay(db, next, 0); }
    }
  }

  /** Unpublishing an article some published topic points at makes the next export refuse. */
  lemma RetractionStopsExport(rules: Rules, b: Budget, db: Db, u: Actor, c: Command, now: int, next: Db, i: int)
    requires Good(rules, db) && Lawful(rules) && TopicsLive(db) && next.ready
    requires Apply(rules, db, u, c, now) == Ok(next) && Retracts(c)
    requires 0 <= i < |db.items| && PointsAt(db, i, c.id)
    ensures Export(rules, b, ViewOf(next), next.generation) == Err(Invalid)
  {
    hide Apply, PointsAt, Good, Acceptable;
    TopicsStayLive(rules, db, u, c, now, next);
    StepGood(rules, db, u, c, now);
    ExportIff(rules, b, next);
  }

  /** A successful export lists exactly the rows its content refers to, each once, ascending, as stored. */
  lemma ExportLists(rules: Rules, b: Budget, db: Db, generation: int, s: Snapshot)
    requires Export(rules, b, ViewOf(db), generation) == Ok(s)
    ensures var rows := Rows(db, |db.items|);
      && |s.content| == |rows| == CountPublic(db.items)
      && (forall k | 0 <= k < |rows| :: Addable(rows[k]) && s.content[k] == Document(rows[k]))
      && (forall j, k | 0 <= j < k < |s.content| :: s.content[j].id < s.content[k].id)
      && Strictly(AuthorKey, s.authors) && AuthorsListed(db, s.authors, Bylines(rows))
      && Strictly(AssetKey, s.assets) && AssetsListed(db, s.assets, Covers(rows))
      && Strictly(GroupKey, s.groups) && GroupsListed(db, s.groups, NoteSlugs(rows))
      && Strictly(TagKey, s.tags) && TagsListed(db, s.tags, Tagged(rows))
  {
    hide RowValid, Closed, Addable, Bylines, Covers, NoteSlugs, Tagged, FetchedRow, RouteRows, PublicRoutes, RouteCost, Collect;
    var rows := Rows(db, |db.items|);
    assert forall k | 0 <= k < |rows| :: RowValid(rules, rows[k]);
    AllAddable(rules, rows, |rows|);
    RowsSound(db, |db.items|);
    var a := Collect(b, rows);
    CollectLists(b, db, rows);
    SortedLists(db, rows, a);
    ContentAscends(rows, a.content);
  }

  // ----- a list is determined by what it lists -----

  function Column<T>(key: T -> int, s: seq<T>): (ids: seq<int>)
    ensures |ids| == |s| && forall i | 0 <= i < |s| :: ids[i] == key(s[i])
  {
    seq(|s|, i requires 0 <= i < |s| => key(s[i]))
  }

  // Rows in key order are the same when they have the same keys and a key means a row.
  lemma StrictlyUnique<T(!new)>(key: T -> int, a: seq<T>, b: seq<T>)
    requires Strictly(key, a) && Strictly(key, b)
    requires forall x | x in a :: exists y :: y in b && key(y) == key(x)
    requires forall y | y in b :: exists x :: x in a && key(x) == key(y)
    requires forall x, y | x in a && y in b && key(x) == key(y) :: x == y
    ensures a == b
  {
    var left, right := Column(key, a), Column(key, b);
    forall n
      ensures n in left <==> n in right
    {
      SameColumn(key, a, b, n);
      SameColumn(key, b, a, n);
    }
    IdOrder();
    AscendingUnique(IdLess, left, right);
    forall i | 0 <= i < |a|
      ensures a[i] == b[i]
    {
      assert key(a[i]) == left[i] == right[i] == key(b[i]) && a[i] in a && b[i] in b;
    }
  }

  lemma SameColumn<T(!new)>(key: T -> int, a: seq<T>, b: seq<T>, n: int)
    requires forall x | x in a :: exists y :: y in b && key(y) == key(x)
    ensures n in Column(key, a) ==> n in Column(key, b)
  {
    if n in Column(key, a) {
      var i :| 0 <= i < |a| && Column(key, a)[i] == n;
      assert a[i] in a;
      var y :| y in b && key(y) == key(a[i]);
      var j :| 0 <= j < |b| && b[j] == y;
      assert Column(key, b)[j] == n;
    }
  }

  /** The tables of a snapshot are determined by what its rows refer to: no other ascending lists hold exactly that. */
  lemma ExportIsDetermined(rules: Rules, b: Budget, db: Db, generation: int, s: Snapshot, t: Snapshot)
    requires Export(rules, b, ViewOf(db), generation) == Ok(s)
    requires var rows := Rows(db, |db.items|);
      && Strictly(AuthorKey, t.authors) && AuthorsListed(db, t.authors, Bylines(rows))
      && Strictly(AssetKey, t.assets) && AssetsListed(db, t.assets, Covers(rows))
      && Strictly(GroupKey, t.groups) && GroupsListed(db, t.groups, NoteSlugs(rows))
      && Strictly(TagKey, t.tags) && TagsListed(db, t.tags, Tagged(rows))
    ensures t.authors == s.authors && t.assets == s.assets && t.groups == s.groups && t.tags == s.tags
  {
    hide Bylines, Covers, NoteSlugs, Tagged, Export;
    ExportLists(rules, b, db, generation, s);
    var rows := Rows(db, |db.items|);
    SameAuthors(db, s.authors, t.authors, Bylines(rows));
    SameAssets(db, s.assets, t.assets, Covers(rows));
    SameGroups(db, s.groups, t.groups, NoteSlugs(rows));
    SameTags(db, s.tags, t.tags, Tagged(rows));
  }

  lemma SameAuthors(db: Db, a: seq<PublicAuthor>, b: seq<PublicAuthor>, used: set<int>)
    requires Strictly(AuthorKey, a) && AuthorsListed(db, a, used) && Strictly(AuthorKey, b) && AuthorsListed(db, b, used)
    ensures a == b
  {
    forall x | x in a
      ensures exists y :: y in b && AuthorKey(y) == AuthorKey(x)
    {
      assert x.id in AuthorIds(b);
    }
    forall y | y in b
      ensures exists x :: x in a && AuthorKey(x) == AuthorKey(y)
    {
      assert y.id in AuthorIds(a);
    }
    StrictlyUnique(AuthorKey, a, b);
  }

  lemma SameAssets(db: Db, a: seq<PublicAsset>, b: seq<PublicAsset>, used: set<int>)
    requires Strictly(AssetKey, a) && AssetsListed(db, a, used) && Strictly(AssetKey, b) && AssetsListed(db, b, used)
    ensures a == b
  {
    forall x | x in a
      ensures exists y :: y in b && AssetKey(y) == AssetKey(x)
    {
      assert x.id in AssetIds(b);
    }
    forall y | y in b
      ensures exists x :: x in a && AssetKey(x) == AssetKey(y)
    {
      assert y.id in AssetIds(a);
    }
    StrictlyUnique(AssetKey, a, b);
  }

  lemma SameGroups(db: Db, a: seq<PublicGroup>, b: seq<PublicGroup>, used: set<string>)
    requires Strictly(GroupKey, a) && GroupsListed(db, a, used) && Strictly(GroupKey, b) && GroupsListed(db, b, used)
    ensures a == b
  {
    forall x | x in a
      ensures exists y :: y in b && GroupKey(y) == GroupKey(x)
    {
      assert x.group.slug in GroupSlugs(b);
      var y :| y in b && y.group.slug == x.group.slug;
      assert y.id == x.id;
    }
    forall y | y in b
      ensures exists x :: x in a && GroupKey(x) == GroupKey(y)
    {
      assert y.group.slug in GroupSlugs(a);
      var x :| x in a && x.group.slug == y.group.slug;
      assert x.id == y.id;
    }
    StrictlyUnique(GroupKey, a, b);
  }

  lemma SameTags(db: Db, a: seq<PublicTag>, b: seq<PublicTag>, used: set<int>)
    requires Strictly(TagKey, a) && TagsListed(db, a, used) && Strictly(TagKey, b) && TagsListed(db, b, used)
    ensures a == b
  {
    hide FetchTag;
    forall x | x in a
      ensures exists y :: y in b && TagKey(y) == TagKey(x)
    {
      assert x.id in TagIds(b);
    }
    forall y | y in b
      ensures exists x :: x in a && TagKey(x) == TagKey(y)
    {
      assert y.id in TagIds(a);
    }
    StrictlyUnique(TagKey, a, b);
  }

  lemma ContentAscends(rows: seq<PublicRow>, content: seq<PublicContent>)
    requires Keyed(RowKey, IdLess, rows) && |content| == |rows|
    requires forall k | 0 <= k < |rows| :: Addable(rows[k]) && content[k] == Document(rows[k])
    ensures forall j, k | 0 <= j < k < |content| :: content[j].id < content[k].id
  {
    forall j, k | 0 <= j < k < |content|
      ensures content[j].id < content[k].id
    {
      assert IdLess(RowKey(rows[j]), RowKey(rows[k]));
    }
  }

  lemma SortedLists(db: Db, rows: seq<PublicRow>, a: Acc)
    requires Listed(db, rows, a)
    ensures Strictly(AuthorKey, SortBy(AuthorKey, a.authors)) && AuthorsListed(db, SortBy(AuthorKey, a.authors), Bylines(rows))
    ensures Strictly(AssetKey, SortBy(AssetKey, a.assets)) && AssetsListed(db, SortBy(AssetKey, a.assets), Covers(rows))
    ensures Strictly(GroupKey, SortBy(GroupKey, a.groups)) && GroupsListed(db, SortBy(GroupKey, a.groups), NoteSlugs(rows))
    ensures Strictly(TagKey, SortBy(TagKey, a.tags)) && TagsListed(db, SortBy(TagKey, a.tags), Tagged(rows))
  {
    hide AuthorsListed, AssetsListed, GroupsListed, TagsListed, SortBy, Strictly;
    SortedPeople(db, rows, a);
    SortedTaxonomy(db, rows, a);
  }

  lemma SortedPeople(db: Db, rows: seq<PublicRow>, a: Acc)
    requires Listed(db, rows, a)
    ensures Strictly(AuthorKey, SortBy(AuthorKey, a.authors)) && AuthorsListed(db, SortBy(AuthorKey, a.authors), Bylines(rows))
    ensures Strictly(AssetKey, SortBy(AssetKey, a.assets)) && AssetsListed(db, SortBy(AssetKey, a.assets), Covers(rows))
  {
    hide GroupsListed, TagsListed, Bylines, Covers, NoteSlugs, Tagged, SortBy;
    SortSorts(AuthorKey, a.authors);
    SortSorts(AssetKey, a.assets);
    StrictlyDistinct(AuthorKey, SortBy(AuthorKey, a.authors));
    StrictlyDistinct(AssetKey, SortBy(AssetKey, a.assets));
  }

  lemma SortedTaxonomy(db: Db, rows: seq<PublicRow>, a: Acc)
    requires Listed(db, rows, a)
    ensures Strictly(GroupKey, SortBy(GroupKey, a.groups)) && GroupsListed(db, SortBy(GroupKey, a.groups), NoteSlugs(rows))
    ensures Strictly(TagKey, SortBy(TagKey, a.tags)) && TagsListed(db, SortBy(TagKey, a.tags), Tagged(rows))
  {
    hide AuthorsListed, AssetsListed, FetchTag, Bylines, Covers, NoteSlugs, Tagged, SortBy;
    SortSorts(GroupKey, a.groups);
    SortSorts(TagKey, a.tags);
    StrictlyDistinct(GroupKey, SortBy(GroupKey, a.groups));
    StrictlyDistinct(TagKey, SortBy(TagKey, a.tags));
  }

  lemma StrictlyDistinct<T>(key: T -> int, s: seq<T>)
    requires Strictly(key, s)
    ensures DistinctBy(key, s)
  {
    forall i, j | 0 <= i < j < |s|
      ensures key(s[i]) != key(s[j])
    {
      assert key(s[i]) < key(s[j]);
    }
  }
}
