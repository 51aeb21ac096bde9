/** What a closed snapshot is, written out on its lists: the statement validateGraph decides. */
module GraphMeaning {
  import opened Base
  import opened Text
  import opened Schema
  import opened Content
  import opened Graph

  predicate LabelFits(slug: string, name: string, description: string, nameEn: string, descriptionEn: string) {
    && ValidSlug(slug) && !Blank(name) && |name| <= 100 && |description| <= 1000 && |nameEn| <= 100 && |descriptionEn| <= 1000
  }

  // ----- the tables -----

  ghost predicate GroupsStand(s: Snapshot) {
    && (forall i | 0 <= i < |s.groups| ::
          var g := s.groups[i].group;
          s.groups[i].id > 0 && 0 <= g.order <= 1000000 && LabelFits(g.slug, g.name, g.description, g.nameEn, g.descriptionEn))
    && forall i, j | 0 <= i < j < |s.groups| :: s.groups[i].id != s.groups[j].id && s.groups[i].group.slug != s.groups[j].group.slug
  }

  ghost predicate AuthorsStand(s: Snapshot) {
    && (forall i | 0 <= i < |s.authors| :: s.authors[i].id > 0)
    && forall i, j | 0 <= i < j < |s.authors| :: s.authors[i].id != s.authors[j].id
  }

  ghost predicate AssetsStand(rules: Rules, s: Snapshot) {
    && (forall i | 0 <= i < |s.assets| :: s.assets[i].id > 0 && rules.assetUrl(s.assets[i].card))
    && forall i, j | 0 <= i < j < |s.assets| :: s.assets[i].id != s.assets[j].id
  }

  ghost predicate TagsStand(s: Snapshot) {
    && (forall i | 0 <= i < |s.tags| ::
          var t := s.tags[i]; t.id > 0 && LabelFits(t.slug, t.name, t.description, t.nameEn, t.descriptionEn))
    && forall i, j | 0 <= i < j < |s.tags| :: s.tags[i].id != s.tags[j].id && s.tags[i].slug != s.tags[j].slug
  }

  // ----- the rows of the tables a document refers to -----

  ghost predicate HasGroup(s: Snapshot, slug: string) {
    exists i :: 0 <= i < |s.groups| && s.groups[i].group.slug == slug
  }

  ghost predicate HasAuthor(s: Snapshot, id: int) {
    exists i :: 0 <= i < |s.authors| && s.authors[i].id == id
  }

  ghost predicate HasAsset(s: Snapshot, id: int) {
    exists i :: 0 <= i < |s.assets| && s.assets[i].id == id
  }

  ghost predicate HasTag(s: Snapshot, id: int) {
    exists i :: 0 <= i < |s.tags| && s.tags[i].id == id
  }

  ghost predicate HasDocument(s: Snapshot, id: int) {
    exists i :: 0 <= i < |s.content| && s.content[i].id == id
  }

  ghost predicate HasArticle(s: Snapshot, id: int) {
    exists i :: 0 <= i < |s.content| && s.content[i].id == id && s.content[i].kind == CuratedArticle
  }

  // ----- the documents -----

  predicate EnglishStands(rules: Rules, c: PublicContent) {
    c.english.Some? ==>
      && c.english.value.enabled && (c.kind == CuratedArticle || c.kind == Topic)
      && var payload := match c.payload
                        case PublicPost => PostPayload
                        case PublicNote(slug, order) => NotePayload(slug, order, Mirror("", "", 0))
                        case PublicTopic(order, count) => TopicPayload(order, count)
                        case PublicCurated(source) => CuratedPayload(source);
         rules.english(c.kind, payload, c.english.value, true) == None
  }

  ghost predicate DocumentStands(rules: Rules, s: Snapshot, c: PublicContent) {
    && c.id > 0 && c.canonicalPath != "" && EnglishStands(rules, c) && HasAuthor(s, c.authorId)
    && (c.kind == Note ==> c.payload.PublicNote? && HasGroup(s, c.payload.groupSlug) && 0 <= c.payload.order <= 1000000)
    && (c.cover.Some? ==> HasAsset(s, c.cover.value)) && forall t | t in c.tagIds :: HasTag(s, t)
  }

  ghost predicate EntriesStand(s: Snapshot, c: PublicContent) {
    && (if c.kind == Topic then c.payload.PublicTopic? && 0 <= c.payload.recommendedCount <= |c.entries| && c.tagIds == []
        else c.entries == [])
    && (forall i | 0 <= i < |c.entries| ::
          c.entries[i].position == i + 1 && c.entries[i].target != c.id && HasArticle(s, c.entries[i].target))
    && forall i, j | 0 <= i < j < |c.entries| :: c.entries[i].target != c.entries[j].target
  }

  ghost predicate ContentStands(rules: Rules, s: Snapshot) {
    && (forall k | 0 <= k < |s.content| :: DocumentStands(rules, s, s.content[k]) && EntriesStand(s, s.content[k]))
    && forall i, j | 0 <= i < j < |s.content| :: s.content[i].id != s.content[j].id
  }

  ghost predicate NoteOf(c: PublicContent, slug: string) {
    c.kind == Note && c.payload == PublicNote(slug, if c.payload.PublicNote? then c.payload.order else 0)
  }

  ghost predicate HasNote(s: Snapshot, slug: string) {
    exists k :: 0 <= k < |s.content| && NoteOf(s.content[k], slug)
  }

  // Some note is in every group.
  ghost predicate NoIdleGroup(s: Snapshot) {
    forall i | 0 <= i < |s.groups| :: HasNote(s, s.groups[i].group.slug)
  }

  // ----- the paths -----

  ghost predicate Leads(s: Snapshot, i: int, id: int) {
    0 <= i < |s.routes| && s.routes[i].kind == Canonical && s.routes[i].contentId == id
  }

  // Every path leads to a document, no path twice; a document's one canonical path is the path it states.
  ghost predicate RoutesStand(s: Snapshot) {
    && (forall i | 0 <= i < |s.routes| :: HasDocument(s, s.routes[i].contentId))
    && (forall i, j | 0 <= i < j < |s.routes| :: s.routes[i].path != s.routes[j].path)
    && forall k | 0 <= k < |s.content| ::
         && (exists i :: Leads(s, i, s.content[k].id))
         && forall i | Leads(s, i, s.content[k].id) :: s.routes[i].path == s.content[k].canonicalPath
  }

  ghost predicate Consistent(rules: Rules, s: Snapshot) {
    && s.schemaVersion == 3 && |s.groups| <= 10000 && |s.content| <= 10000 && |s.authors| <= 10000 && |s.assets| <= 10000
    && |s.tags| <= 100000 && |s.routes| <= 100000
    && GroupsStand(s) && AuthorsStand(s) && AssetsStand(rules, s) && TagsStand(s)
    && ContentStands(rules, s) && NoIdleGroup(s) && RoutesStand(s)
  }

  // ----- the two statements are one -----

  lemma GroupsMean(s: Snapshot)
    ensures GroupsClosed(s.groups) <==> GroupsStand(s)
  {
    hide ValidSlug, Blank;
    if GroupsStand(s) {
      forall i | 0 <= i < |s.groups|
        ensures FreshGroup(s.groups, i)
      {
      }
    }
    if GroupsClosed(s.groups) {
      forall i, j | 0 <= i < j < |s.groups|
        ensures s.groups[i].id != s.groups[j].id && s.groups[i].group.slug != s.groups[j].group.slug
      {
        assert FreshGroup(s.groups, j);
      }
      forall i | 0 <= i < |s.groups|
        ensures var g := s.groups[i].group;
          s.groups[i].id > 0 && 0 <= g.order <= 1000000 && LabelFits(g.slug, g.name, g.description, g.nameEn, g.descriptionEn)
      {
        assert FreshGroup(s.groups, i);
      }
    }
  }

  lemma TablesMean(rules: Rules, s: Snapshot)
    ensures AuthorsClosed(s.authors) <==> AuthorsStand(s)
    ensures AssetsClosed(rules, s.assets) <==> AssetsStand(rules, s)
    ensures TagsClosed(s.tags) <==> TagsStand(s)
  {
    hide ValidSlug, Blank;
    assert forall t :: ValidPublicTag(t) <==> LabelFits(t.slug, t.name, t.description, t.nameEn, t.descriptionEn);
  }

  lemma RowsMean(s: Snapshot)
    ensures forall x :: x in GroupSlugs(s.groups) <==> HasGroup(s, x)
    ensures forall x :: x in AuthorIds(s.authors) <==> HasAuthor(s, x)
    ensures forall x :: x in AssetIds(s.assets) <==> HasAsset(s, x)
    ensures forall x :: x in TagIds(s.tags) <==> HasTag(s, x)
    ensures forall x :: x in ContentIds(s.content) <==> HasDocument(s, x)
    ensures forall x :: x in CuratedIds(s.content) <==> HasArticle(s, x)
  {
    forall i | 0 <= i < |s.content|
      ensures s.content[i] in s.content
    {
    }
    forall x | HasArticle(s, x)
      ensures x in CuratedIds(s.content)
    {
      var i :| 0 <= i < |s.content| && s.content[i].id == x && s.content[i].kind == CuratedArticle;
      assert s.content[i] in s.content;
    }
  }

  lemma DocumentMeans(rules: Rules, s: Snapshot, k: int)
    requires 0 <= k < |s.content|
    ensures Resolved(rules, s.content[k], GroupSlugs(s.groups), AuthorIds(s.authors), AssetIds(s.assets), TagIds(s.tags))
      <==> DocumentStands(rules, s, s.content[k])
    ensures EntriesClosed(s.content[k], CuratedIds(s.content)) <==> EntriesStand(s, s.content[k])
  {
    RowsMean(s);
    hide HasGroup, HasAuthor, HasAsset, HasTag, HasArticle, GroupSlugs, AuthorIds, AssetIds, TagIds, CuratedIds;
  }

  lemma UsedMeans(s: Snapshot)
    requires forall k | 0 <= k < |s.content| && s.content[k].kind.Note? ::
      s.content[k].payload.PublicNote? && s.content[k].payload.groupSlug in GroupSlugs(s.groups)
    ensures UsedGroups(s.content) == GroupSlugs(s.groups) <==> NoIdleGroup(s)
  {
    assert UsedGroups(s.content) <= GroupSlugs(s.groups);
    if NoIdleGroup(s) {
      forall x | x in GroupSlugs(s.groups)
        ensures x in UsedGroups(s.content)
      {
        var i :| 0 <= i < |s.groups| && s.groups[i].group.slug == x;
        assert HasNote(s, x);
        var k :| 0 <= k < |s.content| && NoteOf(s.content[k], x);
        assert s.content[k] in s.content;
      }
      assert UsedGroups(s.content) == GroupSlugs(s.groups);
    }
    if UsedGroups(s.content) == GroupSlugs(s.groups) {
      forall i | 0 <= i < |s.groups|
        ensures HasNote(s, s.groups[i].group.slug)
      {
        assert s.groups[i] in s.groups;
        assert s.groups[i].group.slug in UsedGroups(s.content);
        var c :| c in s.content && c.kind.Note? && c.payload.PublicNote? && c.payload.groupSlug == s.groups[i].group.slug;
        var k :| 0 <= k < |s.content| && s.content[k] == c;
        assert NoteOf(s.content[k], s.groups[i].group.slug);
      }
    }
  }

  lemma ContentMeans(rules: Rules, s: Snapshot)
    ensures ContentClosed(rules, s) <==> ContentStands(rules, s) && NoIdleGroup(s)
  {
    hide Resolved, DocumentStands, EntriesClosed, EntriesStand, NoIdleGroup, UsedGroups;
    forall k | 0 <= k < |s.content|
      ensures Resolved(rules, s.content[k], GroupSlugs(s.groups), AuthorIds(s.authors), AssetIds(s.assets), TagIds(s.tags))
        <==> DocumentStands(rules, s, s.content[k])
      ensures EntriesClosed(s.content[k], CuratedIds(s.content)) <==> EntriesStand(s, s.content[k])
    {
      DocumentMeans(rules, s, k);
    }
    hide GroupSlugs, AuthorIds, AssetIds, TagIds, CuratedIds;
    if ContentClosed(rules, s) || ContentStands(rules, s) {
      forall k | 0 <= k < |s.content| && s.content[k].kind.Note?
        ensures s.content[k].payload.PublicNote? && s.content[k].payload.groupSlug in GroupSlugs(s.groups)
      {
        NotesResolve(rules, s, k);
      }
      UsedMeans(s);
    }
    FreshMeans(s.content);
  }

  lemma NotesResolve(rules: Rules, s: Snapshot, k: int)
    requires 0 <= k < |s.content| && s.content[k].kind.Note?
    ensures Resolved(rules, s.content[k], GroupSlugs(s.groups), AuthorIds(s.authors), AssetIds(s.assets), TagIds(s.tags)) ==>
      s.content[k].payload.PublicNote? && s.content[k].payload.groupSlug in GroupSlugs(s.groups)
  {
  }

  lemma FreshMeans(content: seq<PublicContent>)
    ensures (forall i | 0 <= i < |content| :: FreshContent(content, i)) <==>
      (forall i, j | 0 <= i < j < |content| :: content[i].id != content[j].id)
  {
    if forall i | 0 <= i < |content| :: FreshContent(content, i) {
      forall i, j | 0 <= i < j < |content|
        ensures content[i].id != content[j].id
      {
        assert FreshContent(content, j);
      }
    }
  }

  lemma RoutesMean(s: Snapshot)
    ensures RoutesClosed(s) <==> RoutesStand(s)
  {
    RowsMean(s);
    hide HasDocument, HasGroup, HasAuthor, HasAsset, HasTag, HasArticle, ContentIds;
    if RoutesClosed(s) {
      forall k | 0 <= k < |s.content|
        ensures exists i :: Leads(s, i, s.content[k].id)
      {
        assert Housed(s, k);
        var i :| 0 <= i < |s.routes| && HomeRoute(s.routes[i], s.content[k].id);
        assert Leads(s, i, s.content[k].id);
      }
      forall k, i | 0 <= k < |s.content| && Leads(s, i, s.content[k].id)
        ensures s.routes[i].path == s.content[k].canonicalPath
      {
        assert HomeRoute(s.routes[i], s.content[k].id);
      }
    }
    if RoutesStand(s) {
      forall k | 0 <= k < |s.content|
        ensures Housed(s, k)
      {
        var i :| Leads(s, i, s.content[k].id);
        assert HomeRoute(s.routes[i], s.content[k].id);
      }
      forall i, k | 0 <= i < |s.routes| && 0 <= k < |s.content| && HomeRoute(s.routes[i], s.content[k].id)
        ensures s.routes[i].path == s.content[k].canonicalPath
      {
        assert Leads(s, i, s.content[k].id);
      }
    }
  }

  /** A snapshot is closed iff its lists are consistent in just these words. */
  lemma ClosedMeans(rules: Rules, s: Snapshot)
    ensures Closed(rules, s) <==> Consistent(rules, s)
  {
    hide GroupsClosed, GroupsStand, AuthorsClosed, AuthorsStand, AssetsClosed, AssetsStand, TagsClosed, TagsStand,
         ContentClosed, ContentStands, NoIdleGroup, RoutesClosed, RoutesStand;
    GroupsMean(s);
    TablesMean(rules, s);
    ContentMeans(rules, s);
    RoutesMean(s);
  }
}
