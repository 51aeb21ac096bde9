/** validateGraph: the loops over a snapshot accept exactly the closed ones. */
module Graph {
  import opened Base
  import opened Text
  import opened Schema
  import opened Content

  const SCHEMA_VERSION := 3
  const MAX_ROWS := 10000
  const MAX_LINKS := 100000

  function AsPayload(p: PublicPayload): Payload {
    match p
    case PublicPost => PostPayload
    case PublicNote(slug, order) => NotePayload(slug, order, NO_MIRROR)
    case PublicTopic(order, count) => TopicPayload(order, count)
    case PublicCurated(source) => CuratedPayload(source)
  }

  // ----- the closed snapshots, stated once -----

  ghost predicate WithinLimits(s: Snapshot) {
    && s.schemaVersion == SCHEMA_VERSION && |s.groups| <= MAX_ROWS && |s.content| <= MAX_ROWS
    && |s.authors| <= MAX_ROWS && |s.assets| <= MAX_ROWS && |s.tags| <= MAX_LINKS && |s.routes| <= MAX_LINKS
  }

  // Row i is well formed and repeats no identity of an earlier row.
  ghost predicate FreshGroup(groups: seq<PublicGroup>, i: int)
    requires 0 <= i < |groups|
  {
    && groups[i].id > 0 && ValidGroup(groups[i].group)
    && forall j | 0 <= j < i :: groups[j].id != groups[i].id && groups[j].group.slug != groups[i].group.slug
  }

  ghost predicate GroupsClosed(groups: seq<PublicGroup>) {
    forall i | 0 <= i < |groups| :: FreshGroup(groups, i)
  }

  ghost predicate AuthorsClosed(authors: seq<PublicAuthor>) {
    && (forall i | 0 <= i < |authors| :: authors[i].id > 0)
    && forall i, j | 0 <= i < j < |authors| :: authors[i].id != authors[j].id
  }

  ghost predicate AssetsClosed(rules: Rules, assets: seq<PublicAsset>) {
    && (forall i | 0 <= i < |assets| :: assets[i].id > 0 && rules.assetUrl(assets[i].card))
    && forall i, j | 0 <= i < j < |assets| :: assets[i].id != assets[j].id
  }

  predicate ValidPublicTag(t: PublicTag) {
    ValidLabel(t.slug, t.name, t.description, t.nameEn, t.descriptionEn)
  }

  ghost predicate TagsClosed(tags: seq<PublicTag>) {
    && (forall i | 0 <= i < |tags| :: tags[i].id > 0 && ValidPublicTag(tags[i]))
    && forall i, j | 0 <= i < j < |tags| :: tags[i].id != tags[j].id && tags[i].slug != tags[j].slug
  }

  function GroupSlugs(groups: seq<PublicGroup>): set<string> {
    set g | g in groups :: g.group.slug
  }

  function GroupIds(groups: seq<PublicGroup>): set<int> {
    set g | g in groups :: g.id
  }

  function AuthorIds(authors: seq<PublicAuthor>): set<int> {
    set a | a in authors :: a.id
  }

  function AssetIds(assets: seq<PublicAsset>): set<int> {
    set a | a in assets :: a.id
  }

  function TagIds(tags: seq<PublicTag>): set<int> {
    set t | t in tags :: t.id
  }

  function ContentIds(content: seq<PublicContent>): set<int> {
    set c | c in content :: c.id
  }

  function CuratedIds(content: seq<PublicContent>): set<int> {
    set c | c in content && c.kind.CuratedArticle? :: c.id
  }

  function UsedGroups(content: seq<PublicContent>): set<string> {
    set c | c in content && c.kind.Note? && c.payload.PublicNote? :: c.payload.groupSlug
  }

  // A document on its own and its references into the listed rows.
  predicate Resolved(rules: Rules, c: PublicContent, groups: set<string>, authors: set<int>, assets: set<int>, tags: set<int>) {
    && EnglishFault(rules, c.kind, AsPayload(c.payload), c.english, true).None?
    && (c.english.Some? ==> c.english.value.enabled)
    && (c.kind.Note? ==> c.payload.PublicNote? && c.payload.groupSlug in groups && Ordered(c.payload.order))
    && c.id > 0 && c.authorId in authors && c.canonicalPath != ""
    && (c.cover.Some? ==> c.cover.value in assets)
    && forall t | t in c.tagIds :: t in tags
  }

  predicate EntriesClosed(c: PublicContent, curated: set<int>) {
    && (c.kind.Topic? ==> c.payload.PublicTopic? && 0 <= c.payload.recommendedCount <= |c.entries| && c.tagIds == [])
    && (!c.kind.Topic? ==> c.entries == [])
    && (forall i | 0 <= i < |c.entries| ::
          c.entries[i].position == i + 1 && c.entries[i].target != c.id && c.entries[i].target in curated)
    && forall i, j | 0 <= i < j < |c.entries| :: c.entries[i].target != c.entries[j].target
  }

  ghost predicate FreshContent(content: seq<PublicContent>, i: int)
    requires 0 <= i < |content|
  {
    forall j | 0 <= j < i :: content[j].id != content[i].id
  }

  ghost predicate ContentClosed(rules: Rules, s: Snapshot) {
    && (forall i | 0 <= i < |s.content| ::
          && ContentRow(rules, s.content, i, GroupSlugs(s.groups), AuthorIds(s.authors), AssetIds(s.assets), TagIds(s.tags))
          && EntriesClosed(s.content[i], CuratedIds(s.content)))
    && UsedGroups(s.content) == GroupSlugs(s.groups)
  }

  ghost predicate HomeRoute(r: PublicRoute, id: int) {
    r.kind.Canonical? && r.contentId == id
  }

  ghost predicate RoutesPlaced(s: Snapshot) {
    && (forall i | 0 <= i < |s.routes| :: s.routes[i].contentId in ContentIds(s.content))
    && (forall i, j | 0 <= i < j < |s.routes| :: s.routes[i].path != s.routes[j].path)
    && (forall i, k | 0 <= i < |s.routes| && 0 <= k < |s.content| && HomeRoute(s.routes[i], s.content[k].id) ::
          s.routes[i].path == s.content[k].canonicalPath)
  }

  ghost predicate Housed(s: Snapshot, k: int)
    requires 0 <= k < |s.content|
  {
    exists i :: 0 <= i < |s.routes| && HomeRoute(s.routes[i], s.content[k].id)
  }

  ghost predicate RoutesClosed(s: Snapshot) {
    RoutesPlaced(s) && forall k | 0 <= k < |s.content| :: Housed(s, k)
  }

  /** Unique identities, every reference resolved, no idle group, entries in order, one home per document. */
  ghost predicate Closed(rules: Rules, s: Snapshot) {
    && WithinLimits(s) && GroupsClosed(s.groups) && AuthorsClosed(s.authors)
    && AssetsClosed(rules, s.assets) && TagsClosed(s.tags) && ContentClosed(rules, s) && RoutesClosed(s)
  }

  // Exactly one canonical route per document: two would share the path of the document.
  lemma OneHome(rules: Rules, s: Snapshot, k: int, i: int, j: int)
    requires Closed(rules, s) && 0 <= k < |s.content| && 0 <= i < |s.routes| && 0 <= j < |s.routes|
    requires HomeRoute(s.routes[i], s.content[k].id) && HomeRoute(s.routes[j], s.content[k].id)
    ensures i == j
  {
    assert s.routes[i].path == s.content[k].canonicalPath == s.routes[j].path;
  }

  // ----- the loops -----

  lemma NoGroups(groups: seq<PublicGroup>)
    ensures GroupSlugs(groups[..0]) == {} && GroupIds(groups[..0]) == {}
  {
  }

  lemma GroupStep(groups: seq<PublicGroup>, i: int)
    requires 0 <= i < |groups|
    ensures GroupSlugs(groups[..i + 1]) == GroupSlugs(groups[..i]) + {groups[i].group.slug}
    ensures GroupIds(groups[..i + 1]) == GroupIds(groups[..i]) + {groups[i].id}
    ensures groups[i].group.slug !in GroupSlugs(groups[..i]) ==>
      |GroupSlugs(groups[..i + 1])| == |GroupSlugs(groups[..i])| + 1
  {
    assert groups[..i + 1] == groups[..i] + [groups[i]];
  }

  lemma GroupSeen(groups: seq<PublicGroup>, i: int)
    requires 0 <= i < |groups|
    ensures FreshGroup(groups, i) <==>
      groups[i].id > 0 && ValidGroup(groups[i].group)
      && groups[i].id !in GroupIds(groups[..i]) && groups[i].group.slug !in GroupSlugs(groups[..i])
  {
    assert forall j | 0 <= j < i :: groups[j] == groups[..i][j] && groups[j] in groups[..i];
  }

  method CheckGroups(groups: seq<PublicGroup>) returns (ok: bool, slugs: set<string>)
    ensures ok <==> GroupsClosed(groups)
    ensures ok ==> slugs == GroupSlugs(groups) && |slugs| == |groups|
  {
    hide FreshGroup, ValidGroup, GroupSlugs, GroupIds;
    NoGroups(groups);
    var ids: set<int> := {};
    slugs := {};
    for i := 0 to |groups|
      invariant forall k | 0 <= k < i :: FreshGroup(groups, k)
      invariant ids == GroupIds(groups[..i])
      invariant slugs == GroupSlugs(groups[..i]) && |slugs| == i
    {
      var g := groups[i];
      GroupSeen(groups, i);
      if g.id <= 0 || g.id in ids || g.group.slug in slugs || !ValidGroup(g.group) {
        return false, slugs;
      }
      GroupStep(groups, i);
      slugs := slugs + {g.group.slug};
      ids := ids + {g.id};
    }
    assert groups[..|groups|] == groups;
    return true, slugs;
  }

  method CheckAuthors(authors: seq<PublicAuthor>) returns (ok: bool, ids: set<int>)
    ensures ok <==> AuthorsClosed(authors)
    ensures ok ==> ids == AuthorIds(authors)
  {
    ids := {};
    for i := 0 to |authors|
      invariant AuthorsClosed(authors[..i]) && ids == AuthorIds(authors[..i])
    {
      if authors[i].id <= 0 || authors[i].id in ids {
        return false, ids;
      }
      assert authors[..i + 1] == authors[..i] + [authors[i]];
      ids := ids + {authors[i].id};
    }
    assert authors[..|authors|] == authors;
    return true, ids;
  }

  method CheckAssets(rules: Rules, assets: seq<PublicAsset>) returns (ok: bool, ids: set<int>)
    ensures ok <==> AssetsClosed(rules, assets)
    ensures ok ==> ids == AssetIds(assets)
  {
    ids := {};
    for i := 0 to |assets|
      invariant AssetsClosed(rules, assets[..i]) && ids == AssetIds(assets[..i])
    {
      if assets[i].id <= 0 || assets[i].id in ids || !rules.assetUrl(assets[i].card) {
        return false, ids;
      }
      assert assets[..i + 1] == assets[..i] + [assets[i]];
      ids := ids + {assets[i].id};
    }
    assert assets[..|assets|] == assets;
    return true, ids;
  }

  function TagSlugs(tags: seq<PublicTag>): set<string> {
    set t | t in tags :: t.slug
  }

  lemma TagStep(tags: seq<PublicTag>, i: int)
    requires 0 <= i < |tags|
    ensures TagIds(tags[..i + 1]) == TagIds(tags[..i]) + {tags[i].id}
    ensures TagSlugs(tags[..i + 1]) == TagSlugs(tags[..i]) + {tags[i].slug}
    ensures tags[i].id in TagIds(tags[..i]) <==> exists j :: 0 <= j < i && tags[j].id == tags[i].id
    ensures tags[i].slug in TagSlugs(tags[..i]) <==> exists j :: 0 <= j < i && tags[j].slug == tags[i].slug
  {
    assert tags[..i + 1] == tags[..i] + [tags[i]];
    assert forall j | 0 <= j < i :: tags[j] == tags[..i][j] && tags[j] in tags[..i];
  }

  lemma NoTags(tags: seq<PublicTag>)
    ensures TagIds(tags[..0]) == {} && TagSlugs(tags[..0]) == {}
  {
  }

  method CheckTags(tags: seq<PublicTag>) returns (ok: bool, ids: set<int>)
    ensures ok <==> TagsClosed(tags)
    ensures ok ==> ids == TagIds(tags)
  {
    hide ValidPublicTag, TagIds, TagSlugs;
    NoTags(tags);
    ids := {};
    var slugs: set<string> := {};
    for i := 0 to |tags|
      invariant forall k | 0 <= k < i :: tags[k].id > 0 && ValidPublicTag(tags[k])
      invariant forall j, k | 0 <= j < k < i :: tags[j].id != tags[k].id && tags[j].slug != tags[k].slug
      invariant ids == TagIds(tags[..i]) && slugs == TagSlugs(tags[..i])
    {
      TagStep(tags, i);
      if tags[i].id <= 0 || tags[i].id in ids || tags[i].slug in slugs || !ValidPublicTag(tags[i]) {
        return false, ids;
      }
      ids := ids + {tags[i].id};
      slugs := slugs + {tags[i].slug};
    }
    assert tags[..|tags|] == tags;
    return true, ids;
  }

  lemma ContentStep(content: seq<PublicContent>, i: int)
    requires 0 <= i < |content|
    ensures ContentIds(content[..i + 1]) == ContentIds(content[..i]) + {content[i].id}
    ensures UsedGroups(content[..i + 1]) == UsedGroups(content[..i])
              + if content[i].kind.Note? && content[i].payload.PublicNote? then {content[i].payload.groupSlug} else {}
  {
    assert content[..i + 1] == content[..i] + [content[i]];
  }

  lemma ContentSeen(content: seq<PublicContent>, i: int)
    requires 0 <= i < |content|
    ensures FreshContent(content, i) <==> content[i].id !in ContentIds(content[..i])
  {
    assert forall j | 0 <= j < i :: content[j] == content[..i][j] && content[j] in content[..i];
  }

  // contents remembers each document by its id.
  ghost predicate Remembers(contents: map<int, PublicContent>, content: seq<PublicContent>, n: int)
    requires 0 <= n <= |content|
  {
    && contents.Keys == ContentIds(content[..n])
    && forall k | 0 <= k < n :: content[k].id in contents && contents[content[k].id] == content[k]
  }

  lemma Remember(contents: map<int, PublicContent>, content: seq<PublicContent>, i: int)
    requires 0 <= i < |content| && Remembers(contents, content, i) && FreshContent(content, i)
    ensures Remembers(contents[content[i].id := content[i]], content, i + 1)
  {
    ContentStep(content, i);
  }

  ghost predicate ContentRow(rules: Rules, content: seq<PublicContent>, i: int, groups: set<string>,
                             authors: set<int>, assets: set<int>, tags: set<int>)
    requires 0 <= i < |content|
  {
    Resolved(rules, content[i], groups, authors, assets, tags) && FreshContent(content, i)
  }

  lemma UseGroup(rules: Rules, c: PublicContent, groups: set<string>, authors: set<int>, assets: set<int>, tags: set<int>)
    requires Resolved(rules, c, groups, authors, assets, tags)
    ensures c.kind.Note? ==> c.payload.PublicNote? && c.payload.groupSlug in groups
  {
  }

  // The first pass over the documents.
  method CheckContent(rules: Rules, content: seq<PublicContent>, groups: set<string>, authors: set<int>,
                      assets: set<int>, tags: set<int>)
    returns (ok: bool, contents: map<int, PublicContent>, used: set<string>)
    ensures ok <==>
      forall i | 0 <= i < |content| :: ContentRow(rules, content, i, groups, authors, assets, tags)
    ensures ok ==> used == UsedGroups(content) && used <= groups && Remembers(contents, content, |content|)
  {
    contents := map[];
    used := {};
    for i := 0 to |content|
      invariant forall k | 0 <= k < i :: ContentRow(rules, content, k, groups, authors, assets, tags)
      invariant Remembers(contents, content, i)
      invariant used == UsedGroups(content[..i]) && used <= groups
    {
      var c := content[i];
      var resolved := Resolved(rules, c, groups, authors, assets, tags);
      ContentSeen(content, i);
      if !resolved || c.id in contents {
        assert !ContentRow(rules, content, i, groups, authors, assets, tags);
        return false, contents, used;
      }
      ContentStep(content, i);
      UseGroup(rules, c, groups, authors, assets, tags);
      if c.kind.Note? {
        used := used + {c.payload.groupSlug};
      }
      Remember(contents, content, i);
      contents := contents[c.id := c];
    }
    assert content[..|content|] == content;
    return true, contents, used;
  }

  lemma Position(content: seq<PublicContent>, id: int) returns (k: int)
    requires id in ContentIds(content)
    ensures 0 <= k < |content| && content[k].id == id
  {
    var c :| c in content && c.id == id;
    k :| 0 <= k < |content| && content[k] == c;
  }

  lemma CuratedLookup(content: seq<PublicContent>, contents: map<int, PublicContent>, id: int)
    requires Remembers(contents, content, |content|)
    ensures (id in contents && contents[id].kind.CuratedArticle?) <==> id in CuratedIds(content)
  {
    assert content[..|content|] == content;
    if id in contents {
      var c :| c in content && c.id == id;
      var k :| 0 <= k < |content| && content[k] == c;
      assert contents[content[k].id] == content[k];
    }
    if id in CuratedIds(content) {
      var c :| c in content && c.kind.CuratedArticle? && c.id == id;
      var k :| 0 <= k < |content| && content[k] == c;
      assert contents[content[k].id] == content[k];
    }
  }

  method CheckEntries(c: PublicContent, ghost content: seq<PublicContent>, contents: map<int, PublicContent>) returns (ok: bool)
    requires Remembers(contents, content, |content|)
    ensures ok <==> EntriesClosed(c, CuratedIds(content))
  {
    hide CuratedIds, Remembers, ContentIds;
    if c.kind.Topic? {
      if !c.payload.PublicTopic? || c.payload.recommendedCount < 0 || c.payload.recommendedCount > |c.entries| {
        return false;
      }
    }
    if (c.kind.Topic? && |c.tagIds| > 0) || (!c.kind.Topic? && |c.entries| > 0) {
      return false;
    }
    var seen: set<int> := {};
    for i := 0 to |c.entries|
      invariant seen == (set e | e in c.entries[..i] :: e.target)
      invariant forall k | 0 <= k < i ::
        c.entries[k].position == k + 1 && c.entries[k].target != c.id && c.entries[k].target in CuratedIds(content)
      invariant forall j, k | 0 <= j < k < i :: c.entries[j].target != c.entries[k].target
    {
      var e := c.entries[i];
      CuratedLookup(content, contents, e.target);
      if e.target in seen {
        assert exists k :: 0 <= k < i && c.entries[k].target == e.target;
        return false;
      }
      if e.position != i + 1 || e.target == c.id || e.target !in contents || !contents[e.target].kind.CuratedArticle? {
        return false;
      }
      assert c.entries[..i + 1] == c.entries[..i] + [e];
      seen := seen + {e.target};
    }
    return true;
  }

  ghost predicate PlacedRoute(s: Snapshot, contents: map<int, PublicContent>, i: int)
    requires 0 <= i < |s.routes|
  {
    var r := s.routes[i];
    && r.contentId in contents
    && (forall j | 0 <= j < i :: s.routes[j].path != r.path)
    && (r.kind.Canonical? ==> r.path == contents[r.contentId].canonicalPath)
  }

  lemma PathSeen(s: Snapshot, i: int)
    requires 0 <= i < |s.routes|
    ensures s.routes[i].path in (set r | r in s.routes[..i] :: r.path)
      <==> exists j :: 0 <= j < i && s.routes[j].path == s.routes[i].path
    ensures (set r | r in s.routes[..i + 1] :: r.path) == (set r | r in s.routes[..i] :: r.path) + {s.routes[i].path}
  {
    assert forall j | 0 <= j < i :: s.routes[j] == s.routes[..i][j] && s.routes[j] in s.routes[..i];
    assert s.routes[..i + 1] == s.routes[..i] + [s.routes[i]];
  }

  lemma PlacedIff(s: Snapshot, contents: map<int, PublicContent>)
    requires Remembers(contents, s.content, |s.content|)
    ensures (forall i | 0 <= i < |s.routes| :: PlacedRoute(s, contents, i)) <==> RoutesPlaced(s)
  {
    assert s.content[..|s.content|] == s.content;
    if RoutesPlaced(s) {
      forall i | 0 <= i < |s.routes|
        ensures PlacedRoute(s, contents, i)
      {
        assert s.routes[i].contentId in ContentIds(s.content);
        var k := Position(s.content, s.routes[i].contentId);
        assert s.routes[i].kind.Canonical? ==> HomeRoute(s.routes[i], s.content[k].id);
      }
    }
    if forall i | 0 <= i < |s.routes| :: PlacedRoute(s, contents, i) {
      forall i | 0 <= i < |s.routes|
        ensures s.routes[i].contentId in ContentIds(s.content)
      {
        assert PlacedRoute(s, contents, i);
      }
      forall i, j | 0 <= i < j < |s.routes|
        ensures s.routes[i].path != s.routes[j].path
      {
        assert PlacedRoute(s, contents, j);
      }
      forall i, k | 0 <= i < |s.routes| && 0 <= k < |s.content| && HomeRoute(s.routes[i], s.content[k].id)
        ensures s.routes[i].path == s.content[k].canonicalPath
      {
        assert PlacedRoute(s, contents, i);
      }
    }
  }

  function Count(counts: map<int, int>, id: int): int {
    if id in counts then counts[id] else 0
  }

  // canonical counts the homes among the first n routes; it never exceeds one.
  ghost predicate Counts(s: Snapshot, canonical: map<int, int>, n: int)
    requires 0 <= n <= |s.routes|
  {
    && (forall k | 0 <= k < n && s.routes[k].kind.Canonical? :: s.routes[k].contentId in canonical)
    && forall id | id in canonical :: canonical[id] == 1 && exists k :: 0 <= k < n && HomeRoute(s.routes[k], id)
  }

  // A second home would repeat the path of the first.
  lemma CountHome(s: Snapshot, contents: map<int, PublicContent>, canonical: map<int, int>, i: int)
    requires 0 <= i < |s.routes| && s.routes[i].kind.Canonical? && Counts(s, canonical, i)
    requires forall k | 0 <= k <= i :: PlacedRoute(s, contents, k)
    ensures s.routes[i].contentId !in canonical
    ensures Counts(s, canonical[s.routes[i].contentId := 1], i + 1)
  {
    var id := s.routes[i].contentId;
    assert PlacedRoute(s, contents, i);
    forall k | 0 <= k < i
      ensures !HomeRoute(s.routes[k], id)
    {
      assert PlacedRoute(s, contents, k);
    }
    assert HomeRoute(s.routes[i], id);
    forall o | o in canonical
      ensures exists k :: 0 <= k < i + 1 && HomeRoute(s.routes[k], o)
    {
      var k :| 0 <= k < i && HomeRoute(s.routes[k], o);
      assert k < i + 1;
    }
  }

  method PlaceRoutes(s: Snapshot, contents: map<int, PublicContent>) returns (ok: bool, canonical: map<int, int>)
    ensures ok <==> forall i | 0 <= i < |s.routes| :: PlacedRoute(s, contents, i)
    ensures ok ==> Counts(s, canonical, |s.routes|)
  {
    var paths: set<string> := {};
    canonical := map[];
    for i := 0 to |s.routes|
      invariant paths == (set r | r in s.routes[..i] :: r.path)
      invariant forall k | 0 <= k < i :: PlacedRoute(s, contents, k)
      invariant Counts(s, canonical, i)
    {
      var r := s.routes[i];
      PathSeen(s, i);
      if r.contentId !in contents || r.path in paths {
        assert !PlacedRoute(s, contents, i);
        return false, canonical;
      }
      paths := paths + {r.path};
      if r.kind.Canonical? {
        if r.path != contents[r.contentId].canonicalPath {
          assert !PlacedRoute(s, contents, i);
          return false, canonical;
        }
        assert PlacedRoute(s, contents, i);
        CountHome(s, contents, canonical, i);
        canonical := canonical[r.contentId := Count(canonical, r.contentId) + 1];
      }
    }
    return true, canonical;
  }

  method CheckRoutes(s: Snapshot, contents: map<int, PublicContent>) returns (ok: bool)
    requires Remembers(contents, s.content, |s.content|)
    ensures ok <==> RoutesClosed(s)
  {
    PlacedIff(s, contents);
    var placed, canonical := PlaceRoutes(s, contents);
    if !placed { return false; }
    for k := 0 to |s.content|
      invariant forall j | 0 <= j < k :: Housed(s, j)
    {
      if s.content[k].id !in canonical || canonical[s.content[k].id] != 1 {
        assert !Housed(s, k);
        return false;
      }
      assert Housed(s, k);
    }
    return true;
  }

  lemma SameSize<T>(a: set<T>, b: set<T>)
    requires a <= b
    ensures |a| == |b| <==> a == b
  {
    assert b == a + (b - a);
  }

  /** validateGraph accepts exactly the closed snapshots. */
  method ValidateGraph(rules: Rules, s: Snapshot) returns (ok: bool)
    ensures ok <==> Closed(rules, s)
  {
    hide GroupsClosed, AuthorsClosed, AssetsClosed, TagsClosed, RoutesClosed, EntriesClosed, ContentRow;
    if s.schemaVersion != SCHEMA_VERSION || |s.groups| > MAX_ROWS || |s.content| > MAX_ROWS || |s.authors| > MAX_ROWS
       || |s.assets| > MAX_ROWS || |s.tags| > MAX_LINKS || |s.routes| > MAX_LINKS {
      return false;
    }
    var groupsOk, groups := CheckGroups(s.groups);
    if !groupsOk { return false; }
    var authorsOk, authors := CheckAuthors(s.authors);
    if !authorsOk { return false; }
    var assetsOk, assets := CheckAssets(rules, s.assets);
    if !assetsOk { return false; }
    var tagsOk, tags := CheckTags(s.tags);
    if !tagsOk { return false; }
    var contentOk, contents, used := CheckContent(rules, s.content, groups, authors, assets, tags);
    if !contentOk { return false; }
    SameSize(used, groups);
    if |used| != |groups| { return false; }
    for i := 0 to |s.content|
      invariant forall k | 0 <= k < i :: EntriesClosed(s.content[k], CuratedIds(s.content))
    {
      var entriesOk := CheckEntries(s.content[i], s.content, contents);
      if !entriesOk { return false; }
    }
    ok := CheckRoutes(s, contents);
  }
}
