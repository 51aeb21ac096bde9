/** What the exporter collects from the published view, and when it refuses. */
module Exporting {
  import opened Base
  import opened Text
  import opened Ordering
  import opened Schema
  import opened Content
  import opened Workflow
  import opened Projection
  import opened Graph

  datatype Doc =
    | AuthorDoc(author: PublicAuthor)
    | AssetDoc(asset: PublicAsset)
    | GroupDoc(group: PublicGroup)
    | TagDoc(tag: PublicTag)
    | ContentDoc(content: PublicContent)
    | RouteDoc(route: PublicRoute)
    | SnapshotDoc(snapshot: Snapshot)

  // The configured size limit and the length of each JSON encoding.
  datatype Budget = Budget(maxBytes: int, size: Doc -> nat)

  const MAX_SNAPSHOT_BYTES := 134217728

  function Limit(b: Budget): int {
    if b.maxBytes <= 0 || b.maxBytes > MAX_SNAPSHOT_BYTES then MAX_SNAPSHOT_BYTES else b.maxBytes
  }

  datatype ExportFault = Stale | Invalid

  const BASE_BYTES := 1024

  // Everything accumulated so far; each list in order of first use.
  datatype Acc = Acc(authors: seq<PublicAuthor>, assets: seq<PublicAsset>, groups: seq<PublicGroup>,
                     tags: seq<PublicTag>, content: seq<PublicContent>, total: int)

  const START := Acc([], [], [], [], [], BASE_BYTES)

  function Cost(b: Budget, d: Doc): int {
    b.size(d) + 2
  }

  function PublicOf(p: Payload): PublicPayload {
    match p
    case PostPayload => PublicPost
    case NotePayload(slug, order, _) => PublicNote(slug, order)
    case TopicPayload(order, count) => PublicTopic(order, count)
    case CuratedPayload(source) => PublicCurated(source)
  }

  function Opted(e: Option<English>): Option<English> {
    if e.Some? && e.value.enabled then e else None
  }

  // Author, cover and tags were found.
  predicate ReferencesJoined(row: PublicRow) {
    && row.joins.author.Some?
    && (row.revision.fields.cover.Some? ==> row.joins.card.Some?)
    && forall i | 0 <= i < |row.joins.tags| :: row.joins.tags[i].Some?
  }

  predicate Joined(row: PublicRow) {
    ReferencesJoined(row) && (row.kind.Note? ==> row.joins.group.Some?)
  }

  predicate SoundFields(rules: Rules, row: PublicRow) {
    var f := row.revision.fields;
    && row.firstPublished.Some? && row.lastPublished.Some?
    && FieldsFault(rules, row.kind, f.(english := None, cover := None), true).None?
    && CandidatePath(row.kind, f).Ok? && row.canonicalPath == Some(CandidatePath(row.kind, f).value)
  }

  predicate SoundEnglish(rules: Rules, row: PublicRow) {
    var f := row.revision.fields;
    EnglishFault(rules, row.kind, AsPayload(PublicOf(f.payload)), Opted(f.english), true).None?
  }

  // Everything checked on one row, whatever the budget.
  predicate RowValid(rules: Rules, row: PublicRow) {
    && SoundFields(rules, row) && SoundEnglish(rules, row) && Joined(row)
    && (row.kind.Note? ==> ValidGroup(row.joins.group.value.group))
    && rules.markdown(row.joins.author.value.bio)
  }

  function Entries(targets: seq<int>): seq<Entry> {
    seq(|targets|, i requires 0 <= i < |targets| => Entry(i + 1, targets[i]))
  }

  function Document(row: PublicRow): PublicContent
    requires row.firstPublished.Some? && row.lastPublished.Some? && row.canonicalPath.Some?
  {
    var f := row.revision.fields;
    PublicContent(row.id, row.kind, row.revision.no, row.canonicalPath.value, f.prose, f.slug, f.byline,
                  f.featured, Opted(f.english), f.cover, row.firstPublished.value, row.lastPublished.value,
                  SortedIds(row.revision.tags), Entries(row.revision.entries), PublicOf(f.payload))
  }

  function AddGroup(b: Budget, a: Acc, g: PublicGroup): Acc {
    if g.group.slug in GroupSlugs(a.groups) then a
    else a.(groups := a.groups + [g], total := a.total + Cost(b, GroupDoc(g)))
  }

  function AddAuthor(b: Budget, a: Acc, x: PublicAuthor): Acc {
    if x.id in AuthorIds(a.authors) then a
    else a.(authors := a.authors + [x], total := a.total + Cost(b, AuthorDoc(x)))
  }

  function AddAsset(b: Budget, a: Acc, x: PublicAsset): Acc {
    if x.id in AssetIds(a.assets) then a
    else a.(assets := a.assets + [x], total := a.total + Cost(b, AssetDoc(x)))
  }

  function AddTag(b: Budget, a: Acc, t: PublicTag): Acc {
    if t.id in TagIds(a.tags) then a
    else a.(tags := a.tags + [t], total := a.total + Cost(b, TagDoc(t)))
  }

  function AddTags(b: Budget, a: Acc, tags: seq<Option<PublicTag>>): Acc
    requires forall i | 0 <= i < |tags| :: tags[i].Some?
  {
    if tags == [] then a
    else AddTag(b, AddTags(b, a, tags[..|tags| - 1]), tags[|tags| - 1].value)
  }

  function AddContent(b: Budget, a: Acc, c: PublicContent): Acc {
    a.(content := a.content + [c], total := a.total + Cost(b, ContentDoc(c)))
  }

  predicate Addable(row: PublicRow) {
    row.firstPublished.Some? && row.lastPublished.Some? && row.canonicalPath.Some? && Joined(row)
  }

  // The group, author, cover and tags of a row, each on first use.
  function Grouped(b: Budget, a: Acc, row: PublicRow): Acc
    requires row.kind.Note? ==> row.joins.group.Some?
  {
    if row.kind.Note? then AddGroup(b, a, row.joins.group.value) else a
  }

  function Authored(b: Budget, a: Acc, row: PublicRow): Acc
    requires row.joins.author.Some?
  {
    AddAuthor(b, a, PublicAuthor(row.revision.fields.byline, row.joins.author.value))
  }

  function Covered(b: Budget, a: Acc, row: PublicRow): Acc
    requires row.revision.fields.cover.Some? ==> row.joins.card.Some?
  {
    var cover := row.revision.fields.cover;
    if cover.Some? then AddAsset(b, a, PublicAsset(cover.value, row.joins.card.value)) else a
  }

  function References(b: Budget, a: Acc, row: PublicRow): Acc
    requires ReferencesJoined(row)
  {
    AddTags(b, Covered(b, Authored(b, a, row), row), row.joins.tags)
  }

  function AddRow(b: Budget, a: Acc, row: PublicRow): Acc
    requires Addable(row)
  {
    AddContent(b, References(b, Grouped(b, a, row), row), Document(row))
  }

  function Collect(b: Budget, rows: seq<PublicRow>): Acc
    requires forall i | 0 <= i < |rows| :: Addable(rows[i])
  {
    if rows == [] then START
    else AddRow(b, Collect(b, rows[..|rows| - 1]), rows[|rows| - 1])
  }

  function RouteRows(routes: map<string, Route>): seq<PublicRoute> {
    var paths := SortedPaths(routes.Keys);
    seq(|paths|, i requires 0 <= i < |paths| => PublicRoute(paths[i], routes[paths[i]].kind, routes[paths[i]].owner))
  }

  function RouteCost(b: Budget, routes: seq<PublicRoute>): int {
    if routes == [] then 0
    else RouteCost(b, routes[..|routes| - 1]) + Cost(b, RouteDoc(routes[|routes| - 1]))
  }

  function AuthorKey(a: PublicAuthor): int { a.id }
  function AssetKey(a: PublicAsset): int { a.id }
  function GroupKey(g: PublicGroup): int { g.id }
  function TagKey(t: PublicTag): int { t.id }

  function Assemble(v: View, a: Acc): Snapshot {
    Snapshot(SCHEMA_VERSION, v.generation, v.updatedAt, SortBy(AuthorKey, a.authors), SortBy(AssetKey, a.assets),
             SortBy(GroupKey, a.groups), SortBy(TagKey, a.tags), a.content, RouteRows(v.routes))
  }

  // The limits of one export: rows, routes and bytes.
  ghost predicate Fits(b: Budget, v: View, a: Acc) {
    && v.expected <= MAX_ROWS && |RouteRows(v.routes)| <= MAX_LINKS
    && (v.rows != [] || RouteRows(v.routes) != [] ==> a.total + RouteCost(b, RouteRows(v.routes)) <= Limit(b))
    && b.size(SnapshotDoc(Assemble(v, a))) <= Limit(b)
  }

  ghost predicate Acceptable(rules: Rules, b: Budget, v: View) {
    && v.ready && (forall i | 0 <= i < |v.rows| :: RowValid(rules, v.rows[i]))
    && |v.rows| == v.expected
    && Fits(b, v, Collect(b, v.rows)) && Closed(rules, Assemble(v, Collect(b, v.rows)))
  }

  // The outcome of an export depends on the published view alone.
  ghost function Export(rules: Rules, b: Budget, v: View, generation: int): Result<Snapshot, ExportFault> {
    if v.generation != generation then Err(Stale)
    else if Acceptable(rules, b, v) then Ok(Assemble(v, Collect(b, v.rows)))
    else Err(Invalid)
  }

  // ----- totals only grow, so one late check is as strict as many early ones -----

  lemma {:induction false} TagsCost(b: Budget, a: Acc, tags: seq<Option<PublicTag>>)
    requires forall i | 0 <= i < |tags| :: tags[i].Some?
    ensures a.total <= AddTags(b, a, tags).total
  {
    if tags != [] { TagsCost(b, a, tags[..|tags| - 1]); }
  }

  lemma ReferencesCost(b: Budget, a: Acc, row: PublicRow)
    requires ReferencesJoined(row)
    ensures a.total <= Authored(b, a, row).total <= Covered(b, Authored(b, a, row), row).total <= References(b, a, row).total
  {
    TagsCost(b, Covered(b, Authored(b, a, row), row), row.joins.tags);
  }

  lemma RowCost(b: Budget, a: Acc, row: PublicRow)
    requires Addable(row)
    ensures a.total <= Grouped(b, a, row).total <= References(b, Grouped(b, a, row), row).total < AddRow(b, a, row).total
  {
    ReferencesCost(b, Grouped(b, a, row), row);
  }

  predicate GroupListed(b: Budget, a: Acc, row: PublicRow) {
    row.kind.Note? ==>
      row.joins.group.Some? && ValidGroup(row.joins.group.value.group) && Grouped(b, a, row).total <= Limit(b)
  }

  predicate ReferencesListed(rules: Rules, b: Budget, a: Acc, row: PublicRow) {
    ReferencesJoined(row) && rules.markdown(row.joins.author.value.bio) && References(b, a, row).total <= Limit(b)
  }

  // A row is accepted exactly when each of its parts is.
  lemma RowListed(rules: Rules, b: Budget, a: Acc, row: PublicRow)
    ensures (RowValid(rules, row) && AddRow(b, a, row).total <= Limit(b)) <==>
      && SoundFields(rules, row) && SoundEnglish(rules, row) && GroupListed(b, a, row)
      && ReferencesListed(rules, b, Grouped(b, a, row), row)
      && References(b, Grouped(b, a, row), row).total + Cost(b, ContentDoc(Document(row))) <= Limit(b)
  {
    if Addable(row) { RowCost(b, a, row); }
  }

  lemma {:induction false} CollectCost(b: Budget, rows: seq<PublicRow>, n: nat)
    requires n <= |rows| && forall i | 0 <= i < |rows| :: Addable(rows[i])
    ensures Collect(b, rows[..n]).total <= Collect(b, rows).total
  {
    if n < |rows| {
      var most := rows[..|rows| - 1];
      CollectCost(b, most, n);
      assert most[..n] == rows[..n];
      RowCost(b, Collect(b, most), rows[|rows| - 1]);
    } else {
      assert rows[..n] == rows;
    }
  }

  lemma {:induction false} RoutesCost(b: Budget, routes: seq<PublicRoute>, n: nat)
    requires n <= |routes|
    ensures RouteCost(b, routes[..n]) <= RouteCost(b, routes)
  {
    if n < |routes| {
      RoutesCost(b, routes[..|routes| - 1], n);
      assert routes[..|routes| - 1][..n] == routes[..n];
    } else {
      assert routes[..n] == routes;
    }
  }
}

/** The export loops: keyset pages, deduplicating maps and a running byte budget. */
module Exporter {
  import opened Base
  import opened Ordering
  import opened Pages
  import opened Schema
  import opened Content
  import opened Projection
  import opened Graph
  import opened Exporting

  const CONTENT_PAGE := 100
  const ROUTE_PAGE := 1000

  function RowKey(row: PublicRow): int { row.id }
  function RouteKey(r: PublicRoute): string { r.path }

  // A stored row with the lookups the export makes for it.
  predicate FetchedRow(db: Db, row: PublicRow) {
    row.id > 0 && row.joins == Fetch(db, row.kind, row.revision)
  }

  /** The running state of one export over a consistent read of the database. */
  class Collector {
    const rules: Rules
    const b: Budget
    const db: Db
    var total: int
    var authors: seq<PublicAuthor>
    var assets: seq<PublicAsset>
    var groups: seq<PublicGroup>
    var tags: seq<PublicTag>
    var content: seq<PublicContent>
    var seenAuthors: set<int>
    var seenCovers: set<int>
    var seenTags: set<int>
    var seenGroups: set<string>

    ghost predicate Valid()
      reads this
    {
      && seenAuthors == AuthorIds(authors) && seenCovers == AssetIds(assets)
      && seenTags == TagIds(tags) && seenGroups == GroupSlugs(groups)
      && (forall a | a in authors :: Row(db.profiles, a.id) && At(db.profiles, a.id) == a.author && rules.markdown(a.author.bio))
      && (forall a | a in assets :: Row(db.assets, a.id))
      && (forall g | g in groups ::
            FindGroup(db.groups, g.group.slug) == Some(g.id) && At(db.groups, g.id) == g.group && ValidGroup(g.group))
      && (forall t | t in tags :: FetchTag(db.tags, t.id) == Some(t))
      && (total <= Limit(b) || State() == START)
    }

    ghost function State(): Acc
      reads this
    {
      Acc(authors, assets, groups, tags, content, total)
    }

    constructor (rules: Rules, b: Budget, db: Db)
      ensures Valid() && State() == START && this.rules == rules && this.b == b && this.db == db
    {
      this.rules, this.b, this.db := rules, b, db;
      total := BASE_BYTES;
      authors, assets, groups, tags, content := [], [], [], [], [];
      seenAuthors, seenCovers, seenTags, seenGroups := {}, {}, {}, {};
    }

    method FitsDoc(d: Doc) returns (ok: bool)
      modifies this`total
      ensures total == old(total) + Cost(b, d) && ok == (total <= Limit(b))
    {
      total := total + b.size(d) + 2;
      ok := total <= Limit(b);
    }

    method PutGroup(slug: string) returns (ok: bool)
      requires Valid()
      modifies this`total, this`groups, this`seenGroups
      ensures var id := FindGroup(db.groups, slug);
        ok <==> id.Some? && ValidGroup(At(db.groups, id.value))
                && AddGroup(b, old(State()), PublicGroup(id.value, At(db.groups, id.value))).total <= Limit(b)
      ensures ok ==> Valid() && FindGroup(db.groups, slug).Some?
      ensures ok ==> var id := FindGroup(db.groups, slug).value;
        State() == AddGroup(b, old(State()), PublicGroup(id, At(db.groups, id)))
    {
      if slug in seenGroups { return true; }
      var id := FindGroup(db.groups, slug);
      if id.None? { return false; }
      var g := PublicGroup(id.value, At(db.groups, id.value));
      if !ValidGroup(g.group) { return false; }
      var fits := FitsDoc(GroupDoc(g));
      if !fits { return false; }
      groups := groups + [g];
      seenGroups := seenGroups + {slug};
      return true;
    }

    method PutAuthor(id: int) returns (ok: bool)
      requires Valid()
      modifies this`total, this`authors, this`seenAuthors
      ensures ok <==> Row(db.profiles, id) && rules.markdown(At(db.profiles, id).bio)
                      && AddAuthor(b, old(State()), PublicAuthor(id, At(db.profiles, id))).total <= Limit(b)
      ensures ok ==> Valid() && State() == AddAuthor(b, old(State()), PublicAuthor(id, At(db.profiles, id)))
    {
      if id in seenAuthors { return true; }
      if !Row(db.profiles, id) { return false; }
      var x := PublicAuthor(id, At(db.profiles, id));
      var fits := FitsDoc(AuthorDoc(x));
      if !fits || !rules.markdown(x.author.bio) { return false; }
      authors := authors + [x];
      seenAuthors := seenAuthors + {id};
      return true;
    }

    method PutCover(id: int) returns (ok: bool)
      requires Valid()
      modifies this`total, this`assets, this`seenCovers
      ensures ok <==> Row(db.assets, id)
                      && AddAsset(b, old(State()), PublicAsset(id, At(db.assets, id).card)).total <= Limit(b)
      ensures ok ==> Valid() && State() == AddAsset(b, old(State()), PublicAsset(id, At(db.assets, id).card))
    {
      if id in seenCovers { return true; }
      if !Row(db.assets, id) { return false; }
      var x := PublicAsset(id, At(db.assets, id).card);
      var fits := FitsDoc(AssetDoc(x));
      if !fits { return false; }
      assets := assets + [x];
      seenCovers := seenCovers + {id};
      return true;
    }

    method PutTag(id: int) returns (ok: bool)
      requires Valid()
      modifies this`total, this`tags, this`seenTags
      ensures ok <==> FetchTag(db.tags, id).Some? && AddTag(b, old(State()), FetchTag(db.tags, id).value).total <= Limit(b)
      ensures ok ==> Valid() && FetchTag(db.tags, id).Some?
      ensures ok ==> State() == AddTag(b, old(State()), FetchTag(db.tags, id).value)
    {
      if id in seenTags { return true; }
      var t := FetchTag(db.tags, id);
      if t.None? { return false; }
      var fits := FitsDoc(TagDoc(t.value));
      if !fits { return false; }
      tags := tags + [t.value];
      seenTags := seenTags + {id};
      return true;
    }

    method PutTags(ids: seq<int>) returns (ok: bool)
      requires Valid() && total <= Limit(b)
      modifies this`total, this`tags, this`seenTags
      ensures ok <==> AllFetched(db, ids) && AddTags(b, old(State()), FetchTags(db, ids)).total <= Limit(b)
      ensures ok ==> Valid() && AllFetched(db, ids) && State() == AddTags(b, old(State()), FetchTags(db, ids))
    {
      hide FetchTag, Cost;
      ghost var was := State();
      for i := 0 to |ids|
        invariant Valid() && total <= Limit(b) && AllFetched(db, ids[..i])
        invariant State() == AddTags(b, was, FetchTags(db, ids[..i]))
      {
        FetchStep(db, ids, i);
        var put := PutTag(ids[i]);
        if !put {
          TagsRefused(b, db, was, ids, i);
          return false;
        }
      }
      assert ids[..|ids|] == ids;
      return true;
    }

    method PutRowGroup(row: PublicRow) returns (ok: bool)
      requires Valid() && FetchedRow(db, row)
      requires row.kind.Note? ==> row.revision.fields.payload.NotePayload?
      modifies this`total, this`groups, this`seenGroups
      ensures ok <==> GroupListed(b, old(State()), row)
      ensures ok ==> Valid() && State() == Grouped(b, old(State()), row)
    {
      ok := true;
      if row.kind.Note? {
        ok := PutGroup(row.revision.fields.payload.groupSlug);
      }
    }

    method PutReferences(row: PublicRow) returns (ok: bool)
      requires Valid() && FetchedRow(db, row)
      modifies this`total, this`authors, this`assets, this`tags, this`seenAuthors, this`seenCovers, this`seenTags
      ensures ok <==> ReferencesListed(rules, b, old(State()), row)
      ensures ok ==> Valid() && State() == References(b, old(State()), row)
    {
      hide FetchTags, AllFetched, AddTags, Cost;
      ghost var was := State();
      var f := row.revision.fields;
      var author := PutAuthor(f.byline);
      if !author {
        if ReferencesJoined(row) { ReferencesCost(b, was, row); }
        return false;
      }
      if f.cover.Some? {
        var cover := PutCover(f.cover.value);
        if !cover {
          if ReferencesJoined(row) { ReferencesCost(b, was, row); }
          return false;
        }
      }
      FetchedTags(db, row);
      ok := PutTags(SortedIds(row.revision.tags));
    }

    method PutDocument(c: PublicContent) returns (ok: bool)
      requires Valid()
      modifies this`total, this`content
      ensures ok <==> AddContent(b, old(State()), c).total <= Limit(b)
      ensures ok ==> Valid() && State() == AddContent(b, old(State()), c)
    {
      ok := FitsDoc(ContentDoc(c));
      if ok {
        content := content + [c];
      }
    }

    // One row: checked, then its group, author, cover and tags on first use, then the document itself.
    method Add(row: PublicRow) returns (ok: bool)
      requires Valid() && FetchedRow(db, row)
      modifies this`total, this`authors, this`assets, this`groups, this`tags, this`content,
               this`seenAuthors, this`seenCovers, this`seenGroups, this`seenTags
      ensures ok <==> RowValid(rules, row) && AddRow(b, old(State()), row).total <= Limit(b)
      ensures ok ==> Valid() && Addable(row) && State() == AddRow(b, old(State()), row)
    {
      RowListed(rules, b, State(), row);
      if !SoundFields(rules, row) { return false; }
      var grouped := PutRowGroup(row);
      if !grouped {
        return false;
      }
      if !SoundEnglish(rules, row) { return false; }
      var referenced := PutReferences(row);
      if !referenced {
        return false;
      }
      ok := PutDocument(Document(row));
    }

    // One page of rows; the cursor ends on the last of them.
    method AddPage(page: seq<PublicRow>, cursor: int, ghost rows: seq<PublicRow>, ghost n: nat) returns (ok: bool, after: int)
      requires n + |page| <= |rows| && page == rows[n..n + |page|]
      requires forall k | 0 <= k < |page| :: FetchedRow(db, page[k])
      requires Valid() && Collectable(rules, b, rows, n) && State() == Collect(b, rows[..n])
      modifies this`total, this`authors, this`assets, this`groups, this`tags, this`content,
               this`seenAuthors, this`seenCovers, this`seenGroups, this`seenTags
      ensures ok <==> Collectable(rules, b, rows, n + |page|)
      ensures !ok ==> !Collectable(rules, b, rows, |rows|)
      ensures ok ==> Valid() && State() == Collect(b, rows[..n + |page|])
      ensures ok ==> after == Cursor(RowKey, page, cursor)
    {
      hide RowValid, AddRow, Fetch, Collect, Cost;
      after := cursor;
      for k := 0 to |page|
        invariant Valid() && Collectable(rules, b, rows, n + k) && State() == Collect(b, rows[..n + k])
        invariant after == if k == 0 then cursor else page[k - 1].id
      {
        assert page[k] == rows[n + k];
        CollectStep(rules, b, rows, n + k, n + |page|);
        CollectStep(rules, b, rows, n + k, |rows|);
        var added := Add(page[k]);
        if !added { return false, after; }
        after := page[k].id;
      }
      return true, after;
    }

    // ExportPublishedContent in pages of one hundred, until a short page.
    method CollectContent(stored: seq<PublicRow>) returns (ok: bool)
      requires Keyed(RowKey, IdLess, stored) && forall i | 0 <= i < |stored| :: FetchedRow(db, stored[i])
      requires Valid() && State() == START
      modifies this`total, this`authors, this`assets, this`groups, this`tags, this`content,
               this`seenAuthors, this`seenCovers, this`seenGroups, this`seenTags
      ensures ok <==> Collectable(rules, b, stored, |stored|)
      ensures ok ==> Valid() && State() == Collect(b, stored)
    {
      hide StrictTotal, Keyed, Consumed, RowValid, Addable, AddRow, Fetch, Page, Collect, Valid, State;
      IdOrder();
      NoRows(rules, b, stored);
      ghost var n := 0;
      var after := 0;
      FirstCursor(RowKey, IdLess, stored, after);
      while true
        invariant n <= |stored| && Consumed(RowKey, IdLess, stored, after, n)
        invariant Valid() && Collectable(rules, b, stored, n) && State() == Collect(b, stored[..n])
        decreases |stored| - n
      {
        var page := Page(RowKey, IdLess, stored, after, CONTENT_PAGE);
        PageIsNext(RowKey, IdLess, stored, after, n, CONTENT_PAGE);
        var added;
        added, after := AddPage(page, after, stored, n);
        if !added { return false; }
        n := n + |page|;
        if |page| < CONTENT_PAGE { break; }
      }
      assert stored[..n] == stored;
      return true;
    }

    // One page of routes.
    method AddRoutes(page: seq<PublicRoute>, cursor: string, routes: seq<PublicRoute>) returns (ok: bool, after: string)
      modifies this`total
      ensures ok <==> (page != [] ==> |routes + page| <= MAX_LINKS && old(total) + RouteCost(b, page) <= Limit(b))
      ensures ok ==> total == old(total) + RouteCost(b, page)
      ensures ok ==> after == Cursor(RouteKey, page, cursor)
    {
      after := cursor;
      for k := 0 to |page|
        invariant total == old(total) + RouteCost(b, page[..k])
        invariant k > 0 ==> |routes| + k <= MAX_LINKS && total <= Limit(b)
        invariant after == if k == 0 then cursor else page[k - 1].path
      {
        assert page[..k + 1][..k] == page[..k];
        RoutesCost(b, page, k + 1);
        var fits := FitsDoc(RouteDoc(page[k]));
        if !fits || |routes| + k >= MAX_LINKS { return false, after; }
        after := page[k].path;
      }
      assert page[..|page|] == page;
      return true, after;
    }

    // ExportPublishedRoutes in pages of one thousand, until a short page.
    method CollectRoutes(stored: seq<PublicRoute>) returns (ok: bool, routes: seq<PublicRoute>)
      requires Keyed(RouteKey, PathLess, stored) && forall i | 0 <= i < |stored| :: PathLess("", stored[i].path)
      modifies this`total
      ensures ok <==> (stored != [] ==> |stored| <= MAX_LINKS && old(total) + RouteCost(b, stored) <= Limit(b))
      ensures ok ==> routes == stored
    {
      hide StrictTotal, Keyed, Consumed, Page, PathLess, RouteCost;
      RoutesAppend(b, stored, [], []);
      PathOrder();
      routes := [];
      var after := "";
      FirstCursor(RouteKey, PathLess, stored, after);
      while true
        invariant |routes| <= |stored| && routes == stored[..|routes|]
        invariant Consumed(RouteKey, PathLess, stored, after, |routes|)
        invariant total == old(total) + RouteCost(b, routes)
        invariant routes != [] ==> |routes| <= MAX_LINKS && total <= Limit(b)
        decreases |stored| - |routes|
      {
        var page := Page(RouteKey, PathLess, stored, after, ROUTE_PAGE);
        PageIsNext(RouteKey, PathLess, stored, after, |routes|, ROUTE_PAGE);
        RoutesAppend(b, stored, routes, page);
        var added;
        added, after := AddRoutes(page, after, routes);
        if !added { return false, routes; }
        routes := routes + page;
        if |page| < ROUTE_PAGE { break; }
      }
      assert routes == stored;
      return true, routes;
    }
  }

  // Rows come in ascending order of id, each with the lookups made for it.
  lemma {:induction false} RowsSound(db: Db, n: nat)
    requires n <= |db.items|
    ensures var rows := Rows(db, n);
      && (forall i | 0 <= i < |rows| :: 0 < rows[i].id <= n && FetchedRow(db, rows[i]))
      && Keyed(RowKey, IdLess, rows)
  {
    hide Fetch, HomePath;
    if n > 0 { RowsSound(db, n - 1); }
  }

  lemma RoutesSound(db: Db)
    ensures var all := RouteRows(PublicRoutes(db));
      Keyed(RouteKey, PathLess, all) && forall i | 0 <= i < |all| :: PathLess("", all[i].path)
  {
    var paths := SortedPaths(PublicRoutes(db).Keys);
    assert forall i | 0 <= i < |paths| :: paths[i] in PublicRoutes(db);
  }

  // The first n rows are valid and within the budget.
  ghost predicate Collectable(rules: Rules, b: Budget, rows: seq<PublicRow>, n: nat)
    requires n <= |rows|
  {
    && (forall i | 0 <= i < n :: RowValid(rules, rows[i]) && Addable(rows[i]))
    && (n > 0 ==> Collect(b, rows[..n]).total <= Limit(b))
  }

  lemma ValidAddable(rules: Rules, row: PublicRow)
    requires RowValid(rules, row)
    ensures Addable(row)
  {
  }

  lemma AllAddable(rules: Rules, rows: seq<PublicRow>, n: nat)
    requires n <= |rows| && forall i | 0 <= i < n :: RowValid(rules, rows[i])
    ensures forall i | 0 <= i < n :: Addable(rows[i])
  {
    forall i | 0 <= i < n
      ensures Addable(rows[i])
    {
      ValidAddable(rules, rows[i]);
    }
  }

  lemma NoRows(rules: Rules, b: Budget, rows: seq<PublicRow>)
    ensures Collectable(rules, b, rows, 0) && Collect(b, rows[..0]) == START
  {
  }

  lemma CollectStep(rules: Rules, b: Budget, rows: seq<PublicRow>, n: nat, m: nat)
    requires n < m <= |rows| && Collectable(rules, b, rows, n)
    ensures Addable(rows[n]) ==> Collect(b, rows[..n + 1]) == AddRow(b, Collect(b, rows[..n]), rows[n])
    ensures Collectable(rules, b, rows, n + 1) <==>
      RowValid(rules, rows[n]) && AddRow(b, Collect(b, rows[..n]), rows[n]).total <= Limit(b)
    ensures !Collectable(rules, b, rows, n + 1) ==> !Collectable(rules, b, rows, m)
  {
    hide RowValid, AddRow;
    assert rows[..n + 1][..n] == rows[..n];
    AllAddable(rules, rows, n);
    if RowValid(rules, rows[n]) { ValidAddable(rules, rows[n]); }
    if Collectable(rules, b, rows, m) {
      AllAddable(rules, rows, m);
      assert rows[..m][..n + 1] == rows[..n + 1];
      CollectCost(b, rows[..m], n + 1);
    }
  }

  lemma {:induction false} RoutesSum(b: Budget, routes: seq<PublicRoute>, page: seq<PublicRoute>)
    ensures RouteCost(b, routes + page) == RouteCost(b, routes) + RouteCost(b, page)
  {
    if page == [] {
      assert routes + page == routes;
    } else {
      RoutesSum(b, routes, page[..|page| - 1]);
      assert (routes + page)[..|routes + page| - 1] == routes + page[..|page| - 1];
    }
  }

  // What one more page of the stored routes costs.
  lemma RoutesAppend(b: Budget, stored: seq<PublicRoute>, routes: seq<PublicRoute>, page: seq<PublicRoute>)
    requires |routes + page| <= |stored| && routes + page == stored[..|routes + page|]
    ensures RouteCost(b, routes + page) == RouteCost(b, routes) + RouteCost(b, page) <= RouteCost(b, stored)
    ensures routes == [] ==> RouteCost(b, routes) == 0
  {
    RoutesSum(b, routes, page);
    RoutesCost(b, stored, |routes + page|);
  }

  // The tags joined to a row, in the order of their ids.
  lemma FetchedTags(db: Db, row: PublicRow)
    requires FetchedRow(db, row)
    ensures row.joins.tags == FetchTags(db, SortedIds(row.revision.tags))
    ensures (forall i | 0 <= i < |row.joins.tags| :: row.joins.tags[i].Some?) <==> AllFetched(db, SortedIds(row.revision.tags))
  {
    var ids := SortedIds(row.revision.tags);
    assert forall i | 0 <= i < |ids| :: row.joins.tags[i] == FetchTag(db.tags, ids[i]);
  }

  function FetchTags(db: Db, ids: seq<int>): seq<Option<PublicTag>> {
    seq(|ids|, i requires 0 <= i < |ids| => FetchTag(db.tags, ids[i]))
  }

  predicate AllFetched(db: Db, ids: seq<int>) {
    forall i | 0 <= i < |ids| :: FetchTag(db.tags, ids[i]).Some?
  }

  lemma FetchStep(db: Db, ids: seq<int>, i: int)
    requires 0 <= i < |ids|
    ensures FetchTags(db, ids[..i + 1]) == FetchTags(db, ids[..i]) + [FetchTag(db.tags, ids[i])]
    ensures FetchTags(db, ids[..i + 1])[..i] == FetchTags(db, ids[..i])
  {
  }

  // A tag refused on the way cannot be made up for later.
  lemma {:induction false} TagsRefused(b: Budget, db: Db, a: Acc, ids: seq<int>, i: int)
    requires 0 <= i < |ids| && AllFetched(db, ids[..i])
    requires FetchTag(db.tags, ids[i]).Some? ==>
      AddTag(b, AddTags(b, a, FetchTags(db, ids[..i])), FetchTag(db.tags, ids[i]).value).total > Limit(b)
    ensures AllFetched(db, ids) ==> AddTags(b, a, FetchTags(db, ids)).total > Limit(b)
    decreases |ids|
  {
    if AllFetched(db, ids) {
      var n := |ids| - 1;
      assert ids[..|ids|] == ids;
      FetchStep(db, ids, n);
      if i < n {
        assert ids[..n][..i] == ids[..i];
        TagsRefused(b, db, a, ids[..n], i);
      }
    }
  }

  lemma {:induction false} CollectedContent(b: Budget, rows: seq<PublicRow>)
    requires forall i | 0 <= i < |rows| :: Addable(rows[i])
    ensures |Collect(b, rows).content| == |rows|
  {
    if rows != [] {
      CollectedContent(b, rows[..|rows| - 1]);
      TagsContent(b, rows[|rows| - 1], Collect(b, rows[..|rows| - 1]));
    }
  }

  lemma TagsContent(b: Budget, row: PublicRow, a: Acc)
    requires Addable(row)
    ensures AddRow(b, a, row).content == a.content + [Document(row)]
  {
    OtherContent(b, Covered(b, Authored(b, Grouped(b, a, row), row), row), row.joins.tags);
  }

  lemma {:induction false} OtherContent(b: Budget, a: Acc, tags: seq<Option<PublicTag>>)
    requires forall i | 0 <= i < |tags| :: tags[i].Some?
    ensures AddTags(b, a, tags).content == a.content
  {
    if tags != [] { OtherContent(b, a, tags[..|tags| - 1]); }
  }

  // How the separate checks of the loops make up the specification.
  lemma Outcome(rules: Rules, b: Budget, v: View)
    requires v.ready && v.expected <= MAX_ROWS
    ensures Acceptable(rules, b, v) <==>
      && Collectable(rules, b, v.rows, |v.rows|)
      && |v.rows| == v.expected
      && (var a, routes := Collect(b, v.rows), RouteRows(v.routes);
          && (routes != [] ==> |routes| <= MAX_LINKS && a.total + RouteCost(b, routes) <= Limit(b))
          && Closed(rules, Assemble(v, a)) && b.size(SnapshotDoc(Assemble(v, a))) <= Limit(b))
  {
    hide RowValid, AddRow, Closed, Assemble;
    assert v.rows[..|v.rows|] == v.rows;
    if forall i | 0 <= i < |v.rows| :: RowValid(rules, v.rows[i]) {
      AllAddable(rules, v.rows, |v.rows|);
      RoutesCost(b, RouteRows(v.routes), 0);
    }
  }

  /** Exporting a generation yields exactly what the published view determines, or refuses. */
  method ExportSnapshot(rules: Rules, b: Budget, db: Db, generation: int) returns (r: Result<Snapshot, ExportFault>)
    ensures r == Export(rules, b, ViewOf(db), generation)
  {
    hide RowValid, Addable, AddRow, Closed, Collect, Rows, PublicRoutes, RouteCost, SortedPaths;
    ghost var v := ViewOf(db);
    if db.generation != generation { return Err(Stale); }
    var expected := CountPublic(db.items);
    if !db.ready || expected > MAX_ROWS { return Err(Invalid); }
    Outcome(rules, b, v);
    RowsSound(db, |db.items|);
    RoutesSound(db);
    var collector := new Collector(rules, b, db);
    var collected := collector.CollectContent(Rows(db, |db.items|));
    if !collected { return Err(Invalid); }
    CollectedContent(b, v.rows);
    if |collector.content| != expected { return Err(Invalid); }
    ghost var a := collector.State();
    var routed, routes := collector.CollectRoutes(RouteRows(PublicRoutes(db)));
    if !routed { return Err(Invalid); }
    var snapshot := Snapshot(SCHEMA_VERSION, generation, db.updatedAt, SortBy(AuthorKey, collector.authors),
                             SortBy(AssetKey, collector.assets), SortBy(GroupKey, collector.groups),
                             SortBy(TagKey, collector.tags), collector.content, routes);
    assert snapshot == Assemble(v, a);
    var closed := ValidateGraph(rules, snapshot);
    if !closed || b.size(SnapshotDoc(snapshot)) > Limit(b) { return Err(Invalid); }
    return Ok(snapshot);
  }
}
