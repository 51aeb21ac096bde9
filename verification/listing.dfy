/** What an export lists: every row the published content refers to, once, in order of id, as stored. */
module Listing {
  import opened Base
  import opened Ordering
  import opened Schema
  import opened Content
  import opened Projection
  import opened Graph
  import opened Exporting
  import opened Exporter

  // ----- one row's effect on each list -----

  function ListAuthor(s: seq<PublicAuthor>, x: PublicAuthor): seq<PublicAuthor> {
    if x.id in AuthorIds(s) then s else s + [x]
  }

  function ListAsset(s: seq<PublicAsset>, x: PublicAsset): seq<PublicAsset> {
    if x.id in AssetIds(s) then s else s + [x]
  }

  function ListGroup(s: seq<PublicGroup>, g: PublicGroup): seq<PublicGroup> {
    if g.group.slug in GroupSlugs(s) then s else s + [g]
  }

  function ListTag(s: seq<PublicTag>, t: PublicTag): seq<PublicTag> {
    if t.id in TagIds(s) then s else s + [t]
  }

  function ListTags(s: seq<PublicTag>, tags: seq<Option<PublicTag>>): seq<PublicTag>
    requires forall i | 0 <= i < |tags| :: tags[i].Some?
  {
    if tags == [] then s else ListTag(ListTags(s, tags[..|tags| - 1]), tags[|tags| - 1].value)
  }

  lemma {:induction false} TagsEffect(b: Budget, a: Acc, tags: seq<Option<PublicTag>>)
    requires forall i | 0 <= i < |tags| :: tags[i].Some?
    ensures var r := AddTags(b, a, tags);
      && r.authors == a.authors && r.assets == a.assets && r.groups == a.groups && r.content == a.content
      && r.tags == ListTags(a.tags, tags)
  {
    if tags != [] { TagsEffect(b, a, tags[..|tags| - 1]); }
  }

  lemma RowEffect(b: Budget, a: Acc, row: PublicRow)
    requires Addable(row)
    ensures var r, f := AddRow(b, a, row), row.revision.fields;
      && r.authors == ListAuthor(a.authors, PublicAuthor(f.byline, row.joins.author.value))
      && r.assets == (if f.cover.Some? then ListAsset(a.assets, PublicAsset(f.cover.value, row.joins.card.value)) else a.assets)
      && r.groups == (if row.kind.Note? then ListGroup(a.groups, row.joins.group.value) else a.groups)
      && r.tags == ListTags(a.tags, row.joins.tags)
      && r.content == a.content + [Document(row)]
  {
    hide Document;
    TagsEffect(b, Covered(b, Authored(b, Grouped(b, a, row), row), row), row.joins.tags);
  }

  // ----- the rows referred to -----

  function Bylines(rows: seq<PublicRow>): set<int> {
    set r | r in rows :: r.revision.fields.byline
  }

  function Covers(rows: seq<PublicRow>): set<int> {
    set r | r in rows && r.revision.fields.cover.Some? :: r.revision.fields.cover.value
  }

  function NoteSlugs(rows: seq<PublicRow>): set<string> {
    set r | r in rows && r.kind.Note? && r.revision.fields.payload.NotePayload? :: r.revision.fields.payload.groupSlug
  }

  function Tagged(rows: seq<PublicRow>): set<int> {
    set r, t | r in rows && t in r.revision.tags :: t
  }

  ghost predicate AuthorsListed(db: Db, s: seq<PublicAuthor>, used: set<int>) {
    && DistinctBy(AuthorKey, s) && AuthorIds(s) == used
    && forall a | a in s :: Row(db.profiles, a.id) && a.author == At(db.profiles, a.id)
  }

  ghost predicate AssetsListed(db: Db, s: seq<PublicAsset>, used: set<int>) {
    && DistinctBy(AssetKey, s) && AssetIds(s) == used
    && forall a | a in s :: Row(db.assets, a.id) && a.card == At(db.assets, a.id).card
  }

  ghost predicate GroupsListed(db: Db, s: seq<PublicGroup>, used: set<string>) {
    && DistinctBy(GroupKey, s) && GroupSlugs(s) == used
    && forall g | g in s :: FindGroup(db.groups, g.group.slug) == Some(g.id) && g.group == At(db.groups, g.id)
  }

  ghost predicate TagsListed(db: Db, s: seq<PublicTag>, used: set<int>) {
    && DistinctBy(TagKey, s) && TagIds(s) == used
    && forall t | t in s :: FetchTag(db.tags, t.id) == Some(t)
  }

  lemma AuthorListed(db: Db, s: seq<PublicAuthor>, used: set<int>, x: PublicAuthor)
    requires AuthorsListed(db, s, used) && Row(db.profiles, x.id) && x.author == At(db.profiles, x.id)
    ensures AuthorsListed(db, ListAuthor(s, x), used + {x.id})
  {
    if x.id !in AuthorIds(s) {
      forall i | 0 <= i < |s|
        ensures AuthorKey(s[i]) != AuthorKey(x)
      {
        assert s[i] in s;
      }
    }
  }

  lemma AssetListed(db: Db, s: seq<PublicAsset>, used: set<int>, x: PublicAsset)
    requires AssetsListed(db, s, used) && Row(db.assets, x.id) && x.card == At(db.assets, x.id).card
    ensures AssetsListed(db, ListAsset(s, x), used + {x.id})
  {
    if x.id !in AssetIds(s) {
      forall i | 0 <= i < |s|
        ensures AssetKey(s[i]) != AssetKey(x)
      {
        assert s[i] in s;
      }
    }
  }

  lemma GroupListed(db: Db, s: seq<PublicGroup>, used: set<string>, g: PublicGroup)
    requires GroupsListed(db, s, used)
    requires FindGroup(db.groups, g.group.slug) == Some(g.id) && g.group == At(db.groups, g.id)
    ensures GroupsListed(db, ListGroup(s, g), used + {g.group.slug})
  {
    if g.group.slug !in GroupSlugs(s) {
      forall i | 0 <= i < |s|
        ensures GroupKey(s[i]) != GroupKey(g)
      {
        assert s[i] in s;
      }
    }
  }

  lemma TagListed(db: Db, s: seq<PublicTag>, used: set<int>, t: PublicTag)
    requires TagsListed(db, s, used) && FetchTag(db.tags, t.id) == Some(t)
    ensures TagsListed(db, ListTag(s, t), used + {t.id})
  {
    hide FetchTag;
    if t.id !in TagIds(s) {
      forall i | 0 <= i < |s|
        ensures TagKey(s[i]) != TagKey(t)
      {
        assert s[i] in s;
      }
    }
  }

  lemma {:induction false} AllTagsListed(db: Db, s: seq<PublicTag>, used: set<int>, ids: seq<int>)
    requires TagsListed(db, s, used) && AllFetched(db, ids)
    ensures TagsListed(db, ListTags(s, FetchTags(db, ids)), used + (set t | t in ids))
    decreases |ids|
  {
    if ids == [] {
      assert used + (set t | t in ids) == used;
    } else {
      var n := |ids| - 1;
      assert ids[..|ids|] == ids && ids == ids[..n] + [ids[n]];
      FetchStep(db, ids, n);
      AllTagsListed(db, s, used, ids[..n]);
      TagListed(db, ListTags(s, FetchTags(db, ids[..n])), used + (set t | t in ids[..n]), FetchTag(db.tags, ids[n]).value);
      assert used + (set t | t in ids) == used + (set t | t in ids[..n]) + {ids[n]};
    }
  }

  // ----- all rows -----

  ghost predicate Listed(db: Db, rows: seq<PublicRow>, a: Acc) {
    && AuthorsListed(db, a.authors, Bylines(rows)) && AssetsListed(db, a.assets, Covers(rows))
    && GroupsListed(db, a.groups, NoteSlugs(rows)) && TagsListed(db, a.tags, Tagged(rows))
  }

  lemma UsedStep(rows: seq<PublicRow>)
    requires rows != []
    ensures var n := |rows| - 1; var most, row := rows[..n], rows[n]; var f := row.revision.fields;
      && Bylines(rows) == Bylines(most) + {f.byline}
      && Covers(rows) == Covers(most) + (if f.cover.Some? then {f.cover.value} else {})
      && NoteSlugs(rows) == NoteSlugs(most) + (if row.kind.Note? && f.payload.NotePayload? then {f.payload.groupSlug} else {})
      && Tagged(rows) == Tagged(most) + row.revision.tags
  {
    var n := |rows| - 1;
    var most, row := rows[..n], rows[n];
    assert rows == most + [row];
    assert forall r :: r in rows <==> r in most || r == row;
    assert Tagged(rows) == Tagged(most) + row.revision.tags by {
      forall t | t in Tagged(rows)
        ensures t in Tagged(most) + row.revision.tags
      {
        var r :| r in rows && t in r.revision.tags;
      }
      forall t | t in Tagged(most) + row.revision.tags
        ensures t in Tagged(rows)
      {
        assert row in rows;
      }
    }
  }

  // What the lookups of a row found are stored rows.
  lemma JoinedRows(db: Db, row: PublicRow)
    requires FetchedRow(db, row) && Addable(row)
    ensures var f := row.revision.fields;
      && Row(db.profiles, f.byline) && row.joins.author.value == At(db.profiles, f.byline)
      && (f.cover.Some? ==> Row(db.assets, f.cover.value) && row.joins.card.value == At(db.assets, f.cover.value).card)
      && (row.kind.Note? ==> var g := row.joins.group.value;
            && f.payload.NotePayload? && g.group.slug == f.payload.groupSlug
            && FindGroup(db.groups, g.group.slug) == Some(g.id) && g.group == At(db.groups, g.id))
  {
    hide FetchTag;
  }

  lemma RowTagsListed(db: Db, row: PublicRow, s: seq<PublicTag>, used: set<int>)
    requires FetchedRow(db, row) && Addable(row) && TagsListed(db, s, used)
    ensures TagsListed(db, ListTags(s, row.joins.tags), used + row.revision.tags)
  {
    hide FetchedRow, TagsListed, ListTags, FetchTags, AllFetched;
    FetchedTags(db, row);
    AllTagsListed(db, s, used, SortedIds(row.revision.tags));
    assert (set t | t in SortedIds(row.revision.tags)) == row.revision.tags;
  }

  lemma ListRow(b: Budget, db: Db, rows: seq<PublicRow>, a: Acc)
    requires rows != [] && Listed(db, rows[..|rows| - 1], a)
    requires Addable(rows[|rows| - 1]) && FetchedRow(db, rows[|rows| - 1])
    ensures Listed(db, rows, AddRow(b, a, rows[|rows| - 1]))
  {
    hide FetchedRow, AddRow, AuthorsListed, AssetsListed, GroupsListed, TagsListed, Bylines, Covers, NoteSlugs, Tagged,
         ListAuthor, ListAsset, ListGroup, ListTags, Document;
    var most, row := rows[..|rows| - 1], rows[|rows| - 1];
    var f := row.revision.fields;
    RowEffect(b, a, row);
    UsedStep(rows);
    JoinedRows(db, row);
    AuthorListed(db, a.authors, Bylines(most), PublicAuthor(f.byline, row.joins.author.value));
    if f.cover.Some? {
      AssetListed(db, a.assets, Covers(most), PublicAsset(f.cover.value, row.joins.card.value));
    }
    if row.kind.Note? {
      GroupListed(db, a.groups, NoteSlugs(most), row.joins.group.value);
    }
    RowTagsListed(db, row, a.tags, Tagged(most));
    assert Covers(most) + {} == Covers(most) && NoteSlugs(most) + {} == NoteSlugs(most);
  }

  // Every table an export carries is exactly what its content refers to.
  lemma {:induction false} CollectLists(b: Budget, db: Db, rows: seq<PublicRow>)
    requires forall i | 0 <= i < |rows| :: Addable(rows[i]) && FetchedRow(db, rows[i])
    ensures Listed(db, rows, Collect(b, rows))
    ensures |Collect(b, rows).content| == |rows|
    ensures forall i | 0 <= i < |rows| :: Collect(b, rows).content[i] == Document(rows[i])
  {
    hide AddRow, FetchedRow, Document, Listed;
    if rows == [] {
      NothingListed(db);
    } else {
      var n := |rows| - 1;
      CollectLists(b, db, rows[..n]);
      ListRow(b, db, rows, Collect(b, rows[..n]));
      RowEffect(b, Collect(b, rows[..n]), rows[n]);
    }
  }

  lemma NothingListed(db: Db)
    ensures Listed(db, [], START)
  {
  }
}
