/** What one editorial command undoes of another, and what a publication fixes for its readers. */
module Undo {
  import opened Base
  import opened Text
  import opened Schema
  import opened Ordering
  import opened Policy
  import opened Content
  import opened Workflow
  import opened Editorial
  import opened CommandProofs
  import opened Projection
  import Completeness
  import Exporting
  import GenerationProofs
  import Graph

  // The same tables but for the row of one item and later revisions.
  ghost predicate OnlyItem(a: Db, b: Db, id: int) {
    && Row(a.items, id) && |b.items| == |a.items|
    && (forall i | 0 <= i < |a.items| && i + 1 != id :: b.items[i] == a.items[i])
    && a.revisions <= b.revisions && b == a.(items := b.items, revisions := b.revisions)
  }

  /** Withdrawing a submission gives the draft back for editing; all that remains of it is its revision. */
  lemma WithdrawUndoesSubmit(rules: Rules, db: Db, u: Actor, v: Actor, id: int, version: int, t1: int, t2: int, mid: Db, next: Db)
    requires DoSubmit(rules, db, u, id, version, t1) == Ok(mid) && DoWithdraw(mid, v, id, t2) == Ok(next)
    ensures OnlyItem(db, next, id) && |next.revisions| == |db.revisions| + 1
    ensures At(next.items, id) == At(db.items, id).(state := Drafting, pending := None, updatedAt := t2)
    ensures SameMaterial(At(db.drafts, id), At(next.revisions, |next.revisions|))
  {
    hide TakeSnapshot, CandidatePath, FieldsFault, RevisionOk;
    var taken := TakeSnapshot(rules, db, u, id, version, t1).value;
    SnapshotTakes(rules, db, u, id, version, t1, taken);
  }

  /** A reviewer who asks for changes reopens the same draft, and the next submission takes it up again. */
  lemma ChangesReopenTheDraft(rules: Rules, db: Db, u: Actor, id: int, rid: int, comment: string, now: int, next: Db)
    requires Good(rules, db) && DoRequestChanges(rules, db, u, id, rid, comment, now) == Ok(next)
    ensures At(db.items, id).pending == Some(rid) && MutableFault(At(next.items, id)).None?
    ensures next.drafts == db.drafts && SameMaterial(At(next.drafts, id), At(next.revisions, rid))
    ensures At(next.items, id) == At(db.items, id).(state := ChangesRequested, pending := None, updatedAt := now)
    ensures rid !in db.reviews && next.reviews == db.reviews[rid := Review(id, u.id, RequestedChanges, comment)]
  {
    hide RevisionOk, TaxonomyOk, RoutesOk;
    assert ItemOk(At(db.items, id), id, At(db.drafts, id), db.revisions, db.reviews);
  }

  /** Restoring from the archive brings the item back as an unpublished draft that keeps its paths and dates. */
  lemma RestoreUndoesArchive(db: Db, u: Actor, v: Actor, id: int, t1: int, t2: int, mid: Db, next: Db)
    requires DoArchive(db, u, id, t1) == Ok(mid) && DoRestoreArchive(mid, v, id, t2) == Ok(next)
    ensures At(next.items, id) == At(db.items, id).(state := Drafting, pending := None, published := None, updatedAt := t2)
    ensures next.drafts == db.drafts && next.revisions == db.revisions && next.routes == db.routes && next.reviews == db.reviews
    ensures next.generation == db.generation + if At(db.items, id).published.Some? then 1 else 0
  {
  }

  /** Restoring a revision makes its material the draft again, at the next version and with today's group mirrors. */
  lemma RestoredDraft(rules: Rules, db: Db, u: Actor, id: int, no: int, version: int, now: int, next: Db)
    requires DoRestoreRevision(db, u, id, no, version, now) == Ok(next)
    ensures var found := FindRevision(db.revisions, id, no);
      && found.Some? && Row(next.drafts, id)
      && SameMaterial(At(next.drafts, id), At(db.revisions, found.value))
      && At(next.drafts, id).version == version + 1
      && At(next.items, id) == At(db.items, id).(state := Drafting, pending := None, updatedAt := now)
      && next.revisions == db.revisions && next.routes == db.routes
  {
    var found := FindRevision(db.revisions, id, no);
    var r := At(db.revisions, found.value);
    var kind := At(db.items, id).kind;
    Hydrated(db.groups, kind, r.fields, false, HydrateNote(db.groups, kind, r.fields, false).value);
    hide HydrateNote;
  }

  // What readers get from a publication of revision rid.
  ghost predicate PublishedAs(db: Db, next: Db, id: int, rid: int, now: int) {
    && Row(next.items, id) && |next.items| == |db.items| && Row(next.drafts, id)
    && Row(next.revisions, rid) && At(next.revisions, rid).content == id
    && At(next.items, id).published == Some(rid) && At(next.items, id).state.Synced? && At(next.items, id).pending.None?
    && SameMaterial(At(next.drafts, id), At(next.revisions, rid)) && next.drafts == db.drafts
    && (forall i | 0 <= i < |db.items| && i + 1 != id :: next.items[i] == db.items[i])
    && next.generation == db.generation + 1 && next.updatedAt == now
    && var path := CandidatePath(At(next.items, id).kind, At(next.revisions, rid).fields);
       && path.Ok? && HomePath(next.routes, id) == Some(path.value)
       && (forall p | p in db.routes :: p in next.routes && next.routes[p].owner == db.routes[p].owner)
  }

  /**
   * A reviewed publication shows exactly the revision that was reviewed, at its own path, and records who
   * approved it; the first publication date stays, the last one is now.
   */
  lemma ReviewedIsShown(rules: Rules, db: Db, u: Actor, id: int, rid: int, comment: string, now: int, next: Db)
    requires Good(rules, db) && DoPublishReviewed(rules, db, u, id, rid, comment, now) == Ok(next)
    ensures At(db.items, id).pending == Some(rid) && PublishedAs(db, next, id, rid, now)
    ensures next.reviews == db.reviews[rid := Review(id, u.id, Approved, comment)] && rid !in db.reviews
    ensures At(next.items, id).lastPublished == Some(now)
    ensures At(next.items, id).firstPublished
      == if At(db.items, id).firstPublished.Some? then At(db.items, id).firstPublished else Some(now)
  {
    hide RevisionOk, TaxonomyOk, FieldsFault, HydrateNote, CandidatePath, Claim, Demote, HomePath;
    assert ItemOk(At(db.items, id), id, At(db.drafts, id), db.revisions, db.reviews);
    var path := CandidatePath(At(db.items, id).kind, At(db.revisions, rid).fields).value;
    ClaimHomes(db.routes, id, path);
    Completeness.HomeIsPath(next.routes, id, path);
  }

  /** A direct publication shows the draft as it stands, through a revision taken in the same transaction. */
  lemma DirectIsShown(rules: Rules, db: Db, u: Actor, id: int, version: int, dates: Option<LegacyDates>, now: int, next: Db)
    requires Good(rules, db) && DoPublishDirect(rules, db, u, id, version, dates, now) == Ok(next)
    ensures At(db.drafts, id).version == version && |next.revisions| == |db.revisions| + 1
    ensures PublishedAs(db, next, id, |next.revisions|, now) && next.reviews == db.reviews
    ensures dates.Some? ==> At(next.items, id).firstPublished == Some(dates.value.first)
                            && At(next.items, id).lastPublished == Some(dates.value.last)
  {
    hide Good, RevisionOk, FieldsFault, HydrateNote, CandidatePath, Claim, Demote, HomePath, TakeSnapshot;
    var taken, path := DirectShape(rules, db, u, id, version, dates, now, next);
    SnapshotTakes(rules, db, u, id, version, now, taken);
    HomesOf(rules, db);
    ClaimHomes(db.routes, id, path);
    Completeness.HomeIsPath(next.routes, id, path);
  }

  lemma HomesOf(rules: Rules, db: Db)
    requires Good(rules, db)
    ensures HomesOk(db.routes)
  {
  }

  // ----- what is written is what the exporter reads -----

  /** A stored tag is exported with collapsed and trimmed names, and with no English when none was given. */
  lemma TagReadsBack(rules: Rules, db: Db, u: Actor, id: int, input: TagInput, now: int, next: Db)
    requires DoPutTag(rules, db, u, id, input, now) == Ok(next)
    ensures var row := if id > 0 then id else |db.tags| + 1;
      && FetchTag(next.tags, row)
           == Some(PublicTag(row, Collapse(input.name), input.slug, input.description, Trim(input.nameEn), input.descriptionEn))
      && forall other | other != row :: FetchTag(next.tags, other) == FetchTag(db.tags, other)
  {
    hide PublishedUsesTag, Collapse, Trim, ValidSlug;
    TagRows(rules, db, u, id, input, now, next);
  }

  // With distinct slugs the row of a slug is found by it.
  lemma FoundBySlug(groups: seq<Group>, row: int)
    requires Row(groups, row) && forall i, j | 0 <= i < j < |groups| :: groups[i].slug != groups[j].slug
    ensures FindGroup(groups, At(groups, row).slug) == Some(row)
  {
    var slug := groups[row - 1].slug;
    assert groups[row - 1] in groups;
    assert FindGroup(groups, slug).Some?;
  }

  /** A stored group is what every note that names its slug is exported with. */
  lemma GroupReadsBack(rules: Rules, db: Db, u: Actor, id: int, input: Group, now: int, next: Db, p: Payload)
    requires Good(rules, db) && DoPutNoteGroup(db, u, id, input, now) == Ok(next)
    requires p.NotePayload? && p.groupSlug == input.slug
    ensures var row := if id > 0 then id else |db.groups| + 1;
      FetchGroup(next.groups, p)
        == Some(PublicGroup(row, input.(name := Trim(input.name), nameEn := Trim(input.nameEn))))
  {
    hide DoPutNoteGroup, PublishedUsesGroup, ValidGroup, Trim, Good, FindGroup;
    PutNoteGroupGood(rules, db, u, id, input, now, next);
    GroupRows(db, u, id, input, now, next);
    DistinctSlugs(rules, next);
    FoundBySlug(next.groups, if id > 0 then id else |db.groups| + 1);
  }

  lemma DistinctSlugs(rules: Rules, db: Db)
    requires Good(rules, db)
    ensures forall i, j | 0 <= i < j < |db.groups| :: db.groups[i].slug != db.groups[j].slug
  {
  }

  /** A document shows the fields of the published revision, the dates of the item and the path of the revision. */
  lemma DocumentShows(rules: Rules, db: Db, i: int)
    requires 0 <= i < |db.items| && Exported(db, i) && Exporting.Addable(RowOf(db, i)) && Exporting.RowValid(rules, RowOf(db, i))
    ensures var c, d := db.items[i], Exporting.Document(RowOf(db, i)); var r := At(db.revisions, c.published.value);
      && d.id == i + 1 && d.kind == c.kind && d.revisionNo == r.no && d.prose == r.fields.prose && d.slug == r.fields.slug
      && Some(d.firstPublished) == c.firstPublished && Some(d.lastPublished) == c.lastPublished
      && CandidatePath(c.kind, r.fields) == Ok(d.canonicalPath) && d.authorId == r.fields.byline
      && d.featured == r.fields.featured && d.cover == r.fields.cover
      && (d.english.Some? <==> r.fields.english.Some? && r.fields.english.value.enabled)
      && (d.english.Some? ==> d.english == r.fields.english)
      && Ascending(IdLess, d.tagIds) && (forall t :: t in d.tagIds <==> t in r.tags)
      && |d.entries| == |r.entries| && (forall k | 0 <= k < |r.entries| :: d.entries[k] == Entry(k + 1, r.entries[k]))
      && Graph.AsPayload(d.payload) == Unmirrored(r.fields.payload)
  {
    hide FieldsFault, EnglishFault, CandidatePath, HomePath, Fetch;
  }

  // ----- new items, profiles and images -----

  // What a save asks of its input beyond the right to make it.
  predicate Sensible(rules: Rules, db: Db, id: int, kind: Kind, input: DraftInput) {
    var f := HydrateNote(db.groups, kind, input.fields, false);
    f.Ok? && FieldsFault(rules, kind, f.value, false).None?
    && RelationsFault(db, id, kind, f.value, input.tags, input.entries).None?
  }

  /**
   * A created item is a private draft: readers see nothing of it, and its first save is accepted exactly from its
   * creator or an administrator, at version one, with a byline and a featured mark the writer may set.
   */
  lemma CreatedIsEditable(rules: Rules, db: Db, u: Actor, kind: Kind, now: int, next: Db, v: Actor, input: DraftInput, t: int)
    requires Good(rules, db) && DoCreate(db, u, kind, now) == Ok(next)
    ensures var id := |db.items| + 1;
      && |next.items| == id && At(next.items, id).kind == kind && db.items <= next.items && db.drafts <= next.drafts
      && ViewOf(next) == ViewOf(db)
      && (DoSave(rules, next, v, id, input, t).Ok? <==>
            && v.active && (v.role.Admin? || v.id == u.id) && input.version == 1
            && (v.role.Admin? || (input.fields.byline == v.id && !input.fields.featured))
            && Sensible(rules, next, id, kind, input))
  {
    hide FieldsFault, RelationsFault, HydrateNote, ViewOf, SaveDraft;
    GenerationProofs.CreateQuiet(rules, db, u, kind, now, next);
    hide Good;
    assert At(next.drafts, |db.items| + 1).fields == Fields(BLANK, "", u.id, None, false, None, InitialPayload(kind)) by {
      DraftCount(rules, db);
    }
  }

  lemma DraftCount(rules: Rules, db: Db)
    requires Good(rules, db)
    ensures |db.drafts| == |db.items|
  {
  }

  /** A changed profile is what every byline of its user is exported with; its slug, its portrait and all others stay. */
  lemma ProfileReadsBack(rules: Rules, db: Db, u: Actor, id: int, input: ProfileInput, now: int, next: Db, kind: Kind, r: Revision)
    requires DoUpdateProfile(rules, db, u, id, input, now) == Ok(next)
    ensures Row(db.profiles, id) && input.displayName != ""
    ensures r.fields.byline == id ==>
      var was := At(db.profiles, id);
      Fetch(next, kind, r).author
        == Some(Author(was.slug, Trim(input.displayName), input.bio, was.avatar, input.website))
    ensures r.fields.byline != id ==> Fetch(next, kind, r) == Fetch(db, kind, r)
  {
    hide PublishedUsesByline, Trim, Utf8Length;
    if r.fields.byline != id {
      var ids := SortedIds(r.tags);
      assert forall i | 0 <= i < |ids| :: FetchTag(next.tags, ids[i]) == FetchTag(db.tags, ids[i]);
    }
  }

  /** Equal bytes share one row: whoever uploads them again, the second upload succeeds and changes nothing. */
  lemma UploadTwice(rules: Rules, db: Db, u: Actor, v: Actor, sha: string, card: string, other: string, next: Db)
    requires DoUpload(rules, db, u, sha, card) == Ok(next) && v.active && rules.assetUrl(other)
    ensures DoUpload(rules, next, v, sha, other) == Ok(next)
    ensures exists i :: 0 <= i < |next.assets| && next.assets[i].sha == sha && next.assets[i].deletedAt.None?
    ensures (exists i :: 0 <= i < |db.assets| && db.assets[i].sha == sha) ==> next == db
  {
    if !exists i :: 0 <= i < |db.assets| && db.assets[i].sha == sha {
      assert next.assets[|db.assets|].sha == sha;
    } else {
      var i :| 0 <= i < |db.assets| && db.assets[i].sha == sha;
      assert next.assets[i].sha == sha;
    }
  }

  /**
   * Deleting an image blocks it as a cover and its bytes from another upload, but readers see what they saw, and
   * restoring it gives the very rows from before.
   */
  lemma RestoreUndoesDelete(rules: Rules, db: Db, u: Actor, v: Actor, id: int, t1: int, t2: int, mid: Db, next: Db)
    requires Good(rules, db) && Lawful(rules) && Row(db.assets, id) && At(db.assets, id).deletedAt.None?
    requires DoSetAssetDeleted(db, u, id, true, t1) == Ok(mid) && DoSetAssetDeleted(mid, v, id, false, t2) == Ok(next)
    ensures next == db && ViewOf(mid) == ViewOf(db)
    ensures CoverFault(mid.assets, Some(id)) == Some(AssetDeleted) && CoverFault(db.assets, Some(id)).None?
    ensures forall w: Actor, card | w.active && rules.assetUrl(card) ::
      DoUpload(rules, mid, w, At(db.assets, id).sha, card) == Err(AssetDeleted)
  {
    GenerationProofs.AssetQuiet(rules, db, u, SetAssetDeleted(id, true), t1, mid);
    hide Good, ViewOf, DoSetAssetDeleted, DoUpload, CoverFault;
    DeleteAndRestore(db, u, v, id, t1, t2, mid, next);
    forall w: Actor, card | w.active && rules.assetUrl(card)
      ensures DoUpload(rules, mid, w, At(db.assets, id).sha, card) == Err(AssetDeleted)
    {
      DeletedBytes(rules, mid, w, id, card);
    }
  }

  lemma DeleteAndRestore(db: Db, u: Actor, v: Actor, id: int, t1: int, t2: int, mid: Db, next: Db)
    requires Row(db.assets, id) && At(db.assets, id).deletedAt.None?
    requires DoSetAssetDeleted(db, u, id, true, t1) == Ok(mid) && DoSetAssetDeleted(mid, v, id, false, t2) == Ok(next)
    ensures next == db && Row(mid.assets, id) && At(mid.assets, id) == At(db.assets, id).(deletedAt := Some(t1))
    ensures CoverFault(mid.assets, Some(id)) == Some(AssetDeleted) && CoverFault(db.assets, Some(id)).None?
  {
    assert next.assets == db.assets;
  }

  lemma DeletedBytes(rules: Rules, db: Db, u: Actor, id: int, card: string)
    requires Row(db.assets, id) && At(db.assets, id).deletedAt.Some? && u.active && rules.assetUrl(card)
    ensures DoUpload(rules, db, u, At(db.assets, id).sha, card) == Err(AssetDeleted)
  {
  }

  // ----- retractions -----

  // The rows but for those of one item.
  function Without(rows: seq<PublicRow>, id: int): seq<PublicRow> {
    if rows == [] then []
    else
      var last := rows[|rows| - 1];
      Without(rows[..|rows| - 1], id) + if last.id == id then [] else [last]
  }

  lemma {:induction false} RowsWithout(db: Db, next: Db, id: int, n: int)
    requires |next.items| == |db.items| && 0 <= n <= |db.items| && next.revisions == db.revisions
    requires forall i | 0 <= i < |db.items| ::
      if i + 1 == id then !Public(next.items[i])
      else next.items[i] == db.items[i] && (Exported(db, i) ==> RowOf(next, i) == RowOf(db, i))
    ensures Rows(next, n) == Without(Rows(db, n), id)
  {
    hide RowOf;
    if n > 0 {
      RowsWithout(db, next, id, n - 1);
      assert Exported(db, n - 1) ==> RowOf(db, n - 1).id == n by { IdOfRow(db, n - 1); }
      assert n != id ==> Exported(next, n - 1) == Exported(db, n - 1);
    }
  }

  lemma IdOfRow(db: Db, i: int)
    requires 0 <= i < |db.items|
    ensures Exported(db, i) ==> RowOf(db, i).id == i + 1
  {
  }

  lemma {:induction false} CountLess(a: seq<Item>, b: seq<Item>, id: int)
    requires |a| == |b| && forall i | 0 <= i < |a| :: if i + 1 == id then Public(a[i]) && !Public(b[i]) else a[i] == b[i]
    ensures CountPublic(b) == CountPublic(a) - if Row(a, id) then 1 else 0
  {
    if a != [] {
      var n := |a| - 1;
      CountLess(a[..n], b[..n], id);
    }
  }

  /**
   * Unpublishing, and archiving what is published, takes exactly this item from what readers see: its row and its
   * paths go, every other row and path stays as it was, and the path table itself keeps them reserved.
   */
  lemma RetractionHides(rules: Rules, db: Db, u: Actor, c: Command, now: int, next: Db)
    requires c.Unpublish? || c.Archive?
    requires Apply(rules, db, u, c, now) == Ok(next) && Row(db.items, c.id) && At(db.items, c.id).published.Some?
    ensures ViewOf(next).rows == Without(ViewOf(db).rows, c.id)
    ensures ViewOf(next).expected == ViewOf(db).expected - 1 && ViewOf(next).generation == ViewOf(db).generation + 1
    ensures ViewOf(next).routes == map p | p in ViewOf(db).routes && ViewOf(db).routes[p].owner != c.id :: ViewOf(db).routes[p]
    ensures next.routes == db.routes && next.drafts == db.drafts && next.revisions == db.revisions
    ensures !Public(At(next.items, c.id)) && At(next.items, c.id).state.Drafting?
  {
    hide Apply, Rows, RowOf, CountPublic, Exported, Without;
    RetractionShape(rules, db, u, c, now, next);
    CountLess(db.items, next.items, c.id);
    SameRowOfOthers(db, next, c.id);
    RowsWithout(db, next, c.id, |db.items|);
  }

  lemma RetractionShape(rules: Rules, db: Db, u: Actor, c: Command, now: int, next: Db)
    requires c.Unpublish? || c.Archive?
    requires Apply(rules, db, u, c, now) == Ok(next) && Row(db.items, c.id) && At(db.items, c.id).published.Some?
    ensures Public(At(db.items, c.id)) && |next.items| == |db.items|
    ensures next == db.(items := next.items, generation := db.generation + 1, updatedAt := next.updatedAt, jobs := next.jobs)
    ensures !Public(At(next.items, c.id)) && At(next.items, c.id).state.Drafting?
    ensures forall i | 0 <= i < |db.items| && i + 1 != c.id :: next.items[i] == db.items[i]
  {
  }

  lemma SameRowOfOthers(db: Db, next: Db, id: int)
    requires Row(db.items, id) && |next.items| == |db.items|
    requires next == db.(items := next.items, generation := next.generation, updatedAt := next.updatedAt, jobs := next.jobs)
    requires forall i | 0 <= i < |db.items| && i + 1 != id :: next.items[i] == db.items[i]
    ensures forall i | 0 <= i < |db.items| && i + 1 != id && Exported(db, i) :: RowOf(next, i) == RowOf(db, i)
  {
    hide HomePath;
    forall i | 0 <= i < |db.items| && i + 1 != id && Exported(db, i)
      ensures RowOf(next, i) == RowOf(db, i)
    {
      SameFetchOf(db, next, db.items[i].kind, At(db.revisions, db.items[i].published.value));
    }
  }

  lemma SameFetchOf(db: Db, next: Db, kind: Kind, r: Revision)
    requires next.profiles == db.profiles && next.assets == db.assets && next.groups == db.groups && next.tags == db.tags
    ensures Fetch(next, kind, r) == Fetch(db, kind, r)
  {
    assert Fetch(next, kind, r).tags == Fetch(db, kind, r).tags;
  }
}
