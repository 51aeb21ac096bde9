/** Every command keeps the invariant, over whole runs; the statements a reader can rely on. */
module CommandProofs {
  import opened Base
  import opened Text
  import opened Ordering
  import opened Schema
  import opened Policy
  import opened Content
  import opened Workflow
  import opened Editorial

  lemma CompletePath(rules: Rules, kind: Kind, f: Fields)
    requires FieldsFault(rules, kind, f, true).None?
    ensures CandidatePath(kind, f).Ok?
  {
  }

  lemma Hydrated(groups: seq<Group>, kind: Kind, f: Fields, complete: bool, g: Fields)
    requires HydrateNote(groups, kind, f, complete) == Ok(g)
    ensures g.(payload := f.payload) == f && Unmirrored(g.payload) == Unmirrored(f.payload)
    ensures CandidatePath(kind, g) == CandidatePath(kind, f)
    ensures complete && kind.Note? ==> g.payload.NotePayload? && FindGroup(groups, g.payload.groupSlug).Some?
  {
  }

  // The revision a snapshot adds: complete, with the draft's material, numbered next.
  lemma SnapshotTakes(rules: Rules, db: Db, u: Actor, id: int, version: int, now: int, next: Db)
    requires Row(db.items, id) && Row(db.drafts, id)
    requires TakeSnapshot(rules, db, u, id, version, now) == Ok(next)
    ensures |next.revisions| == |db.revisions| + 1 && At(db.drafts, id).version == version
    ensures var r := next.revisions[|db.revisions|];
      && next == db.(revisions := db.revisions + [r])
      && r.content == id && SameMaterial(At(db.drafts, id), r) && RevisionOk(rules, db, r)
      && r.no == LastNo(db.revisions, id) + 1
  {
    var kind, d := At(db.items, id).kind, At(db.drafts, id);
    var loaded := HydrateNote(db.groups, kind, d.fields, false).value;
    Hydrated(db.groups, kind, d.fields, false, loaded);
    var f := HydrateNote(db.groups, kind, loaded, true).value;
    Hydrated(db.groups, kind, loaded, true, f);
    CompletePath(rules, kind, f);
    var r := next.revisions[|db.revisions|];
    assert r.fields == f && r.tags == d.tags && r.entries == d.entries;
    assert SameMaterial(d, r);
    assert forall t | t in r.tags :: t in SortedIds(d.tags);
    assert kind.Topic? ==> |d.tags| == 0 && r.tags == {};
    assert References(db, r);
  }

  lemma SnapshotGood(rules: Rules, db: Db, u: Actor, id: int, version: int, now: int, next: Db)
    requires Good(rules, db) && Row(db.items, id) && Row(db.drafts, id)
    requires TakeSnapshot(rules, db, u, id, version, now) == Ok(next)
    ensures Good(rules, next) && Grows(db, next)
  {
    SnapshotTakes(rules, db, u, id, version, now, next);
    var r := next.revisions[|db.revisions|];
    AddRevision(rules, db, r);
    ItemsKeep(db, r);
  }

  lemma CreateGood(rules: Rules, db: Db, u: Actor, kind: Kind, now: int, next: Db)
    requires Good(rules, db) && DoCreate(db, u, kind, now) == Ok(next)
    ensures Good(rules, next) && Grows(db, next)
  {
    RevisionsStay(rules, db, next);
    forall i | 0 <= i < |next.items|
      ensures ItemOk(next.items[i], i + 1, next.drafts[i], next.revisions, next.reviews) && Homed(next, i)
    {
      if i < |db.items| {
        assert ItemOk(db.items[i], i + 1, db.drafts[i], db.revisions, db.reviews) && Homed(db, i);
      }
    }
  }

  lemma SaveGood(rules: Rules, db: Db, u: Actor, id: int, input: DraftInput, now: int, next: Db)
    requires Good(rules, db) && DoSave(rules, db, u, id, input, now) == Ok(next)
    ensures Good(rules, next) && Grows(db, next)
  {
    hide FieldsFault, RelationsFault, RevisionOk, TaxonomyOk, RoutesOk;
    var c := At(db.items, id);
    assert ItemOk(c, id, At(db.drafts, id), db.revisions, db.reviews);
    var f := HydrateNote(db.groups, c.kind, input.fields, false).value;
    EditGood(rules, db, id, f, (set t | t in input.tags), input.entries,
             c.(state := if c.state.Synced? then Drafting else c.state, updatedAt := now));
  }

  lemma SubmitGood(rules: Rules, db: Db, u: Actor, id: int, version: int, now: int, next: Db)
    requires Good(rules, db) && DoSubmit(rules, db, u, id, version, now) == Ok(next)
    ensures Good(rules, next) && Grows(db, next)
  {
    hide TakeSnapshot, RevisionOk, TaxonomyOk, RoutesOk, CandidatePath;
    var taken := TakeSnapshot(rules, db, u, id, version, now).value;
    SnapshotTakes(rules, db, u, id, version, now, taken);
    SnapshotGood(rules, db, u, id, version, now, taken);
    var c := At(db.items, id);
    assert ItemOk(c, id, At(taken.drafts, id), taken.revisions, taken.reviews);
    var rid := |taken.revisions|;
    assert rid !in taken.reviews;
    PutItemGood(rules, taken, id, c.(state := InReview, pending := Some(rid), updatedAt := now));
  }

  lemma RequestChangesGood(rules: Rules, db: Db, u: Actor, id: int, rid: int, comment: string, now: int, next: Db)
    requires Good(rules, db) && DoRequestChanges(rules, db, u, id, rid, comment, now) == Ok(next)
    ensures Good(rules, next) && Grows(db, next)
  {
    hide RevisionOk, TagOk, CandidatePath, SameMaterial, DoRequestChanges, HomesOk;
    ChangesShape(rules, db, u, id, rid, comment, now, next);
    RevisionsStay(rules, db, next);
    forall i | 0 <= i < |next.items|
      ensures ItemOk(next.items[i], i + 1, next.drafts[i], next.revisions, next.reviews) && Homed(next, i)
    {
      assert ItemOk(db.items[i], i + 1, db.drafts[i], db.revisions, db.reviews) && Homed(db, i);
    }
  }

  lemma ChangesShape(rules: Rules, db: Db, u: Actor, id: int, rid: int, comment: string, now: int, next: Db)
    requires DoRequestChanges(rules, db, u, id, rid, comment, now) == Ok(next)
    ensures Row(db.items, id) && Row(db.drafts, id) && Row(db.revisions, rid) && rid !in db.reviews
    ensures var c := At(db.items, id);
      && c.archivedAt.None? && c.state.InReview? && c.pending == Some(rid) && At(db.revisions, rid).content == id
      && next == db.(items := db.items[id - 1 := c.(state := ChangesRequested, pending := None, updatedAt := now)],
                     reviews := db.reviews[rid := Review(id, u.id, RequestedChanges, comment)])
  {
    hide CanReview;
  }

  lemma WithdrawGood(rules: Rules, db: Db, u: Actor, id: int, now: int, next: Db)
    requires Good(rules, db) && DoWithdraw(db, u, id, now) == Ok(next)
    ensures Good(rules, next) && Grows(db, next)
  {
    var c := At(db.items, id);
    assert ItemOk(c, id, At(db.drafts, id), db.revisions, db.reviews);
    PutItemGood(rules, db, id, c.(state := Drafting, pending := None, updatedAt := now));
  }

  lemma PublishReviewedGood(rules: Rules, db: Db, u: Actor, id: int, rid: int, comment: string, now: int, next: Db)
    requires Good(rules, db) && DoPublishReviewed(rules, db, u, id, rid, comment, now) == Ok(next)
    ensures Good(rules, next) && Grows(db, next)
  {
    hide Good, TaxonomyOk, DoPublishReviewed, ReadyToPublish, Published, PublishRevision;
    var path := ReviewedShape(rules, db, u, id, rid, comment, now, next);
    var c, review := At(db.items, id), Some(Review(id, u.id, Approved, comment));
    var p := PublishRevision(c, rid, now);
    var before := Published(db, id, rid, p, review, path);
    assert HomesOk(db.routes) by { GoodHomes(rules, db); }
    PublishGood(rules, db, id, rid, p, review, path);
    PublishGrows(db, id, rid, p, review, path);
    MarkDirtyGood(rules, before, now);
    GrowsTransitive(db, before, next);
  }

  lemma GoodHomes(rules: Rules, db: Db)
    requires Good(rules, db)
    ensures HomesOk(db.routes) && ItemsOk(db)
  {
  }

  // A reviewed publication is the publication of the revision under review with its approval.
  lemma ReviewedShape(rules: Rules, db: Db, u: Actor, id: int, rid: int, comment: string, now: int, next: Db) returns (path: string)
    requires Good(rules, db) && DoPublishReviewed(rules, db, u, id, rid, comment, now) == Ok(next)
    ensures Row(db.items, id)
    ensures var p, review := PublishRevision(At(db.items, id), rid, now), Some(Review(id, u.id, Approved, comment));
      ReadyToPublish(db, id, rid, p, review, path) && next == MarkDirty(Published(db, id, rid, p, review, path), now)
  {
    GoodHomes(rules, db);
    hide Good, RevisionOk, TaxonomyOk, FieldsFault, HydrateNote, Claim, Demote, CanReview, HomesOk;
    var c := At(db.items, id);
    assert ItemOk(c, id, At(db.drafts, id), db.revisions, db.reviews);
    path := CandidatePath(c.kind, At(db.revisions, rid).fields).value;
  }

  // A direct publication is a snapshot followed by the publication of exactly that revision.
  lemma DirectShape(rules: Rules, db: Db, u: Actor, id: int, version: int, dates: Option<LegacyDates>, now: int, next: Db)
    returns (taken: Db, path: string)
    requires DoPublishDirect(rules, db, u, id, version, dates, now) == Ok(next)
    ensures Row(db.items, id) && Row(db.drafts, id) && Row(next.items, id)
    ensures TakeSnapshot(rules, db, u, id, version, now) == Ok(taken)
    ensures ReadyToPublish(taken, id, |taken.revisions|, At(next.items, id), None, path)
    ensures next == MarkDirty(Published(taken, id, |taken.revisions|, At(next.items, id), None, path), now)
  {
    hide TakeSnapshot, RevisionOk, FieldsFault, Claim, Demote;
    taken := TakeSnapshot(rules, db, u, id, version, now).value;
    SnapshotTakes(rules, db, u, id, version, now, taken);
    path := CandidatePath(At(db.items, id).kind, At(taken.revisions, |taken.revisions|).fields).value;
  }

  lemma PublishDirectGood(rules: Rules, db: Db, u: Actor, id: int, version: int, dates: Option<LegacyDates>, now: int, next: Db)
    requires Good(rules, db) && DoPublishDirect(rules, db, u, id, version, dates, now) == Ok(next)
    ensures Good(rules, next) && Grows(db, next)
  {
    var taken, path := DirectShape(rules, db, u, id, version, dates, now, next);
    var rid, p := |taken.revisions|, At(next.items, id);
    var before := Published(taken, id, rid, p, None, path);
    SnapshotGood(rules, db, u, id, version, now, taken);
    PublishGood(rules, taken, id, rid, p, None, path);
    PublishGrows(taken, id, rid, p, None, path);
    MarkDirtyGood(rules, before, now);
    GrowsTransitive(db, taken, before);
    GrowsTransitive(db, before, next);
  }

  lemma UnpublishGood(rules: Rules, db: Db, u: Actor, id: int, now: int, next: Db)
    requires Good(rules, db) && DoUnpublish(db, u, id, now) == Ok(next)
    ensures Good(rules, next) && Grows(db, next)
  {
    var c := At(db.items, id).(published := None, pending := None, state := Drafting, updatedAt := now);
    PutItemGood(rules, db, id, c);
    MarkDirtyGood(rules, PutItem(db, id, c), now);
    GrowsTransitive(db, PutItem(db, id, c), next);
  }

  lemma ArchiveGood(rules: Rules, db: Db, u: Actor, id: int, now: int, next: Db)
    requires Good(rules, db) && DoArchive(db, u, id, now) == Ok(next)
    ensures Good(rules, next) && Grows(db, next)
  {
    var c := At(db.items, id).(archivedAt := Some(now), published := None, pending := None, state := Drafting, updatedAt := now);
    PutItemGood(rules, db, id, c);
    MarkDirtyGood(rules, PutItem(db, id, c), now);
    GrowsTransitive(db, PutItem(db, id, c), MarkDirty(PutItem(db, id, c), now));
  }

  lemma RestoreArchiveGood(rules: Rules, db: Db, u: Actor, id: int, now: int, next: Db)
    requires Good(rules, db) && DoRestoreArchive(db, u, id, now) == Ok(next)
    ensures Good(rules, next) && Grows(db, next)
  {
    var c := At(db.items, id);
    assert ItemOk(c, id, At(db.drafts, id), db.revisions, db.reviews);
    PutItemGood(rules, db, id, c.(archivedAt := None, state := Drafting, updatedAt := now));
  }

  lemma RestoreRevisionGood(rules: Rules, db: Db, u: Actor, id: int, no: int, version: int, now: int, next: Db)
    requires Good(rules, db) && DoRestoreRevision(db, u, id, no, version, now) == Ok(next)
    ensures Good(rules, next) && Grows(db, next)
  {
    hide RevisionOk, TaxonomyOk, RoutesOk;
    var c := At(db.items, id);
    assert ItemOk(c, id, At(db.drafts, id), db.revisions, db.reviews);
    var r := At(db.revisions, FindRevision(db.revisions, id, no).value);
    var f := HydrateNote(db.groups, c.kind, r.fields, false).value;
    EditGood(rules, db, id, f, r.tags, r.entries, c.(state := Drafting, pending := None, updatedAt := now));
  }

  // Commands that only write taxonomy, profile or image rows.
  lemma SideTablesGood(rules: Rules, db: Db, next: Db, now: int)
    requires Good(rules, db) && TaxonomyOk(rules, next)
    requires next == db.(tags := next.tags, groups := next.groups, profiles := next.profiles, assets := next.assets)
    requires Supports(db, next) && forall i | 0 <= i < |db.tags| :: db.tags[i].slug == next.tags[i].slug
    requires forall i | 0 <= i < |db.assets| :: db.assets[i].card == next.assets[i].card
    ensures Good(rules, next) && Grows(db, next)
    ensures Good(rules, MarkDirty(next, now)) && Grows(db, MarkDirty(next, now))
  {
    RevisionsStay(rules, db, next);
    forall i | 0 <= i < |next.items|
      ensures Homed(next, i)
    {
      assert Homed(db, i);
    }
    MarkDirtyGood(rules, next, now);
    GrowsTransitive(db, next, MarkDirty(next, now));
  }

  lemma TagRowOk(rules: Rules, input: TagInput)
    requires Bounded(input.name, 100) && Bounded(input.description, 1000) && ValidSlug(input.slug)
    requires Bounded(input.nameEn, 100) && Bounded(input.descriptionEn, 1000)
    requires TagRow(rules, input).normalized != ""
    ensures TagOk(TagRow(rules, input))
  {
    assert Collapse(input.name) != "";
  }

  lemma TagRows(rules: Rules, db: Db, u: Actor, id: int, input: TagInput, now: int, next: Db)
    requires DoPutTag(rules, db, u, id, input, now) == Ok(next)
    ensures id >= 0 && (id > 0 ==> Row(db.tags, id) && At(db.tags, id).slug == input.slug)
    ensures TagOk(TagRow(rules, input))
    ensures forall i | 0 <= i < |db.tags| && i + 1 != id :: db.tags[i].slug != input.slug
    ensures var plain := db.(tags := PutRow(db.tags, id, TagRow(rules, input)));
      next == if id > 0 && PublishedUsesTag(plain, id) then MarkDirty(plain, now) else plain
  {
    TagRowOk(rules, input);
  }

  lemma TagTable(rules: Rules, db: Db, id: int, t: Tag)
    requires TaxonomyOk(rules, db) && TagOk(t) && id >= 0
    requires id > 0 ==> Row(db.tags, id) && At(db.tags, id).slug == t.slug
    requires forall i | 0 <= i < |db.tags| && i + 1 != id :: db.tags[i].slug != t.slug
    ensures TaxonomyOk(rules, db.(tags := PutRow(db.tags, id, t)))
    ensures forall i | 0 <= i < |db.tags| :: db.tags[i].slug == PutRow(db.tags, id, t)[i].slug
  {
    var next := PutRow(db.tags, id, t);
    assert forall i | 0 <= i < |db.tags| :: db.tags[i].slug == next[i].slug;
    assert forall i | 0 <= i < |next| :: next[i] == t || (i < |db.tags| && next[i] == db.tags[i]);
  }

  lemma PutTagGood(rules: Rules, db: Db, u: Actor, id: int, input: TagInput, now: int, next: Db)
    requires Good(rules, db) && DoPutTag(rules, db, u, id, input, now) == Ok(next)
    ensures Good(rules, next) && Grows(db, next)
  {
    TagRows(rules, db, u, id, input, now, next);
    TagTable(rules, db, id, TagRow(rules, input));
    SideTablesGood(rules, db, db.(tags := PutRow(db.tags, id, TagRow(rules, input))), now);
  }

  lemma GroupRows(db: Db, u: Actor, id: int, input: Group, now: int, next: Db)
    requires DoPutNoteGroup(db, u, id, input, now) == Ok(next)
    ensures id >= 0 && (id > 0 ==> Row(db.groups, id) && At(db.groups, id).slug == input.slug)
    ensures ValidGroup(GroupRow(input)) && GroupRow(input).slug == input.slug
    ensures id == 0 ==> forall i | 0 <= i < |db.groups| :: db.groups[i].slug != input.slug
    ensures var plain := db.(groups := PutRow(db.groups, id, GroupRow(input)));
      next == if PublishedUsesGroup(plain, input.slug) then MarkDirty(plain, now) else plain
  {
    forall i | 0 <= i < |db.groups| && id == 0
      ensures db.groups[i].slug != input.slug
    {
      assert db.groups[i] in db.groups;
    }
  }

  lemma PutNoteGroupGood(rules: Rules, db: Db, u: Actor, id: int, input: Group, now: int, next: Db)
    requires Good(rules, db) && DoPutNoteGroup(db, u, id, input, now) == Ok(next)
    ensures Good(rules, next) && Grows(db, next)
  {
    hide ItemsOk, RevisionsOk, RoutesOk, ValidGroup;
    GroupRows(db, u, id, input, now, next);
    hide DoPutNoteGroup, PublishedUsesGroup;
    SideTablesGood(rules, db, db.(groups := PutRow(db.groups, id, GroupRow(input))), now);
  }

  lemma ProfileRows(rules: Rules, db: Db, u: Actor, id: int, input: ProfileInput, now: int, next: Db)
    requires DoUpdateProfile(rules, db, u, id, input, now) == Ok(next)
    ensures Row(db.profiles, id) && rules.markdown(input.bio) && |next.profiles| == |db.profiles|
    ensures forall i | 0 <= i < |db.profiles| && i + 1 != id :: next.profiles[i] == db.profiles[i]
    ensures next.profiles[id - 1].bio == input.bio
    ensures var plain := db.(profiles := next.profiles);
      next == if PublishedUsesByline(plain, id) then MarkDirty(plain, now) else plain
  {
  }

  lemma AssetRows(rules: Rules, db: Db, u: Actor, c: Command, now: int, next: Db)
    requires c.Upload? || c.SetAssetDeleted? || c.Login?
    requires Lawful(rules) && Apply(rules, db, u, c, now) == Ok(next)
    ensures next == db.(profiles := next.profiles, assets := next.assets)
    ensures db.profiles <= next.profiles && |db.assets| <= |next.assets|
    ensures forall i | |db.profiles| <= i < |next.profiles| :: rules.markdown(next.profiles[i].bio)
    ensures forall i | 0 <= i < |db.assets| :: db.assets[i].card == next.assets[i].card
    ensures forall i | |db.assets| <= i < |next.assets| :: rules.assetUrl(next.assets[i].card)
  {
  }

  lemma ProfileAndAssetGood(rules: Rules, db: Db, u: Actor, c: Command, now: int, next: Db)
    requires Good(rules, db) && Lawful(rules) && Apply(rules, db, u, c, now) == Ok(next)
    requires c.UpdateProfile? || c.Upload? || c.SetAssetDeleted? || c.Login?
    ensures Good(rules, next) && Grows(db, next)
  {
    hide ItemsOk, RevisionsOk, RoutesOk;
    if c.UpdateProfile? {
      ProfileRows(rules, db, u, c.id, c.change, now, next);
    } else {
      AssetRows(rules, db, u, c, now, next);
    }
    SideTablesGood(rules, db, db.(profiles := next.profiles, assets := next.assets), now);
  }

  // ----- the invariant over every command -----

  lemma ContentCommandGood(rules: Rules, db: Db, u: Actor, c: Command, now: int, next: Db)
    requires Good(rules, db) && Apply(rules, db, u, c, now) == Ok(next)
    requires !(c.PutTag? || c.PutNoteGroup? || c.UpdateProfile? || c.Upload? || c.SetAssetDeleted? || c.Login?)
    ensures Good(rules, next) && Grows(db, next)
  {
    match c
    case Create(kind) => CreateGood(rules, db, u, kind, now, next);
    case Save(id, input) => SaveGood(rules, db, u, id, input, now, next);
    case Submit(id, version) => SubmitGood(rules, db, u, id, version, now, next);
    case RequestChanges(id, rid, comment) => RequestChangesGood(rules, db, u, id, rid, comment, now, next);
    case Withdraw(id) => WithdrawGood(rules, db, u, id, now, next);
    case PublishReviewed(id, rid, comment) => PublishReviewedGood(rules, db, u, id, rid, comment, now, next);
    case PublishDirect(id, version, dates) => PublishDirectGood(rules, db, u, id, version, dates, now, next);
    case Unpublish(id) => UnpublishGood(rules, db, u, id, now, next);
    case Archive(id) => ArchiveGood(rules, db, u, id, now, next);
    case RestoreArchive(id) => RestoreArchiveGood(rules, db, u, id, now, next);
    case RestoreRevision(id, no, version) => RestoreRevisionGood(rules, db, u, id, no, version, now, next);
  }

  lemma StepGood(rules: Rules, db: Db, u: Actor, c: Command, now: int)
    requires Good(rules, db) && Lawful(rules)
    ensures Good(rules, After(rules, db, u, c, now)) && Grows(db, After(rules, db, u, c, now))
  {
    var change := Apply(rules, db, u, c, now);
    if change.Ok? {
      match c
      case PutTag(id, tag) => PutTagGood(rules, db, u, id, tag, now, change.value);
      case PutNoteGroup(id, group) => PutNoteGroupGood(rules, db, u, id, group, now, change.value);
      case UpdateProfile(_, _) => ProfileAndAssetGood(rules, db, u, c, now, change.value);
      case Upload(_, _) => ProfileAndAssetGood(rules, db, u, c, now, change.value);
      case SetAssetDeleted(_, _) => ProfileAndAssetGood(rules, db, u, c, now, change.value);
      case Login(_) => ProfileAndAssetGood(rules, db, u, c, now, change.value);
      case _ => ContentCommandGood(rules, db, u, c, now, change.value);
    }
  }
}
