/** What each editorial, taxonomy, profile and image command does to the database rows. */
module Workflow {
  import opened Base
  import opened Text
  import opened Schema
  import opened Ordering
  import opened Policy
  import opened Content

  type Change = Result<Db, Fault>

  datatype DraftInput = DraftInput(version: int, fields: Fields, tags: seq<int>, entries: seq<int>)

  datatype LegacyDates = LegacyDates(first: int, last: int)

  datatype TagInput = TagInput(name: string, slug: string, description: string,
                               nameEn: string, descriptionEn: string)

  datatype ProfileInput = ProfileInput(displayName: string, bio: string, website: string)

  datatype Command =
    | Create(kind: Kind)
    | Save(id: int, input: DraftInput)
    | Submit(id: int, version: int)
    | RequestChanges(id: int, revision: int, comment: string)
    | Withdraw(id: int)
    | PublishReviewed(id: int, revision: int, comment: string)
    | PublishDirect(id: int, version: int, dates: Option<LegacyDates>)
    | Unpublish(id: int)
    | Archive(id: int)
    | RestoreArchive(id: int)
    | RestoreRevision(id: int, no: int, version: int)
    | PutTag(id: int, tag: TagInput)
    | PutNoteGroup(id: int, group: Group)
    | UpdateProfile(id: int, change: ProfileInput)
    | Upload(sha: string, card: string)
    | SetAssetDeleted(id: int, deleted: bool)
    | Login(profile: Author)

  // Commands that take the publication fence before their transaction opens.
  predicate Fenced(c: Command) {
    || c.PublishReviewed? || c.PublishDirect? || c.Unpublish? || c.Archive?
    || c.PutTag? || c.PutNoteGroup? || c.UpdateProfile?
  }

  // ----- statements -----

  function MarkDirty(db: Db, now: int): Db {
    var g := db.generation + 1;
    db.(generation := g, updatedAt := now, jobs := db.jobs + [Job(g, Pending, None, None, 0, None, now)])
  }

  function PutItem(db: Db, id: int, c: Item): Db
    requires Row(db.items, id)
  {
    db.(items := Set(db.items, id, c))
  }

  // SaveDraft with the relation rows: one version per successful save.
  function SaveDraft(db: Db, id: int, fields: Fields, tags: set<int>, entries: seq<int>): Db
    requires Row(db.drafts, id)
  {
    var d := At(db.drafts, id);
    db.(drafts := Set(db.drafts, id, Draft(d.version + 1, fields, tags, entries)))
  }

  function LastNo(revisions: seq<Revision>, content: int): (no: int)
    ensures no >= 0
  {
    if revisions == [] then 0
    else
      var n := |revisions| - 1;
      var before := LastNo(revisions[..n], content);
      if revisions[n].content == content && revisions[n].no > before then revisions[n].no else before
  }

  function FindRevision(revisions: seq<Revision>, content: int, no: int): (id: Option<int>)
    ensures id.Some? ==> Row(revisions, id.value)
    ensures id.Some? ==> At(revisions, id.value).content == content && At(revisions, id.value).no == no
  {
    if revisions == [] then None
    else
      var n := |revisions| - 1;
      if revisions[n].content == content && revisions[n].no == no then Some(|revisions|)
      else FindRevision(revisions[..n], content, no)
  }

  function Demote(routes: map<string, Route>, id: int): map<string, Route> {
    map p | p in routes :: if routes[p].owner == id then Route(id, Redirect) else routes[p]
  }

  // INSERT ... ON CONFLICT(path) DO UPDATE SET kind = 'canonical'
  function Claim(routes: map<string, Route>, id: int, path: string): map<string, Route> {
    routes[path := if path in routes then routes[path].(kind := Canonical) else Route(id, Canonical)]
  }

  predicate RouteAvailable(routes: map<string, Route>, id: int, path: string) {
    path in routes ==> routes[path].owner == id
  }

  predicate Publishable(items: seq<Item>, id: int) {
    Curated(items, id) && Public(At(items, id))
  }

  // ----- shared steps -----

  function TakeSnapshot(rules: Rules, db: Db, u: Actor, id: int, version: int, now: int): (r: Result<Db, Fault>)
    requires Row(db.items, id) && Row(db.drafts, id)
    ensures r.Ok? ==> r.value.items == db.items && |r.value.revisions| == |db.revisions| + 1
  {
    var kind, d := At(db.items, id).kind, At(db.drafts, id);
    :- Need(d.fields.cover.Some? ==> Row(db.assets, d.fields.cover.value), Unavailable);
    var loaded :- HydrateNote(db.groups, kind, d.fields, false);
    :- Need(d.version == version, ContentVersion);
    var f :- HydrateNote(db.groups, kind, loaded, true);
    :- Absent(FieldsFault(rules, kind, f, true));
    :- Absent(RelationsFault(db, id, kind, f, SortedIds(d.tags), d.entries));
    var r := Revision(id, LastNo(db.revisions, id) + 1, f, d.tags, d.entries, u.id, now);
    Ok(db.(revisions := db.revisions + [r]))
  }

  function ClaimRoute(rules: Rules, db: Db, id: int, rid: int): (r: Result<Db, Fault>)
    requires Row(db.items, id) && Row(db.revisions, rid)
    ensures r.Ok? ==> r.value == db.(routes := r.value.routes)
  {
    var kind, r := At(db.items, id).kind, At(db.revisions, rid);
    var f :- HydrateNote(db.groups, kind, r.fields, true);
    :- Absent(FieldsFault(rules, kind, f, true));
    var path :- CandidatePath(kind, r.fields);
    :- Need(RouteAvailable(db.routes, id, path), RouteConflict);
    :- Need(Recommends(kind, f.payload, |r.entries|), PayloadFault);
    :- Need(kind.Topic? ==> forall e | e in r.entries :: Publishable(db.items, e), TopicTarget);
    Ok(db.(routes := Claim(Demote(db.routes, id), id, path)))
  }

  function PublishRevision(c: Item, rid: int, now: int): Item {
    c.(published := Some(rid), pending := None, state := Synced,
       firstPublished := if c.firstPublished.Some? then c.firstPublished else Some(now),
       lastPublished := Some(now), updatedAt := now)
  }

  function PendingFault(db: Db, id: int, rid: int): Option<Fault>
    requires Row(db.items, id)
  {
    var c := At(db.items, id);
    if c.archivedAt.Some? then Some(ContentArchived)
    else if !c.state.InReview? then Some(EditorialState)
    else if c.pending != Some(rid) || rid <= 0 then Some(ReviewRevision)
    else if !Row(db.revisions, rid) || At(db.revisions, rid).content != id then Some(NotFound)
    else None
  }

  function MutableFault(c: Item): Option<Fault> {
    if c.archivedAt.Some? then Some(ContentArchived)
    else if c.state.InReview? then Some(EditorialState)
    else None
  }

  predicate Stored(db: Db, id: int) {
    Row(db.items, id) && Row(db.drafts, id)
  }

  // ----- content commands -----

  function DoCreate(db: Db, u: Actor, kind: Kind, now: int): Change {
    var fields := Fields(BLANK, "", u.id, None, false, None, InitialPayload(kind));
    :- Need(CanCreate(u, kind), Permission);
    Ok(db.(items := db.items + [Item(kind, u.id, Drafting, None, None, None, None, now, None)],
           drafts := db.drafts + [Draft(1, fields, {}, [])]))
  }

  function DoSave(rules: Rules, db: Db, u: Actor, id: int, input: DraftInput, now: int): Change {
    var stored := Stored(db, id);
    :- Need(stored, NotFound);
    var c, d := At(db.items, id), At(db.drafts, id);
    :- Need(CanEdit(u, c), Permission);
    :- Absent(MutableFault(c));
    :- Need(input.version == d.version, ContentVersion);
    :- Need(input.fields.english.None? ==> d.fields.english.None?, Validation);
    :- Need(CanSetByline(u, input.fields.byline) && CanSetFeatured(u, d.fields.featured, input.fields.featured), Permission);
    var f :- HydrateNote(db.groups, c.kind, input.fields, false);
    :- Absent(FieldsFault(rules, c.kind, f, false));
    :- Absent(RelationsFault(db, id, c.kind, f, input.tags, input.entries));
    var saved := SaveDraft(db, id, f, (set t | t in input.tags), input.entries);
    Ok(PutItem(saved, id, c.(state := if c.state.Synced? then Drafting else c.state, updatedAt := now)))
  }

  function DoSubmit(rules: Rules, db: Db, u: Actor, id: int, version: int, now: int): Change {
    var stored := Stored(db, id);
    :- Need(stored, NotFound);
    var c := At(db.items, id);
    :- Need(CanEdit(u, c), Permission);
    :- Absent(MutableFault(c));
    :- Need(c.state.Drafting? || c.state.ChangesRequested?, EditorialState);
    var next :- TakeSnapshot(rules, db, u, id, version, now);
    var rid := |next.revisions|;
    var path :- CandidatePath(c.kind, At(next.revisions, rid).fields);
    :- Need(RouteAvailable(db.routes, id, path), RouteConflict);
    Ok(PutItem(next, id, c.(state := InReview, pending := Some(rid), updatedAt := now)))
  }

  function DoRequestChanges(rules: Rules, db: Db, u: Actor, id: int, rid: int, comment: string, now: int): Change {
    var stored := Stored(db, id);
    :- Need(stored, NotFound);
    var c := At(db.items, id);
    :- Need(Reviews(u), Permission);
    :- Absent(PendingFault(db, id, rid));
    :- Need(CanReview(u, c, At(db.revisions, rid)), SelfReview);
    :- Need(rules.comment(comment, true), Markdown);
    :- Need(rid !in db.reviews, Unavailable);
    var reviewed := db.(reviews := db.reviews[rid := Review(id, u.id, RequestedChanges, comment)]);
    Ok(PutItem(reviewed, id, c.(state := ChangesRequested, pending := None, updatedAt := now)))
  }

  function DoWithdraw(db: Db, u: Actor, id: int, now: int): Change {
    var stored := Stored(db, id);
    :- Need(stored, NotFound);
    var c := At(db.items, id);
    :- Need(CanEdit(u, c), Permission);
    :- Absent(PendingFault(db, id, if c.pending.Some? then c.pending.value else 0));
    Ok(PutItem(db, id, c.(state := Drafting, pending := None, updatedAt := now)))
  }

  function DoPublishReviewed(rules: Rules, db: Db, u: Actor, id: int, rid: int, comment: string, now: int): Change {
    var stored := Stored(db, id);
    :- Need(stored, NotFound);
    var c := At(db.items, id);
    :- Need(Reviews(u), Permission);
    :- Absent(PendingFault(db, id, rid));
    :- Need(CanReview(u, c, At(db.revisions, rid)), SelfReview);
    :- Need(rules.comment(comment, false), Markdown);
    var routed :- ClaimRoute(rules, db, id, rid);
    :- Need(rid !in db.reviews, Unavailable);
    var reviewed := routed.(reviews := routed.reviews[rid := Review(id, u.id, Approved, comment)]);
    Ok(MarkDirty(PutItem(reviewed, id, PublishRevision(c, rid, now)), now))
  }

  function DoPublishDirect(rules: Rules, db: Db, u: Actor, id: int, version: int,
                           dates: Option<LegacyDates>, now: int): Change
  {
    hide TakeSnapshot, ClaimRoute;
    var inOrder := dates.Some? ==> 0 <= dates.value.first <= dates.value.last <= now;
    :- Need(inOrder, Validation);
    :- Need(Stored(db, id), NotFound);
    var c := At(db.items, id);
    :- Need(Administers(u), Permission);
    :- Absent(MutableFault(c));
    :- Need(c.state.Drafting? || c.state.ChangesRequested?, EditorialState);
    var next :- TakeSnapshot(rules, db, u, id, version, now);
    var rid := |next.revisions|;
    var routed :- ClaimRoute(rules, next, id, rid);
    var p := PublishRevision(c, rid, now);
    var dated := match dates
      case None => p
      case Some(t) => p.(firstPublished := Some(t.first), lastPublished := Some(t.last), updatedAt := t.last);
    Ok(MarkDirty(PutItem(routed, id, dated), now))
  }

  function DoUnpublish(db: Db, u: Actor, id: int, now: int): Change {
    var stored := Stored(db, id);
    :- Need(stored, NotFound);
    var c := At(db.items, id);
    :- Need(Administers(u), Permission);
    :- Need(c.archivedAt.None?, ContentArchived);
    :- Need(c.published.Some?, NotPublished);
    Ok(MarkDirty(PutItem(db, id, c.(published := None, pending := None, state := Drafting, updatedAt := now)), now))
  }

  function DoArchive(db: Db, u: Actor, id: int, now: int): Change {
    var stored := Stored(db, id);
    :- Need(stored, NotFound);
    var c := At(db.items, id);
    :- Need(Administers(u), Permission);
    :- Need(c.archivedAt.None?, ContentArchived);
    var next := PutItem(db, id, c.(archivedAt := Some(now), published := None, pending := None,
                                   state := Drafting, updatedAt := now));
    Ok(if c.published.Some? then MarkDirty(next, now) else next)
  }

  function DoRestoreArchive(db: Db, u: Actor, id: int, now: int): Change {
    var stored := Stored(db, id);
    :- Need(stored, NotFound);
    var c := At(db.items, id);
    :- Need(Administers(u), Permission);
    :- Need(c.archivedAt.Some?, EditorialState);
    Ok(PutItem(db, id, c.(archivedAt := None, state := Drafting, updatedAt := now)))
  }

  function DoRestoreRevision(db: Db, u: Actor, id: int, no: int, version: int, now: int): Change {
    var stored := Stored(db, id);
    :- Need(stored, NotFound);
    var c, d := At(db.items, id), At(db.drafts, id);
    :- Need(CanEdit(u, c), Permission);
    :- Absent(MutableFault(c));
    :- Need(d.version == version, ContentVersion);
    var found := FindRevision(db.revisions, id, no);
    :- Need(found.Some?, NotFound);
    var r := At(db.revisions, found.value);
    :- Need(r.fields.cover.Some? ==> Row(db.assets, r.fields.cover.value), Unavailable);
    :- Need(CanSetFeatured(u, d.fields.featured, r.fields.featured), Permission);
    var f :- HydrateNote(db.groups, c.kind, r.fields, false);
    var saved := SaveDraft(db, id, f, r.tags, r.entries);
    Ok(PutItem(saved, id, c.(state := Drafting, pending := None, updatedAt := now)))
  }

  // ----- taxonomy, profiles, images, identities -----

  predicate PublishedUsesTag(db: Db, tag: int) {
    exists i | 0 <= i < |db.items| ::
      Public(db.items[i]) && Row(db.revisions, db.items[i].published.value)
      && tag in At(db.revisions, db.items[i].published.value).tags
  }

  predicate PublishedUsesGroup(db: Db, slug: string) {
    exists i | 0 <= i < |db.items| ::
      db.items[i].kind.Note? && Public(db.items[i]) && Row(db.revisions, db.items[i].published.value)
      && At(db.revisions, db.items[i].published.value).content == i + 1
      && At(db.revisions, db.items[i].published.value).fields.payload.NotePayload?
      && At(db.revisions, db.items[i].published.value).fields.payload.groupSlug == slug
  }

  predicate PublishedUsesByline(db: Db, user: int) {
    exists i | 0 <= i < |db.items| ::
      Public(db.items[i]) && Row(db.revisions, db.items[i].published.value)
      && At(db.revisions, db.items[i].published.value).content == i + 1
      && At(db.revisions, db.items[i].published.value).fields.byline == user
  }

  function Normalize(rules: Rules, s: string): (t: string)
    ensures |t| == |s|
  {
    seq(|s|, i requires 0 <= i < |s| => rules.lower(s[i]))
  }

  // The row a tag input is stored as, with its English columns in the translation table.
  function TagRow(rules: Rules, input: TagInput): Tag {
    var name, nameEn := Collapse(input.name), Trim(input.nameEn);
    Tag(name, Normalize(rules, name), input.slug, input.description,
        if nameEn == "" then None else Some(Translation(nameEn, input.descriptionEn)))
  }

  function DoPutTag(rules: Rules, db: Db, u: Actor, id: int, input: TagInput, now: int): Change {
    var allowed := Administers(u);
    :- Need(allowed, Permission);
    :- Need(id >= 0 && Bounded(input.name, 100) && Bounded(input.description, 1000) && ValidSlug(input.slug)
            && Bounded(input.nameEn, 100) && Bounded(input.descriptionEn, 1000), Validation);
    :- Need(Trim(input.nameEn) != "" || input.descriptionEn == "", Validation);
    var tag := TagRow(rules, input);
    :- Need(tag.normalized != "", Validation);
    :- Need(id > 0 ==> Row(db.tags, id), NotFound);
    :- Need(id > 0 ==> At(db.tags, id).slug == tag.slug, TaxonomySlug);
    :- Need(forall i | 0 <= i < |db.tags| && i + 1 != id ::
              db.tags[i].normalized != tag.normalized && db.tags[i].slug != tag.slug, TagConflict);
    var next := db.(tags := PutRow(db.tags, id, tag));
    Ok(if id > 0 && PublishedUsesTag(next, id) then MarkDirty(next, now) else next)
  }

  function GroupRow(input: Group): Group {
    input.(name := Trim(input.name), nameEn := Trim(input.nameEn))
  }

  // Creates for id = 0; an existing slug is permanent.
  function PutRow<T>(table: seq<T>, id: int, row: T): (t: seq<T>)
    requires id > 0 ==> Row(table, id)
    ensures |t| == if id > 0 then |table| else |table| + 1
  {
    if id > 0 then Set(table, id, row) else table + [row]
  }

  function DoPutNoteGroup(db: Db, u: Actor, id: int, input: Group, now: int): Change {
    var allowed := Administers(u);
    :- Need(allowed, Permission);
    :- Need(id >= 0 && ValidGroup(input), Validation);
    :- Need(id > 0 ==> Row(db.groups, id), NotFound);
    :- Need(id > 0 ==> At(db.groups, id).slug == input.slug, TaxonomySlug);
    var existing := FindGroup(db.groups, input.slug);
    :- Need(existing.Some? ==> existing.value == id, GroupConflict);
    var next := db.(groups := PutRow(db.groups, id, GroupRow(input)));
    Ok(if PublishedUsesGroup(next, input.slug) then MarkDirty(next, now) else next)
  }

  function DoUpdateProfile(rules: Rules, db: Db, u: Actor, id: int, input: ProfileInput, now: int): Change {
    var name := Trim(input.displayName);
    :- Need(name != "" && Bounded(name, 100) && Utf8Length(input.bio) <= 10000 && rules.markdown(input.bio)
            && (input.website != "" ==> rules.website(input.website)), Validation);
    :- Need(u.active && (id == u.id || u.role.Admin?), Permission);
    :- Need(Row(db.profiles, id), NotFound);
    var p := At(db.profiles, id).(displayName := name, bio := input.bio, website := input.website);
    var next := db.(profiles := Set(db.profiles, id, p));
    Ok(if PublishedUsesByline(next, id) then MarkDirty(next, now) else next)
  }

  // The row an upload adds once the inspected bytes are stored; equal bytes share one row.
  function DoUpload(rules: Rules, db: Db, u: Actor, sha: string, card: string): Change {
    var allowed := u.active;
    :- Need(allowed, Permission);
    :- Need(rules.assetUrl(card), AssetInvalid);
    :- Need(forall i | 0 <= i < |db.assets| && db.assets[i].sha == sha :: db.assets[i].deletedAt.None?, AssetDeleted);
    Ok(if exists i | 0 <= i < |db.assets| :: db.assets[i].sha == sha then db
       else db.(assets := db.assets + [Asset(sha, card, None)]))
  }

  function DoSetAssetDeleted(db: Db, u: Actor, id: int, deleted: bool, now: int): Change {
    var allowed := Administers(u);
    :- Need(allowed, Permission);
    :- Need(Row(db.assets, id), NotFound);
    var a := At(db.assets, id);
    Ok(if a.deletedAt.Some? == deleted then db
       else db.(assets := Set(db.assets, id, a.(deletedAt := if deleted then Some(now) else None))))
  }

  // A first login stores the profile that carries the new user's bylines.
  function DoLogin(db: Db, profile: Author): Change {
    Ok(db.(profiles := db.profiles + [profile.(bio := "", website := "")]))
  }

  function Apply(rules: Rules, db: Db, u: Actor, c: Command, now: int): Change {
    match c
    case Create(kind) => DoCreate(db, u, kind, now)
    case Save(id, input) => DoSave(rules, db, u, id, input, now)
    case Submit(id, version) => DoSubmit(rules, db, u, id, version, now)
    case RequestChanges(id, rid, comment) => DoRequestChanges(rules, db, u, id, rid, comment, now)
    case Withdraw(id) => DoWithdraw(db, u, id, now)
    case PublishReviewed(id, rid, comment) => DoPublishReviewed(rules, db, u, id, rid, comment, now)
    case PublishDirect(id, version, dates) => DoPublishDirect(rules, db, u, id, version, dates, now)
    case Unpublish(id) => DoUnpublish(db, u, id, now)
    case Archive(id) => DoArchive(db, u, id, now)
    case RestoreArchive(id) => DoRestoreArchive(db, u, id, now)
    case RestoreRevision(id, no, version) => DoRestoreRevision(db, u, id, no, version, now)
    case PutTag(id, tag) => DoPutTag(rules, db, u, id, tag, now)
    case PutNoteGroup(id, group) => DoPutNoteGroup(db, u, id, group, now)
    case UpdateProfile(id, profile) => DoUpdateProfile(rules, db, u, id, profile, now)
    case Upload(sha, card) => DoUpload(rules, db, u, sha, card)
    case SetAssetDeleted(id, deleted) => DoSetAssetDeleted(db, u, id, deleted, now)
    case Login(profile) => DoLogin(db, profile)
  }

  // A refused command leaves every row as it was: the transaction rolls back.
  function After(rules: Rules, db: Db, u: Actor, c: Command, now: int): Db {
    match Apply(rules, db, u, c, now)
    case Ok(next) => next
    case Err(_) => db
  }
}
