/** Which commands are accepted, from whom and in which state, and what they leave: roles, owners and limits spelled out. */
module Acceptance {
  import opened Base
  import opened Text
  import opened Schema
  import opened Ordering
  import opened Policy
  import opened Content
  import opened Workflow
  import opened Editorial
  import opened CommandProofs
  import opened SnapshotMeaning

  // ----- what a draft must look like -----

  ghost predicate FitsPayload(rules: Rules, db: Db, kind: Kind, p: Payload, entries: nat, complete: bool) {
    match kind
    case Post => p == PostPayload
    case Note =>
      && p.NotePayload? && 0 <= p.order <= 1000000
      && if p.groupSlug == "" then !complete else exists g :: g in db.groups && g.slug == p.groupSlug
    case Topic => p.TopicPayload? && 0 <= p.order <= 1000000 && 0 <= p.recommendedCount <= entries
    case CuratedArticle => p.CuratedPayload? && rules.source(p.source, complete)
  }

  ghost predicate FitsRelations(db: Db, id: int, kind: Kind, f: Fields, tags: seq<int>, entries: seq<int>) {
    && 0 < f.byline <= |db.profiles|
    && (f.cover.Some? ==> 0 < f.cover.value <= |db.assets| && db.assets[f.cover.value - 1].deletedAt.None?)
    && |tags| <= 100 && (kind == Topic ==> tags == []) && (forall i, j | 0 <= i < j < |tags| :: tags[i] != tags[j])
    && (forall t | t in tags :: 0 < t <= |db.tags|)
    && |entries| <= 100 && (kind != Topic ==> entries == []) && (forall i, j | 0 <= i < j < |entries| :: entries[i] != entries[j])
    && forall e | e in entries :: e != id && 0 < e <= |db.items| && db.items[e - 1].kind == CuratedArticle
  }

  // Fit to be saved, or fit to be reviewed and published.
  ghost predicate Fits(rules: Rules, db: Db, id: int, kind: Kind, f: Fields, tags: seq<int>, entries: seq<int>, complete: bool) {
    && (ValidSlug(f.slug) || (f.slug == "" && !complete)) && rules.prose(f.prose, complete).None?
    && FitsPayload(rules, db, kind, f.payload, |entries|, complete)
    && (f.english.Some? ==>
          (kind == CuratedArticle || kind == Topic) && rules.english(kind, f.payload, f.english.value, complete).None?)
    && FitsRelations(db, id, kind, f, tags, entries)
  }

  ghost predicate Checked(rules: Rules, db: Db, id: int, kind: Kind, f: Fields, tags: seq<int>, entries: seq<int>, complete: bool) {
    var g := HydrateNote(db.groups, kind, f, complete);
    && g.Ok? && FieldsFault(rules, kind, g.value, complete).None?
    && RelationsFault(db, id, kind, g.value, tags, entries).None?
  }

  lemma GroupsAreValid(rules: Rules, db: Db)
    requires Good(rules, db)
    ensures forall g | g in db.groups :: ValidGroup(g)
  {
  }

  lemma PayloadFits(rules: Rules, db: Db, kind: Kind, f: Fields, entries: nat, complete: bool)
    requires (forall g | g in db.groups :: ValidGroup(g)) && entries <= 100
    ensures var g := HydrateNote(db.groups, kind, f, complete);
      FitsPayload(rules, db, kind, f.payload, entries, complete) <==>
        (g.Ok? && ValidPayload(rules, kind, g.value.payload, complete) && Recommends(kind, g.value.payload, entries))
  {
    hide ValidSlug;
    if kind.Note? && f.payload.NotePayload? {
      var found := FindGroup(db.groups, f.payload.groupSlug);
      if found.Some? {
        assert At(db.groups, found.value) in db.groups;
      } else if exists g :: g in db.groups && g.slug == f.payload.groupSlug {
        assert false;
      }
    }
  }

  lemma RelationsFit(db: Db, id: int, kind: Kind, f: Fields, tags: seq<int>, entries: seq<int>)
    ensures RelationsFault(db, id, kind, f, tags, entries).None?
      <==> FitsRelations(db, id, kind, f, tags, entries) && Recommends(kind, f.payload, |entries|)
    ensures FitsRelations(db, id, kind, f, tags, entries) ==> |entries| <= 100 && 0 < f.byline
    ensures forall g: Fields | g.byline == f.byline && g.cover == f.cover ::
      FitsRelations(db, id, kind, g, tags, entries) <==> FitsRelations(db, id, kind, f, tags, entries)
  {
  }

  // The checks of a save or of a snapshot, whatever order they come in, ask exactly this of the fields.
  lemma ChecksAsk(rules: Rules, db: Db, id: int, kind: Kind, f: Fields, tags: seq<int>, entries: seq<int>, complete: bool)
    requires Good(rules, db)
    ensures Checked(rules, db, id, kind, f, tags, entries, complete) <==> Fits(rules, db, id, kind, f, tags, entries, complete)
  {
    GroupsAreValid(rules, db);
    hide Good, ValidGroup, ValidSlug, FitsRelations, FitsPayload, ValidPayload, RelationsFault;
    var g := HydrateNote(db.groups, kind, f, complete);
    if |entries| <= 100 { PayloadFits(rules, db, kind, f, |entries|, complete); }
    RelationsFit(db, id, kind, f, tags, entries);
    if g.Ok? {
      Hydrated(db.groups, kind, f, complete, g.value);
      RelationsFit(db, id, kind, g.value, tags, entries);
      assert g.value.byline == f.byline && g.value.cover == f.cover && g.value.slug == f.slug && g.value.prose == f.prose;
      assert g.value.english == f.english && (kind != Note ==> g.value == f);
    }
  }

  // ----- what commands share -----

  predicate Stands(db: Db, id: int) {
    0 < id <= |db.items|
  }

  // The writer of an item, or an administrator.
  predicate MayEdit(db: Db, u: Actor, id: int)
    requires Stands(db, id)
  {
    u.active && (u.role == Admin || db.items[id - 1].owner == u.id)
  }

  // Neither archived nor under review.
  predicate Editable(db: Db, id: int)
    requires Stands(db, id)
  {
    db.items[id - 1].archivedAt == None && db.items[id - 1].state != InReview
  }

  // An administrator, or a reviewer who neither owns the item nor is the byline of what is under review.
  predicate MayJudge(db: Db, u: Actor, id: int, rid: int)
    requires Stands(db, id) && 0 < rid <= |db.revisions|
  {
    u.active && (u.role == Admin || (u.role == Reviewer && db.items[id - 1].owner != u.id
                                     && db.revisions[rid - 1].fields.byline != u.id))
  }

  predicate UnderReview(db: Db, id: int, rid: int) {
    Stands(db, id) && 0 < rid <= |db.revisions| && db.items[id - 1].pending == Some(rid)
  }

  predicate PathFree(db: Db, id: int, path: string) {
    path in db.routes ==> db.routes[path].owner == id
  }

  // The path is this item's or nobody's, and a topic recommends what is published.
  predicate Placeable(db: Db, id: int, f: Fields, entries: seq<int>)
    requires Stands(db, id)
  {
    var kind := db.items[id - 1].kind;
    && PathFree(db, id, Address(kind, f.slug, f.payload))
    && (kind == Topic ==> forall e | e in entries ::
          Stands(db, e) && db.items[e - 1].kind == CuratedArticle && db.items[e - 1].published.Some? && db.items[e - 1].archivedAt == None)
  }

  lemma GoodItem(rules: Rules, db: Db, id: int)
    requires Good(rules, db) && Stands(db, id)
    ensures |db.drafts| == |db.items| && ItemOk(db.items[id - 1], id, db.drafts[id - 1], db.revisions, db.reviews)
  {
  }

  lemma GoodRevision(rules: Rules, db: Db, rid: int)
    requires Good(rules, db) && 0 < rid <= |db.revisions|
    ensures RevisionOk(rules, db, db.revisions[rid - 1])
  {
  }

  // Filling in the group twice is filling it in once.
  lemma HydrateTwice(groups: seq<Group>, kind: Kind, f: Fields)
    ensures var once, twice := HydrateNote(groups, kind, f, false), HydrateNote(groups, kind, f, true);
      && (once.Ok? ==> HydrateNote(groups, kind, once.value, true) == twice) && (twice.Ok? ==> once.Ok?)
  {
    hide ValidSlug, FindGroup;
  }

  // A snapshot is taken of the named version of a draft that is fit for review.
  lemma SnapshotAccepted(rules: Rules, db: Db, u: Actor, id: int, version: int, now: int)
    requires Good(rules, db) && Row(db.items, id) && Row(db.drafts, id)
    ensures var d := db.drafts[id - 1];
      TakeSnapshot(rules, db, u, id, version, now).Ok? <==>
        d.version == version && Fits(rules, db, id, db.items[id - 1].kind, d.fields, SortedIds(d.tags), d.entries, true)
  {
    var kind, d := db.items[id - 1].kind, db.drafts[id - 1];
    ChecksAsk(rules, db, id, kind, d.fields, SortedIds(d.tags), d.entries, true);
    hide Good, FieldsFault, HydrateNote;
    HydrateTwice(db.groups, kind, d.fields);
    var twice := HydrateNote(db.groups, kind, d.fields, true);
    if twice.Ok? {
      Hydrated(db.groups, kind, d.fields, true, twice.value);
      RelationsFit(db, id, kind, twice.value, SortedIds(d.tags), d.entries);
    }
  }

  // The row a snapshot adds.
  ghost predicate IsSnapshot(db: Db, r: Revision, u: Actor, id: int, now: int)
    requires Row(db.drafts, id)
  {
    var d := db.drafts[id - 1];
    && r.content == id && r.createdBy == u.id && r.createdAt == now && r.tags == d.tags && r.entries == d.entries
    && r.fields.(payload := d.fields.payload) == d.fields && Unmirrored(r.fields.payload) == Unmirrored(d.fields.payload)
    && (forall k | 0 <= k < |db.revisions| && db.revisions[k].content == id :: db.revisions[k].no < r.no)
    && (r.no == 1 || exists k :: 0 <= k < |db.revisions| && db.revisions[k].content == id && db.revisions[k].no == r.no - 1)
  }

  lemma {:induction false} LastNoIsGreatest(revisions: seq<Revision>, content: int)
    ensures forall k | 0 <= k < |revisions| && revisions[k].content == content :: revisions[k].no <= LastNo(revisions, content)
    ensures LastNo(revisions, content) == 0
      || exists k :: 0 <= k < |revisions| && revisions[k].content == content && revisions[k].no == LastNo(revisions, content)
  {
    if revisions != [] {
      var n := |revisions| - 1;
      LastNoIsGreatest(revisions[..n], content);
      if k :| 0 <= k < n && revisions[..n][k].content == content && revisions[..n][k].no == LastNo(revisions[..n], content) {
        assert revisions[k].content == content;
      }
    }
  }

  lemma SnapshotRow(rules: Rules, db: Db, u: Actor, id: int, version: int, now: int, next: Db)
    requires Row(db.items, id) && Row(db.drafts, id) && TakeSnapshot(rules, db, u, id, version, now) == Ok(next)
    ensures |next.revisions| == |db.revisions| + 1 && next == db.(revisions := db.revisions + [next.revisions[|db.revisions|]])
    ensures IsSnapshot(db, next.revisions[|db.revisions|], u, id, now)
    ensures var r, kind := next.revisions[|db.revisions|], db.items[id - 1].kind;
      CandidatePath(kind, r.fields) == Ok(Address(kind, db.drafts[id - 1].fields.slug, db.drafts[id - 1].fields.payload))
  {
    SnapshotTakes(rules, db, u, id, version, now, next);
    LastNoIsGreatest(db.revisions, id);
    hide RevisionOk, FieldsFault, HydrateNote, RelationsFault, LastNo, ValidSlug;
    var r, d := next.revisions[|db.revisions|], db.drafts[id - 1];
    assert r.fields.(payload := d.fields.payload) == d.fields by { SameMaterialFields(d, r); }
    assert r.createdBy == u.id && r.createdAt == now;
    assert RevisionOk(rules, db, r);
    AddressOf(rules, db, r);
    SameAddress(db.items[id - 1].kind, r.fields, d.fields);
  }

  lemma SameMaterialFields(d: Draft, r: Revision)
    requires SameMaterial(d, r)
    ensures r.fields.(payload := d.fields.payload) == d.fields
  {
    assert d.fields.(payload := PostPayload).(payload := d.fields.payload) == r.fields.(payload := PostPayload).(payload := d.fields.payload);
  }

  lemma SameAddress(kind: Kind, f: Fields, g: Fields)
    requires Unmirrored(f.payload) == Unmirrored(g.payload)
    ensures Address(kind, f.slug, f.payload) == Address(kind, f.slug, g.payload)
  {
  }

  lemma AddressOf(rules: Rules, db: Db, r: Revision)
    requires RevisionOk(rules, db, r)
    ensures var kind := At(db.items, r.content).kind; CandidatePath(kind, r.fields) == Ok(Address(kind, r.fields.slug, r.fields.payload))
  {
    hide FieldsFault, ValidSlug;
  }

  // ----- claiming the path -----

  // The path is the item's canonical one, its other paths redirect, and no other path is touched.
  predicate RoutesClaimed(was: map<string, Route>, next: map<string, Route>, id: int, path: string) {
    && next.Keys == was.Keys + {path} && next[path] == Route(id, Canonical)
    && forall p | p in was && p != path :: next[p] == if was[p].owner == id then Route(id, Redirect) else was[p]
  }

  lemma ClaimAccepted(rules: Rules, db: Db, id: int, rid: int)
    requires Good(rules, db) && Row(db.items, id) && Row(db.revisions, rid) && db.revisions[rid - 1].content == id
    ensures var r := db.revisions[rid - 1];
      && (ClaimRoute(rules, db, id, rid).Ok? <==> Placeable(db, id, r.fields, r.entries))
      && (ClaimRoute(rules, db, id, rid).Ok? ==>
            RoutesClaimed(db.routes, ClaimRoute(rules, db, id, rid).value.routes, id,
                          Address(db.items[id - 1].kind, r.fields.slug, r.fields.payload)))
  {
    hide Good, FieldsFault, HydrateNote, CandidatePath, RevisionOk, Address, Publishable, Claim, Demote, RoutesClaimed;
    var kind, r := db.items[id - 1].kind, db.revisions[rid - 1];
    GoodRevision(rules, db, rid);
    RevisionStillFits(rules, db, r);
    AddressOf(rules, db, r);
    TargetsAre(db, kind, r);
    var path := Address(kind, r.fields.slug, r.fields.payload);
    if PathFree(db, id, path) { ClaimsRoutes(db.routes, id, path); }
  }

  lemma ClaimsRoutes(routes: map<string, Route>, id: int, path: string)
    requires path in routes ==> routes[path].owner == id
    ensures RoutesClaimed(routes, Claim(Demote(routes, id), id, path), id, path)
  {
  }

  lemma TargetsAre(db: Db, kind: Kind, r: Revision)
    ensures forall e :: Publishable(db.items, e) <==>
      Stands(db, e) && db.items[e - 1].kind == CuratedArticle && db.items[e - 1].published.Some? && db.items[e - 1].archivedAt == None
  {
  }

  /** Whatever the tables hold, a path is claimed only for a complete revision, at its address, with its entries counted. */
  lemma ClaimRevalidates(rules: Rules, db: Db, id: int, rid: int)
    requires Row(db.items, id) && Row(db.revisions, rid) && ClaimRoute(rules, db, id, rid).Ok?
    ensures var kind, r := db.items[id - 1].kind, db.revisions[rid - 1];
      && r.fields.byline > 0 && ValidSlug(r.fields.slug) && rules.prose(r.fields.prose, true) == None
      && (kind == Topic ==> r.fields.payload.TopicPayload? && 0 <= r.fields.payload.recommendedCount <= |r.entries|)
      && (kind == Note ==> r.fields.payload.NotePayload? && exists g :: g in db.groups && g.slug == r.fields.payload.groupSlug)
      && (kind == CuratedArticle ==> r.fields.payload.CuratedPayload? && rules.source(r.fields.payload.source, true))
      && Placeable(db, id, r.fields, r.entries)
  {
    var kind, r := db.items[id - 1].kind, db.revisions[rid - 1];
    TargetsAre(db, kind, r);
    hide ValidSlug, Publishable, Claim, Demote;
    if kind.Note? {
      var found := FindGroup(db.groups, r.fields.payload.groupSlug);
      assert At(db.groups, found.value) in db.groups;
    }
  }

  // A stored revision passes the checks again with today's groups.
  lemma RevisionStillFits(rules: Rules, db: Db, r: Revision)
    requires Good(rules, db) && RevisionOk(rules, db, r)
    ensures var kind := At(db.items, r.content).kind; var g := HydrateNote(db.groups, kind, r.fields, true);
      g.Ok? && FieldsFault(rules, kind, g.value, true).None? && Recommends(kind, g.value.payload, |r.entries|)
  {
    GroupsAreValid(rules, db);
    hide Good, ValidSlug;
    var kind := At(db.items, r.content).kind;
    if kind.Note? {
      var found := FindGroup(db.groups, r.fields.payload.groupSlug);
      assert At(db.groups, found.value) in db.groups;
    }
  }

  // ----- reviews -----

  /**
   * A review that publishes is accepted exactly from an administrator or from a reviewer who neither owns the item
   * nor is its byline, for the revision under review, with an acceptable comment and a path that is free.
   */
  lemma ReviewedAccepted(rules: Rules, db: Db, u: Actor, id: int, rid: int, comment: string, now: int)
    requires Good(rules, db)
    ensures DoPublishReviewed(rules, db, u, id, rid, comment, now).Ok? <==>
      UnderReview(db, id, rid) && MayJudge(db, u, id, rid) && rules.comment(comment, false)
      && Placeable(db, id, db.revisions[rid - 1].fields, db.revisions[rid - 1].entries)
  {
    hide Good, ClaimRoute, Placeable, ItemOk, RoutesClaimed, Address;
    if Stands(db, id) {
      PendingIs(rules, db, id);
      if UnderReview(db, id, rid) { ClaimAccepted(rules, db, id, rid); }
    }
  }

  // What is under review is a revision of the item without a decision, and nothing else is.
  lemma PendingIs(rules: Rules, db: Db, id: int)
    requires Good(rules, db) && Stands(db, id)
    ensures |db.drafts| == |db.items|
    ensures var c := db.items[id - 1];
      && (c.state.InReview? <==> c.pending.Some?) && (c.archivedAt.Some? ==> c.pending.None?)
      && (c.pending.Some? ==> Row(db.revisions, c.pending.value) && At(db.revisions, c.pending.value).content == id
                              && c.pending.value !in db.reviews)
  {
    hide Good, SameMaterial;
    GoodItem(rules, db, id);
  }

  /** What it leaves: the item shows the revision, the review is on record, the path is claimed, a build is due. */
  lemma ReviewedLeaves(rules: Rules, db: Db, u: Actor, id: int, rid: int, comment: string, now: int, next: Db)
    requires Good(rules, db) && DoPublishReviewed(rules, db, u, id, rid, comment, now) == Ok(next)
    ensures UnderReview(db, id, rid)
    ensures var c, r := db.items[id - 1], db.revisions[rid - 1];
      && RoutesClaimed(db.routes, next.routes, id, Address(c.kind, r.fields.slug, r.fields.payload))
      && next == db.(
           items := db.items[id - 1 := c.(published := Some(rid), pending := None, state := Synced,
                                          firstPublished := if c.firstPublished == None then Some(now) else c.firstPublished,
                                          lastPublished := Some(now), updatedAt := now)],
           reviews := db.reviews[rid := Review(id, u.id, Approved, comment)], routes := next.routes,
           generation := db.generation + 1, updatedAt := now,
           jobs := db.jobs + [Job(db.generation + 1, Pending, None, None, 0, None, now)])
  {
    hide Good, ClaimRoute, Placeable, ItemOk, CanReview, Reviews, RoutesClaimed, Address;
    GoodItem(rules, db, id);
    assert UnderReview(db, id, rid) && db.revisions[rid - 1].content == id;
    ClaimAccepted(rules, db, id, rid);
  }

  /** Asking for changes is open to the same people, and needs a comment fit to be read. */
  lemma ChangesAccepted(rules: Rules, db: Db, u: Actor, id: int, rid: int, comment: string, now: int)
    requires Good(rules, db)
    ensures DoRequestChanges(rules, db, u, id, rid, comment, now).Ok? <==>
      UnderReview(db, id, rid) && MayJudge(db, u, id, rid) && rules.comment(comment, true)
  {
    if Stands(db, id) { GoodItem(rules, db, id); }
    hide Good, SameMaterial;
  }

  /** Nobody reviews an own item: an otherwise ready review by its owner or its byline is a self review. */
  lemma OwnItemIsNotReviewed(rules: Rules, db: Db, u: Actor, id: int, rid: int, comment: string, now: int)
    requires Good(rules, db) && UnderReview(db, id, rid) && u.active && u.role == Reviewer
    requires db.items[id - 1].owner == u.id || db.revisions[rid - 1].fields.byline == u.id
    ensures DoPublishReviewed(rules, db, u, id, rid, comment, now) == Err(SelfReview)
    ensures DoRequestChanges(rules, db, u, id, rid, comment, now) == Err(SelfReview)
  {
    GoodItem(rules, db, id);
    hide Good, SameMaterial, ClaimRoute;
  }

  /** A submission is withdrawn by its writer or an administrator, while it is under review. */
  lemma WithdrawAccepted(rules: Rules, db: Db, u: Actor, id: int, now: int)
    requires Good(rules, db)
    ensures DoWithdraw(db, u, id, now).Ok? <==> Stands(db, id) && MayEdit(db, u, id) && db.items[id - 1].pending.Some?
  {
    if Stands(db, id) { GoodItem(rules, db, id); }
    hide Good, SameMaterial;
  }

  // ----- writing -----

  /** Anybody active creates; topics are for administrators. */
  lemma CreateAccepted(db: Db, u: Actor, kind: Kind, now: int)
    ensures DoCreate(db, u, kind, now).Ok? <==> u.active && (kind == Topic ==> u.role == Admin)
  {
  }

  /**
   * A save is accepted exactly from someone who may edit the item, while it is editable, for the current version,
   * with fields that fit; the byline and the featured mark are an administrator's to change.
   */
  lemma SaveAccepted(rules: Rules, db: Db, u: Actor, id: int, input: DraftInput, now: int)
    requires Good(rules, db)
    ensures DoSave(rules, db, u, id, input, now).Ok? <==>
      Stands(db, id) && MayEdit(db, u, id) && Editable(db, id) && id <= |db.drafts| && input.version == db.drafts[id - 1].version
      && (db.drafts[id - 1].fields.english.Some? ==> input.fields.english.Some?)
      && (u.role == Admin || (input.fields.byline == u.id && input.fields.featured == db.drafts[id - 1].fields.featured))
      && Fits(rules, db, id, db.items[id - 1].kind, input.fields, input.tags, input.entries, false)
  {
    if Stands(db, id) {
      GoodItem(rules, db, id);
      ChecksAsk(rules, db, id, db.items[id - 1].kind, input.fields, input.tags, input.entries, false);
    }
    hide Good, HydrateNote, FieldsFault, RelationsFault, Fits, SaveDraft, SameMaterial;
  }

  /** A saved item is a draft again if it was in step with its publication, and nothing but its two rows changes. */
  lemma SaveLeaves(rules: Rules, db: Db, u: Actor, id: int, input: DraftInput, now: int, next: Db)
    requires DoSave(rules, db, u, id, input, now) == Ok(next)
    ensures Stands(db, id) && id <= |db.drafts| == |next.drafts|
    ensures var c := db.items[id - 1];
      && next == db.(items := db.items[id - 1 := c.(state := if c.state == Synced then Drafting else c.state, updatedAt := now)],
                     drafts := db.drafts[id - 1 := next.drafts[id - 1]])
  {
    hide HydrateNote, FieldsFault, RelationsFault;
  }

  /** A draft is submitted by someone who may edit it, in the version named, when it is complete and its path is free. */
  lemma SubmitAccepted(rules: Rules, db: Db, u: Actor, id: int, version: int, now: int)
    requires Good(rules, db)
    ensures DoSubmit(rules, db, u, id, version, now).Ok? <==>
      Stands(db, id) && MayEdit(db, u, id) && Submittable(rules, db, id, version)
      && PathFree(db, id, Address(db.items[id - 1].kind, db.drafts[id - 1].fields.slug, db.drafts[id - 1].fields.payload))
  {
    hide Good, TakeSnapshot, Fits, CandidatePath, Address, IsSnapshot, ItemOk;
    if Stands(db, id) {
      GoodItem(rules, db, id);
      SnapshotAccepted(rules, db, u, id, version, now);
      if taken :| TakeSnapshot(rules, db, u, id, version, now) == Ok(taken) {
        SnapshotRow(rules, db, u, id, version, now, taken);
      }
    }
  }

  // An editable draft that is being written, in the version named, and complete.
  ghost predicate Submittable(rules: Rules, db: Db, id: int, version: int)
    requires Stands(db, id)
  {
    && Editable(db, id) && (db.items[id - 1].state == Drafting || db.items[id - 1].state == ChangesRequested)
    && id <= |db.drafts| && db.drafts[id - 1].version == version
    && Fits(rules, db, id, db.items[id - 1].kind, db.drafts[id - 1].fields, SortedIds(db.drafts[id - 1].tags),
            db.drafts[id - 1].entries, true)
  }

  /** A submission leaves the draft's material as the next revision, under review. */
  lemma SubmitLeaves(rules: Rules, db: Db, u: Actor, id: int, version: int, now: int, next: Db)
    requires DoSubmit(rules, db, u, id, version, now) == Ok(next)
    ensures Row(db.items, id) && Row(db.drafts, id) && |next.revisions| == |db.revisions| + 1
    ensures IsSnapshot(db, next.revisions[|db.revisions|], u, id, now)
    ensures next == db.(
      items := db.items[id - 1 := db.items[id - 1].(state := InReview, pending := Some(|db.revisions| + 1), updatedAt := now)],
      revisions := db.revisions + [next.revisions[|db.revisions|]])
  {
    hide TakeSnapshot, CandidatePath, Address, IsSnapshot;
    var taken := TakeSnapshot(rules, db, u, id, version, now).value;
    SnapshotRow(rules, db, u, id, version, now, taken);
  }

  // ----- administration -----

  /** An administrator publishes a complete draft without a review; the dates of an import must be in order. */
  lemma DirectAccepted(rules: Rules, db: Db, u: Actor, id: int, version: int, dates: Option<LegacyDates>, now: int)
    requires Good(rules, db)
    ensures DoPublishDirect(rules, db, u, id, version, dates, now).Ok? <==>
      (dates.Some? ==> 0 <= dates.value.first <= dates.value.last <= now)
      && Stands(db, id) && u.active && u.role == Admin && Submittable(rules, db, id, version)
      && Placeable(db, id, db.drafts[id - 1].fields, db.drafts[id - 1].entries)
  {
    hide Good, TakeSnapshot, ClaimRoute, Fits, Address, Placeable, ItemOk;
    if Stands(db, id) {
      GoodItem(rules, db, id);
      SnapshotAccepted(rules, db, u, id, version, now);
      if taken :| TakeSnapshot(rules, db, u, id, version, now) == Ok(taken) {
        SnapshotPlaces(rules, db, u, id, version, now, taken);
      }
    }
  }

  // The revision of a snapshot goes where its draft would.
  lemma SnapshotPlaces(rules: Rules, db: Db, u: Actor, id: int, version: int, now: int, taken: Db)
    requires Good(rules, db) && Row(db.items, id) && Row(db.drafts, id)
    requires TakeSnapshot(rules, db, u, id, version, now) == Ok(taken)
    ensures ClaimRoute(rules, taken, id, |taken.revisions|).Ok?
      <==> Placeable(db, id, db.drafts[id - 1].fields, db.drafts[id - 1].entries)
  {
    hide Good, TakeSnapshot, ClaimRoute, Address, RoutesClaimed;
    SnapshotRow(rules, db, u, id, version, now, taken);
    SnapshotGood(rules, db, u, id, version, now, taken);
    ClaimAccepted(rules, taken, id, |taken.revisions|);
    SameAddress(db.items[id - 1].kind, taken.revisions[|db.revisions|].fields, db.drafts[id - 1].fields);
  }

  /** Unpublishing, archiving and restoring are for administrators, each from the state it undoes. */
  lemma RetractionsAccepted(rules: Rules, db: Db, u: Actor, id: int, now: int)
    requires Good(rules, db)
    ensures DoUnpublish(db, u, id, now).Ok? <==>
      Stands(db, id) && u.active && u.role == Admin && db.items[id - 1].archivedAt == None && db.items[id - 1].published.Some?
    ensures DoArchive(db, u, id, now).Ok? <==>
      Stands(db, id) && u.active && u.role == Admin && db.items[id - 1].archivedAt == None
    ensures DoRestoreArchive(db, u, id, now).Ok? <==>
      Stands(db, id) && u.active && u.role == Admin && db.items[id - 1].archivedAt.Some?
  {
    if Stands(db, id) { GoodItem(rules, db, id); }
    hide Good, SameMaterial;
  }

  /** An old revision is restored by someone who may edit the item, over the current version of an editable draft. */
  lemma RestoreAccepted(rules: Rules, db: Db, u: Actor, id: int, no: int, version: int, now: int)
    requires Good(rules, db)
    ensures DoRestoreRevision(db, u, id, no, version, now).Ok? <==>
      Stands(db, id) && MayEdit(db, u, id) && Editable(db, id) && id <= |db.drafts| && db.drafts[id - 1].version == version
      && exists k :: 0 <= k < |db.revisions| && db.revisions[k].content == id && db.revisions[k].no == no
                     && (u.role == Admin || db.revisions[k].fields.featured == db.drafts[id - 1].fields.featured)
  {
    if Stands(db, id) {
      GoodItem(rules, db, id);
      var found := FindRevision(db.revisions, id, no);
      FoundRevision(rules, db, id, no);
      if found.Some? {
        GoodRevision(rules, db, found.value);
        RevisionRestores(rules, db, db.revisions[found.value - 1]);
      }
    }
    hide Good, HydrateNote, SaveDraft, SameMaterial, FindRevision, RevisionOk;
  }

  lemma RevisionRestores(rules: Rules, db: Db, r: Revision)
    requires Good(rules, db) && RevisionOk(rules, db, r)
    ensures HydrateNote(db.groups, At(db.items, r.content).kind, r.fields, false).Ok?
    ensures r.fields.cover.Some? ==> Row(db.assets, r.fields.cover.value)
  {
    RevisionStillFits(rules, db, r);
    HydrateTwice(db.groups, At(db.items, r.content).kind, r.fields);
    hide Good, HydrateNote, FieldsFault;
  }

  // The revision a number names, if the item has one of that number.
  lemma FoundRevision(rules: Rules, db: Db, id: int, no: int)
    requires Good(rules, db)
    ensures forall k | 0 <= k < |db.revisions| && db.revisions[k].content == id && db.revisions[k].no == no ::
      FindRevision(db.revisions, id, no) == Some(k + 1)
  {
    hide RevisionOk;
    forall k | 0 <= k < |db.revisions| && db.revisions[k].content == id && db.revisions[k].no == no
      ensures FindRevision(db.revisions, id, no) == Some(k + 1)
    {
      FindsSome(db.revisions, id, no, k);
    }
  }

  lemma {:induction false} FindsSome(revisions: seq<Revision>, id: int, no: int, k: int)
    requires 0 <= k < |revisions| && revisions[k].content == id && revisions[k].no == no
    ensures FindRevision(revisions, id, no).Some?
  {
    var n := |revisions| - 1;
    if k < n { FindsSome(revisions[..n], id, no, k); }
  }

  /** What a direct publication leaves: the draft as a revision, shown at its path, with the dates it was given or now. */
  lemma DirectLeaves(rules: Rules, db: Db, u: Actor, id: int, version: int, dates: Option<LegacyDates>, now: int, next: Db)
    requires Good(rules, db) && DoPublishDirect(rules, db, u, id, version, dates, now) == Ok(next)
    ensures Row(db.items, id) && Row(db.drafts, id) && |next.revisions| == |db.revisions| + 1
    ensures IsSnapshot(db, next.revisions[|db.revisions|], u, id, now)
    ensures var c, f := db.items[id - 1], db.drafts[id - 1].fields;
      && RoutesClaimed(db.routes, next.routes, id, Address(c.kind, f.slug, f.payload))
      && next == db.(
           items := db.items[id - 1 := c.(
             published := Some(|db.revisions| + 1), pending := None, state := Synced,
             firstPublished := if dates.Some? then Some(dates.value.first)
                               else if c.firstPublished == None then Some(now) else c.firstPublished,
             lastPublished := if dates.Some? then Some(dates.value.last) else Some(now),
             updatedAt := if dates.Some? then dates.value.last else now)],
           revisions := db.revisions + [next.revisions[|db.revisions|]], routes := next.routes,
           generation := db.generation + 1, updatedAt := now,
           jobs := db.jobs + [Job(db.generation + 1, Pending, None, None, 0, None, now)])
  {
    hide Good, TakeSnapshot, ClaimRoute, Address, RoutesClaimed, IsSnapshot;
    var taken := TakeSnapshot(rules, db, u, id, version, now).value;
    SnapshotRow(rules, db, u, id, version, now, taken);
    SnapshotGood(rules, db, u, id, version, now, taken);
    SnapshotAddress(rules, db, u, id, version, now, taken);
    ClaimAccepted(rules, taken, id, |taken.revisions|);
    SnapshotPlaces(rules, db, u, id, version, now, taken);
  }

  lemma SnapshotAddress(rules: Rules, db: Db, u: Actor, id: int, version: int, now: int, taken: Db)
    requires Row(db.items, id) && Row(db.drafts, id) && TakeSnapshot(rules, db, u, id, version, now) == Ok(taken)
    ensures |taken.revisions| == |db.revisions| + 1
    ensures var kind, r, f := db.items[id - 1].kind, taken.revisions[|db.revisions|], db.drafts[id - 1].fields;
      r.content == id && Address(kind, r.fields.slug, r.fields.payload) == Address(kind, f.slug, f.payload)
  {
    hide TakeSnapshot, Address;
    SnapshotRow(rules, db, u, id, version, now, taken);
    SameAddress(db.items[id - 1].kind, taken.revisions[|db.revisions|].fields, db.drafts[id - 1].fields);
  }

  // The same tables with one item row rewritten.
  ghost predicate OnlyRow(db: Db, next: Db, id: int, c: Item)
    requires Stands(db, id)
  {
    next == db.(items := db.items[id - 1 := c])
  }

  // The same, one generation further with a build due.
  ghost predicate RowAndBuild(db: Db, next: Db, id: int, c: Item, now: int)
    requires Stands(db, id)
  {
    next == db.(items := db.items[id - 1 := c], generation := db.generation + 1, updatedAt := now,
                jobs := db.jobs + [Job(db.generation + 1, Pending, None, None, 0, None, now)])
  }

  /** A new item is a blank draft at version one, owned by and bylined to its creator. */
  lemma CreateLeaves(db: Db, u: Actor, kind: Kind, now: int, next: Db)
    requires DoCreate(db, u, kind, now) == Ok(next)
    ensures |next.drafts| == |db.drafts| + 1
    ensures var d := next.drafts[|db.drafts|];
      && next == db.(items := db.items + [Item(kind, u.id, Drafting, None, None, None, None, now, None)], drafts := db.drafts + [d])
      && d.version == 1 && d.tags == {} && d.entries == [] && d.fields.prose == Prose("", "", "", "", "", "") && d.fields.slug == ""
      && d.fields.byline == u.id && d.fields.cover == None && !d.fields.featured && d.fields.english == None
      && d.fields.payload == match kind
                             case Post => PostPayload
                             case Note => NotePayload("", 0, Mirror("", "", 0))
                             case Topic => TopicPayload(0, 0)
                             case CuratedArticle => CuratedPayload("")
  {
  }

  /** What the commands on the state of one item leave of its row; all other rows stay. */
  lemma StateLeaves(rules: Rules, db: Db, u: Actor, id: int, rid: int, comment: string, now: int)
    requires Stands(db, id)
    ensures var c := db.items[id - 1];
      && (forall next | DoRequestChanges(rules, db, u, id, rid, comment, now) == Ok(next) ::
            next == db.(items := db.items[id - 1 := c.(state := ChangesRequested, pending := None, updatedAt := now)],
                        reviews := db.reviews[rid := Review(id, u.id, RequestedChanges, comment)]))
      && (forall next | DoWithdraw(db, u, id, now) == Ok(next) ::
            OnlyRow(db, next, id, c.(state := Drafting, pending := None, updatedAt := now)))
      && (forall next | DoRestoreArchive(db, u, id, now) == Ok(next) ::
            OnlyRow(db, next, id, c.(state := Drafting, archivedAt := None, updatedAt := now)))
      && (forall next | DoUnpublish(db, u, id, now) == Ok(next) ::
            RowAndBuild(db, next, id, c.(state := Drafting, published := None, pending := None, updatedAt := now), now))
      && (forall next | DoArchive(db, u, id, now) == Ok(next) ::
            var row := c.(state := Drafting, archivedAt := Some(now), published := None, pending := None, updatedAt := now);
            if c.published.Some? then RowAndBuild(db, next, id, row, now) else OnlyRow(db, next, id, row))
  {
    hide PendingFault, CanReview;
  }

  // ----- refusals -----

  // The first refusal of a command on an item: unknown, not allowed, archived, not in a state for it.
  function Refusal(db: Db, u: Actor, c: Command): Option<Fault>
    requires c.Save? || c.Submit? || c.RestoreRevision? || c.Withdraw? || c.RequestChanges? || c.PublishReviewed?
             || c.PublishDirect? || c.Unpublish? || c.Archive? || c.RestoreArchive?
  {
    if c.id <= 0 || |db.items| < c.id || |db.drafts| < c.id then Some(NotFound)
    else
      var item := db.items[c.id - 1];
      var allowed := u.active && (u.role == Admin
        || ((c.Save? || c.Submit? || c.RestoreRevision? || c.Withdraw?) && item.owner == u.id)
        || ((c.RequestChanges? || c.PublishReviewed?) && u.role == Reviewer));
      if !allowed then Some(Permission)
      else if c.RestoreArchive? then if item.archivedAt == None then Some(EditorialState) else None
      else if item.archivedAt.Some? then Some(ContentArchived)
      else if c.Unpublish? then if item.published == None then Some(NotPublished) else None
      else if c.Archive? then None
      else if c.Withdraw? || c.RequestChanges? || c.PublishReviewed? then
        if item.state != InReview then Some(EditorialState)
        else if !c.Withdraw? && item.pending != Some(c.revision) then Some(ReviewRevision) else None
      else if item.state == InReview then Some(EditorialState)
      else if (c.Submit? || c.PublishDirect?) && item.state == Synced then Some(EditorialState)
      else if c.Save? && c.input.version != db.drafts[c.id - 1].version then Some(ContentVersion)
      else if c.RestoreRevision? && c.version != db.drafts[c.id - 1].version then Some(ContentVersion) else None
  }

  /** A refusal names the first reason, in the order identity, permission, state, version. */
  lemma FirstReason(rules: Rules, db: Db, u: Actor, c: Command, now: int)
    requires c.Save? || c.Submit? || c.RestoreRevision? || c.Withdraw? || c.RequestChanges? || c.PublishReviewed?
             || c.PublishDirect? || c.Unpublish? || c.Archive? || c.RestoreArchive?
    requires c.PublishDirect? && c.dates.Some? ==> 0 <= c.dates.value.first <= c.dates.value.last <= now
    ensures Refusal(db, u, c).Some? ==> Apply(rules, db, u, c, now) == Err(Refusal(db, u, c).value)
  {
    hide TakeSnapshot, ClaimRoute, HydrateNote, FieldsFault, RelationsFault, FindRevision;
  }

  // ----- display mirrors -----

  // A note shows the name, description and order of its stored group, and nothing without one.
  ghost predicate Mirrors(groups: seq<Group>, p: Payload) {
    p.NotePayload? ==>
      if p.groupSlug == "" then p.mirror == Mirror("", "", 0)
      else exists g :: g in groups && g.slug == p.groupSlug && p.mirror == Mirror(g.name, g.description, g.order)
  }

  lemma HydratedMirrors(groups: seq<Group>, f: Fields, complete: bool)
    ensures var g := HydrateNote(groups, Note, f, complete); g.Ok? ==> Mirrors(groups, g.value.payload)
  {
    hide ValidSlug;
    var found := if f.payload.NotePayload? then FindGroup(groups, f.payload.groupSlug) else None;
    if found.Some? { assert At(groups, found.value) in groups; }
  }

  /** Whatever a writer sends, a note is stored with the mirrors of its group as it is now. */
  lemma NotesMirrorTheirGroup(rules: Rules, db: Db, u: Actor, c: Command, now: int, next: Db)
    requires c.Save? || c.RestoreRevision? || c.Submit? || c.PublishDirect?
    requires Apply(rules, db, u, c, now) == Ok(next)
    ensures 0 < c.id <= |db.items| && c.id <= |next.drafts|
    ensures db.items[c.id - 1].kind == Note ==>
      if c.Submit? || c.PublishDirect?
      then |next.revisions| == |db.revisions| + 1 && Mirrors(db.groups, next.revisions[|db.revisions|].fields.payload)
      else Mirrors(db.groups, next.drafts[c.id - 1].fields.payload)
  {
    hide Mirrors, DoSave, DoRestoreRevision, DoSubmit, DoPublishDirect;
    match c
    case Save(id, input) => SaveMirrors(rules, db, u, id, input, now, next);
    case RestoreRevision(id, no, version) => RestoreMirrors(rules, db, u, id, no, version, now, next);
    case Submit(id, version) => SubmitMirrors(rules, db, u, id, version, now, next);
    case PublishDirect(id, version, dates) => DirectMirrors(rules, db, u, id, version, dates, now, next);
  }

  lemma SaveMirrors(rules: Rules, db: Db, u: Actor, id: int, input: DraftInput, now: int, next: Db)
    requires DoSave(rules, db, u, id, input, now) == Ok(next)
    ensures Row(db.items, id) && Row(next.drafts, id)
    ensures db.items[id - 1].kind == Note ==> Mirrors(db.groups, next.drafts[id - 1].fields.payload)
  {
    hide FieldsFault, RelationsFault, HydrateNote, Mirrors;
    HydratedMirrors(db.groups, input.fields, false);
  }

  lemma RestoreMirrors(rules: Rules, db: Db, u: Actor, id: int, no: int, version: int, now: int, next: Db)
    requires DoRestoreRevision(db, u, id, no, version, now) == Ok(next)
    ensures Row(db.items, id) && Row(next.drafts, id)
    ensures db.items[id - 1].kind == Note ==> Mirrors(db.groups, next.drafts[id - 1].fields.payload)
  {
    hide HydrateNote, Mirrors, FindRevision;
    HydratedMirrors(db.groups, At(db.revisions, FindRevision(db.revisions, id, no).value).fields, false);
  }

  lemma SubmitMirrors(rules: Rules, db: Db, u: Actor, id: int, version: int, now: int, next: Db)
    requires DoSubmit(rules, db, u, id, version, now) == Ok(next)
    ensures Row(db.items, id) && Row(next.drafts, id) && |next.revisions| == |db.revisions| + 1
    ensures db.items[id - 1].kind == Note ==> Mirrors(db.groups, next.revisions[|db.revisions|].fields.payload)
  {
    hide TakeSnapshot, CandidatePath, Mirrors;
    SnapshotMirrors(rules, db, u, id, version, now, TakeSnapshot(rules, db, u, id, version, now).value);
  }

  lemma DirectMirrors(rules: Rules, db: Db, u: Actor, id: int, version: int, dates: Option<LegacyDates>, now: int, next: Db)
    requires DoPublishDirect(rules, db, u, id, version, dates, now) == Ok(next)
    ensures Row(db.items, id) && Row(next.drafts, id) && |next.revisions| == |db.revisions| + 1
    ensures db.items[id - 1].kind == Note ==> Mirrors(db.groups, next.revisions[|db.revisions|].fields.payload)
  {
    hide TakeSnapshot, ClaimRoute, Mirrors;
    SnapshotMirrors(rules, db, u, id, version, now, TakeSnapshot(rules, db, u, id, version, now).value);
  }

  lemma SnapshotMirrors(rules: Rules, db: Db, u: Actor, id: int, version: int, now: int, taken: Db)
    requires Row(db.items, id) && Row(db.drafts, id) && TakeSnapshot(rules, db, u, id, version, now) == Ok(taken)
    ensures |taken.revisions| == |db.revisions| + 1 && taken.drafts == db.drafts
    ensures db.items[id - 1].kind == Note ==> Mirrors(db.groups, taken.revisions[|db.revisions|].fields.payload)
  {
    hide FieldsFault, RelationsFault, HydrateNote, Mirrors, LastNo;
    var loaded := HydrateNote(db.groups, db.items[id - 1].kind, db.drafts[id - 1].fields, false).value;
    HydratedMirrors(db.groups, loaded, true);
  }
}
