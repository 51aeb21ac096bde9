/** The import itself: images, texts, groups, tags and items, each through the commands of the CMS. */
module LegacyApply {
  import opened Base
  import opened Text
  import opened Schema
  import opened Policy
  import opened Content
  import opened Workflow
  import opened Editorial
  import opened CommandProofs
  import opened Ordering
  import opened Splice
  import opened LegacyImport

  // A downloaded and inspected image.
  datatype Image = Image(sha: string, card: string, address: string, size: nat)

  const BATCH_LIMIT := 134217728

  datatype Ending =
    | Rejected(issue: Issue) | ImageRefused | BatchTooLarge | TextRefusal(refusal: Refusal) | GroupConflicts
    | TagMissing | TopicOrderInvalid | ServiceRefused(fault: Fault) | Imported

  // What an import knows of an item: its rewritten text and the identifiers of its tags and targets.
  datatype Resolved = Resolved(body: string, tags: seq<int>, targets: seq<int>)

  // Only existing rows grow, and the whole editorial invariant holds.
  ghost predicate Kept(c: Context, db: Db) {
    Good(c.rules, db) && Grows(c.db, db)
  }

  lemma KeptStep(c: Context, db: Db, command: Command, next: Db)
    requires Kept(c, db) && Lawful(c.rules) && Workflow.Apply(c.rules, db, c.user, command, c.now) == Ok(next)
    ensures Kept(c, next)
  {
    hide Good, Grows, Workflow.Apply;
    StepGood(c.rules, db, c.user, command, c.now);
    GrowsTransitive(c.db, db, next);
  }

  // ----- images -----

  function TotalSize(images: seq<string>, inspect: string -> Option<Image>): nat {
    if images == [] then 0
    else
      var last := inspect(images[|images| - 1]);
      TotalSize(images[..|images| - 1], inspect) + if last.Some? then last.value.size else 0
  }

  predicate Storable(c: Context, image: Option<Image>) {
    && image.Some? && c.rules.assetUrl(image.value.card)
    && forall k | 0 <= k < |c.db.assets| && c.db.assets[k].sha == image.value.sha :: c.db.assets[k].deletedAt.None?
  }

  ghost predicate AllStorable(plan: Plan, c: Context, inspect: string -> Option<Image>) {
    forall i | 0 <= i < |plan.images| :: Storable(c, inspect(plan.images[i]))
  }

  ghost predicate Addressed(plan: Plan, inspect: string -> Option<Image>, replacements: map<string, string>) {
    && (forall url :: url in replacements <==> url in plan.images)
    && forall url | url in replacements :: inspect(url).Some? && inspect(url).value.address == replacements[url]
  }

  predicate Downloadable(plan: Plan, inspect: string -> Option<Image>) {
    (forall i | 0 <= i < |plan.images| :: inspect(plan.images[i]).Some?) && TotalSize(plan.images, inspect) <= BATCH_LIMIT
  }

  // Every image is downloaded and inspected before the first is stored.
  method Download(plan: Plan, inspect: string -> Option<Image>) returns (stop: Option<Ending>)
    ensures stop.None? <==> Downloadable(plan, inspect)
    ensures stop.Some? ==> stop.value == ImageRefused || stop.value == BatchTooLarge
  {
    var total := 0;
    for i := 0 to |plan.images|
      invariant forall k | 0 <= k < i :: inspect(plan.images[k]).Some?
      invariant total == TotalSize(plan.images[..i], inspect) && total <= BATCH_LIMIT
    {
      assert plan.images[..i + 1][..i] == plan.images[..i];
      var image := inspect(plan.images[i]);
      if image.None? { return Some(ImageRefused); }
      total := total + image.value.size;
      if total > BATCH_LIMIT {
        SizesGrow(plan.images, inspect, i + 1);
        return Some(BatchTooLarge);
      }
    }
    assert plan.images[..|plan.images|] == plan.images;
    return None;
  }

  lemma {:induction false} SizesGrow(images: seq<string>, inspect: string -> Option<Image>, n: nat)
    requires n <= |images|
    ensures TotalSize(images[..n], inspect) <= TotalSize(images, inspect)
    decreases |images|
  {
    if n == |images| {
      assert images[..n] == images;
    } else {
      var before := images[..|images| - 1];
      SizesGrow(before, inspect, n);
      assert before[..n] == images[..n];
    }
  }

  // A row stored by an upload is not deleted.
  lemma UploadAccepted(c: Context, db: Db, image: Option<Image>)
    requires c.user.active && image.Some?
    requires forall k | 0 <= k < |db.assets| && k >= |c.db.assets| :: db.assets[k].deletedAt.None?
    requires c.db.assets <= db.assets
    ensures DoUpload(c.rules, db, c.user, image.value.sha, image.value.card).Ok? <==> Storable(c, image)
    ensures DoUpload(c.rules, db, c.user, image.value.sha, image.value.card) != Err(RouteConflict)
  {
    var sha := image.value.sha;
    if Storable(c, image) {
      forall k | 0 <= k < |db.assets| && db.assets[k].sha == sha
        ensures db.assets[k].deletedAt.None?
      {
        if k < |c.db.assets| { assert c.db.assets[k] == db.assets[k]; }
      }
    }
    forall k | 0 <= k < |c.db.assets|
      ensures db.assets[k] == c.db.assets[k]
    {
    }
  }

  method StoreImages(plan: Plan, c: Context, inspect: string -> Option<Image>)
    returns (fault: Option<Fault>, db: Db, replacements: map<string, string>)
    requires Good(c.rules, c.db) && Lawful(c.rules) && c.user.active
    requires Downloadable(plan, inspect)
    ensures fault != Some(RouteConflict)
    ensures fault.None? <==> AllStorable(plan, c, inspect)
    ensures Kept(c, db) && db == c.db.(assets := db.assets)
    ensures fault.None? ==> Addressed(plan, inspect, replacements)
  {
    hide Good, Grows, Storable;
    GrowsItself(c.db);
    db, replacements := c.db, map[];
    for i := 0 to |plan.images|
      invariant Kept(c, db) && db == c.db.(assets := db.assets) && c.db.assets <= db.assets
      invariant forall k | |c.db.assets| <= k < |db.assets| :: db.assets[k].deletedAt.None?
      invariant forall k | 0 <= k < i :: Storable(c, inspect(plan.images[k]))
      invariant forall url :: url in replacements <==> exists k :: 0 <= k < i && plan.images[k] == url
      invariant forall url | url in replacements :: inspect(url).Some? && inspect(url).value.address == replacements[url]
    {
      var image := inspect(plan.images[i]);
      UploadAccepted(c, db, image);
      var command := Upload(image.value.sha, image.value.card);
      var change := Workflow.Apply(c.rules, db, c.user, command, c.now);
      if change.Err? { return Some(change.error), db, replacements; }
      KeptStep(c, db, command, change.value);
      db := change.value;
      replacements := replacements[plan.images[i] := image.value.address];
    }
    return None, db, replacements;
  }

  lemma GrowsItself(db: Db)
    ensures Grows(db, db)
  {
  }

  // ----- note groups -----

  // The stored group is the one the note describes, its name perhaps trimmed.
  predicate GroupStored(db: Db, slug: string, mirror: Mirror) {
    var id := FindGroup(db.groups, slug);
    && id.Some?
    && var g := At(db.groups, id.value);
       && (g.name == mirror.name || g.name == Trim(mirror.name)) && g.description == mirror.description
       && g.order == mirror.order
  }

  predicate SameGroup(a: Db, b: Db, slug: string) {
    var id := FindGroup(a.groups, slug);
    FindGroup(b.groups, slug) == id && (id.Some? ==> Row(b.groups, id.value) && At(b.groups, id.value) == At(a.groups, id.value))
  }

  function GroupInput(p: Payload): Group
    requires p.NotePayload?
  {
    Group(p.groupSlug, p.mirror.name, p.mirror.description, "", "", p.mirror.order)
  }

  // Publishable fields of a note describe a valid group.
  lemma NoteDescribesGroup(rules: Rules, item: PlanItem)
    requires item.kind.Note? && PathOf(rules, item).Ok?
    ensures item.fields.payload.NotePayload? && ValidGroup(GroupInput(item.fields.payload))
  {
  }

  lemma GroupAccepted(c: Context, db: Db, p: Payload)
    requires Administers(c.user) && p.NotePayload? && ValidGroup(GroupInput(p)) && FindGroup(db.groups, p.groupSlug).None?
    ensures var change := DoPutNoteGroup(db, c.user, 0, GroupInput(p), c.now);
      && change.Ok? && change.value.groups == db.groups + [GroupRow(GroupInput(p))]
      && change.value.tags == db.tags && change.value.items == db.items && change.value.profiles == db.profiles
      && change.value.routes == db.routes
  {
    hide PublishedUsesGroup, ValidGroup, Trim;
  }

  lemma GroupAdded(db: Db, next: Db, g: Group)
    requires next.groups == db.groups + [g]
    ensures FindGroup(next.groups, g.slug) == Some(|next.groups|) && At(next.groups, |next.groups|) == g
    ensures forall slug | slug != g.slug :: SameGroup(db, next, slug)
  {
    forall slug | slug != g.slug
      ensures SameGroup(db, next, slug)
    {
      assert next.groups[..|db.groups|] == db.groups;
    }
  }

  // Tables the groups do not touch.
  ghost predicate GroupsOnly(a: Db, b: Db) {
    b.tags == a.tags && b.items == a.items && b.profiles == a.profiles && b.routes == a.routes
  }

  // Every group the notes describe is stored, or was stored alike; neither conflict nor refusal is left.
  method StoreGroups(plan: Plan, c: Context, start: Db) returns (stop: Option<Ending>, db: Db)
    requires Sound(plan, c) && Kept(c, start) && Lawful(c.rules) && start.groups == c.db.groups
    ensures stop.None? && Kept(c, db) && GroupsOnly(start, db)
    ensures forall i | 0 <= i < |plan.items| && plan.items[i].kind.Note? && plan.items[i].fields.payload.NotePayload? ::
      GroupStored(db, plan.items[i].fields.payload.groupSlug, plan.items[i].fields.payload.mirror)
  {
    hide Sound, Good, Grows, PathOf, ValidGroup, FindGroup, Trim, DoPutNoteGroup;
    db := start;
    var done: set<string> := {};
    for i := 0 to |plan.items|
      invariant Kept(c, db) && GroupsOnly(start, db)
      invariant forall slug | slug !in done :: SameGroup(c.db, db, slug)
      invariant forall slug :: slug in done <==> exists j :: 0 <= j < i && NamesGroup(plan.items[j], slug)
      invariant forall j | 0 <= j < i && plan.items[j].kind.Note? && plan.items[j].fields.payload.NotePayload? ::
        GroupStored(db, plan.items[j].fields.payload.groupSlug, plan.items[j].fields.payload.mirror)
    {
      var item := plan.items[i];
      if item.kind.Note? {
        NoteFacts(plan, c, i);
        var p := item.fields.payload;
        if p.groupSlug !in done {
          var stored := FindGroup(db.groups, p.groupSlug);
          if stored.None? {
            var command := PutNoteGroup(0, GroupInput(p));
            GroupAccepted(c, db, p);
            match Workflow.Apply(c.rules, db, c.user, command, c.now) {
              case Err(fault) => return Some(ServiceRefused(fault)), db;
              case Ok(next) =>
                KeptStep(c, db, command, next);
                GroupAdded(db, next, GroupRow(GroupInput(p)));
                OthersStored(plan, db, next, i, p.groupSlug);
                OthersSame(c.db, db, next, done, p.groupSlug);
                db := next;
            }
          } else {
            var g := At(db.groups, stored.value);
            if Mirror(g.name, g.description, g.order) != p.mirror { return Some(GroupConflicts), db; }
          }
          done := done + {p.groupSlug};
        }
      }
    }
    stop := None;
  }

  lemma NoteFacts(plan: Plan, c: Context, i: nat)
    requires Sound(plan, c) && i < |plan.items| && plan.items[i].kind.Note?
    ensures Administers(c.user)
    ensures plan.items[i].fields.payload.NotePayload? && ValidGroup(GroupInput(plan.items[i].fields.payload))
    ensures GroupAgrees(c.db, plan.items, i)
  {
    hide PathOf, IdentityOk, PlaceFree, TargetsSound, TagsSound, TagIsNew, TagFree, ValidGroup;
    assert ItemSound(plan, c, i);
    NoteDescribesGroup(c.rules, plan.items[i]);
  }

  lemma OthersStored(plan: Plan, db: Db, next: Db, i: nat, slug: string)
    requires i <= |plan.items| && forall other | other != slug :: SameGroup(db, next, other)
    requires forall j | 0 <= j < i :: !NamesGroup(plan.items[j], slug)
    requires forall j | 0 <= j < i && plan.items[j].kind.Note? && plan.items[j].fields.payload.NotePayload? ::
      GroupStored(db, plan.items[j].fields.payload.groupSlug, plan.items[j].fields.payload.mirror)
    ensures forall j | 0 <= j < i && plan.items[j].kind.Note? && plan.items[j].fields.payload.NotePayload? ::
      GroupStored(next, plan.items[j].fields.payload.groupSlug, plan.items[j].fields.payload.mirror)
  {
    hide FindGroup;
    forall j | 0 <= j < i && plan.items[j].kind.Note? && plan.items[j].fields.payload.NotePayload?
      ensures GroupStored(next, plan.items[j].fields.payload.groupSlug, plan.items[j].fields.payload.mirror)
    {
      assert !NamesGroup(plan.items[j], slug);
      assert SameGroup(db, next, plan.items[j].fields.payload.groupSlug);
    }
  }

  lemma OthersSame(a: Db, db: Db, next: Db, done: set<string>, slug: string)
    requires forall other | other !in done :: SameGroup(a, db, other)
    requires forall other | other != slug :: SameGroup(db, next, other)
    ensures forall other | other !in done + {slug} :: SameGroup(a, next, other)
  {
    hide FindGroup;
    forall other | other !in done + {slug}
      ensures SameGroup(a, next, other)
    {
      assert SameGroup(a, db, other) && SameGroup(db, next, other);
    }
  }

  // ----- tags -----

  predicate TagAcceptable(rules: Rules, tag: TagInput) {
    && Bounded(tag.name, 100) && Bounded(tag.description, 1000) && ValidSlug(tag.slug)
    && Bounded(tag.nameEn, 100) && Bounded(tag.descriptionEn, 1000)
    && (Trim(tag.nameEn) != "" || tag.descriptionEn == "")
  }

  // tags maps the slugs of the first n tags to the rows they were stored in.
  ghost predicate TagIds(plan: Plan, c: Context, tags: map<string, int>, n: nat)
    requires n <= |plan.tags|
  {
    && (forall slug :: slug in tags <==> exists m :: 0 <= m < n && plan.tags[m].slug == slug)
    && forall m | 0 <= m < n :: tags[plan.tags[m].slug] == |c.db.tags| + 1 + m
  }

  lemma TagAccepted(plan: Plan, c: Context, n: nat, db: Db)
    requires Sound(plan, c) && n < |plan.tags| && db.tags == TagsAfter(plan, c, n)
    ensures var change := DoPutTag(c.rules, db, c.user, 0, plan.tags[n], c.now);
      && (change.Ok? <==> TagAcceptable(c.rules, plan.tags[n]))
      && (change.Ok? ==> change.value == db.(tags := TagsAfter(plan, c, n + 1)))
      && (change.Err? ==> change.error == Validation)
  {
    TagsDoNotConflict(plan, c, n, db);
    TagHasName(plan, c, n);
    hide Sound, Normalize, Collapse, Trim, ValidSlug;
  }

  lemma TagHasName(plan: Plan, c: Context, n: nat)
    requires Sound(plan, c) && n < |plan.tags|
    ensures Administers(c.user) && TagRow(c.rules, plan.tags[n]).normalized != ""
  {
    hide ItemSound, TargetsSound, TagsSound, Normalize, Collapse, Trim;
    assert TagIsNew(c.rules, plan.tags, n);
  }

  // The tags are stored in order; only an unacceptable one is refused.
  method StoreTags(plan: Plan, c: Context, start: Db) returns (stop: Option<Ending>, db: Db, tags: map<string, int>)
    requires Sound(plan, c) && Kept(c, start) && Lawful(c.rules) && start.tags == c.db.tags
    ensures stop.None? <==> forall i | 0 <= i < |plan.tags| :: TagAcceptable(c.rules, plan.tags[i])
    ensures stop.Some? ==> stop.value == ServiceRefused(Validation)
    ensures stop.None? ==> TagIds(plan, c, tags, |plan.tags|)
    ensures stop.None? ==> Kept(c, db) && db == start.(tags := TagsAfter(plan, c, |plan.tags|))
  {
    hide Sound, Kept, DoPutTag, TagAcceptable, TagsAfter, TagIds;
    db, tags := start, map[];
    NoTagYet(plan, c);
    for i := 0 to |plan.tags|
      invariant Kept(c, db) && db == start.(tags := TagsAfter(plan, c, i)) && TagIds(plan, c, tags, i)
      invariant forall k | 0 <= k < i :: TagAcceptable(c.rules, plan.tags[k])
    {
      var command := PutTag(0, plan.tags[i]);
      TagAccepted(plan, c, i, db);
      var change := Workflow.Apply(c.rules, db, c.user, command, c.now);
      if change.Err? { return Some(ServiceRefused(change.error)), db, tags; }
      KeptStep(c, db, command, change.value);
      AddTag(plan, c, tags, i);
      db := change.value;
      tags := tags[plan.tags[i].slug := |db.tags|];
    }
    stop := None;
  }

  lemma NoTagYet(plan: Plan, c: Context)
    ensures TagsAfter(plan, c, 0) == c.db.tags && TagIds(plan, c, map[], 0)
  {
  }

  lemma {:induction false} TableSize(plan: Plan, c: Context, n: nat)
    requires n <= |plan.tags|
    ensures |TagsAfter(plan, c, n)| == |c.db.tags| + n
  {
    hide TagRow;
    if n > 0 { TableSize(plan, c, n - 1); }
  }

  lemma AddTag(plan: Plan, c: Context, tags: map<string, int>, i: nat)
    requires Sound(plan, c) && i < |plan.tags| && TagIds(plan, c, tags, i)
    ensures TagIds(plan, c, tags[plan.tags[i].slug := |TagsAfter(plan, c, i + 1)|], i + 1)
  {
    hide Sound, TagsAfter;
    TableSize(plan, c, i + 1);
    SlugIsNew(plan, c, i);
  }

  lemma SlugIsNew(plan: Plan, c: Context, i: nat)
    requires Sound(plan, c) && i < |plan.tags|
    ensures forall j | 0 <= j < i :: plan.tags[j].slug != plan.tags[i].slug
  {
    hide ItemSound, TargetsSound, TagsSound, NormalName, TagFree;
    assert TagIsNew(c.rules, plan.tags, i);
  }

  // ----- one item: create, save, publish -----

  function Rewritten(item: PlanItem, body: string): Fields {
    item.fields.(prose := item.fields.prose.(body := body))
  }

  function InputOf(item: PlanItem, res: Resolved): DraftInput {
    DraftInput(1, Rewritten(item, res.body), res.tags, res.targets)
  }

  function DatesOf(item: PlanItem): Option<LegacyDates> {
    if item.first.Some? && item.last.Some? then Some(LegacyDates(item.first.value, item.last.value)) else None
  }

  // A revision with the planned fields, the rewritten text, and the resolved tags and targets.
  ghost predicate IsMaterial(r: Revision, item: PlanItem, res: Resolved) {
    && r.fields.(payload := PostPayload) == Rewritten(item, res.body).(payload := PostPayload)
    && Unmirrored(r.fields.payload) == Unmirrored(item.fields.payload)
    && (forall t :: t in r.tags <==> t in res.tags) && r.entries == res.targets
  }

  // The item is public as planned, in the row its place in the plan gives it, with the planned dates.
  ghost predicate ItemStored(plan: Plan, c: Context, db: Db, i: nat, res: Resolved)
    requires i < |plan.items|
  {
    var id, item := |c.db.items| + 1 + i, plan.items[i];
    && Row(db.items, id)
    && var row := At(db.items, id);
       && row.kind == item.kind && Public(row) && Row(db.revisions, row.published.value)
       && At(db.revisions, row.published.value).content == id && IsMaterial(At(db.revisions, row.published.value), item, res)
       && (row.firstPublished, row.lastPublished)
            == match DatesOf(item)
               case None => (Some(c.now), Some(c.now))
               case Some(d) => (Some(d.first), Some(d.last))
  }

  lemma CreatedRow(db: Db, u: Actor, kind: Kind, now: int, next: Db)
    requires DoCreate(db, u, kind, now) == Ok(next)
    ensures next.items == db.items + [Item(kind, u.id, Drafting, None, None, None, None, now, None)]
    ensures |next.drafts| == |db.drafts| + 1 && next == db.(items := next.items, drafts := next.drafts)
  {
  }

  lemma SavedRow(rules: Rules, db: Db, u: Actor, id: int, input: DraftInput, now: int, next: Db)
    requires DoSave(rules, db, u, id, input, now) == Ok(next)
    ensures Row(db.items, id) && Row(db.drafts, id) && next == db.(items := next.items, drafts := next.drafts)
    ensures |next.drafts| == |db.drafts| && At(next.drafts, id).version == input.version + 1
    ensures next.items == Set(db.items, id, At(next.items, id))
    ensures At(next.items, id) == At(db.items, id).(state := At(next.items, id).state, updatedAt := now)
    ensures var d := At(next.drafts, id);
      && Unmirrored(d.fields.payload) == Unmirrored(input.fields.payload)
      && d.fields.(payload := PostPayload) == input.fields.(payload := PostPayload)
      && d.entries == input.entries && forall t :: t in d.tags <==> t in input.tags
  {
    hide FieldsFault, RelationsFault;
  }

  lemma PublishedRow(rules: Rules, db: Db, u: Actor, id: int, version: int, dates: Option<LegacyDates>, now: int, next: Db)
    requires DoPublishDirect(rules, db, u, id, version, dates, now) == Ok(next)
    ensures Row(db.items, id) && Row(db.drafts, id) && next.items == Set(db.items, id, At(next.items, id))
    ensures next.drafts == db.drafts && next.tags == db.tags && next.groups == db.groups && next.profiles == db.profiles
    ensures db.revisions <= next.revisions && |next.revisions| == |db.revisions| + 1
    ensures var row, r := At(next.items, id), next.revisions[|db.revisions|];
      && row.kind == At(db.items, id).kind && Public(row) && row.published == Some(|db.revisions| + 1)
      && r.content == id && SameMaterial(At(db.drafts, id), r)
      && forall p | p in next.routes :: p in db.routes || Ok(p) == CandidatePath(row.kind, r.fields)
  {
    hide TakeSnapshot, FieldsFault, CandidatePath, HydrateNote, DoPublishDirect;
    var taken, path := DirectShape(rules, db, u, id, version, dates, now, next);
    SnapshotTakes(rules, db, u, id, version, now, taken);
  }

  lemma PublishedDates(rules: Rules, db: Db, u: Actor, id: int, version: int, dates: Option<LegacyDates>, now: int, next: Db)
    requires DoPublishDirect(rules, db, u, id, version, dates, now) == Ok(next)
    requires Row(db.items, id) && At(db.items, id).firstPublished.None?
    ensures Row(next.items, id)
    ensures (At(next.items, id).firstPublished, At(next.items, id).lastPublished)
      == match dates
         case None => (Some(now), Some(now))
         case Some(d) => (Some(d.first), Some(d.last))
  {
    hide TakeSnapshot, ClaimRoute;
  }

  // What an import leaves alone while it adds items.
  ghost predicate Adds(a: Db, b: Db) {
    && a.items <= b.items && a.revisions <= b.revisions && |b.drafts| - |b.items| == |a.drafts| - |a.items|
    && b.tags == a.tags && b.groups == a.groups && b.profiles == a.profiles
  }

  lemma StoredNow(plan: Plan, c: Context, i: nat, res: Resolved, db: Db, db1: Db, db2: Db, db3: Db)
    requires i < |plan.items| && |db.items| == |db.drafts| == |c.db.items| + i
    requires DoCreate(db, c.user, plan.items[i].kind, c.now) == Ok(db1)
    requires DoSave(c.rules, db1, c.user, |db.items| + 1, InputOf(plan.items[i], res), c.now) == Ok(db2)
    requires DoPublishDirect(c.rules, db2, c.user, |db.items| + 1, 2, DatesOf(plan.items[i]), c.now) == Ok(db3)
    ensures ItemStored(plan, c, db3, i, res) && Adds(db, db3) && |db3.items| == |db.items| + 1
    ensures forall p | p in db3.routes ::
      p in db.routes || Ok(p) == CandidatePath(plan.items[i].kind, Rewritten(plan.items[i], res.body))
  {
    hide DoCreate, DoSave, DoPublishDirect;
    var id, item := |db.items| + 1, plan.items[i];
    CreatedRow(db, c.user, item.kind, c.now, db1);
    SavedRow(c.rules, db1, c.user, id, InputOf(item, res), c.now, db2);
    PublishedRow(c.rules, db2, c.user, id, 2, DatesOf(item), c.now, db3);
    PublishedDates(c.rules, db2, c.user, id, 2, DatesOf(item), c.now, db3);
    var r := db3.revisions[|db2.revisions|];
    assert IsMaterial(r, item, res);
    SamePath(item.kind, r.fields, Rewritten(item, res.body));
  }

  // The path of an item depends on its slug and group only.
  lemma SamePath(kind: Kind, f: Fields, g: Fields)
    requires f.slug == g.slug && Unmirrored(f.payload) == Unmirrored(g.payload)
    ensures CandidatePath(kind, f) == CandidatePath(kind, g)
  {
    hide ValidSlug;
    assert f.payload.NotePayload? <==> g.payload.NotePayload?;
  }

  lemma StillStored(plan: Plan, c: Context, i: nat, res: Resolved, db: Db, next: Db)
    requires i < |plan.items| && ItemStored(plan, c, db, i, res) && Adds(db, next)
    ensures ItemStored(plan, c, next, i, res)
  {
    hide IsMaterial;
  }

  // ----- path conflicts -----

  // No textual rule reports a path conflict.
  ghost predicate NoPathFaults(rules: Rules) {
    && (forall p, complete :: rules.prose(p, complete) != Some(RouteConflict))
    && (forall kind, p, e, complete :: rules.english(kind, p, e, complete) != Some(RouteConflict))
  }

  // Every path is an earlier one of the database or of an item before number n.
  ghost predicate PathsKnown(plan: Plan, c: Context, routes: map<string, Route>, n: nat) {
    forall p | p in routes :: p in c.db.routes || exists j :: 0 <= j < n && j < |plan.items| && PathOf(c.rules, plan.items[j]) == Ok(p)
  }

  lemma FieldsNameNoPath(rules: Rules, kind: Kind, f: Fields, complete: bool)
    requires NoPathFaults(rules)
    ensures FieldsFault(rules, kind, f, complete) != Some(RouteConflict)
  {
    hide ValidPayload, ValidSlug;
  }

  lemma SaveNamesNoPath(rules: Rules, db: Db, u: Actor, id: int, input: DraftInput, now: int)
    requires NoPathFaults(rules)
    ensures DoSave(rules, db, u, id, input, now) != Err(RouteConflict)
  {
    forall kind, f
      ensures FieldsFault(rules, kind, f, false) != Some(RouteConflict)
    {
      FieldsNameNoPath(rules, kind, f, false);
    }
    hide FieldsFault, NoPathFaults, ValidTags, ValidEntries;
  }

  lemma HydrationNamesNoPath(groups: seq<Group>, kind: Kind, f: Fields, complete: bool)
    ensures HydrateNote(groups, kind, f, complete) != Err(RouteConflict)
  {
    hide FindGroup, ValidSlug;
  }

  lemma RelationsNameNoPath(db: Db, id: int, kind: Kind, f: Fields, tags: seq<int>, entries: seq<int>)
    ensures RelationsFault(db, id, kind, f, tags, entries) != Some(RouteConflict)
  {
    hide ValidTags, ValidEntries;
  }

  lemma SnapshotNamesNoPath(rules: Rules, db: Db, u: Actor, id: int, version: int, now: int)
    requires NoPathFaults(rules) && Row(db.items, id) && Row(db.drafts, id)
    ensures TakeSnapshot(rules, db, u, id, version, now) != Err(RouteConflict)
  {
    hide FieldsFault, NoPathFaults, RelationsFault, HydrateNote, SortedIds;
    var kind, d := At(db.items, id).kind, At(db.drafts, id);
    HydrationNamesNoPath(db.groups, kind, d.fields, false);
    var loaded := HydrateNote(db.groups, kind, d.fields, false);
    if loaded.Ok? {
      HydrationNamesNoPath(db.groups, kind, loaded.value, true);
      var f := HydrateNote(db.groups, kind, loaded.value, true);
      if f.Ok? {
        FieldsNameNoPath(rules, kind, f.value, true);
        RelationsNameNoPath(db, id, kind, f.value, SortedIds(d.tags), d.entries);
      }
    }
  }

  // Of a publication only a path owned by other content is a path conflict.
  lemma ClaimNamesPath(rules: Rules, db: Db, id: int, rid: int)
    requires NoPathFaults(rules) && Row(db.items, id) && Row(db.revisions, rid)
    requires var path := CandidatePath(At(db.items, id).kind, At(db.revisions, rid).fields);
      path.Ok? ==> RouteAvailable(db.routes, id, path.value)
    ensures ClaimRoute(rules, db, id, rid) != Err(RouteConflict)
  {
    forall kind, f
      ensures FieldsFault(rules, kind, f, true) != Some(RouteConflict)
    {
      FieldsNameNoPath(rules, kind, f, true);
    }
    hide FieldsFault, NoPathFaults;
  }

  lemma DirectNamesPath(rules: Rules, db: Db, u: Actor, id: int, version: int, dates: Option<LegacyDates>, now: int)
    requires NoPathFaults(rules) && Row(db.items, id) && Row(db.drafts, id)
    requires var path := CandidatePath(At(db.items, id).kind, At(db.drafts, id).fields);
      path.Ok? ==> RouteAvailable(db.routes, id, path.value)
    ensures DoPublishDirect(rules, db, u, id, version, dates, now) != Err(RouteConflict)
  {
    hide TakeSnapshot, ClaimRoute, CandidatePath, NoPathFaults;
    SnapshotNamesNoPath(rules, db, u, id, version, now);
    var taken := TakeSnapshot(rules, db, u, id, version, now);
    if taken.Ok? {
      SnapshotTakes(rules, db, u, id, version, now, taken.value);
      var rid := |taken.value.revisions|;
      SamePath(At(db.items, id).kind, At(taken.value.revisions, rid).fields, At(db.drafts, id).fields);
      ClaimNamesPath(rules, taken.value, id, rid);
    }
  }

  lemma ItemNamesNoPath(plan: Plan, c: Context, i: nat, res: Resolved, db: Db, db1: Db, db2: Db)
    requires Sound(plan, c) && NoPathFaults(c.rules) && PathsKnown(plan, c, db.routes, i)
    requires i < |plan.items| && |db.items| == |db.drafts|
    requires DoCreate(db, c.user, plan.items[i].kind, c.now) == Ok(db1)
    requires DoSave(c.rules, db1, c.user, |db.items| + 1, InputOf(plan.items[i], res), c.now) == Ok(db2)
    ensures DoPublishDirect(c.rules, db2, c.user, |db.items| + 1, 2, DatesOf(plan.items[i]), c.now) != Err(RouteConflict)
  {
    hide Sound, DoCreate, DoSave, DoPublishDirect, NoPathFaults, CandidatePath;
    var id, item := |db.items| + 1, plan.items[i];
    CreatedRow(db, c.user, item.kind, c.now, db1);
    SavedRow(c.rules, db1, c.user, id, InputOf(item, res), c.now, db2);
    PathsDoNotConflict(plan, c, i, db.routes, id, res.body);
    SamePath(item.kind, At(db2.drafts, id).fields, Rewritten(item, res.body));
    DirectNamesPath(c.rules, db2, c.user, id, 2, DatesOf(item), c.now);
  }

  lemma PathsStayKnown(plan: Plan, c: Context, i: nat, body: string, routes: map<string, Route>, next: map<string, Route>)
    requires Sound(plan, c) && i < |plan.items| && PathsKnown(plan, c, routes, i)
    requires forall p | p in next :: p in routes || Ok(p) == CandidatePath(plan.items[i].kind, Rewritten(plan.items[i], body))
    ensures PathsKnown(plan, c, next, i + 1)
  {
    hide FieldsFault, TargetsSound, TagsSound, TagIsNew, TagFree, PlaceFree, GroupAgrees, EditsOk, CandidatePath;
    assert ItemSound(plan, c, i);
    var f := plan.items[i].fields;
    SamePath(plan.items[i].kind, f.(prose := f.prose.(body := "")), Rewritten(plan.items[i], body));
  }

  // ----- references -----

  function Lookup(ids: map<string, int>, key: string): int {
    if key in ids then ids[key] else 0
  }

  predicate Looked(ids: map<string, int>, names: seq<string>, found: seq<int>) {
    |found| == |names| && forall k | 0 <= k < |names| :: found[k] == Lookup(ids, names[k])
  }

  // Resolve a list of names, or stop at the first that has no identifier.
  method ResolveAll(ids: map<string, int>, names: seq<string>) returns (ok: bool, found: seq<int>)
    ensures ok <==> forall k | 0 <= k < |names| :: Lookup(ids, names[k]) != 0
    ensures ok ==> Looked(ids, names, found)
  {
    found := [];
    for k := 0 to |names|
      invariant |found| == k && forall m | 0 <= m < k :: found[m] == Lookup(ids, names[m]) && found[m] != 0
    {
      var id := Lookup(ids, names[k]);
      if id == 0 { return false, found; }
      found := found + [id];
    }
    return true, found;
  }

  // id is the row of the planned tag of this slug.
  ghost predicate NamesTag(plan: Plan, c: Context, slug: string, id: int) {
    exists m :: 0 <= m < |plan.tags| && plan.tags[m].slug == slug && id == |c.db.tags| + 1 + m
  }

  // id is the row of the earlier article of this key.
  ghost predicate NamesArticle(plan: Plan, c: Context, i: int, key: string, id: int) {
    exists j :: 0 <= j < i && j < |plan.items| && plan.items[j].key == key && plan.items[j].kind.CuratedArticle?
                && id == |c.db.items| + 1 + j
  }

  // Tags and targets are the rows of the planned names, in order and each once.
  ghost predicate ResolvedWell(plan: Plan, c: Context, i: int, res: Resolved)
    requires 0 <= i < |plan.items|
  {
    && |res.tags| == |plan.items[i].tagSlugs| && Distinct(res.tags)
    && (forall k | 0 <= k < |res.tags| :: NamesTag(plan, c, plan.items[i].tagSlugs[k], res.tags[k]))
    && |res.targets| == |plan.items[i].targetKeys| && Distinct(res.targets)
    && forall k | 0 <= k < |res.targets| :: NamesArticle(plan, c, i, plan.items[i].targetKeys[k], res.targets[k])
  }

  // created maps the keys of the first n items to the rows they were stored in.
  ghost predicate ItemIds(plan: Plan, c: Context, created: map<string, int>, n: nat)
    requires n <= |plan.items|
  {
    forall k | 0 <= k < n :: plan.items[k].key in created && created[plan.items[k].key] == |c.db.items| + 1 + k
  }

  lemma TagsKnown(plan: Plan, c: Context, tags: map<string, int>, i: nat)
    requires Sound(plan, c) && TagIds(plan, c, tags, |plan.tags|) && i < |plan.items|
    ensures forall k | 0 <= k < |plan.items[i].tagSlugs| :: Lookup(tags, plan.items[i].tagSlugs[k]) != 0
    ensures forall k | 0 <= k < |plan.items[i].tagSlugs| ::
      NamesTag(plan, c, plan.items[i].tagSlugs[k], Lookup(tags, plan.items[i].tagSlugs[k]))
  {
    hide ItemSound, TargetsSound, TagIsNew, TagFree;
    var slugs := plan.items[i].tagSlugs;
    assert TagsSound(plan.items[i], Slugs(plan.tags));
    forall k | 0 <= k < |slugs|
      ensures Lookup(tags, slugs[k]) != 0 && NamesTag(plan, c, slugs[k], Lookup(tags, slugs[k]))
    {
      assert slugs[k] in Slugs(plan.tags);
      var m :| 0 <= m < |plan.tags| && plan.tags[m].slug == slugs[k];
      assert tags[plan.tags[m].slug] == |c.db.tags| + 1 + m;
    }
  }

  lemma TargetsKnown(plan: Plan, c: Context, created: map<string, int>, i: nat)
    requires Sound(plan, c) && i < |plan.items| && ItemIds(plan, c, created, i)
    ensures forall k | 0 <= k < |plan.items[i].targetKeys| :: Lookup(created, plan.items[i].targetKeys[k]) != 0
    ensures forall k | 0 <= k < |plan.items[i].targetKeys| ::
      NamesArticle(plan, c, i, plan.items[i].targetKeys[k], Lookup(created, plan.items[i].targetKeys[k]))
  {
    hide ItemSound, TagsSound, TagIsNew, TagFree;
    var keys := plan.items[i].targetKeys;
    assert TargetsSound(plan.items, i);
    forall k | 0 <= k < |keys|
      ensures Lookup(created, keys[k]) != 0 && NamesArticle(plan, c, i, keys[k], Lookup(created, keys[k]))
    {
      assert EarlierArticle(plan.items, i, keys[k]);
      var j :| 0 <= j < i && j < |plan.items| && plan.items[j].key == keys[k] && plan.items[j].kind.CuratedArticle?;
      assert created[plan.items[j].key] == |c.db.items| + 1 + j;
    }
  }

  // Distinct names have distinct rows.
  lemma NamesApart(plan: Plan, c: Context, i: nat, res: Resolved)
    requires Sound(plan, c) && i < |plan.items|
    requires |res.tags| == |plan.items[i].tagSlugs| && |res.targets| == |plan.items[i].targetKeys|
    requires forall k | 0 <= k < |res.tags| :: NamesTag(plan, c, plan.items[i].tagSlugs[k], res.tags[k])
    requires forall k | 0 <= k < |res.targets| :: NamesArticle(plan, c, i, plan.items[i].targetKeys[k], res.targets[k])
    ensures ResolvedWell(plan, c, i, res)
  {
    hide ItemSound, TagIsNew, TagFree, NamesTag, NamesArticle;
    assert TagsSound(plan.items[i], Slugs(plan.tags)) && TargetsSound(plan.items, i);
    forall j, k | 0 <= j < k < |res.tags|
      ensures res.tags[j] != res.tags[k]
    {
      TwoTags(plan, c, plan.items[i].tagSlugs[j], plan.items[i].tagSlugs[k], res.tags[j], res.tags[k]);
    }
    forall j, k | 0 <= j < k < |res.targets|
      ensures res.targets[j] != res.targets[k]
    {
      TwoArticles(plan, c, i, plan.items[i].targetKeys[j], plan.items[i].targetKeys[k], res.targets[j], res.targets[k]);
    }
  }

  lemma TwoTags(plan: Plan, c: Context, a: string, b: string, x: int, y: int)
    requires a != b && NamesTag(plan, c, a, x) && NamesTag(plan, c, b, y)
    ensures x != y
  {
  }

  lemma TwoArticles(plan: Plan, c: Context, i: nat, a: string, b: string, x: int, y: int)
    requires a != b && NamesArticle(plan, c, i, a, x) && NamesArticle(plan, c, i, b, y)
    ensures x != y
  {
  }

  // ----- the loop over the items -----

  // The first n items are stored as planned.
  ghost predicate StoredUpTo(plan: Plan, c: Context, db: Db, inputs: seq<Resolved>, n: nat)
    requires n <= |plan.items|
  {
    && |inputs| == n && |db.items| == |db.drafts| == |c.db.items| + n
    && forall i | 0 <= i < n :: ResolvedWell(plan, c, i, inputs[i]) && ItemStored(plan, c, db, i, inputs[i])
  }

  lemma NextStored(plan: Plan, c: Context, db: Db, inputs: seq<Resolved>, i: nat, next: Db, res: Resolved)
    requires i < |plan.items| && StoredUpTo(plan, c, db, inputs, i) && Adds(db, next) && |next.items| == |db.items| + 1
    requires ResolvedWell(plan, c, i, res) && ItemStored(plan, c, next, i, res)
    ensures StoredUpTo(plan, c, next, inputs + [res], i + 1)
  {
    hide ResolvedWell, ItemStored;
    forall k | 0 <= k < i
      ensures ResolvedWell(plan, c, k, inputs[k]) && ItemStored(plan, c, next, k, inputs[k])
    {
      StillStored(plan, c, k, inputs[k], db, next);
    }
  }

  lemma NextId(plan: Plan, c: Context, created: map<string, int>, i: nat)
    requires Sound(plan, c) && i < |plan.items| && ItemIds(plan, c, created, i)
    ensures ItemIds(plan, c, created[plan.items[i].key := |c.db.items| + 1 + i], i + 1)
  {
    hide TargetsSound, TagsSound, TagIsNew, TagFree, PathOf, PlaceFree, GroupAgrees, EditsOk;
    assert ItemSound(plan, c, i);
  }

  lemma DraftCount(c: Context, db: Db)
    requires Good(c.rules, db)
    ensures |db.drafts| == |db.items|
  {
  }

  // Create, save and publish one item; a refusal of any of the three ends the import.
  method StoreItem(plan: Plan, c: Context, db: Db, i: nat, res: Resolved) returns (stop: Option<Ending>, next: Db)
    requires Sound(plan, c) && Kept(c, db) && Lawful(c.rules) && i < |plan.items|
    requires |db.items| == |db.drafts| == |c.db.items| + i && PathsKnown(plan, c, db.routes, i)
    ensures stop.Some? ==> stop.value.ServiceRefused?
    ensures NoPathFaults(c.rules) && stop.Some? ==> stop.value.fault != RouteConflict
    ensures stop.None? ==>
      && Kept(c, next) && Adds(db, next) && |next.items| == |db.items| + 1 && ItemStored(plan, c, next, i, res)
      && PathsKnown(plan, c, next.routes, i + 1)
  {
    hide Sound, Kept, DoCreate, DoSave, DoPublishDirect, PathsKnown, ItemStored, Adds, NoPathFaults;
    var id, item := |db.items| + 1, plan.items[i];
    next := db;
    var create, save, publish := Create(item.kind), Save(id, InputOf(item, res)), PublishDirect(id, 2, DatesOf(item));
    var created := Workflow.Apply(c.rules, db, c.user, create, c.now);
    if created.Err? {
      CreateNamesNoPath(db, c.user, item.kind, c.now);
      return Some(ServiceRefused(created.error)), db;
    }
    var saved := Workflow.Apply(c.rules, created.value, c.user, save, c.now);
    if saved.Err? {
      if NoPathFaults(c.rules) { SaveNamesNoPath(c.rules, created.value, c.user, id, InputOf(item, res), c.now); }
      return Some(ServiceRefused(saved.error)), db;
    }
    var published := Workflow.Apply(c.rules, saved.value, c.user, publish, c.now);
    if published.Err? {
      if NoPathFaults(c.rules) { ItemNamesNoPath(plan, c, i, res, db, created.value, saved.value); }
      return Some(ServiceRefused(published.error)), db;
    }
    KeptStep(c, db, create, created.value);
    KeptStep(c, created.value, save, saved.value);
    KeptStep(c, saved.value, publish, published.value);
    StoredNow(plan, c, i, res, db, created.value, saved.value, published.value);
    PathsStayKnown(plan, c, i, res.body, db.routes, published.value.routes);
    return None, published.value;
  }

  lemma CreateNamesNoPath(db: Db, u: Actor, kind: Kind, now: int)
    ensures DoCreate(db, u, kind, now) != Err(RouteConflict)
  {
  }

  // Everything an import that ran to its end has stored.
  ghost predicate AllImported(plan: Plan, c: Context, db: Db, inputs: seq<Resolved>, bodies: seq<string>) {
    && Kept(c, db) && StoredUpTo(plan, c, db, inputs, |plan.items|)
    && |bodies| == |inputs| && (forall i | 0 <= i < |inputs| :: inputs[i].body == bodies[i])
    && db.tags == TagsAfter(plan, c, |plan.tags|)
    && forall i | 0 <= i < |plan.items| && plan.items[i].kind.Note? && plan.items[i].fields.payload.NotePayload? ::
         GroupStored(db, plan.items[i].fields.payload.groupSlug, plan.items[i].fields.payload.mirror)
  }

  /**
   * The import: it is rejected exactly when Preflight finds an issue, and stops at images, texts or tags exactly when
   * one of them cannot be stored. The group-conflict, missing-tag and topic-order errors cannot happen, and no path
   * conflict either. When it runs to its end every item of the plan is public in the next row of its table, with its
   * rewritten text, its dates and the rows of its tags and earlier articles, and nothing stored before has gone.
   */
  method Apply(plan: Plan, c: Context, inspect: string -> Option<Image>)
    returns (ending: Ending, db: Db, inputs: seq<Resolved>)
    requires Good(c.rules, c.db) && Lawful(c.rules)
    ensures ending.Rejected? <==> !Sound(plan, c)
    ensures ending.Rejected? ==> Holds(ending.issue, plan, c) && db == c.db
    ensures !ending.GroupConflicts? && !ending.TagMissing? && !ending.TopicOrderInvalid?
    ensures NoPathFaults(c.rules) ==> ending != ServiceRefused(RouteConflict)
    ensures ending == ImageRefused || ending == BatchTooLarge <==> Sound(plan, c) && !Downloadable(plan, inspect)
    ensures ending == TextRefusal(EditRefused) <==>
      && Sound(plan, c) && Downloadable(plan, inspect) && AllStorable(plan, c, inspect)
      && exists replacements, n :: Addressed(plan, inspect, replacements) && StopsAtEdits(plan, c, replacements, n)
    ensures Kept(c, db)
    ensures ending == Imported ==>
      && AllStorable(plan, c, inspect) && (forall i | 0 <= i < |plan.tags| :: TagAcceptable(c.rules, plan.tags[i]))
      && exists replacements, bodies ::
           && Addressed(plan, inspect, replacements) && AllImported(plan, c, db, inputs, bodies)
           && forall i | 0 <= i < |plan.items| && i < |bodies| :: IsRewritten(plan.items[i], replacements, bodies[i])
  {
    hide Sound, Holds, Kept, Good, TagIds, ItemIds, StoredUpTo, PathsKnown, ItemStored, Adds, ResolvedWell, AllStorable,
         Addressed, Looked, Rewritable, IsRewritten, TextOk, TagsAfter, TagAcceptable, NoPathFaults, GroupStored, StopsAtEdits,
         Covers, Downloadable, GroupsOnly;
    db, inputs := c.db, [];
    KeptAtFirst(c);
    var issue := Preflight(plan, c);
    if issue.Some? { return Rejected(issue.value), db, inputs; }
    var stop := Download(plan, inspect);
    if stop.Some? { return stop.value, db, inputs; }
    UserIsActive(plan, c);
    var fault, replacements;
    fault, db, replacements := StoreImages(plan, c, inspect);
    if fault.Some? { return ServiceRefused(fault.value), db, inputs; }
    var bodies, refusal;
    AddressedCovers(plan, inspect, replacements);
    forall other | Addressed(plan, inspect, other)
      ensures other == replacements
    {
      OneAddress(plan, inspect, other, replacements);
    }
    bodies, refusal := RewriteAll(plan, c, replacements);
    if refusal.Some? { return TextRefusal(refusal.value), db, inputs; }
    ending, db, inputs := StoreContent(plan, c, db, bodies);
    if ending == Imported {
      assert AllImported(plan, c, db, inputs, bodies);
    }
  }

  // Groups, tags and items, once every text is known.
  method StoreContent(plan: Plan, c: Context, start: Db, bodies: seq<string>)
    returns (ending: Ending, db: Db, inputs: seq<Resolved>)
    requires Sound(plan, c) && Kept(c, start) && Lawful(c.rules) && |bodies| == |plan.items|
    requires start == c.db.(assets := start.assets)
    ensures Kept(c, db) && (ending == Imported || ending.ServiceRefused?)
    ensures NoPathFaults(c.rules) ==> ending != ServiceRefused(RouteConflict)
    ensures ending == Imported ==>
      AllImported(plan, c, db, inputs, bodies) && forall i | 0 <= i < |plan.tags| :: TagAcceptable(c.rules, plan.tags[i])
  {
    hide Sound, Kept, TagIds, ItemIds, StoredUpTo, PathsKnown, ItemStored, Adds, ResolvedWell, Looked, TagsAfter,
         TagAcceptable, NoPathFaults, GroupStored;
    inputs := [];
    var stop, tags;
    stop, db := StoreGroups(plan, c, start);
    match stop {
      case Some(reason) => return reason, db, inputs;
      case None =>
    }
    ghost var grouped := db;
    var stored;
    stop, stored, tags := StoreTags(plan, c, db);
    if stop.Some? { return stop.value, db, inputs; }
    db := stored;
    var created: map<string, int> := map[];
    StartItems(plan, c, db);
    for i := 0 to |plan.items|
      invariant Kept(c, db) && StoredUpTo(plan, c, db, inputs, i) && ItemIds(plan, c, created, i)
      invariant PathsKnown(plan, c, db.routes, i) && db.groups == grouped.groups && db.tags == stored.tags
      invariant |inputs| == i && forall k | 0 <= k < i :: inputs[k].body == bodies[k]
    {
      TagsKnown(plan, c, tags, i);
      var found, tagIds := ResolveAll(tags, plan.items[i].tagSlugs);
      if !found { return TagMissing, db, inputs; }
      TargetsKnown(plan, c, created, i);
      var ordered, targets := ResolveAll(created, plan.items[i].targetKeys);
      if !ordered { return TopicOrderInvalid, db, inputs; }
      var res := Resolved(bodies[i], tagIds, targets);
      LookedUp(plan, c, tags, created, i, res);
      var next;
      CountsOf(plan, c, db, inputs, i);
      stop, next := StoreItem(plan, c, db, i, res);
      if stop.Some? { return stop.value, db, inputs; }
      NextStored(plan, c, db, inputs, i, next, res);
      NextId(plan, c, created, i);
      SideTablesStay(db, next);
      created := created[plan.items[i].key := |db.items| + 1];
      db, inputs := next, inputs + [res];
    }
    GroupsStay(plan, grouped, db);
    ending := Imported;
  }

  lemma KeptAtFirst(c: Context)
    requires Good(c.rules, c.db)
    ensures Kept(c, c.db)
  {
    GrowsItself(c.db);
  }

  lemma UserIsActive(plan: Plan, c: Context)
    requires Sound(plan, c)
    ensures c.user.active
  {
  }

  lemma OneAddress(plan: Plan, inspect: string -> Option<Image>, a: map<string, string>, b: map<string, string>)
    requires Addressed(plan, inspect, a) && Addressed(plan, inspect, b)
    ensures a == b
  {
    assert forall url :: url in a <==> url in b;
    assert forall url | url in a :: a[url] == inspect(url).value.address == b[url];
  }

  lemma AddressedCovers(plan: Plan, inspect: string -> Option<Image>, replacements: map<string, string>)
    requires Addressed(plan, inspect, replacements)
    ensures Covers(plan, replacements)
  {
  }

  lemma StartItems(plan: Plan, c: Context, db: Db)
    requires Kept(c, db) && db.items == c.db.items && db.routes == c.db.routes
    ensures StoredUpTo(plan, c, db, [], 0) && ItemIds(plan, c, map[], 0) && PathsKnown(plan, c, db.routes, 0)
  {
    hide Grows;
    DraftCount(c, db);
  }

  lemma CountsOf(plan: Plan, c: Context, db: Db, inputs: seq<Resolved>, i: nat)
    requires i <= |plan.items| && StoredUpTo(plan, c, db, inputs, i)
    ensures |db.items| == |db.drafts| == |c.db.items| + i
  {
  }

  lemma SideTablesStay(a: Db, b: Db)
    requires Adds(a, b)
    ensures b.tags == a.tags && b.groups == a.groups
  {
  }

  lemma GroupsStay(plan: Plan, a: Db, b: Db)
    requires b.groups == a.groups
    ensures forall slug, mirror | GroupStored(a, slug, mirror) :: GroupStored(b, slug, mirror)
  {
    hide FindGroup;
  }

  lemma LookedUp(plan: Plan, c: Context, tags: map<string, int>, created: map<string, int>, i: nat, res: Resolved)
    requires Sound(plan, c) && i < |plan.items|
    requires Looked(tags, plan.items[i].tagSlugs, res.tags) && Looked(created, plan.items[i].targetKeys, res.targets)
    requires forall k | 0 <= k < |plan.items[i].tagSlugs| ::
      NamesTag(plan, c, plan.items[i].tagSlugs[k], Lookup(tags, plan.items[i].tagSlugs[k]))
    requires forall k | 0 <= k < |plan.items[i].targetKeys| ::
      NamesArticle(plan, c, i, plan.items[i].targetKeys[k], Lookup(created, plan.items[i].targetKeys[k]))
    ensures ResolvedWell(plan, c, i, res)
  {
    hide Sound, NamesTag, NamesArticle, Lookup;
    NamesApart(plan, c, i, res);
  }

  /** An imported item is found at its planned path: that path is the only canonical one its row has. */
  lemma ImportedAtItsPath(plan: Plan, c: Context, db: Db, inputs: seq<Resolved>, bodies: seq<string>, i: nat)
    requires Sound(plan, c) && AllImported(plan, c, db, inputs, bodies) && i < |plan.items|
    ensures var path := PathOf(c.rules, plan.items[i]);
      && path.Ok? && IsHome(db.routes, |c.db.items| + 1 + i, path.value)
      && forall p | p in db.routes && db.routes[p] == Route(|c.db.items| + 1 + i, Canonical) :: p == path.value
  {
    var id, item := |c.db.items| + 1 + i, plan.items[i];
    assert ItemStored(plan, c, db, i, inputs[i]);
    PathPlanned(plan, c, i);
    hide Sound, Grows, CandidatePath, FieldsFault;
    assert Homed(db, id - 1);
    var r := At(db.revisions, At(db.items, id).published.value);
    SamePath(item.kind, r.fields, item.fields);
  }

  lemma PathPlanned(plan: Plan, c: Context, i: nat)
    requires Sound(plan, c) && i < |plan.items|
    ensures PathOf(c.rules, plan.items[i]).Ok?
    ensures PathOf(c.rules, plan.items[i]) == CandidatePath(plan.items[i].kind, plan.items[i].fields)
  {
    hide FieldsFault, TargetsSound, TagsSound, TagIsNew, TagFree, PlaceFree, GroupAgrees, EditsOk, CandidatePath, IdentityOk;
    assert ItemSound(plan, c, i);
    var f := plan.items[i].fields;
    SamePath(plan.items[i].kind, f.(prose := f.prose.(body := "")), f);
  }
}
