/** The import plan: what Preflight accepts against the stored rows, and what Apply then does with it. */
module LegacyImport {
  import opened Base
  import opened Text
  import opened Schema
  import opened Policy
  import opened Content
  import opened Workflow
  import opened Ordering
  import opened Splice

  // Each character of a body or an image address is one byte, so that edits span bytes.
  datatype PlanItem = PlanItem(key: string, kind: Kind, fields: Fields, tagSlugs: seq<string>, targetKeys: seq<string>,
                               edits: seq<Edit>, first: Option<int>, last: Option<int>)

  datatype Plan = Plan(schemaVersion: int, ownerId: int, errors: nat, tags: seq<TagInput>, items: seq<PlanItem>,
                       images: seq<string>)

  datatype Issue =
    | PlanInvalid | NotAdmin | DuplicateImage | TypeInvalid | InvalidFields | DuplicateIdentity | AuthorMissing
    | RouteOrSlugCollision | GroupMismatch | DatesInvalid | ImageEditInvalid
    | TargetInvalid | BoundaryInvalid | DuplicateTag | TagCollision | TagReferenceInvalid

  // The rules, the stored rows, the caller and the clock a check is made against.
  datatype Context = Context(rules: Rules, db: Db, user: Actor, now: int)

  // ----- the plans Preflight accepts -----

  predicate AllDistinct(s: seq<string>) {
    forall i, j | 0 <= i < j < |s| :: s[i] != s[j]
  }

  predicate HeaderOk(plan: Plan, u: Actor) {
    && plan.schemaVersion == 1 && plan.errors == 0 && plan.ownerId == u.id
    && 0 < |plan.items| <= 10000 && |plan.tags| <= 100000 && |plan.images| <= 1000
  }

  predicate KindOk(item: PlanItem) {
    item.kind.CuratedArticle? || item.kind.Topic? || item.kind.Note?
  }

  function PublishedPath(rules: Rules, kind: Kind, f: Fields): Result<string, Fault> {
    var fault := FieldsFault(rules, kind, f, true);
    if fault.Some? then Err(fault.value) else CandidatePath(kind, f)
  }

  // The path of an item; its text is validated once the images are rewritten.
  function PathOf(rules: Rules, item: PlanItem): Result<string, Fault> {
    var f := item.fields;
    PublishedPath(rules, item.kind, f.(prose := f.prose.(body := "")))
  }

  predicate IdentityOk(rules: Rules, items: seq<PlanItem>, i: nat)
    requires i < |items|
  {
    forall j | 0 <= j < i :: items[j].key != items[i].key && PathOf(rules, items[j]) != PathOf(rules, items[i])
  }

  predicate SlugTaken(db: Db, kind: Kind, slug: string) {
    exists i | 0 <= i < |db.items| && i < |db.drafts| :: db.items[i].kind == kind && db.drafts[i].fields.slug == slug
  }

  predicate PlaceFree(rules: Rules, db: Db, item: PlanItem) {
    && !SlugTaken(db, item.kind, item.fields.slug)
    && (PathOf(rules, item).Ok? ==> PathOf(rules, item).value !in db.routes)
  }

  predicate NamesGroup(item: PlanItem, slug: string) {
    item.kind.Note? && item.fields.payload.NotePayload? && item.fields.payload.groupSlug == slug
  }

  predicate StoredGroupAgrees(db: Db, slug: string, mirror: Mirror) {
    var id := FindGroup(db.groups, slug);
    id.Some? ==> var g := At(db.groups, id.value); mirror == Mirror(g.name, g.description, g.order)
  }

  // A note describes its group as earlier notes of the plan and the stored group do.
  predicate GroupAgrees(db: Db, items: seq<PlanItem>, i: nat)
    requires i < |items|
  {
    items[i].kind.Note? && items[i].fields.payload.NotePayload? ==>
      var p := items[i].fields.payload;
      && (forall j | 0 <= j < i && NamesGroup(items[j], p.groupSlug) :: items[j].fields.payload.mirror == p.mirror)
      && StoredGroupAgrees(db, p.groupSlug, p.mirror)
  }

  predicate DatesOk(item: PlanItem, now: int) {
    && (item.first.None? <==> item.last.None?)
    && (item.first.Some? && item.last.Some? ==> 0 <= item.first.value <= item.last.value <= now)
  }

  predicate EditsOk(images: seq<string>, item: PlanItem) {
    forall k | 0 <= k < |item.edits| :: item.edits[k].url in images && Planned(item.fields.prose.body, item.edits[k])
  }

  ghost predicate ItemSound(plan: Plan, c: Context, i: nat)
    requires i < |plan.items|
  {
    var item := plan.items[i];
    && KindOk(item) && PathOf(c.rules, item).Ok? && IdentityOk(c.rules, plan.items, i)
    && Row(c.db.profiles, item.fields.byline) && PlaceFree(c.rules, c.db, item)
    && GroupAgrees(c.db, plan.items, i) && DatesOk(item, c.now) && EditsOk(plan.images, item)
  }

  ghost predicate EarlierArticle(items: seq<PlanItem>, n: int, key: string) {
    exists j :: 0 <= j < n && j < |items| && items[j].key == key && items[j].kind.CuratedArticle?
  }

  ghost predicate TargetsSound(items: seq<PlanItem>, i: int)
    requires 0 <= i < |items|
  {
    && (items[i].targetKeys != [] ==> items[i].kind.Topic?) && AllDistinct(items[i].targetKeys)
    && forall k | 0 <= k < |items[i].targetKeys| :: EarlierArticle(items, i, items[i].targetKeys[k])
  }

  predicate BoundaryOk(item: PlanItem) {
    item.kind.Topic? ==>
      item.fields.payload.TopicPayload? && item.fields.payload.recommendedCount <= |item.targetKeys|
  }

  function NormalName(rules: Rules, tag: TagInput): string {
    Normalize(rules, Collapse(tag.name))
  }

  predicate TagIsNew(rules: Rules, tags: seq<TagInput>, i: nat)
    requires i < |tags|
  {
    && NormalName(rules, tags[i]) != ""
    && forall j | 0 <= j < i :: tags[j].slug != tags[i].slug && NormalName(rules, tags[j]) != NormalName(rules, tags[i])
  }

  predicate TagFree(rules: Rules, db: Db, tag: TagInput) {
    forall i | 0 <= i < |db.tags| :: db.tags[i].normalized != NormalName(rules, tag) && db.tags[i].slug != tag.slug
  }

  ghost predicate TagsSound(item: PlanItem, slugs: set<string>) {
    && (item.tagSlugs != [] ==> !item.kind.Topic?) && AllDistinct(item.tagSlugs)
    && forall k | 0 <= k < |item.tagSlugs| :: item.tagSlugs[k] in slugs
  }

  function Slugs(tags: seq<TagInput>): set<string> {
    set tag | tag in tags :: tag.slug
  }

  ghost predicate Sound(plan: Plan, c: Context) {
    && HeaderOk(plan, c.user) && Administers(c.user) && AllDistinct(plan.images)
    && (forall i | 0 <= i < |plan.items| :: ItemSound(plan, c, i))
    && (forall i | 0 <= i < |plan.items| :: TargetsSound(plan.items, i) && BoundaryOk(plan.items[i]))
    && (forall i | 0 <= i < |plan.tags| :: TagIsNew(c.rules, plan.tags, i) && TagFree(c.rules, c.db, plan.tags[i]))
    && (forall i | 0 <= i < |plan.items| :: TagsSound(plan.items[i], Slugs(plan.tags)))
  }

  // What a reported issue says of the plan.
  ghost predicate Holds(issue: Issue, plan: Plan, c: Context) {
    match issue
    case PlanInvalid => !HeaderOk(plan, c.user)
    case NotAdmin => !Administers(c.user)
    case DuplicateImage => !AllDistinct(plan.images)
    case TypeInvalid => exists i :: 0 <= i < |plan.items| && !KindOk(plan.items[i])
    case InvalidFields => exists i :: 0 <= i < |plan.items| && PathOf(c.rules, plan.items[i]).Err?
    case DuplicateIdentity => exists i :: 0 <= i < |plan.items| && !IdentityOk(c.rules, plan.items, i)
    case AuthorMissing => exists i :: 0 <= i < |plan.items| && !Row(c.db.profiles, plan.items[i].fields.byline)
    case RouteOrSlugCollision => exists i :: 0 <= i < |plan.items| && !PlaceFree(c.rules, c.db, plan.items[i])
    case GroupMismatch => exists i :: 0 <= i < |plan.items| && !GroupAgrees(c.db, plan.items, i)
    case DatesInvalid => exists i :: 0 <= i < |plan.items| && !DatesOk(plan.items[i], c.now)
    case ImageEditInvalid => exists i :: 0 <= i < |plan.items| && !EditsOk(plan.images, plan.items[i])
    case TargetInvalid => exists i :: 0 <= i < |plan.items| && !TargetsSound(plan.items, i)
    case BoundaryInvalid => exists i :: 0 <= i < |plan.items| && !BoundaryOk(plan.items[i])
    case DuplicateTag => exists i :: 0 <= i < |plan.tags| && !TagIsNew(c.rules, plan.tags, i)
    case TagCollision => exists i :: 0 <= i < |plan.tags| && !TagFree(c.rules, c.db, plan.tags[i])
    case TagReferenceInvalid => exists i :: 0 <= i < |plan.items| && !TagsSound(plan.items[i], Slugs(plan.tags))
  }

  // Payloads of the wrong shape do not get past the path check.
  lemma PayloadDecodes(rules: Rules, item: PlanItem)
    requires PathOf(rules, item).Ok?
    ensures item.kind.Note? ==> item.fields.payload.NotePayload?
    ensures item.kind.Topic? ==> item.fields.payload.TopicPayload?
  {
  }

  // ----- Preflight, loop by loop -----

  // Of the first n items, keys maps every key to its kind, paths holds every path, groups the group of every note.
  ghost predicate Learned(c: Context, items: seq<PlanItem>, n: nat, keys: map<string, Kind>, paths: set<string>,
                          groups: map<string, Mirror>)
    requires n <= |items|
  {
    && KnowsKinds(keys, items, n) && KnowsGroups(groups, items, n)
    && forall p :: p in paths <==> exists i :: 0 <= i < n && PathOf(c.rules, items[i]) == Ok(p)
  }

  ghost predicate KnowsKinds(keys: map<string, Kind>, items: seq<PlanItem>, n: nat)
    requires n <= |items|
  {
    && (forall k :: k in keys <==> exists i :: 0 <= i < n && items[i].key == k)
    && forall i | 0 <= i < n :: keys[items[i].key] == items[i].kind
  }

  ghost predicate KnowsGroups(groups: map<string, Mirror>, items: seq<PlanItem>, n: nat)
    requires n <= |items|
  {
    && (forall slug :: slug in groups <==> exists i :: 0 <= i < n && NamesGroup(items[i], slug))
    && forall slug, i | slug in groups && 0 <= i < n && NamesGroup(items[i], slug) ::
         items[i].fields.payload.mirror == groups[slug]
  }

  method CheckImages(images: seq<string>) returns (known: set<string>, issue: Option<Issue>)
    ensures issue.None? <==> AllDistinct(images)
    ensures issue.Some? ==> issue.value == DuplicateImage
    ensures issue.None? ==> known == set url | url in images
  {
    known := {};
    for i := 0 to |images|
      invariant known == (set url | url in images[..i]) && AllDistinct(images[..i])
    {
      assert images[..i + 1] == images[..i] + [images[i]];
      if images[i] in known {
        var m :| 0 <= m < i && images[..i][m] == images[i];
        assert images[m] == images[i];
        return known, Some(DuplicateImage);
      }
      known := known + {images[i]};
    }
    assert images[..|images|] == images;
    issue := None;
  }

  method CheckEdits(item: PlanItem, images: seq<string>, known: set<string>) returns (ok: bool)
    requires known == set url | url in images
    ensures ok <==> EditsOk(images, item)
  {
    for k := 0 to |item.edits|
      invariant forall m | 0 <= m < k :: item.edits[m].url in images && Planned(item.fields.prose.body, item.edits[m])
    {
      var e, body := item.edits[k], item.fields.prose.body;
      if e.url !in known || e.start < 0 || e.end <= e.start || e.end > |body| || body[e.start..e.end] != e.url { return false; }
    }
    return true;
  }

  /** The checks of one item against the items before it and the stored rows, in the order they are made. */
  method CheckItem(plan: Plan, c: Context, i: nat, known: set<string>, keys: map<string, Kind>, paths: set<string>,
                   groups: map<string, Mirror>)
    returns (issue: Option<Issue>)
    requires i < |plan.items| && known == (set url | url in plan.images)
    requires Learned(c, plan.items, i, keys, paths, groups)
    requires forall k | 0 <= k < i :: ItemSound(plan, c, k)
    ensures issue.None? <==> ItemSound(plan, c, i)
    ensures issue.Some? ==> Holds(issue.value, plan, c)
  {
    hide FieldsFault, CandidatePath, PublishedPath, SlugTaken, Learned, FindGroup, KnowsKinds;
    var item := plan.items[i];
    if !KindOk(item) { return Some(TypeInvalid); }
    var path := PathOf(c.rules, item);
    if path.Err? { return Some(InvalidFields); }
    SeenBefore(c, plan.items, i, keys, paths, groups);
    if item.key in keys || path.value in paths { return Some(DuplicateIdentity); }
    if !Row(c.db.profiles, item.fields.byline) { return Some(AuthorMissing); }
    if SlugTaken(c.db, item.kind, item.fields.slug) || path.value in c.db.routes { return Some(RouteOrSlugCollision); }
    if item.kind.Note? {
      PayloadDecodes(c.rules, item);
      var slug, mirror := item.fields.payload.groupSlug, item.fields.payload.mirror;
      if slug in groups && groups[slug] != mirror {
        assert !GroupAgrees(c.db, plan.items, i);
        return Some(GroupMismatch);
      }
      var stored := FindGroup(c.db.groups, slug);
      if stored.Some? {
        var g := At(c.db.groups, stored.value);
        if g.name != mirror.name || g.description != mirror.description || g.order != mirror.order {
          assert !GroupAgrees(c.db, plan.items, i);
          return Some(GroupMismatch);
        }
      }
    }
    if item.first.Some? != item.last.Some? { return Some(DatesInvalid); }
    if item.first.Some? && (item.first.value < 0 || item.last.value < item.first.value || item.last.value > c.now) {
      return Some(DatesInvalid);
    }
    var edits := CheckEdits(item, plan.images, known);
    if !edits { return Some(ImageEditInvalid); }
    return None;
  }

  // What the tables of the loop say about the next item.
  lemma SeenBefore(c: Context, items: seq<PlanItem>, i: nat, keys: map<string, Kind>, paths: set<string>,
                   groups: map<string, Mirror>)
    requires i < |items| && Learned(c, items, i, keys, paths, groups) && PathOf(c.rules, items[i]).Ok?
    ensures IdentityOk(c.rules, items, i) <==> items[i].key !in keys && PathOf(c.rules, items[i]).value !in paths
    ensures items[i].kind.Note? && items[i].fields.payload.NotePayload? ==>
      var p := items[i].fields.payload;
      (forall j | 0 <= j < i && NamesGroup(items[j], p.groupSlug) :: items[j].fields.payload.mirror == p.mirror)
      <==> (p.groupSlug in groups ==> groups[p.groupSlug] == p.mirror)
  {
    hide PathOf;
  }

  lemma LearnItem(c: Context, items: seq<PlanItem>, i: nat, keys: map<string, Kind>, paths: set<string>,
                  groups: map<string, Mirror>)
    requires i < |items| && Learned(c, items, i, keys, paths, groups)
    requires PathOf(c.rules, items[i]).Ok? && IdentityOk(c.rules, items, i) && NoteKnown(items[i], groups)
    ensures Learned(c, items, i + 1, keys[items[i].key := items[i].kind], paths + {PathOf(c.rules, items[i]).value},
                    if items[i].kind.Note? then groups[items[i].fields.payload.groupSlug := items[i].fields.payload.mirror]
                    else groups)
  {
    hide PathOf, NamesGroup;
    LearnGroup(items, i, groups);
    hide KnowsGroups;
  }

  predicate NoteKnown(item: PlanItem, groups: map<string, Mirror>) {
    item.kind.Note? ==>
      && item.fields.payload.NotePayload?
      && (item.fields.payload.groupSlug in groups ==> groups[item.fields.payload.groupSlug] == item.fields.payload.mirror)
  }

  lemma LearnGroup(items: seq<PlanItem>, i: nat, groups: map<string, Mirror>)
    requires i < |items| && KnowsGroups(groups, items, i) && NoteKnown(items[i], groups)
    ensures KnowsGroups(if items[i].kind.Note? then groups[items[i].fields.payload.groupSlug := items[i].fields.payload.mirror]
                        else groups, items, i + 1)
  {
    if items[i].kind.Note? { assert NamesGroup(items[i], items[i].fields.payload.groupSlug); }
  }

  method CheckItems(plan: Plan, c: Context, known: set<string>) returns (keys: map<string, Kind>, issue: Option<Issue>)
    requires known == set url | url in plan.images
    ensures issue.None? <==> forall i | 0 <= i < |plan.items| :: ItemSound(plan, c, i)
    ensures issue.None? ==> KnowsKinds(keys, plan.items, |plan.items|)
    ensures issue.Some? ==> Holds(issue.value, plan, c)
  {
    hide ItemSound, Holds, Learned, KnowsKinds;
    keys := map[];
    var paths: set<string>, groups: map<string, Mirror> := {}, map[];
    NothingLearned(c, plan.items);
    for i := 0 to |plan.items|
      invariant forall k | 0 <= k < i :: ItemSound(plan, c, k)
      invariant Learned(c, plan.items, i, keys, paths, groups)
    {
      issue := CheckItem(plan, c, i, known, keys, paths, groups);
      if issue.Some? { return; }
      var item := plan.items[i];
      FactsOf(plan, c, i, keys, paths, groups);
      LearnItem(c, plan.items, i, keys, paths, groups);
      keys, paths := keys[item.key := item.kind], paths + {PathOf(c.rules, item).value};
      if item.kind.Note? { groups := groups[item.fields.payload.groupSlug := item.fields.payload.mirror]; }
    }
    KindsLearned(c, plan.items, keys, paths, groups);
    issue := None;
  }

  lemma NothingLearned(c: Context, items: seq<PlanItem>)
    ensures Learned(c, items, 0, map[], {}, map[])
  {
  }

  lemma KindsLearned(c: Context, items: seq<PlanItem>, keys: map<string, Kind>, paths: set<string>, groups: map<string, Mirror>)
    requires Learned(c, items, |items|, keys, paths, groups)
    ensures KnowsKinds(keys, items, |items|)
  {
  }

  lemma FactsOf(plan: Plan, c: Context, i: nat, keys: map<string, Kind>, paths: set<string>, groups: map<string, Mirror>)
    requires i < |plan.items| && ItemSound(plan, c, i) && Learned(c, plan.items, i, keys, paths, groups)
    ensures var item := plan.items[i];
      && PathOf(c.rules, item).Ok? && IdentityOk(c.rules, plan.items, i)
      && NoteKnown(item, groups)
  {
    PayloadDecodes(c.rules, plan.items[i]);
    SeenBefore(c, plan.items, i, keys, paths, groups);
  }

  // The membership tests of the loop say the same as the declarative condition.
  lemma ArticleIff(items: seq<PlanItem>, keys: map<string, Kind>, previous: set<string>, i: int, key: string)
    requires 0 <= i < |items| && KnowsKinds(keys, items, |items|) && KeysDistinct(items)
    requires forall k :: k in previous <==> exists j :: 0 <= j < i && items[j].key == k
    ensures (key in keys && keys[key].CuratedArticle? && key in previous) <==> EarlierArticle(items, i, key)
  {
    if EarlierArticle(items, i, key) {
      var j :| 0 <= j < i && j < |items| && items[j].key == key && items[j].kind.CuratedArticle?;
      assert items[j].key in previous;
    }
  }

  ghost predicate KeysDistinct(items: seq<PlanItem>) {
    forall i, j | 0 <= i < j < |items| :: items[i].key != items[j].key
  }

  method CheckTargets(items: seq<PlanItem>, keys: map<string, Kind>, previous: set<string>, i: nat) returns (ok: bool)
    requires i < |items| && KnowsKinds(keys, items, |items|) && KeysDistinct(items)
    requires forall k :: k in previous <==> exists j :: 0 <= j < i && items[j].key == k
    ensures ok <==> TargetsSound(items, i)
  {
    hide KnowsKinds;
    var seen: set<string> := {};
    var targets := items[i].targetKeys;
    for k := 0 to |targets|
      invariant seen == (set t | t in targets[..k]) && AllDistinct(targets[..k])
      invariant k > 0 ==> items[i].kind.Topic?
      invariant forall m | 0 <= m < k :: EarlierArticle(items, i, targets[m])
    {
      var key := targets[k];
      ArticleIff(items, keys, previous, i, key);
      assert targets[..k + 1] == targets[..k] + [key];
      if !items[i].kind.Topic? || key !in keys || !keys[key].CuratedArticle? || key !in previous { return false; }
      if key in seen {
        var m :| 0 <= m < k && targets[..k][m] == key;
        assert targets[m] == targets[k];
        return false;
      }
      seen := seen + {key};
    }
    assert targets[..|targets|] == targets;
    return true;
  }

  method CheckReferences(plan: Plan, c: Context, keys: map<string, Kind>) returns (issue: Option<Issue>)
    requires KnowsKinds(keys, plan.items, |plan.items|) && KeysDistinct(plan.items)
    requires forall i | 0 <= i < |plan.items| :: PathOf(c.rules, plan.items[i]).Ok?
    ensures issue.None? <==> forall i | 0 <= i < |plan.items| :: TargetsSound(plan.items, i) && BoundaryOk(plan.items[i])
    ensures issue.Some? ==> Holds(issue.value, plan, c)
  {
    hide TargetsSound, KnowsKinds, KeysDistinct, PathOf;
    var previous: set<string> := {};
    for i := 0 to |plan.items|
      invariant forall k :: k in previous <==> exists j :: 0 <= j < i && plan.items[j].key == k
      invariant forall k | 0 <= k < i :: TargetsSound(plan.items, k) && BoundaryOk(plan.items[k])
    {
      var item := plan.items[i];
      var sound := CheckTargets(plan.items, keys, previous, i);
      if !sound { return Some(TargetInvalid); }
      PayloadDecodes(c.rules, item);
      if item.kind.Topic? && item.fields.payload.recommendedCount > |item.targetKeys| { return Some(BoundaryInvalid); }
      previous := previous + {item.key};
    }
    return None;
  }

  method CheckTagInputs(plan: Plan, c: Context) returns (known: set<string>, issue: Option<Issue>)
    ensures issue.None? <==>
      forall i | 0 <= i < |plan.tags| :: TagIsNew(c.rules, plan.tags, i) && TagFree(c.rules, c.db, plan.tags[i])
    ensures issue.None? ==> known == Slugs(plan.tags)
    ensures issue.Some? ==> Holds(issue.value, plan, c)
  {
    hide NormalName, TagFree, TagIsNew, KnowsTags;
    known := {};
    var names: set<string> := {};
    assert KnowsTags(c.rules, plan.tags, 0, known, names) by { NoTags(c.rules, plan.tags); }
    for i := 0 to |plan.tags|
      invariant KnowsTags(c.rules, plan.tags, i, known, names)
      invariant forall k | 0 <= k < i :: TagIsNew(c.rules, plan.tags, k) && TagFree(c.rules, c.db, plan.tags[k])
    {
      var tag := plan.tags[i];
      var name := NormalName(c.rules, tag);
      TagStep(c.rules, plan.tags, i, known, names);
      if name == "" || tag.slug in known || name in names { return known, Some(DuplicateTag); }
      if !TagFree(c.rules, c.db, tag) { return known, Some(TagCollision); }
      known, names := known + {tag.slug}, names + {name};
    }
    AllTags(c.rules, plan.tags, known, names);
    issue := None;
  }

  // Slugs and normalized names of the first n tags.
  ghost predicate KnowsTags(rules: Rules, tags: seq<TagInput>, n: nat, known: set<string>, names: set<string>)
    requires n <= |tags|
  {
    && (forall s :: s in known <==> exists j :: 0 <= j < n && tags[j].slug == s)
    && (forall s :: s in names <==> exists j :: 0 <= j < n && NormalName(rules, tags[j]) == s)
  }

  lemma NoTags(rules: Rules, tags: seq<TagInput>)
    ensures KnowsTags(rules, tags, 0, {}, {})
  {
  }

  lemma AllTags(rules: Rules, tags: seq<TagInput>, known: set<string>, names: set<string>)
    requires KnowsTags(rules, tags, |tags|, known, names)
    ensures known == Slugs(tags)
  {
    hide NormalName;
  }

  lemma TagStep(rules: Rules, tags: seq<TagInput>, i: nat, known: set<string>, names: set<string>)
    requires i < |tags| && KnowsTags(rules, tags, i, known, names)
    ensures TagIsNew(rules, tags, i) <==>
      NormalName(rules, tags[i]) != "" && tags[i].slug !in known && NormalName(rules, tags[i]) !in names
    ensures KnowsTags(rules, tags, i + 1, known + {tags[i].slug}, names + {NormalName(rules, tags[i])})
  {
    hide NormalName;
  }

  method CheckTags(item: PlanItem, slugs: set<string>) returns (ok: bool)
    ensures ok <==> TagsSound(item, slugs)
  {
    var seen: set<string> := {};
    for k := 0 to |item.tagSlugs|
      invariant seen == (set t | t in item.tagSlugs[..k]) && AllDistinct(item.tagSlugs[..k])
      invariant k > 0 ==> !item.kind.Topic?
      invariant forall m | 0 <= m < k :: item.tagSlugs[m] in slugs
    {
      var slug := item.tagSlugs[k];
      assert item.tagSlugs[..k + 1] == item.tagSlugs[..k] + [slug];
      if item.kind.Topic? || slug !in slugs { return false; }
      if slug in seen {
        var m :| 0 <= m < k && item.tagSlugs[..k][m] == slug;
        assert item.tagSlugs[m] == item.tagSlugs[k];
        return false;
      }
      seen := seen + {slug};
    }
    assert item.tagSlugs[..|item.tagSlugs|] == item.tagSlugs;
    return true;
  }

  lemma ItemsDistinct(plan: Plan, c: Context)
    requires forall i | 0 <= i < |plan.items| :: ItemSound(plan, c, i)
    ensures KeysDistinct(plan.items) && forall i | 0 <= i < |plan.items| :: PathOf(c.rules, plan.items[i]).Ok?
  {
    hide PathOf, PlaceFree, GroupAgrees, DatesOk, EditsOk;
    forall i, j | 0 <= i < j < |plan.items|
      ensures plan.items[i].key != plan.items[j].key
    {
      assert ItemSound(plan, c, j);
    }
    forall i | 0 <= i < |plan.items|
      ensures PathOf(c.rules, plan.items[i]).Ok?
    {
      assert ItemSound(plan, c, i);
    }
  }

  /** The checks accept exactly the sound plans, and an issue they report is one the plan has. */
  method Preflight(plan: Plan, c: Context) returns (issue: Option<Issue>)
    ensures issue.None? <==> Sound(plan, c)
    ensures issue.Some? ==> Holds(issue.value, plan, c)
  {
    hide ItemSound, TargetsSound, BoundaryOk, TagIsNew, TagFree, TagsSound, PathOf, KnowsKinds, KeysDistinct, Slugs;
    if !HeaderOk(plan, c.user) { return Some(PlanInvalid); }
    if !Administers(c.user) { return Some(NotAdmin); }
    var images, keys, slugs;
    images, issue := CheckImages(plan.images);
    if issue.Some? { return; }
    keys, issue := CheckItems(plan, c, images);
    if issue.Some? { return; }
    ItemsDistinct(plan, c);
    issue := CheckReferences(plan, c, keys);
    if issue.Some? { return; }
    slugs, issue := CheckTagInputs(plan, c);
    if issue.Some? { return; }
    for i := 0 to |plan.items|
      invariant forall k | 0 <= k < i :: TagsSound(plan.items[k], slugs)
    {
      var sound := CheckTags(plan.items[i], slugs);
      if !sound { return Some(TagReferenceInvalid); }
    }
    return None;
  }

  // ----- what Preflight promises of the services -----

  // The tag table once the first n tags of the plan have been stored.
  function TagsAfter(plan: Plan, c: Context, n: nat): seq<Tag>
    requires n <= |plan.tags|
  {
    if n == 0 then c.db.tags else TagsAfter(plan, c, n - 1) + [TagRow(c.rules, plan.tags[n - 1])]
  }

  lemma {:induction false} TableRows(plan: Plan, c: Context, n: nat, k: nat)
    requires n <= |plan.tags| && k < |TagsAfter(plan, c, n)|
    ensures var row := TagsAfter(plan, c, n)[k];
      (k < |c.db.tags| && row == c.db.tags[k]) || exists j :: 0 <= j < n && row == TagRow(c.rules, plan.tags[j])
  {
    hide TagRow;
    if n > 0 && k < |TagsAfter(plan, c, n - 1)| {
      TableRows(plan, c, n - 1, k);
    } else if n > 0 {
      assert TagsAfter(plan, c, n)[k] == TagRow(c.rules, plan.tags[n - 1]);
    }
  }

  /** After Preflight no tag of the plan meets a conflict, with stored tags or with those stored before it. */
  lemma TagsDoNotConflict(plan: Plan, c: Context, n: nat, db: Db)
    requires Sound(plan, c) && n < |plan.tags| && db.tags == TagsAfter(plan, c, n)
    ensures DoPutTag(c.rules, db, c.user, 0, plan.tags[n], c.now) != Err(TagConflict)
  {
    hide ItemSound, TargetsSound, TagsSound, Normalize, Collapse, Trim, ValidSlug;
    assert TagIsNew(c.rules, plan.tags, n) && TagFree(c.rules, c.db, plan.tags[n]);
    forall k | 0 <= k < |db.tags|
      ensures db.tags[k].normalized != NormalName(c.rules, plan.tags[n]) && db.tags[k].slug != plan.tags[n].slug
    {
      TableRows(plan, c, n, k);
    }
  }

  /** After Preflight no item of the plan meets a taken path, as long as only earlier items have claimed paths since. */
  lemma PathsDoNotConflict(plan: Plan, c: Context, i: nat, routes: map<string, Route>, id: int, body: string)
    requires Sound(plan, c) && i < |plan.items|
    requires forall p | p in routes ::
      p in c.db.routes || exists j :: 0 <= j < i && PathOf(c.rules, plan.items[j]) == Ok(p)
    ensures var f := plan.items[i].fields; var path := CandidatePath(plan.items[i].kind, f.(prose := f.prose.(body := body)));
      path.Ok? && RouteAvailable(routes, id, path.value)
  {
    hide FieldsFault, TargetsSound, TagsSound, TagIsNew, TagFree, SlugTaken, GroupAgrees, EditsOk;
    assert ItemSound(plan, c, i);
  }

  // ----- the rewriting of the texts -----

  // Every planned image has an address.
  ghost predicate Covers(plan: Plan, replacements: map<string, string>) {
    forall url | url in plan.images :: url in replacements
  }

  // The text of an item with every planned image replaced.
  ghost predicate IsRewritten(item: PlanItem, replacements: map<string, string>, body: string) {
    var edits := SortBy(StartOf, item.edits);
    && Chained(item.fields.prose.body, edits, 0)
    && body == Weave(item.fields.prose.body, edits, 0, replacements)
  }

  predicate TextOk(rules: Rules, item: PlanItem, body: string) {
    var f := item.fields;
    PublishedPath(rules, item.kind, f.(prose := f.prose.(body := body))).Ok?
  }

  datatype Refusal = EditRefused | TextRefused

  /** What Preflight checked is what the rewriting needs: only overlapping spans are left as a reason to fail. */
  lemma PreflightCoversRewrite(plan: Plan, c: Context, replacements: map<string, string>, i: nat)
    requires Sound(plan, c) && Covers(plan, replacements) && i < |plan.items|
    ensures AllPlanned(plan.items[i].fields.prose.body, plan.items[i].edits)
    ensures Replaceable(plan.items[i].edits, replacements)
  {
    hide PathOf, IdentityOk, PlaceFree, GroupAgrees, TargetsSound, TagsSound, TagIsNew, TagFree;
    assert ItemSound(plan, c, i);
  }

  // The item rewriting stops at: its spans overlap, and every item before it was rewritten to a sound text.
  ghost predicate StopsAtEdits(plan: Plan, c: Context, replacements: map<string, string>, n: nat) {
    && n < |plan.items| && Overlapping(plan.items[n].edits)
    && forall j | 0 <= j < n :: Rewritable(plan, c, replacements, j)
  }

  ghost predicate Rewritable(plan: Plan, c: Context, replacements: map<string, string>, j: nat)
    requires j < |plan.items|
  {
    && !Overlapping(plan.items[j].edits)
    && exists body :: IsRewritten(plan.items[j], replacements, body) && TextOk(c.rules, plan.items[j], body)
  }

  method RewriteItem(plan: Plan, c: Context, replacements: map<string, string>, i: nat) returns (r: Option<string>)
    requires Sound(plan, c) && Covers(plan, replacements) && i < |plan.items|
    ensures r.None? <==> Overlapping(plan.items[i].edits)
    ensures r.Some? ==> IsRewritten(plan.items[i], replacements, r.value)
  {
    hide Sound, Overlapping, Replaceable, AllPlanned, Covers;
    PreflightCoversRewrite(plan, c, replacements, i);
    r := Rewrite(plan.items[i].fields.prose.body, plan.items[i].edits, replacements);
  }

  /** All texts are rewritten before anything is created: the first overlap, or the first unsound text, stops it. */
  method RewriteAll(plan: Plan, c: Context, replacements: map<string, string>)
    returns (bodies: seq<string>, stop: Option<Refusal>)
    requires Sound(plan, c) && Covers(plan, replacements)
    ensures stop.None? ==> |bodies| == |plan.items|
    ensures forall i | 0 <= i < |bodies| ::
      i < |plan.items| && Rewritable(plan, c, replacements, i) && IsRewritten(plan.items[i], replacements, bodies[i])
    ensures stop.Some? ==> |bodies| < |plan.items|
    ensures stop == Some(EditRefused) <==> exists n :: StopsAtEdits(plan, c, replacements, n)
  {
    hide Sound, Overlapping, IsRewritten, TextOk, Covers;
    bodies := [];
    for i := 0 to |plan.items|
      invariant |bodies| == i
      invariant forall k | 0 <= k < i ::
        Rewritable(plan, c, replacements, k) && IsRewritten(plan.items[k], replacements, bodies[k])
    {
      var body := RewriteItem(plan, c, replacements, i);
      if body.None? {
        assert StopsAtEdits(plan, c, replacements, i);
        return bodies, Some(EditRefused);
      }
      if !TextOk(c.rules, plan.items[i], body.value) {
        OneText(plan, c, replacements, i, body.value);
        return bodies, Some(TextRefused);
      }
      bodies := bodies + [body.value];
    }
    stop := None;
  }

  // An item has one rewritten text; when that is unsound, rewriting does not get past the item.
  lemma OneText(plan: Plan, c: Context, replacements: map<string, string>, i: nat, body: string)
    requires i < |plan.items| && IsRewritten(plan.items[i], replacements, body) && !TextOk(c.rules, plan.items[i], body)
    requires !Overlapping(plan.items[i].edits) && forall j | 0 <= j < i :: Rewritable(plan, c, replacements, j)
    ensures forall n :: !StopsAtEdits(plan, c, replacements, n)
  {
    hide TextOk, Overlapping;
    assert !Rewritable(plan, c, replacements, i);
    forall n: nat
      ensures !StopsAtEdits(plan, c, replacements, n)
    {
      if n < i { assert Rewritable(plan, c, replacements, n); }
    }
  }
}
