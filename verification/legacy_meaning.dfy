/** The import in its own words: which plans are accepted, how texts are rewritten, and what is public afterwards. */
module LegacyMeaning {
  import opened Base
  import opened Text
  import opened Words
  import opened Schema
  import opened Content
  import opened Workflow
  import opened Ordering
  import opened Splice
  import opened LegacyImport
  import opened LegacyApply
  import opened SnapshotMeaning

  // ----- one planned item -----

  function PlaceOf(item: PlanItem): string {
    Address(item.kind, item.fields.slug, item.fields.payload)
  }

  predicate PayloadReady(rules: Rules, item: PlanItem) {
    var p := item.fields.payload;
    match item.kind
    case Post => p == PostPayload
    case Note =>
      && p.NotePayload? && 0 <= p.order <= 1000000 && ValidSlug(p.groupSlug) && !Blank(p.mirror.name)
      && |p.mirror.name| <= 100 && |p.mirror.description| <= 1000 && 0 <= p.mirror.order <= 1000000
    case Topic => p.TopicPayload? && 0 <= p.order <= 1000000 && 0 <= p.recommendedCount <= 100
    case CuratedArticle => p.CuratedPayload? && rules.source(p.source, true)
  }

  // Complete but for its text, which is checked after the rewriting.
  predicate FieldsReady(rules: Rules, item: PlanItem) {
    var f := item.fields;
    && f.byline > 0 && ValidSlug(f.slug) && rules.prose(f.prose.(body := ""), true) == None && PayloadReady(rules, item)
    && (f.english.Some? ==>
          (item.kind == CuratedArticle || item.kind == Topic) && rules.english(item.kind, f.payload, f.english.value, true) == None)
  }

  lemma PathIs(rules: Rules, item: PlanItem)
    ensures PathOf(rules, item).Ok? <==> FieldsReady(rules, item)
    ensures PathOf(rules, item).Ok? ==> PathOf(rules, item).value == PlaceOf(item)
  {
    hide ValidSlug, Blank;
  }

  predicate EditFits(images: seq<string>, body: string, e: Edit) {
    e.url in images && 0 <= e.start < e.end <= |body| && body[e.start..e.end] == e.url
  }

  ghost predicate GroupFits(db: Db, p: Payload)
    requires p.NotePayload?
  {
    forall g | g in db.groups && g.slug == p.groupSlug :: p.mirror == Mirror(g.name, g.description, g.order)
  }

  // One item against the stored rows.
  ghost predicate ItemFits(plan: Plan, c: Context, item: PlanItem) {
    && item.kind != Post && FieldsReady(c.rules, item) && item.fields.byline <= |c.db.profiles|
    && (forall k | 0 <= k < |c.db.items| && k < |c.db.drafts| ::
          !(c.db.items[k].kind == item.kind && c.db.drafts[k].fields.slug == item.fields.slug))
    && PlaceOf(item) !in c.db.routes
    && (item.kind == Note && item.fields.payload.NotePayload? ==> GroupFits(c.db, item.fields.payload))
    && match (item.first, item.last)
       case (None, None) => true
       case (Some(first), Some(last)) => 0 <= first <= last <= c.now
       case _ => false
  }

  // Two items of a plan, i before j: other keys, other paths, and one description of a shared group.
  ghost predicate ItemsApart(a: PlanItem, b: PlanItem) {
    && a.key != b.key && PlaceOf(a) != PlaceOf(b)
    && (a.kind == Note && b.kind == Note ==> SameDescription(a.fields.payload, b.fields.payload))
  }

  predicate SameDescription(p: Payload, q: Payload) {
    p.NotePayload? && q.NotePayload? && p.groupSlug == q.groupSlug ==> p.mirror == q.mirror
  }

  ghost predicate Earlier(items: seq<PlanItem>, i: int, key: string) {
    exists j :: 0 <= j < i && j < |items| && items[j].key == key && items[j].kind == CuratedArticle
  }

  // A topic recommends earlier articles, each once, and at least as many as it counts; nothing else recommends.
  ghost predicate TargetsFit(items: seq<PlanItem>, i: int)
    requires 0 <= i < |items|
  {
    var item := items[i];
    && (item.kind != Topic ==> item.targetKeys == [])
    && (item.kind == Topic ==> item.fields.payload.TopicPayload? && item.fields.payload.recommendedCount <= |item.targetKeys|)
    && (forall k, l | 0 <= k < l < |item.targetKeys| :: item.targetKeys[k] != item.targetKeys[l])
    && forall k | 0 <= k < |item.targetKeys| :: Earlier(items, i, item.targetKeys[k])
  }

  ghost predicate TagsFit(plan: Plan, item: PlanItem) {
    && (item.kind == Topic ==> item.tagSlugs == [])
    && (forall k, l | 0 <= k < l < |item.tagSlugs| :: item.tagSlugs[k] != item.tagSlugs[l])
    && forall k | 0 <= k < |item.tagSlugs| :: IsPlannedSlug(plan, item.tagSlugs[k])
  }

  ghost predicate IsPlannedSlug(plan: Plan, slug: string) {
    exists m :: 0 <= m < |plan.tags| && plan.tags[m].slug == slug
  }

  function LowerName(rules: Rules, tag: TagInput): string {
    var name := Collapse(tag.name);
    seq(|name|, i requires 0 <= i < |name| => rules.lower(name[i]))
  }

  // New names and slugs, apart from each other and from the stored ones.
  ghost predicate NewTags(plan: Plan, c: Context) {
    && (forall i | 0 <= i < |plan.tags| :: !Blank(plan.tags[i].name))
    && (forall i, j | 0 <= i < j < |plan.tags| ::
          plan.tags[i].slug != plan.tags[j].slug && LowerName(c.rules, plan.tags[i]) != LowerName(c.rules, plan.tags[j]))
    && forall i, k | 0 <= i < |plan.tags| && 0 <= k < |c.db.tags| ::
         c.db.tags[k].slug != plan.tags[i].slug && c.db.tags[k].normalized != LowerName(c.rules, plan.tags[i])
  }

  ghost predicate HeaderFits(plan: Plan, c: Context) {
    && plan.schemaVersion == 1 && plan.errors == 0 && plan.ownerId == c.user.id && c.user.active && c.user.role == Admin
    && 1 <= |plan.items| <= 10000 && |plan.tags| <= 100000 && |plan.images| <= 1000
    && forall i, j | 0 <= i < j < |plan.images| :: plan.images[i] != plan.images[j]
  }

  ghost predicate ItemsFit(plan: Plan, c: Context) {
    && (forall i | 0 <= i < |plan.items| :: ItemFits(plan, c, plan.items[i]))
    && (forall i, k | 0 <= i < |plan.items| && 0 <= k < |plan.items[i].edits| ::
          EditFits(plan.images, plan.items[i].fields.prose.body, plan.items[i].edits[k]))
    && forall i, j | 0 <= i < j < |plan.items| :: ItemsApart(plan.items[i], plan.items[j])
  }

  ghost predicate PlanFits(plan: Plan, c: Context) {
    && HeaderFits(plan, c) && ItemsFit(plan, c) && NewTags(plan, c)
    && (forall i | 0 <= i < |plan.items| :: TargetsFit(plan.items, i))
    && forall i | 0 <= i < |plan.items| :: TagsFit(plan, plan.items[i])
  }

  // ----- the checks accept exactly these plans -----

  lemma GroupMeans(db: Db, p: Payload)
    requires p.NotePayload? && forall i, j | 0 <= i < j < |db.groups| :: db.groups[i].slug != db.groups[j].slug
    ensures StoredGroupAgrees(db, p.groupSlug, p.mirror) <==> GroupFits(db, p)
  {
    var id := FindGroup(db.groups, p.groupSlug);
    if id.Some? {
      assert At(db.groups, id.value) in db.groups;
      forall g | g in db.groups && g.slug == p.groupSlug
        ensures g == At(db.groups, id.value)
      {
        var k :| 0 <= k < |db.groups| && db.groups[k] == g;
      }
    }
  }

  // The item alone, apart from its place among the others.
  ghost predicate Alone(plan: Plan, c: Context, item: PlanItem) {
    && KindOk(item) && PathOf(c.rules, item).Ok? && Row(c.db.profiles, item.fields.byline) && PlaceFree(c.rules, c.db, item)
    && (item.kind.Note? && item.fields.payload.NotePayload? ==>
          StoredGroupAgrees(c.db, item.fields.payload.groupSlug, item.fields.payload.mirror))
    && DatesOk(item, c.now)
  }

  lemma AloneMeans(plan: Plan, c: Context, item: PlanItem)
    requires forall i, j | 0 <= i < j < |c.db.groups| :: c.db.groups[i].slug != c.db.groups[j].slug
    ensures Alone(plan, c, item) <==> ItemFits(plan, c, item)
  {
    PathIs(c.rules, item);
    if item.fields.payload.NotePayload? { GroupMeans(c.db, item.fields.payload); }
    hide PathOf, PayloadReady, PlaceOf, StoredGroupAgrees, GroupFits, ValidSlug;
  }

  // The item among the earlier ones.
  ghost predicate Among(rules: Rules, items: seq<PlanItem>, i: int)
    requires 0 <= i < |items|
  {
    && IdentityOk(rules, items, i)
    && (items[i].kind.Note? && items[i].fields.payload.NotePayload? ==>
          forall j | 0 <= j < i && NamesGroup(items[j], items[i].fields.payload.groupSlug) ::
            items[j].fields.payload.mirror == items[i].fields.payload.mirror)
  }

  lemma ItemSplits(plan: Plan, c: Context, i: int)
    requires 0 <= i < |plan.items|
    ensures ItemSound(plan, c, i) <==>
      (Alone(plan, c, plan.items[i]) && Among(c.rules, plan.items, i) && EditsOk(plan.images, plan.items[i]))
  {
    hide PathOf, StoredGroupAgrees, PlaceFree, DatesOk, EditsOk, IdentityOk;
  }

  lemma AmongMeans(rules: Rules, items: seq<PlanItem>)
    requires forall i | 0 <= i < |items| :: PathOf(rules, items[i]).Ok?
    ensures (forall i | 0 <= i < |items| :: Among(rules, items, i)) <==>
      (forall i, j | 0 <= i < j < |items| :: ItemsApart(items[i], items[j]))
  {
    forall i | 0 <= i < |items|
      ensures PathOf(rules, items[i]) == Ok(PlaceOf(items[i]))
    {
      PathIs(rules, items[i]);
    }
    hide PathOf, PlaceOf;
    if forall i | 0 <= i < |items| :: Among(rules, items, i) {
      forall i, j | 0 <= i < j < |items|
        ensures ItemsApart(items[i], items[j])
      {
        assert Among(rules, items, j);
      }
    }
    if forall i, j | 0 <= i < j < |items| :: ItemsApart(items[i], items[j]) {
      forall i | 0 <= i < |items|
        ensures Among(rules, items, i)
      {
        assert forall j | 0 <= j < i :: ItemsApart(items[j], items[i]);
      }
    }
  }

  lemma ItemsMean(plan: Plan, c: Context)
    requires forall i, j | 0 <= i < j < |c.db.groups| :: c.db.groups[i].slug != c.db.groups[j].slug
    ensures (forall i | 0 <= i < |plan.items| :: ItemSound(plan, c, i)) <==> ItemsFit(plan, c)
  {
    hide ItemSound, Alone, Among, ItemFits, ItemsApart, PathOf;
    forall i | 0 <= i < |plan.items|
      ensures ItemSound(plan, c, i) <==>
        (ItemFits(plan, c, plan.items[i]) && Among(c.rules, plan.items, i) && EditsOk(plan.images, plan.items[i]))
      ensures ItemFits(plan, c, plan.items[i]) ==> PathOf(c.rules, plan.items[i]).Ok?
    {
      ItemSplits(plan, c, i);
      AloneMeans(plan, c, plan.items[i]);
      AloneHasPath(plan, c, plan.items[i]);
    }
    if forall i | 0 <= i < |plan.items| :: ItemFits(plan, c, plan.items[i]) {
      AmongMeans(c.rules, plan.items);
    }
  }

  lemma AloneHasPath(plan: Plan, c: Context, item: PlanItem)
    ensures Alone(plan, c, item) ==> PathOf(c.rules, item).Ok?
  {
    hide PathOf;
  }

  lemma TagsMean(plan: Plan, c: Context)
    ensures (forall i | 0 <= i < |plan.tags| :: TagIsNew(c.rules, plan.tags, i) && TagFree(c.rules, c.db, plan.tags[i]))
      <==> NewTags(plan, c)
  {
    forall i | 0 <= i < |plan.tags|
      ensures NormalName(c.rules, plan.tags[i]) == LowerName(c.rules, plan.tags[i])
      ensures LowerName(c.rules, plan.tags[i]) == "" <==> Blank(plan.tags[i].name)
    {
      NameMeans(c.rules, plan.tags[i]);
    }
    hide NormalName, LowerName, Blank;
    if forall i | 0 <= i < |plan.tags| :: TagIsNew(c.rules, plan.tags, i) && TagFree(c.rules, c.db, plan.tags[i]) {
      forall i, j | 0 <= i < j < |plan.tags|
        ensures plan.tags[i].slug != plan.tags[j].slug && LowerName(c.rules, plan.tags[i]) != LowerName(c.rules, plan.tags[j])
      {
        assert TagIsNew(c.rules, plan.tags, j);
      }
      forall i, k | 0 <= i < |plan.tags| && 0 <= k < |c.db.tags|
        ensures c.db.tags[k].slug != plan.tags[i].slug && c.db.tags[k].normalized != LowerName(c.rules, plan.tags[i])
      {
        assert TagFree(c.rules, c.db, plan.tags[i]);
      }
      assert forall i | 0 <= i < |plan.tags| :: TagIsNew(c.rules, plan.tags, i);
    }
    if NewTags(plan, c) {
      forall i | 0 <= i < |plan.tags|
        ensures TagIsNew(c.rules, plan.tags, i) && TagFree(c.rules, c.db, plan.tags[i])
      {
      }
    }
  }

  lemma NameMeans(rules: Rules, tag: TagInput)
    ensures NormalName(rules, tag) == LowerName(rules, tag) && (LowerName(rules, tag) == "" <==> Blank(tag.name))
  {
    hide Collapse, IsSpace;
    assert Collapse(tag.name) == "" <==> Blank(tag.name);
  }

  lemma TargetsMean(items: seq<PlanItem>, i: int)
    requires 0 <= i < |items|
    ensures TargetsSound(items, i) && BoundaryOk(items[i]) <==> TargetsFit(items, i)
  {
    forall key
      ensures EarlierArticle(items, i, key) <==> Earlier(items, i, key)
    {
      if j :| 0 <= j < i && j < |items| && items[j].key == key && items[j].kind == CuratedArticle {
        assert items[j].kind.CuratedArticle?;
      }
    }
    hide EarlierArticle, Earlier;
    if !items[i].kind.Topic? && items[i].targetKeys != [] { assert !TargetsFit(items, i); }
  }

  lemma TagNamesMean(plan: Plan, i: int)
    requires 0 <= i < |plan.items|
    ensures TagsSound(plan.items[i], Slugs(plan.tags)) <==> TagsFit(plan, plan.items[i])
  {
    forall slug
      ensures slug in Slugs(plan.tags) <==> IsPlannedSlug(plan, slug)
    {
      if m :| 0 <= m < |plan.tags| && plan.tags[m].slug == slug { assert plan.tags[m] in plan.tags; }
    }
    hide Slugs, IsPlannedSlug;
  }

  /** Preflight accepts a plan iff it fits in just these words, against any stored rows with distinct group slugs. */
  lemma SoundMeans(plan: Plan, c: Context)
    requires forall i, j | 0 <= i < j < |c.db.groups| :: c.db.groups[i].slug != c.db.groups[j].slug
    ensures Sound(plan, c) <==> PlanFits(plan, c)
  {
    hide ItemSound, TargetsSound, BoundaryOk, TagIsNew, TagFree, TagsSound, ItemsFit, NewTags, TargetsFit, TagsFit;
    ItemsMean(plan, c);
    TagsMean(plan, c);
    forall i | 0 <= i < |plan.items|
      ensures TargetsSound(plan.items, i) && BoundaryOk(plan.items[i]) <==> TargetsFit(plan.items, i)
      ensures TagsSound(plan.items[i], Slugs(plan.tags)) <==> TagsFit(plan, plan.items[i])
    {
      TargetsMean(plan.items, i);
      TagNamesMean(plan, i);
    }
  }

  // ----- the rewritten text -----

  // Texts with fills between them.
  function Woven(texts: seq<string>, fills: seq<string>): string
    requires |texts| == |fills| + 1
  {
    if fills == [] then texts[0] else texts[0] + fills[0] + Woven(texts[1..], fills[1..])
  }

  // The text between two spans, in front of the first and behind the last.
  function Between(body: string, edits: seq<Edit>, from: int, i: nat): string
    requires Chained(body, edits, from) && i <= |edits|
    decreases |edits|
  {
    if i == 0 then body[from..if edits == [] then |body| else edits[0].start]
    else Between(body, edits[1..], edits[0].end, i - 1)
  }

  function Urls(edits: seq<Edit>): seq<string> {
    seq(|edits|, i requires 0 <= i < |edits| => edits[i].url)
  }

  function Fills(edits: seq<Edit>, replacements: map<string, string>): seq<string>
    requires Replaceable(edits, replacements)
  {
    seq(|edits|, i requires 0 <= i < |edits| => replacements[edits[i].url])
  }

  function Texts(body: string, edits: seq<Edit>, from: int): seq<string>
    requires Chained(body, edits, from)
  {
    seq(|edits| + 1, i requires 0 <= i <= |edits| => Between(body, edits, from, i))
  }

  /** A rewritten text is the old one with each image address replaced by its new one and every other character kept. */
  lemma {:induction false} RewrittenMeans(body: string, edits: seq<Edit>, from: int, replacements: map<string, string>)
    requires Chained(body, edits, from) && AllPlanned(body, edits) && Replaceable(edits, replacements)
    ensures body[from..] == Woven(Texts(body, edits, from), Urls(edits))
    ensures Weave(body, edits, from, replacements) == Woven(Texts(body, edits, from), Fills(edits, replacements))
  {
    if edits == [] {
      assert body[from..|body|] == body[from..];
    } else {
      var rest, next := edits[1..], edits[0].end;
      assert forall i | 0 <= i < |rest| :: rest[i] == edits[i + 1];
      RewrittenMeans(body, rest, next, replacements);
      assert Texts(body, edits, from)[1..] == Texts(body, rest, next);
      assert Urls(edits)[1..] == Urls(rest) && Fills(edits, replacements)[1..] == Fills(rest, replacements);
      assert body[from..] == body[from..edits[0].start] + edits[0].url + body[next..] by {
        assert body[from..] == body[from..edits[0].start] + body[edits[0].start..next] + body[next..];
      }
    }
  }

  // ----- what an import leaves -----

  // Item i of the plan in its row: the fields as planned with the new text, under the planned tags and targets.
  ghost predicate PublicAsPlanned(plan: Plan, c: Context, db: Db, i: int, body: string)
    requires 0 <= i < |plan.items|
  {
    var item, n := plan.items[i], |c.db.items| + i;
    && n < |db.items| && db.items[n].kind == item.kind && db.items[n].archivedAt == None && db.items[n].published.Some?
    && 0 < db.items[n].published.value <= |db.revisions|
    && db.items[n].firstPublished == (if item.first.Some? then item.first else Some(c.now))
    && db.items[n].lastPublished == (if item.last.Some? then item.last else Some(c.now))
    && var r := db.revisions[db.items[n].published.value - 1];
       && r.content == n + 1 && r.fields.prose == item.fields.prose.(body := body)
       && r.fields.(prose := item.fields.prose, payload := item.fields.payload) == item.fields
       && SameButMirror(r.fields.payload, item.fields.payload)
       && TagsAsPlanned(plan, c, item, r) && |r.entries| == |item.targetKeys|
       && forall k | 0 <= k < |item.targetKeys| :: RowOfKey(plan, c, item.targetKeys[k], r.entries[k])
  }

  predicate SameButMirror(a: Payload, b: Payload) {
    if a.NotePayload? && b.NotePayload? then a.groupSlug == b.groupSlug && a.order == b.order else a == b
  }

  ghost predicate RowOfSlug(plan: Plan, c: Context, slug: string, id: int) {
    exists m :: 0 <= m < |plan.tags| && plan.tags[m].slug == slug && id == |c.db.tags| + m + 1
  }

  ghost predicate RowOfKey(plan: Plan, c: Context, key: string, id: int) {
    exists j :: 0 <= j < |plan.items| && plan.items[j].key == key && id == |c.db.items| + j + 1
  }

  ghost predicate TagsAsPlanned(plan: Plan, c: Context, item: PlanItem, r: Revision) {
    && (forall k | 0 <= k < |item.tagSlugs| :: IsTagged(plan, c, r, item.tagSlugs[k]))
    && forall t | t in r.tags :: exists k :: 0 <= k < |item.tagSlugs| && RowOfSlug(plan, c, item.tagSlugs[k], t)
  }

  ghost predicate IsTagged(plan: Plan, c: Context, r: Revision, slug: string) {
    exists t :: t in r.tags && RowOfSlug(plan, c, slug, t)
  }

  // Tag m of the plan in its row.
  ghost predicate TagAsPlanned(plan: Plan, c: Context, db: Db, m: int)
    requires 0 <= m < |plan.tags|
  {
    var n, tag := |c.db.tags| + m, plan.tags[m];
    && n < |db.tags| && db.tags[n].name == Collapse(tag.name) && db.tags[n].slug == tag.slug
    && db.tags[n].description == tag.description && db.tags[n].normalized == LowerName(c.rules, tag)
    && db.tags[n].english == (if Blank(tag.nameEn) then None else Some(Translation(Trim(tag.nameEn), tag.descriptionEn)))
  }

  lemma MaterialMeans(r: Revision, item: PlanItem, res: Resolved)
    requires IsMaterial(r, item, res)
    ensures r.fields.prose == item.fields.prose.(body := res.body) && SameButMirror(r.fields.payload, item.fields.payload)
    ensures r.fields.(prose := item.fields.prose, payload := item.fields.payload) == item.fields
  {
    var f, g := r.fields.(payload := PostPayload), Rewritten(item, res.body).(payload := PostPayload);
    assert f.prose == g.prose && f.slug == g.slug && f.byline == g.byline && f.cover == g.cover;
    assert f.featured == g.featured && f.english == g.english;
  }

  lemma TagsMeant(plan: Plan, c: Context, i: int, res: Resolved, r: Revision)
    requires 0 <= i < |plan.items| && ResolvedWell(plan, c, i, res) && forall t :: t in r.tags <==> t in res.tags
    ensures TagsAsPlanned(plan, c, plan.items[i], r)
  {
    var slugs := plan.items[i].tagSlugs;
    forall k | 0 <= k < |slugs|
      ensures IsTagged(plan, c, r, slugs[k])
    {
      assert res.tags[k] in r.tags && RowOfSlug(plan, c, slugs[k], res.tags[k]);
      assert NamesTag(plan, c, slugs[k], res.tags[k]);
    }
    forall t | t in r.tags
      ensures exists k :: 0 <= k < |slugs| && RowOfSlug(plan, c, slugs[k], t)
    {
      var k :| 0 <= k < |res.tags| && res.tags[k] == t;
      assert RowOfSlug(plan, c, slugs[k], t);
    }
  }

  /** After an import every item of the plan is public, in the next row of its table, as it was planned. */
  lemma ImportedMeans(plan: Plan, c: Context, db: Db, inputs: seq<Resolved>, bodies: seq<string>, i: int)
    requires Sound(plan, c) && AllImported(plan, c, db, inputs, bodies) && 0 <= i < |plan.items|
    ensures i < |bodies| && PublicAsPlanned(plan, c, db, i, bodies[i])
  {
    hide Kept, GroupStored, TagsAfter;
    assert ResolvedWell(plan, c, i, inputs[i]) && ItemStored(plan, c, db, i, inputs[i]);
    assert DatesOk(plan.items[i], c.now) by { DatesAreOk(plan, c, i); }
    hide Sound, IsMaterial, ResolvedWell;
    var n, item := |c.db.items| + i, plan.items[i];
    var r := db.revisions[db.items[n].published.value - 1];
    MaterialMeans(r, item, inputs[i]);
    assert r.entries == inputs[i].targets && forall t :: t in r.tags <==> t in inputs[i].tags by { MaterialLists(r, item, inputs[i]); }
    TagsMeant(plan, c, i, inputs[i], r);
    EntriesMeant(plan, c, i, inputs[i]);
    hide TagsAsPlanned, SameButMirror, RowOfKey;
  }

  lemma MaterialLists(r: Revision, item: PlanItem, res: Resolved)
    requires IsMaterial(r, item, res)
    ensures r.entries == res.targets && forall t :: t in r.tags <==> t in res.tags
  {
  }

  lemma EntriesMeant(plan: Plan, c: Context, i: int, res: Resolved)
    requires 0 <= i < |plan.items| && ResolvedWell(plan, c, i, res)
    ensures |res.targets| == |plan.items[i].targetKeys|
    ensures forall k | 0 <= k < |res.targets| :: RowOfKey(plan, c, plan.items[i].targetKeys[k], res.targets[k])
  {
    forall k | 0 <= k < |res.targets|
      ensures RowOfKey(plan, c, plan.items[i].targetKeys[k], res.targets[k])
    {
      assert NamesArticle(plan, c, i, plan.items[i].targetKeys[k], res.targets[k]);
    }
  }

  lemma DatesAreOk(plan: Plan, c: Context, i: int)
    requires Sound(plan, c) && 0 <= i < |plan.items|
    ensures DatesOk(plan.items[i], c.now)
  {
    hide PathOf, IdentityOk, PlaceFree, GroupAgrees, TargetsSound, TagsSound, TagIsNew, TagFree, EditsOk;
    assert ItemSound(plan, c, i);
  }

  /** And every tag of the plan is in the next row of its table. */
  lemma {:induction false} TagsImported(plan: Plan, c: Context, m: int, n: nat)
    requires 0 <= m < n <= |plan.tags|
    ensures |TagsAfter(plan, c, n)| == |c.db.tags| + n
    ensures TagAsPlanned(plan, c, c.db.(tags := TagsAfter(plan, c, n)), m)
  {
    hide TagRow, Collapse, Trim, Blank;
    TagsCount(plan, c, n - 1);
    if m < n - 1 {
      TagsImported(plan, c, m, n - 1);
    } else {
      PlannedTag(c.rules, plan.tags[m]);
    }
  }

  lemma {:induction false} TagsCount(plan: Plan, c: Context, n: nat)
    requires n <= |plan.tags|
    ensures |TagsAfter(plan, c, n)| == |c.db.tags| + n
  {
    if n > 0 { TagsCount(plan, c, n - 1); }
  }

  lemma PlannedTag(rules: Rules, tag: TagInput)
    ensures var t := TagRow(rules, tag);
      && t.name == Collapse(tag.name) && t.slug == tag.slug && t.description == tag.description
      && t.normalized == LowerName(rules, tag)
      && t.english == (if Blank(tag.nameEn) then None else Some(Translation(Trim(tag.nameEn), tag.descriptionEn)))
  {
    assert Trim(tag.nameEn) == "" <==> Blank(tag.nameEn);
    hide Collapse, Trim, IsSpace;
  }

  // Every note of the plan is in a stored group it describes, whose name may have been trimmed.
  lemma GroupsImported(plan: Plan, c: Context, db: Db, inputs: seq<Resolved>, bodies: seq<string>, i: int)
    requires AllImported(plan, c, db, inputs, bodies) && 0 <= i < |plan.items| && plan.items[i].kind == Note
    requires plan.items[i].fields.payload.NotePayload?
    ensures var p := plan.items[i].fields.payload;
      exists g :: g in db.groups && g.slug == p.groupSlug && g.description == p.mirror.description && g.order == p.mirror.order
                  && (g.name == p.mirror.name || g.name == Trim(p.mirror.name))
  {
    hide Kept, StoredUpTo, TagsAfter, Trim;
    var p := plan.items[i].fields.payload;
    assert GroupStored(db, p.groupSlug, p.mirror);
    assert At(db.groups, FindGroup(db.groups, p.groupSlug).value) in db.groups;
  }

  // ----- images -----

  function SizeOf(inspect: string -> Option<Image>, url: string): nat {
    match inspect(url)
    case None => 0
    case Some(image) => image.size
  }

  function SizesOf(images: seq<string>, inspect: string -> Option<Image>): nat {
    if images == [] then 0 else SizeOf(inspect, images[0]) + SizesOf(images[1..], inspect)
  }

  lemma {:induction false} SizesAdd(images: seq<string>, url: string, inspect: string -> Option<Image>)
    ensures SizesOf(images + [url], inspect) == SizesOf(images, inspect) + SizeOf(inspect, url)
  {
    if images == [] {
      assert [url][1..] == [];
    } else {
      assert (images + [url])[1..] == images[1..] + [url];
      SizesAdd(images[1..], url, inspect);
    }
  }

  lemma {:induction false} TotalIsSizes(images: seq<string>, inspect: string -> Option<Image>)
    ensures TotalSize(images, inspect) == SizesOf(images, inspect)
  {
    if images != [] {
      var n := |images| - 1;
      TotalIsSizes(images[..n], inspect);
      SizesAdd(images[..n], images[n], inspect);
      assert images == images[..n] + [images[n]];
    }
  }

  /** An import goes on past the downloads iff every image was found sound and all of them together are at most 128 MiB. */
  lemma DownloadMeans(plan: Plan, inspect: string -> Option<Image>)
    ensures Downloadable(plan, inspect) <==>
      (forall url | url in plan.images :: inspect(url).Some?) && SizesOf(plan.images, inspect) <= 134217728
  {
    TotalIsSizes(plan.images, inspect);
    if forall i | 0 <= i < |plan.images| :: inspect(plan.images[i]).Some? {
      forall url | url in plan.images
        ensures inspect(url).Some?
      {
        var i :| 0 <= i < |plan.images| && plan.images[i] == url;
      }
    }
  }

  predicate DeletedBytes(db: Db, sha: string) {
    exists k :: 0 <= k < |db.assets| && db.assets[k].sha == sha && db.assets[k].deletedAt.Some?
  }

  /** The images are stored iff each has an acceptable address and none has the bytes of a deleted one. */
  lemma StorableMeans(plan: Plan, c: Context, inspect: string -> Option<Image>)
    requires Downloadable(plan, inspect)
    ensures AllStorable(plan, c, inspect) <==>
      forall url | url in plan.images ::
        c.rules.assetUrl(inspect(url).value.card) && !DeletedBytes(c.db, inspect(url).value.sha)
  {
    forall i | 0 <= i < |plan.images|
      ensures plan.images[i] in plan.images
      ensures Storable(c, inspect(plan.images[i])) <==>
        c.rules.assetUrl(inspect(plan.images[i]).value.card) && !DeletedBytes(c.db, inspect(plan.images[i]).value.sha)
    {
    }
    forall url | url in plan.images
      ensures exists i :: 0 <= i < |plan.images| && plan.images[i] == url
    {
    }
  }
}
