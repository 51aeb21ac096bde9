/** Who may do what to a piece of content: the object checks in front of every command. */
module Policy {
  import opened Schema

  predicate Administers(u: Actor) {
    u.active && u.role.Admin?
  }

  predicate Reviews(u: Actor) {
    u.active && (u.role.Admin? || u.role.Reviewer?)
  }

  predicate CanCreate(u: Actor, kind: Kind) {
    if kind.Topic? then Administers(u) else u.active
  }

  predicate CanEdit(u: Actor, c: Item) {
    u.active && (u.role.Admin? || c.owner == u.id)
  }

  predicate CanReview(u: Actor, c: Item, r: Revision) {
    Administers(u) || (u.active && u.role.Reviewer? && c.owner != u.id && r.fields.byline != u.id)
  }

  predicate CanSetByline(u: Actor, byline: int) {
    Administers(u) || (u.active && byline == u.id)
  }

  predicate CanSetFeatured(u: Actor, was: bool, next: bool) {
    Administers(u) || (u.active && was == next)
  }
}

/** Field validation, note hydration, relations and candidate paths. */
module Content {
  import opened Base
  import opened Text
  import opened Schema

  const BLANK := Prose("", "", "", "", "", "")
  const NO_MIRROR := Mirror("", "", 0)

  function InitialPayload(kind: Kind): Payload {
    match kind
    case Post => PostPayload
    case Note => NotePayload("", 0, NO_MIRROR)
    case Topic => TopicPayload(0, 0)
    case CuratedArticle => CuratedPayload("")
  }

  predicate Ordered(n: int) {
    0 <= n <= ORDER_LIMIT
  }

  predicate ValidLabel(slug: string, name: string, description: string, nameEn: string, descriptionEn: string) {
    && ValidSlug(slug) && !Blank(name) && Bounded(name, 100) && Bounded(description, 1000)
    && Bounded(nameEn, 100) && Bounded(descriptionEn, 1000)
  }

  predicate ValidGroup(g: Group) {
    ValidLabel(g.slug, g.name, g.description, g.nameEn, g.descriptionEn) && Ordered(g.order)
  }

  // SELECT ... FROM note_groups WHERE slug = ?
  function FindGroup(groups: seq<Group>, slug: string): (id: Option<int>)
    ensures id.Some? ==> Row(groups, id.value) && At(groups, id.value).slug == slug
    ensures id.None? ==> forall g | g in groups :: g.slug != slug
  {
    if groups == [] then None
    else
      var n := |groups| - 1;
      if groups[n].slug == slug then Some(|groups|)
      else FindGroup(groups[..n], slug)
  }

  // Display mirrors are never taken from the client: they come from the group row.
  function HydrateNote(groups: seq<Group>, kind: Kind, f: Fields, complete: bool): Result<Fields, Fault> {
    if !kind.Note? then Ok(f)
    else if !f.payload.NotePayload? || !Ordered(f.payload.order) then Err(PayloadFault)
    else if f.payload.groupSlug == "" then
      if complete then Err(GroupMissing)
      else Ok(f.(payload := f.payload.(mirror := NO_MIRROR)))
    else if !ValidSlug(f.payload.groupSlug) then Err(PayloadFault)
    else
      match FindGroup(groups, f.payload.groupSlug)
      case None => Err(GroupMissing)
      case Some(id) =>
        var g := At(groups, id);
        Ok(f.(payload := f.payload.(mirror := Mirror(g.name, g.description, g.order))))
  }

  predicate ValidPayload(rules: Rules, kind: Kind, p: Payload, complete: bool) {
    match kind
    case Post => p.PostPayload?
    case Note =>
      && p.NotePayload? && Bounded(p.mirror.name, 100) && Bounded(p.mirror.description, 1000)
      && Ordered(p.mirror.order) && Ordered(p.order)
      && (p.groupSlug != "" ==> ValidSlug(p.groupSlug))
      && (complete ==> !Blank(p.mirror.name) && ValidSlug(p.groupSlug))
    case Topic => p.TopicPayload? && Ordered(p.order) && 0 <= p.recommendedCount <= RELATION_LIMIT
    case CuratedArticle => p.CuratedPayload? && rules.source(p.source, complete)
  }

  function EnglishFault(rules: Rules, kind: Kind, p: Payload, e: Option<English>, complete: bool): Option<Fault> {
    if e.None? then None
    else if !kind.CuratedArticle? && !kind.Topic? then Some(Validation)
    else rules.english(kind, p, e.value, complete)
  }

  function FieldsFault(rules: Rules, kind: Kind, f: Fields, complete: bool): Option<Fault> {
    if f.byline <= 0 || (f.slug != "" && !ValidSlug(f.slug)) then Some(Validation)
    else if complete && !ValidSlug(f.slug) then Some(Validation)
    else if rules.prose(f.prose, complete).Some? then rules.prose(f.prose, complete)
    else if !ValidPayload(rules, kind, f.payload, complete) then Some(PayloadFault)
    else EnglishFault(rules, kind, f.payload, f.english, complete)
  }

  predicate Distinct(s: seq<int>) {
    forall i, j | 0 <= i < j < |s| :: s[i] != s[j]
  }

  predicate Curated(items: seq<Item>, id: int) {
    Row(items, id) && At(items, id).kind.CuratedArticle?
  }

  function CoverFault(assets: seq<Asset>, cover: Option<int>): Option<Fault> {
    if cover.None? then None
    else if !Row(assets, cover.value) then Some(AssetInvalid)
    else if At(assets, cover.value).deletedAt.Some? then Some(AssetDeleted)
    else None
  }

  predicate ValidTags(tags: seq<Tag>, kind: Kind, ids: seq<int>) {
    && |ids| <= RELATION_LIMIT && (kind.Topic? ==> ids == [])
    && Distinct(ids) && forall t | t in ids :: Row(tags, t)
  }

  predicate ValidEntries(items: seq<Item>, id: int, kind: Kind, entries: seq<int>) {
    && |entries| <= RELATION_LIMIT && (!kind.Topic? ==> entries == [])
    && Distinct(entries) && id !in entries && forall e | e in entries :: Curated(items, e)
  }

  predicate Recommends(kind: Kind, p: Payload, count: int) {
    kind.Topic? ==> p.TopicPayload? && 0 <= p.recommendedCount <= count
  }

  function RelationsFault(db: Db, id: int, kind: Kind, f: Fields, tags: seq<int>, entries: seq<int>): Option<Fault> {
    if !Recommends(kind, f.payload, |entries|) then Some(PayloadFault)
    else if CoverFault(db.assets, f.cover).Some? then CoverFault(db.assets, f.cover)
    else if !Row(db.profiles, f.byline) then Some(Validation)
    else if !ValidTags(db.tags, kind, tags) || !ValidEntries(db.items, id, kind, entries) then Some(Validation)
    else None
  }

  function CandidatePath(kind: Kind, f: Fields): Result<string, Fault> {
    if !ValidSlug(f.slug) then Err(Validation)
    else
      match kind
      case CuratedArticle => Ok("/articles/" + f.slug + "/")
      case Post => Ok("/posts/" + f.slug + "/")
      case Topic => Ok("/topics/" + f.slug + "/")
      case Note =>
        if f.payload.NotePayload? && ValidSlug(f.payload.groupSlug)
        then Ok("/notes/" + f.payload.groupSlug + "/" + f.slug + "/")
        else Err(PayloadFault)
  }

  // A payload without the display mirrors, which follow the group and not the author.
  function Unmirrored(p: Payload): Payload {
    if p.NotePayload? then p.(mirror := NO_MIRROR) else p
  }

  // Same fields, tags and ordered entries, up to note-group mirrors.
  predicate SameMaterial(d: Draft, r: Revision) {
    && d.fields.(payload := PostPayload) == r.fields.(payload := PostPayload)
    && Unmirrored(d.fields.payload) == Unmirrored(r.fields.payload)
    && d.tags == r.tags && d.entries == r.entries
  }
}
