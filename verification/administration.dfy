/** Tags, note groups, profiles and images: which changes are accepted, from whom, and what they leave. */
module Administration {
  import opened Base
  import opened Text
  import opened Words
  import opened Schema
  import opened Ordering
  import opened Policy
  import opened Content
  import opened Workflow
  import opened Editorial
  import opened CommandProofs

  // A revision some reader sees.
  ghost predicate Shows(db: Db, i: int, r: Revision)
    requires 0 <= i < |db.items|
  {
    && db.items[i].published.Some? && db.items[i].archivedAt == None
    && 0 < db.items[i].published.value <= |db.revisions| && r == db.revisions[db.items[i].published.value - 1]
  }

  // The side tables after a change, with a build due if readers see it.
  predicate Written(db: Db, next: Db, plain: Db, seen: bool, now: int) {
    next == if seen then plain.(generation := db.generation + 1, updatedAt := now,
                                jobs := db.jobs + [Job(db.generation + 1, Pending, None, None, 0, None, now)])
            else plain
  }

  // ----- tags -----

  // t is the collapsed name s in lower case.
  predicate LowerOf(rules: Rules, s: string, t: string) {
    |t| == |s| && forall i | 0 <= i < |s| :: t[i] == rules.lower(s[i])
  }

  predicate Meets(rules: Rules, t: Tag, input: TagInput) {
    t.slug == input.slug || LowerOf(rules, Collapse(input.name), t.normalized)
  }

  predicate TagFits(input: TagInput) {
    && ValidSlug(input.slug) && !Blank(input.name) && |input.name| <= 100 && |input.description| <= 1000
    && |input.nameEn| <= 100 && |input.descriptionEn| <= 1000 && (Blank(input.nameEn) ==> input.descriptionEn == "")
  }

  /** A tag is put by an administrator, keeping its slug, when no other tag has its name or its slug. */
  lemma TagAccepted(rules: Rules, db: Db, u: Actor, id: int, input: TagInput, now: int)
    ensures DoPutTag(rules, db, u, id, input, now).Ok? <==>
      u.active && u.role == Admin && 0 <= id <= |db.tags| && TagFits(input) && (id > 0 ==> db.tags[id - 1].slug == input.slug)
      && forall i | 0 <= i < |db.tags| && i + 1 != id :: !Meets(rules, db.tags[i], input)
  {
    var name := Collapse(input.name);
    assert Trim(input.nameEn) == "" <==> Blank(input.nameEn);
    hide Collapse, Trim, IsSpace, ValidSlug, PublishedUsesTag;
    assert Normalize(rules, name) == "" <==> name == "";
    forall i | 0 <= i < |db.tags|
      ensures db.tags[i].normalized == Normalize(rules, name) <==> LowerOf(rules, name, db.tags[i].normalized)
    {
    }
  }

  /** What it leaves: the row under its number, and a build if a reader sees the tag. */
  lemma TagLeaves(rules: Rules, db: Db, u: Actor, id: int, input: TagInput, now: int, next: Db)
    requires DoPutTag(rules, db, u, id, input, now) == Ok(next)
    ensures 0 <= id <= |db.tags| && |next.tags| == if id > 0 then |db.tags| else |db.tags| + 1
    ensures var t := next.tags[if id > 0 then id - 1 else |db.tags|];
      && t.name == Collapse(input.name) && LowerOf(rules, t.name, t.normalized) && t.slug == input.slug
      && t.description == input.description
      && t.english == (if Blank(input.nameEn) then None else Some(Translation(Trim(input.nameEn), input.descriptionEn)))
      && Written(db, next, db.(tags := if id > 0 then db.tags[id - 1 := t] else db.tags + [t]),
                 id > 0 && exists i, r :: 0 <= i < |db.items| && Shows(db, i, r) && id in r.tags, now)
  {
    hide Collapse, Trim, IsSpace, Blank, ValidSlug, PublishedUsesTag, DoPutTag, TagOk, TagRow, LowerOf, Shows;
    TagRowIs(rules, input);
    TagRows(rules, db, u, id, input, now, next);
    var plain := db.(tags := PutRow(db.tags, id, TagRow(rules, input)));
    TagSeen(plain, id);
    assert forall i, r | 0 <= i < |db.items| :: Shows(plain, i, r) == Shows(db, i, r) by { SameShows(db, plain); }
  }

  lemma TagRowIs(rules: Rules, input: TagInput)
    ensures var t := TagRow(rules, input);
      && t.name == Collapse(input.name) && LowerOf(rules, t.name, t.normalized) && t.slug == input.slug
      && t.description == input.description
      && t.english == (if Blank(input.nameEn) then None else Some(Translation(Trim(input.nameEn), input.descriptionEn)))
  {
    assert Trim(input.nameEn) == "" <==> Blank(input.nameEn);
    hide Collapse, Trim, IsSpace;
  }

  lemma SameShows(a: Db, b: Db)
    requires a.items == b.items && a.revisions == b.revisions
    ensures forall i, r | 0 <= i < |a.items| :: Shows(a, i, r) == Shows(b, i, r)
  {
  }

  lemma TagSeen(db: Db, id: int)
    ensures PublishedUsesTag(db, id) <==> exists i, r :: 0 <= i < |db.items| && Shows(db, i, r) && id in r.tags
  {
    if PublishedUsesTag(db, id) {
      var i :| 0 <= i < |db.items| && Public(db.items[i]) && Row(db.revisions, db.items[i].published.value)
               && id in At(db.revisions, db.items[i].published.value).tags;
      assert Shows(db, i, db.revisions[db.items[i].published.value - 1]);
    }
  }

  // ----- note groups -----

  predicate GroupFits(g: Group) {
    && ValidSlug(g.slug) && !Blank(g.name) && |g.name| <= 100 && |g.description| <= 1000
    && |g.nameEn| <= 100 && |g.descriptionEn| <= 1000 && 0 <= g.order <= 1000000
  }

  /** A note group is put by an administrator, under a slug of its own that it keeps. */
  lemma GroupAccepted(rules: Rules, db: Db, u: Actor, id: int, input: Group, now: int)
    requires Good(rules, db)
    ensures DoPutNoteGroup(db, u, id, input, now).Ok? <==>
      u.active && u.role == Admin && 0 <= id <= |db.groups| && GroupFits(input)
      && if id > 0 then db.groups[id - 1].slug == input.slug else forall g | g in db.groups :: g.slug != input.slug
  {
    assert forall i, j | 0 <= i < j < |db.groups| :: db.groups[i].slug != db.groups[j].slug;
    hide Good, PublishedUsesGroup, ValidSlug, Blank;
    var found := FindGroup(db.groups, input.slug);
    if 0 < id <= |db.groups| { assert db.groups[id - 1] in db.groups; }
    if found.Some? { assert At(db.groups, found.value) in db.groups; }
  }

  /** What it leaves: the trimmed row under its number, and a build if a reader sees a note of the group. */
  lemma GroupLeaves(rules: Rules, db: Db, u: Actor, id: int, input: Group, now: int, next: Db)
    requires Good(rules, db) && DoPutNoteGroup(db, u, id, input, now) == Ok(next)
    ensures 0 <= id <= |db.groups| && |next.groups| == if id > 0 then |db.groups| else |db.groups| + 1
    ensures var g := input.(name := Trim(input.name), nameEn := Trim(input.nameEn));
      Written(db, next, db.(groups := if id > 0 then db.groups[id - 1 := g] else db.groups + [g]),
              exists i, r :: 0 <= i < |db.items| && Shows(db, i, r) && db.items[i].kind == Note
                             && r.fields.payload.NotePayload? && r.fields.payload.groupSlug == input.slug, now)
  {
    hide Trim, IsSpace, ValidGroup, PublishedUsesGroup, RevisionOk;
    var plain := db.(groups := PutRow(db.groups, id, GroupRow(input)));
    ShownAreOwn(rules, db);
    GroupSeen(plain, input.slug);
    assert forall i, r | 0 <= i < |db.items| :: Shows(plain, i, r) == Shows(db, i, r);
  }

  // What readers see of an item is a revision of that item.
  lemma ShownAreOwn(rules: Rules, db: Db)
    requires Good(rules, db)
    ensures forall i, r | 0 <= i < |db.items| && Shows(db, i, r) :: r.content == i + 1
  {
    hide RevisionOk;
    forall i, r | 0 <= i < |db.items| && Shows(db, i, r)
      ensures r.content == i + 1
    {
      assert ItemOk(db.items[i], i + 1, db.drafts[i], db.revisions, db.reviews);
    }
  }

  lemma GroupSeen(db: Db, slug: string)
    requires forall i, r | 0 <= i < |db.items| && Shows(db, i, r) :: r.content == i + 1
    ensures PublishedUsesGroup(db, slug) <==>
      exists i, r :: 0 <= i < |db.items| && Shows(db, i, r) && db.items[i].kind == Note
                     && r.fields.payload.NotePayload? && r.fields.payload.groupSlug == slug
  {
    forall i | 0 <= i < |db.items| && Public(db.items[i]) && Row(db.revisions, db.items[i].published.value)
      ensures Shows(db, i, db.revisions[db.items[i].published.value - 1])
    {
    }
  }

  // ----- profiles -----

  /** A profile is changed by its own active user or an administrator, to a name of 1 to 100 characters. */
  lemma ProfileAccepted(rules: Rules, db: Db, u: Actor, id: int, input: ProfileInput, now: int)
    ensures DoUpdateProfile(rules, db, u, id, input, now).Ok? <==>
      u.active && (u.id == id || u.role == Admin) && 0 < id <= |db.profiles|
      && !Blank(input.displayName) && |Trim(input.displayName)| <= 100
      && Utf8Length(input.bio) <= 10000 && rules.markdown(input.bio) && (input.website == "" || rules.website(input.website))
  {
    hide PublishedUsesByline, Utf8Length, IsSpace;
  }

  /** What it leaves: name, biography and site of that row, and a build if a reader sees the byline. */
  lemma ProfileLeaves(rules: Rules, db: Db, u: Actor, id: int, input: ProfileInput, now: int, next: Db)
    requires Good(rules, db) && DoUpdateProfile(rules, db, u, id, input, now) == Ok(next)
    ensures 0 < id <= |db.profiles|
    ensures var was := db.profiles[id - 1];
      var row := Author(was.slug, Trim(input.displayName), input.bio, was.avatar, input.website);
      Written(db, next, db.(profiles := db.profiles[id - 1 := row]),
              exists i, r :: 0 <= i < |db.items| && Shows(db, i, r) && r.fields.byline == id, now)
  {
    hide Trim, IsSpace, PublishedUsesByline, Utf8Length, RevisionOk;
    var p := At(db.profiles, id).(displayName := Trim(input.displayName), bio := input.bio, website := input.website);
    var plain := db.(profiles := Set(db.profiles, id, p));
    ShownAreOwn(rules, db);
    BylineSeen(plain, id);
    assert forall i, r | 0 <= i < |db.items| :: Shows(plain, i, r) == Shows(db, i, r);
  }

  lemma BylineSeen(db: Db, user: int)
    requires forall i, r | 0 <= i < |db.items| && Shows(db, i, r) :: r.content == i + 1
    ensures PublishedUsesByline(db, user) <==>
      exists i, r :: 0 <= i < |db.items| && Shows(db, i, r) && r.fields.byline == user
  {
    forall i | 0 <= i < |db.items| && Public(db.items[i]) && Row(db.revisions, db.items[i].published.value)
      ensures Shows(db, i, db.revisions[db.items[i].published.value - 1])
    {
    }
  }

  // ----- images and identities -----

  ghost predicate HasBytes(db: Db, i: int, sha: string) {
    0 <= i < |db.assets| && db.assets[i].sha == sha
  }

  /** Any active user uploads an image unless its bytes were deleted; known bytes add nothing. */
  lemma UploadAccepted(rules: Rules, db: Db, u: Actor, sha: string, card: string)
    ensures DoUpload(rules, db, u, sha, card).Ok? <==>
      u.active && rules.assetUrl(card) && forall i | HasBytes(db, i, sha) :: db.assets[i].deletedAt == None
    ensures forall next | DoUpload(rules, db, u, sha, card) == Ok(next) ::
      next == if exists i :: HasBytes(db, i, sha) then db else db.(assets := db.assets + [Asset(sha, card, None)])
  {
    forall i | 0 <= i < |db.assets|
      ensures HasBytes(db, i, sha) <==> db.assets[i].sha == sha
    {
    }
  }

  /** An administrator deletes and restores images; the moment of the first deletion stays. */
  lemma DeletionAccepted(db: Db, u: Actor, id: int, deleted: bool, now: int)
    ensures DoSetAssetDeleted(db, u, id, deleted, now).Ok? <==> u.active && u.role == Admin && 0 < id <= |db.assets|
    ensures forall next | DoSetAssetDeleted(db, u, id, deleted, now) == Ok(next) ::
      var was := db.assets[id - 1];
      next == db.(assets := db.assets[id - 1 := was.(deletedAt := if !deleted then None
                                                                  else if was.deletedAt.Some? then was.deletedAt else Some(now))])
  {
    if 0 < id <= |db.assets| {
      var was := db.assets[id - 1];
      assert was.deletedAt == None ==> was.(deletedAt := None) == was;
      assert db.assets[id - 1 := was] == db.assets;
    }
  }

  /** A first login stores the name and portrait it came with, and neither biography nor site. */
  lemma LoginLeaves(rules: Rules, db: Db, u: Actor, profile: Author, now: int)
    ensures Apply(rules, db, u, Login(profile), now)
      == Ok(db.(profiles := db.profiles + [Author(profile.slug, profile.displayName, "", profile.avatar, "")]))
  {
  }
}
