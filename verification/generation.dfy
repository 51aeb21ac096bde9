/** A command that leaves the generation alone leaves the published view alone. */
module GenerationProofs {
  import opened Base
  import opened Ordering
  import opened Schema
  import opened Content
  import opened Workflow
  import opened Editorial
  import opened CommandProofs
  import opened Projection

  // Commands on one item that do not touch its publication, and only append revisions.
  lemma ItemQuiet(rules: Rules, a: Db, b: Db, id: int)
    requires Good(rules, a) && Row(a.items, id) && |a.items| == |b.items|
    requires b == a.(items := b.items, drafts := b.drafts, revisions := b.revisions, reviews := b.reviews)
    requires b.items == a.items[id - 1 := At(b.items, id)] && a.revisions <= b.revisions
    requires SameItem(At(a.items, id), At(b.items, id))
    ensures ViewOf(a) == ViewOf(b)
  {
    forall i | 0 <= i < |a.items|
      ensures SameItem(a.items[i], b.items[i])
      ensures Public(a.items[i]) ==> Row(a.revisions, a.items[i].published.value)
    {
      assert ItemOk(a.items[i], i + 1, a.drafts[i], a.revisions, a.reviews);
    }
    SameView(a, b);
  }

  // Commands on the side tables whose rows no publication uses.
  lemma SideQuiet(rules: Rules, a: Db, b: Db)
    requires Good(rules, a)
    requires b == a.(tags := b.tags, groups := b.groups, profiles := b.profiles, assets := b.assets)
    requires SameFetch(a, b)
    ensures ViewOf(a) == ViewOf(b)
  {
    forall i | 0 <= i < |a.items| && Public(a.items[i])
      ensures Row(a.revisions, a.items[i].published.value)
    {
      assert ItemOk(a.items[i], i + 1, a.drafts[i], a.revisions, a.reviews);
    }
    SameView(a, b);
  }

  lemma TagUnused(rules: Rules, db: Db, id: int, t: Tag, i: int)
    requires Good(rules, db) && 0 <= i < |db.items| && Exported(db, i)
    requires id >= 0 && (id > 0 ==> Row(db.tags, id) && !PublishedUsesTag(db, id))
    ensures var r := At(db.revisions, db.items[i].published.value);
      Fetch(db, db.items[i].kind, r) == Fetch(db.(tags := PutRow(db.tags, id, t)), db.items[i].kind, r)
  {
    var r := At(db.revisions, db.items[i].published.value);
    assert forall t | t in r.tags :: Row(db.tags, t) && t != id by { assert RevisionOk(rules, db, r); }
    hide Good, FetchGroup, PublishedUsesTag;
    var ids := SortedIds(r.tags);
    forall k | 0 <= k < |ids|
      ensures FetchTag(db.tags, ids[k]) == FetchTag(PutRow(db.tags, id, t), ids[k])
    {
      assert ids[k] in r.tags;
    }
  }

  lemma {:induction false} FindOther(groups: seq<Group>, id: int, g: Group, slug: string)
    requires id > 0 ==> Row(groups, id) && At(groups, id).slug == g.slug
    requires slug != g.slug
    ensures FindGroup(groups, slug) == FindGroup(PutRow(groups, id, g), slug)
    ensures FindGroup(groups, slug).Some? ==>
              At(groups, FindGroup(groups, slug).value) == At(PutRow(groups, id, g), FindGroup(groups, slug).value)
  {
    var next := PutRow(groups, id, g);
    if id <= 0 {
      assert next[..|groups|] == groups;
    } else {
      FindFrom(groups, next, slug);
    }
  }

  lemma {:induction false} FindFrom(a: seq<Group>, b: seq<Group>, slug: string)
    requires |a| == |b| && forall i | 0 <= i < |a| :: a[i].slug == b[i].slug
    ensures FindGroup(a, slug) == FindGroup(b, slug)
  {
    if a != [] {
      FindFrom(a[..|a| - 1], b[..|b| - 1], slug);
    }
  }

  lemma GroupUnused(rules: Rules, db: Db, id: int, g: Group, i: int)
    requires Good(rules, db) && 0 <= i < |db.items| && Exported(db, i)
    requires id > 0 ==> Row(db.groups, id) && At(db.groups, id).slug == g.slug
    requires !PublishedUsesGroup(db, g.slug)
    ensures var r := At(db.revisions, db.items[i].published.value);
      Fetch(db, db.items[i].kind, r) == Fetch(db.(groups := PutRow(db.groups, id, g)), db.items[i].kind, r)
  {
    var r := At(db.revisions, db.items[i].published.value);
    if db.items[i].kind.Note? && r.fields.payload.NotePayload? {
      FindOther(db.groups, id, g, r.fields.payload.groupSlug);
    }
  }

  lemma TagQuiet(rules: Rules, db: Db, u: Actor, id: int, input: TagInput, now: int, next: Db)
    requires Good(rules, db) && DoPutTag(rules, db, u, id, input, now) == Ok(next)
    requires next.generation == db.generation
    ensures ViewOf(db) == ViewOf(next)
  {
    TagRows(rules, db, u, id, input, now, next);
    var t := TagRow(rules, input);
    assert PublishedUsesTag(next, id) == PublishedUsesTag(db, id);
    forall i | 0 <= i < |db.items| && Exported(db, i)
      ensures var r := At(db.revisions, db.items[i].published.value);
        Fetch(db, db.items[i].kind, r) == Fetch(next, db.items[i].kind, r)
    {
      TagUnused(rules, db, id, t, i);
    }
    SideQuiet(rules, db, next);
  }

  lemma GroupQuiet(rules: Rules, db: Db, u: Actor, id: int, input: Group, now: int, next: Db)
    requires Good(rules, db) && DoPutNoteGroup(db, u, id, input, now) == Ok(next)
    requires next.generation == db.generation
    ensures ViewOf(db) == ViewOf(next)
  {
    GroupRows(db, u, id, input, now, next);
    assert PublishedUsesGroup(next, input.slug) == PublishedUsesGroup(db, input.slug);
    forall i | 0 <= i < |db.items| && Exported(db, i)
      ensures var r := At(db.revisions, db.items[i].published.value);
        Fetch(db, db.items[i].kind, r) == Fetch(next, db.items[i].kind, r)
    {
      GroupUnused(rules, db, id, GroupRow(input), i);
    }
    SideQuiet(rules, db, next);
  }

  lemma ProfileQuiet(rules: Rules, db: Db, u: Actor, id: int, input: ProfileInput, now: int, next: Db)
    requires Good(rules, db) && DoUpdateProfile(rules, db, u, id, input, now) == Ok(next)
    requires next.generation == db.generation
    ensures ViewOf(db) == ViewOf(next)
  {
    ProfileRows(rules, db, u, id, input, now, next);
    assert PublishedUsesByline(next, id) == PublishedUsesByline(db, id);
    forall i | 0 <= i < |db.items| && Exported(db, i)
      ensures var r := At(db.revisions, db.items[i].published.value);
        Fetch(db, db.items[i].kind, r) == Fetch(next, db.items[i].kind, r)
    {
      var r := At(db.revisions, db.items[i].published.value);
      assert r.fields.byline != id;
    }
    SideQuiet(rules, db, next);
  }

  lemma AssetQuiet(rules: Rules, db: Db, u: Actor, c: Command, now: int, next: Db)
    requires c.Upload? || c.SetAssetDeleted? || c.Login?
    requires Good(rules, db) && Lawful(rules) && Apply(rules, db, u, c, now) == Ok(next)
    ensures ViewOf(db) == ViewOf(next)
  {
    AssetRows(rules, db, u, c, now, next);
    hide Apply, FetchTag, FetchGroup;
    forall i | 0 <= i < |db.items| && Exported(db, i)
      ensures var r := At(db.revisions, db.items[i].published.value);
        Fetch(db, db.items[i].kind, r) == Fetch(next, db.items[i].kind, r)
    {
      assert RevisionOk(rules, db, At(db.revisions, db.items[i].published.value));
    }
    SideQuiet(rules, db, next);
  }

  lemma CreateQuiet(rules: Rules, db: Db, u: Actor, kind: Kind, now: int, next: Db)
    requires Good(rules, db) && DoCreate(db, u, kind, now) == Ok(next)
    ensures ViewOf(db) == ViewOf(next)
  {
    forall i | 0 <= i < |db.items| && Public(db.items[i])
      ensures Row(db.revisions, db.items[i].published.value)
    {
      assert ItemOk(db.items[i], i + 1, db.drafts[i], db.revisions, db.reviews);
    }
    SameView(db, next);
  }

  // The rows a command on one item may write besides a publication.
  ghost predicate OneItem(a: Db, b: Db, id: int) {
    && Row(a.items, id) && |a.items| == |b.items| && a.revisions <= b.revisions
    && b == a.(items := b.items, drafts := b.drafts, revisions := b.revisions, reviews := b.reviews)
    && b.items == a.items[id - 1 := At(b.items, id)]
  }

  lemma DraftShape(rules: Rules, db: Db, u: Actor, c: Command, now: int, next: Db)
    requires Apply(rules, db, u, c, now) == Ok(next)
    requires c.Save? || c.RestoreRevision? || c.RestoreArchive? || c.Withdraw?
    ensures OneItem(db, next, c.id) && next.generation == db.generation
    ensures At(next.items, c.id).published == At(db.items, c.id).published
    ensures At(next.items, c.id).kind == At(db.items, c.id).kind
    ensures At(next.items, c.id).firstPublished == At(db.items, c.id).firstPublished
    ensures At(next.items, c.id).lastPublished == At(db.items, c.id).lastPublished
    ensures c.RestoreArchive? || At(next.items, c.id).archivedAt == At(db.items, c.id).archivedAt
    ensures c.RestoreArchive? ==> At(db.items, c.id).archivedAt.Some?
  {
  }

  lemma ReviewShape(rules: Rules, db: Db, u: Actor, c: Command, now: int, next: Db)
    requires Apply(rules, db, u, c, now) == Ok(next)
    requires c.Submit? || c.RequestChanges? || (c.Archive? && next.generation == db.generation)
    ensures OneItem(db, next, c.id) && next.generation == db.generation
    ensures At(next.items, c.id).kind == At(db.items, c.id).kind
    ensures !c.Archive? ==> SameItem(At(db.items, c.id), At(next.items, c.id))
    ensures c.Archive? ==> !Public(At(db.items, c.id)) && !Public(At(next.items, c.id))
  {
    if c.Submit? {
      var taken := TakeSnapshot(rules, db, u, c.id, c.version, now).value;
      SnapshotTakes(rules, db, u, c.id, c.version, now, taken);
    }
  }

  lemma ContentQuiet(rules: Rules, db: Db, u: Actor, c: Command, now: int, next: Db)
    requires Good(rules, db) && Apply(rules, db, u, c, now) == Ok(next)
    requires next.generation == db.generation
    requires c.Save? || c.Submit? || c.RequestChanges? || c.Withdraw? || c.Archive? || c.RestoreArchive? || c.RestoreRevision?
    ensures ViewOf(db) == ViewOf(next) && next.jobs == db.jobs
  {
    if c.Submit? || c.RequestChanges? || c.Archive? {
      ReviewShape(rules, db, u, c, now, next);
    } else {
      DraftShape(rules, db, u, c, now, next);
      // An archived item has no publication to bring back.
      assert ItemOk(At(db.items, c.id), c.id, At(db.drafts, c.id), db.revisions, db.reviews);
    }
    ItemQuiet(rules, db, next, c.id);
  }

  ghost predicate Bumped(db: Db, next: Db, now: int) {
    && next.generation == db.generation + 1
    && next.jobs == db.jobs + [Job(next.generation, Pending, None, None, 0, None, now)]
  }

  lemma PublicationBumps(rules: Rules, db: Db, u: Actor, c: Command, now: int, next: Db)
    requires Apply(rules, db, u, c, now) == Ok(next)
    requires c.PublishReviewed? || c.PublishDirect? || c.Unpublish? || (c.Archive? && next.generation != db.generation)
    ensures Bumped(db, next, now)
  {
    if c.PublishDirect? {
      var taken, path := DirectShape(rules, db, u, c.id, c.version, c.dates, now, next);
      SnapshotTakes(rules, db, u, c.id, c.version, now, taken);
    }
  }

  lemma SideBumps(rules: Rules, db: Db, u: Actor, c: Command, now: int, next: Db)
    requires Apply(rules, db, u, c, now) == Ok(next)
    requires c.PutTag? || c.PutNoteGroup? || c.UpdateProfile?
    ensures Bumped(db, next, now) || (next.generation == db.generation && next.jobs == db.jobs)
  {
    match c
    case PutTag(id, tag) => TagRows(rules, db, u, id, tag, now, next);
    case PutNoteGroup(id, group) => GroupRows(db, u, id, group, now, next);
    case UpdateProfile(id, profile) => ProfileRows(rules, db, u, id, profile, now, next);
  }

  lemma SideViews(rules: Rules, db: Db, u: Actor, c: Command, now: int, next: Db)
    requires Good(rules, db) && Apply(rules, db, u, c, now) == Ok(next) && next.generation == db.generation
    requires c.PutTag? || c.PutNoteGroup? || c.UpdateProfile?
    ensures ViewOf(db) == ViewOf(next)
  {
    match c
    case PutTag(id, tag) => TagQuiet(rules, db, u, id, tag, now, next);
    case PutNoteGroup(id, group) => GroupQuiet(rules, db, u, id, group, now, next);
    case UpdateProfile(id, profile) => ProfileQuiet(rules, db, u, id, profile, now, next);
  }

  // What a step does to the generation, the outbox and the published view.
  ghost predicate Coupled(db: Db, c: Command, next: Db, now: int) {
    || (next.generation == db.generation && ViewOf(next) == ViewOf(db) && next.jobs == db.jobs)
    || (Fenced(c) && Bumped(db, next, now))
  }

  /** The key to safe retries: the published view changes only together with the generation. */
  lemma GenerationDeterminesView(rules: Rules, db: Db, u: Actor, c: Command, now: int)
    requires Good(rules, db) && Lawful(rules)
    ensures Coupled(db, c, After(rules, db, u, c, now), now)
  {
    var change := Apply(rules, db, u, c, now);
    if change.Ok? {
      var next := change.value;
      if c.Create? {
        CreateQuiet(rules, db, u, c.kind, now, next);
      } else if c.Upload? || c.SetAssetDeleted? || c.Login? {
        AssetQuiet(rules, db, u, c, now, next);
        AssetRows(rules, db, u, c, now, next);
      } else if c.PutTag? || c.PutNoteGroup? || c.UpdateProfile? {
        SideBumps(rules, db, u, c, now, next);
        if next.generation == db.generation { SideViews(rules, db, u, c, now, next); }
      } else if c.PublishReviewed? || c.PublishDirect? || c.Unpublish? || next.generation != db.generation {
        if !c.PublishReviewed? && !c.PublishDirect? && !c.Unpublish? && !c.Archive? {
          if c.Submit? || c.RequestChanges? { ReviewShape(rules, db, u, c, now, next); }
          else { DraftShape(rules, db, u, c, now, next); }
        } else {
          PublicationBumps(rules, db, u, c, now, next);
        }
      } else {
        ContentQuiet(rules, db, u, c, now, next);
      }
    }
  }
}
