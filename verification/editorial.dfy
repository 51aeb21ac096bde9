/** What every command keeps true of the content tables, and what it can never undo. */
module Editorial {
  import opened Base
  import opened Text
  import opened Ordering
  import opened Schema
  import opened Policy
  import opened Content
  import opened Workflow

  // ----- the invariant -----

  // The review pointer, the published pointer and the archive flag agree with the editorial state.
  ghost predicate ItemOk(c: Item, id: int, d: Draft, revisions: seq<Revision>, reviews: map<int, Review>) {
    && (c.state.InReview? <==> c.pending.Some?)
    && (c.archivedAt.Some? ==> c.published.None? && c.pending.None? && c.state.Drafting?)
    && (c.pending.Some? ==>
          && Row(revisions, c.pending.value) && At(revisions, c.pending.value).content == id
          && SameMaterial(d, At(revisions, c.pending.value)) && c.pending.value !in reviews)
    && (c.published.Some? ==>
          && Row(revisions, c.published.value) && At(revisions, c.published.value).content == id
          && c.firstPublished.Some? && c.lastPublished.Some?)
    && (c.state.Synced? ==> c.published.Some? && SameMaterial(d, At(revisions, c.published.value)))
  }

  ghost predicate ItemsOk(db: Db) {
    && |db.drafts| == |db.items|
    && (forall i | 0 <= i < |db.items| ::
          ItemOk(db.items[i], i + 1, db.drafts[i], db.revisions, db.reviews))
    && forall r | r in db.reviews :: Row(db.revisions, r)
  }

  ghost predicate References(db: Db, r: Revision) {
    && Row(db.profiles, r.fields.byline)
    && (r.fields.cover.Some? ==> Row(db.assets, r.fields.cover.value))
    && (forall t | t in r.tags :: Row(db.tags, t))
    && (r.fields.payload.NotePayload? ==> FindGroup(db.groups, r.fields.payload.groupSlug).Some?)
  }

  // Every revision was complete for its kind when it was taken, and still refers to stored rows.
  ghost predicate RevisionOk(rules: Rules, db: Db, r: Revision) {
    && Row(db.items, r.content) && r.no > 0
    && (var kind := At(db.items, r.content).kind;
        && FieldsFault(rules, kind, r.fields, true).None?
        && CandidatePath(kind, r.fields).Ok?
        && Recommends(kind, r.fields.payload, |r.entries|)
        && (kind.Topic? ==> r.tags == {})
        && ValidEntries(db.items, r.content, kind, r.entries))
    && References(db, r)
  }

  ghost predicate RevisionsOk(rules: Rules, db: Db) {
    && (forall k | 0 <= k < |db.revisions| :: RevisionOk(rules, db, db.revisions[k]))
    && forall j, k | 0 <= j < k < |db.revisions| && db.revisions[j].content == db.revisions[k].content ::
         db.revisions[j].no < db.revisions[k].no
  }

  ghost predicate IsHome(routes: map<string, Route>, id: int, path: string) {
    path in routes && routes[path] == Route(id, Canonical)
  }

  ghost predicate HasHome(routes: map<string, Route>, id: int) {
    exists p :: IsHome(routes, id, p)
  }

  // At most one canonical path per content, and one for every content that owns any path.
  ghost predicate HomesOk(routes: map<string, Route>) {
    && (forall p, q | p in routes && q in routes && routes[p] == routes[q] && routes[p].kind.Canonical? :: p == q)
    && forall p | p in routes :: HasHome(routes, routes[p].owner)
  }

  ghost predicate Homed(db: Db, i: int)
    requires 0 <= i < |db.items|
  {
    var c := db.items[i];
    c.published.Some? && Row(db.revisions, c.published.value) ==>
      var path := CandidatePath(c.kind, At(db.revisions, c.published.value).fields);
      path.Ok? ==> IsHome(db.routes, i + 1, path.value)
  }

  ghost predicate RoutesOk(db: Db) {
    && HomesOk(db.routes)
    && (forall p | p in db.routes :: p != "" && Row(db.items, db.routes[p].owner))
    && forall i | 0 <= i < |db.items| :: Homed(db, i)
  }

  predicate TagOk(t: Tag) {
    match t.english
    case None => ValidLabel(t.slug, t.name, t.description, "", "")
    case Some(e) => ValidLabel(t.slug, t.name, t.description, e.name, e.description)
  }

  ghost predicate TaxonomyOk(rules: Rules, db: Db) {
    && (forall i | 0 <= i < |db.tags| :: TagOk(db.tags[i]))
    && (forall i, j | 0 <= i < j < |db.tags| :: db.tags[i].slug != db.tags[j].slug)
    && (forall i | 0 <= i < |db.groups| :: ValidGroup(db.groups[i]))
    && (forall i, j | 0 <= i < j < |db.groups| :: db.groups[i].slug != db.groups[j].slug)
    && (forall i | 0 <= i < |db.profiles| :: rules.markdown(db.profiles[i].bio))
    && (forall i | 0 <= i < |db.assets| :: rules.assetUrl(db.assets[i].card))
  }

  ghost predicate JobsOk(db: Db) {
    && db.generation == |db.jobs|
    && forall i | 0 <= i < |db.jobs| :: db.jobs[i].generation == i + 1
  }

  ghost predicate Good(rules: Rules, db: Db) {
    ItemsOk(db) && RevisionsOk(rules, db) && RoutesOk(db) && TaxonomyOk(rules, db) && JobsOk(db)
  }

  // An empty biography is acceptable Markdown: the one fact about the text rules the proofs use.
  ghost predicate Lawful(rules: Rules) {
    rules.markdown("")
  }

  lemma EmptyIsGood(rules: Rules)
    ensures Good(rules, EMPTY)
  {
  }

  // ----- append-only tables -----

  // Rows are only ever added; identities, owners, kinds and slugs never change.
  ghost predicate Grows(a: Db, b: Db) {
    && |a.items| <= |b.items|
    && (forall i | 0 <= i < |a.items| :: a.items[i].kind == b.items[i].kind && a.items[i].owner == b.items[i].owner)
    && a.revisions <= b.revisions
    && (forall r | r in a.reviews :: r in b.reviews && a.reviews[r] == b.reviews[r])
    && (forall p | p in a.routes :: p in b.routes && a.routes[p].owner == b.routes[p].owner)
    && |a.tags| <= |b.tags| && |a.profiles| <= |b.profiles| && |a.assets| <= |b.assets|
    && (forall i | 0 <= i < |a.tags| :: a.tags[i].slug == b.tags[i].slug)
    && (forall i | 0 <= i < |a.assets| :: a.assets[i].card == b.assets[i].card)
    && |a.groups| <= |b.groups|
    && (forall i | 0 <= i < |a.groups| :: a.groups[i].slug == b.groups[i].slug)
    && a.generation <= b.generation
    && |a.jobs| <= |b.jobs|
  }

  lemma GrowsTransitive(a: Db, b: Db, c: Db)
    requires Grows(a, b) && Grows(b, c)
    ensures Grows(a, c)
  {
  }

  // ----- building blocks -----

  // The tables a revision refers to may grow, as long as kinds and slugs stay.
  ghost predicate Supports(a: Db, b: Db) {
    && |a.items| <= |b.items|
    && (forall i | 0 <= i < |a.items| :: a.items[i].kind == b.items[i].kind)
    && |a.tags| <= |b.tags| && |a.profiles| <= |b.profiles| && |a.assets| <= |b.assets|
    && |a.groups| <= |b.groups|
    && (forall i | 0 <= i < |a.groups| :: a.groups[i].slug == b.groups[i].slug)
  }

  lemma GroupStays(a: seq<Group>, b: seq<Group>, slug: string)
    requires |a| <= |b| && forall i | 0 <= i < |a| :: a[i].slug == b[i].slug
    ensures FindGroup(a, slug).Some? ==> FindGroup(b, slug).Some?
  {
    if FindGroup(a, slug).Some? {
      var id := FindGroup(a, slug).value;
      assert b[id - 1] in b && b[id - 1].slug == slug;
    }
  }

  lemma RevisionStays(rules: Rules, a: Db, b: Db, r: Revision)
    requires Supports(a, b) && RevisionOk(rules, a, r)
    ensures RevisionOk(rules, b, r)
  {
    if r.fields.payload.NotePayload? {
      GroupStays(a.groups, b.groups, r.fields.payload.groupSlug);
    }
  }

  lemma RevisionsStay(rules: Rules, a: Db, b: Db)
    requires Supports(a, b) && a.revisions == b.revisions && RevisionsOk(rules, a)
    ensures RevisionsOk(rules, b)
  {
    forall k | 0 <= k < |b.revisions|
      ensures RevisionOk(rules, b, b.revisions[k])
    {
      RevisionStays(rules, a, b, a.revisions[k]);
    }
  }

  lemma LastNoBounds(revisions: seq<Revision>, content: int)
    ensures forall r | r in revisions && r.content == content :: r.no <= LastNo(revisions, content)
  {
    if revisions != [] {
      var n := |revisions| - 1;
      LastNoBounds(revisions[..n], content);
      assert revisions == revisions[..n] + [revisions[n]];
    }
  }

  lemma AddRevision(rules: Rules, db: Db, r: Revision)
    requires RevisionsOk(rules, db) && RevisionOk(rules, db, r)
    requires r.no == LastNo(db.revisions, r.content) + 1
    ensures RevisionsOk(rules, db.(revisions := db.revisions + [r]))
  {
    var next := db.(revisions := db.revisions + [r]);
    LastNoBounds(db.revisions, r.content);
    forall k | 0 <= k < |next.revisions|
      ensures RevisionOk(rules, next, next.revisions[k])
    {
      RevisionStays(rules, db, next, next.revisions[k]);
    }
  }

  // More revisions disturb no item and no route.
  lemma ItemsKeep(db: Db, r: Revision)
    requires ItemsOk(db) && RoutesOk(db)
    ensures ItemsOk(db.(revisions := db.revisions + [r])) && RoutesOk(db.(revisions := db.revisions + [r]))
  {
    var next := db.(revisions := db.revisions + [r]);
    forall i | 0 <= i < |next.items|
      ensures ItemOk(next.items[i], i + 1, next.drafts[i], next.revisions, next.reviews) && Homed(next, i)
    {
      assert ItemOk(db.items[i], i + 1, db.drafts[i], db.revisions, db.reviews) && Homed(db, i);
    }
  }

  lemma MarkDirtyGood(rules: Rules, db: Db, now: int)
    requires Good(rules, db)
    ensures Good(rules, MarkDirty(db, now)) && Grows(db, MarkDirty(db, now))
  {
    var next := MarkDirty(db, now);
    RevisionsStay(rules, db, next);
    forall i | 0 <= i < |next.items|
      ensures Homed(next, i)
    {
      assert Homed(db, i);
    }
  }

  // Replacing one item row by one that fits the other tables.
  lemma PutItemGood(rules: Rules, db: Db, id: int, c: Item)
    requires Good(rules, db) && Row(db.items, id)
    requires c.kind == At(db.items, id).kind && c.owner == At(db.items, id).owner
    requires c.published == At(db.items, id).published || c.published.None?
    requires ItemOk(c, id, At(db.drafts, id), db.revisions, db.reviews)
    ensures Good(rules, PutItem(db, id, c)) && Grows(db, PutItem(db, id, c))
  {
    hide RevisionOk;
    var next := PutItem(db, id, c);
    RevisionsStay(rules, db, next);
    forall i | 0 <= i < |next.items|
      ensures Homed(next, i)
    {
      assert Homed(db, i);
    }
  }

  // A new draft for an item that is neither under review nor in step with its publication.
  lemma EditGood(rules: Rules, db: Db, id: int, f: Fields, tags: set<int>, entries: seq<int>, c: Item)
    requires Good(rules, db) && Row(db.items, id)
    requires c.kind == At(db.items, id).kind && c.owner == At(db.items, id).owner
    requires c.published == At(db.items, id).published && c.pending.None? && c.archivedAt.None?
    requires c.firstPublished == At(db.items, id).firstPublished && c.lastPublished == At(db.items, id).lastPublished
    requires c.state.Drafting? || c.state.ChangesRequested?
    ensures Good(rules, PutItem(SaveDraft(db, id, f, tags, entries), id, c))
    ensures Grows(db, PutItem(SaveDraft(db, id, f, tags, entries), id, c))
  {
    hide RevisionOk, TagOk;
    var next := PutItem(SaveDraft(db, id, f, tags, entries), id, c);
    RevisionsStay(rules, db, next);
    forall i | 0 <= i < |next.items|
      ensures ItemOk(next.items[i], i + 1, next.drafts[i], next.revisions, next.reviews) && Homed(next, i)
    {
      assert ItemOk(db.items[i], i + 1, db.drafts[i], db.revisions, db.reviews) && Homed(db, i);
    }
  }

  // ----- routes -----

  // Who owns what, and who is at home where, after a claim.
  lemma ClaimedRoutes(routes: map<string, Route>, id: int, path: string)
    requires RouteAvailable(routes, id, path)
    ensures var next := Claim(Demote(routes, id), id, path);
      && IsHome(next, id, path)
      && (forall o, p | o != id :: IsHome(next, o, p) <==> IsHome(routes, o, p))
      && (forall p | IsHome(next, id, p) :: p == path)
      && (forall p | p in routes :: p in next && next[p].owner == routes[p].owner)
      && (forall p | p in next :: p in routes || (p == path && next[p].owner == id))
  {
  }

  lemma ClaimHomes(routes: map<string, Route>, id: int, path: string)
    requires HomesOk(routes) && RouteAvailable(routes, id, path)
    ensures var next := Claim(Demote(routes, id), id, path);
      && HomesOk(next) && IsHome(next, id, path)
      && (forall o, p | o != id && IsHome(routes, o, p) :: IsHome(next, o, p))
      && (forall p | p in routes :: p in next && next[p].owner == routes[p].owner)
      && (forall p | p in next :: p in routes || (p == path && next[p].owner == id))
  {
    hide Claim, Demote;
    var next := Claim(Demote(routes, id), id, path);
    ClaimedRoutes(routes, id, path);
    forall p, q | p in next && q in next && next[p] == next[q] && next[p].kind.Canonical?
      ensures p == q
    {
      var o := next[p].owner;
      assert IsHome(next, o, p) && IsHome(next, o, q);
      if o != id { assert IsHome(routes, o, p) && IsHome(routes, o, q); }
    }
    forall p | p in next
      ensures HasHome(next, next[p].owner)
    {
      if next[p].owner != id {
        assert p in routes && HasHome(routes, routes[p].owner);
        var q :| IsHome(routes, routes[p].owner, q);
        assert IsHome(next, next[p].owner, q);
      }
    }
  }

  function Reviewed(reviews: map<int, Review>, rid: int, review: Option<Review>): map<int, Review> {
    if review.None? then reviews else reviews[rid := review.value]
  }

  // The rows of a publication: routes claimed, the review (if any) recorded, the item pointed at rid.
  function Published(db: Db, id: int, rid: int, c: Item, review: Option<Review>, path: string): Db
    requires Row(db.items, id)
  {
    PutItem(db.(routes := Claim(Demote(db.routes, id), id, path), reviews := Reviewed(db.reviews, rid, review)), id, c)
  }

  ghost predicate ReadyToPublish(db: Db, id: int, rid: int, c: Item, review: Option<Review>, path: string) {
    && Row(db.items, id) && Row(db.drafts, id) && Row(db.revisions, rid)
    && At(db.revisions, rid).content == id && SameMaterial(At(db.drafts, id), At(db.revisions, rid))
    && c.kind == At(db.items, id).kind && c.owner == At(db.items, id).owner
    && c.published == Some(rid) && c.pending.None? && c.state.Synced? && c.archivedAt.None?
    && c.firstPublished.Some? && c.lastPublished.Some?
    && CandidatePath(c.kind, At(db.revisions, rid).fields) == Ok(path) && RouteAvailable(db.routes, id, path)
    && (review.Some? ==> rid !in db.reviews)
  }

  lemma PublishItems(db: Db, id: int, rid: int, c: Item, review: Option<Review>, path: string)
    requires ItemsOk(db) && ReadyToPublish(db, id, rid, c, review, path)
    ensures ItemsOk(Published(db, id, rid, c, review, path))
  {
    var next := Published(db, id, rid, c, review, path);
    forall i | 0 <= i < |next.items|
      ensures ItemOk(next.items[i], i + 1, next.drafts[i], next.revisions, next.reviews)
    {
      assert ItemOk(db.items[i], i + 1, db.drafts[i], db.revisions, db.reviews);
    }
  }

  lemma PathsAreNotEmpty(kind: Kind, f: Fields)
    ensures CandidatePath(kind, f).Ok? ==> CandidatePath(kind, f).value != ""
  {
    hide ValidSlug;
  }

  lemma PublishRoutes(db: Db, id: int, rid: int, c: Item, review: Option<Review>, path: string)
    requires RoutesOk(db) && ReadyToPublish(db, id, rid, c, review, path)
    ensures RoutesOk(Published(db, id, rid, c, review, path))
  {
    var next := Published(db, id, rid, c, review, path);
    ClaimHomes(db.routes, id, path);
    PathsAreNotEmpty(c.kind, At(db.revisions, rid).fields);
    forall i | 0 <= i < |next.items|
      ensures Homed(next, i)
    {
      assert Homed(db, i);
    }
  }

  lemma PublishGrows(db: Db, id: int, rid: int, c: Item, review: Option<Review>, path: string)
    requires HomesOk(db.routes) && ReadyToPublish(db, id, rid, c, review, path)
    ensures Grows(db, Published(db, id, rid, c, review, path))
  {
    ClaimHomes(db.routes, id, path);
  }

  lemma PublishGood(rules: Rules, db: Db, id: int, rid: int, c: Item, review: Option<Review>, path: string)
    requires Good(rules, db) && ReadyToPublish(db, id, rid, c, review, path)
    ensures Good(rules, Published(db, id, rid, c, review, path))
  {
    var next := Published(db, id, rid, c, review, path);
    assert ItemsOk(next) by { PublishItems(db, id, rid, c, review, path); }
    assert RoutesOk(next) by { PublishRoutes(db, id, rid, c, review, path); }
    assert RevisionsOk(rules, next) by { RevisionsStay(rules, db, next); }
    assert TaxonomyOk(rules, next) by { assert TaxonomyOk(rules, db); }
  }
}
