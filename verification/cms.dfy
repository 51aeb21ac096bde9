/** The CMS services as code: each command is a transaction of row statements that either commits or rolls back. */
module CmsService {
  import opened Base
  import opened Text
  import opened Schema
  import opened Ordering
  import opened Policy
  import opened Content
  import opened Workflow

  // ----- counting distinct rows -----

  function Ids(s: seq<int>): set<int> {
    set x | x in s
  }

  lemma {:induction false} DistinctCount(s: seq<int>)
    requires Distinct(s)
    ensures |Ids(s)| == |s|
  {
    if s != [] {
      var n := |s| - 1;
      DistinctCount(s[..n]);
      assert s == s[..n] + [s[n]];
      assert Ids(s) == Ids(s[..n]) + {s[n]};
    }
  }

  // SELECT COUNT(*) ... WHERE id IN (...)
  function CountOf(s: seq<int>, found: int -> bool): nat {
    |set x | x in s && found(x)|
  }

  // As many rows as distinct identifiers means every one was found.
  lemma AllFound(s: seq<int>, found: int -> bool)
    requires Distinct(s)
    ensures CountOf(s, found) == |s| <==> forall x | x in s :: found(x)
  {
    DistinctCount(s);
    var hits := set x | x in s && found(x);
    assert hits <= Ids(s);
    if |hits| == |s| {
      assert Ids(s) == hits + (Ids(s) - hits);
      assert hits == Ids(s);
      forall x | x in s
        ensures found(x)
      {
        assert x in Ids(s);
      }
    }
    if forall x | x in s :: found(x) {
      assert hits == Ids(s);
    }
  }

  function FaultOf(change: Change): Option<Fault> {
    match change
    case Ok(_) => None
    case Err(fault) => Some(fault)
  }

  // The last of two writes to a row is the one that stays.
  lemma PutTwice(db: Db, id: int, first: Item)
    requires Row(db.items, id)
    ensures forall c :: PutItem(PutItem(db, id, first), id, c) == PutItem(db, id, c)
  {
    forall c
      ensures PutItem(PutItem(db, id, first), id, c) == PutItem(db, id, c)
    {
      assert Set(Set(db.items, id, first), id, c) == Set(db.items, id, c);
    }
  }

  class Cms {
    const rules: Rules
    var items: seq<Item>
    var drafts: seq<Draft>
    var revisions: seq<Revision>
    var reviews: map<int, Review>
    var routes: map<string, Route>
    var tags: seq<Tag>
    var groups: seq<Group>
    var profiles: seq<Author>
    var assets: seq<Asset>
    var ready: bool
    var generation: int
    var updatedAt: int
    var jobs: seq<Job>

    function Tables(): Db
      reads this
    {
      Db(items, drafts, revisions, reviews, routes, tags, groups, profiles, assets, ready, generation, updatedAt, jobs)
    }

    constructor (rules: Rules, db: Db)
      ensures this.rules == rules && Tables() == db
    {
      this.rules := rules;
      items, drafts, revisions, reviews, routes := db.items, db.drafts, db.revisions, db.reviews, db.routes;
      tags, groups, profiles, assets := db.tags, db.groups, db.profiles, db.assets;
      ready, generation, updatedAt, jobs := db.ready, db.generation, db.updatedAt, db.jobs;
    }

    method Rollback(saved: Db)
      modifies this
      ensures Tables() == saved
    {
      RollbackContent(saved);
      profiles, assets, ready, generation, updatedAt, jobs
        := saved.profiles, saved.assets, saved.ready, saved.generation, saved.updatedAt, saved.jobs;
    }

    method RollbackContent(saved: Db)
      modifies this`items, this`drafts, this`revisions, this`reviews, this`routes, this`tags, this`groups
      ensures items == saved.items && drafts == saved.drafts && revisions == saved.revisions && reviews == saved.reviews
      ensures routes == saved.routes && tags == saved.tags && groups == saved.groups
    {
      items, drafts, revisions, reviews, routes, tags, groups
        := saved.items, saved.drafts, saved.revisions, saved.reviews, saved.routes, saved.tags, saved.groups;
    }

    // ----- statements -----

    method UpdateItem(id: int, c: Item)
      requires Row(items, id)
      modifies this`items
      ensures Tables() == PutItem(old(Tables()), id, c)
    {
      items := Set(items, id, c);
    }

    // save: the guarded update, then the relation rows one by one.
    method WriteDraft(id: int, version: int, fields: Fields, tagIds: seq<int>, entries: seq<int>) returns (ok: bool)
      requires Row(drafts, id)
      modifies this`drafts
      ensures ok <==> old(drafts)[id - 1].version == version
      ensures Tables() == if ok then SaveDraft(old(Tables()), id, fields, Ids(tagIds), entries) else old(Tables())
    {
      var d := At(drafts, id);
      if d.version != version { return false; }
      drafts := Set(drafts, id, Draft(version + 1, fields, {}, []));
      assert Ids(tagIds[..0]) == {};
      for i := 0 to |tagIds|
        invariant drafts == Set(old(drafts), id, Draft(version + 1, fields, Ids(tagIds[..i]), []))
      {
        assert Ids(tagIds[..i + 1]) == Ids(tagIds[..i]) + {tagIds[i]} by {
          assert tagIds[..i + 1] == tagIds[..i] + [tagIds[i]];
        }
        drafts := Set(drafts, id, At(drafts, id).(tags := At(drafts, id).tags + {tagIds[i]}));
      }
      assert tagIds[..|tagIds|] == tagIds;
      for i := 0 to |entries|
        invariant drafts == Set(old(drafts), id, Draft(version + 1, fields, Ids(tagIds), entries[..i]))
      {
        assert entries[..i + 1] == entries[..i] + [entries[i]];
        drafts := Set(drafts, id, At(drafts, id).(entries := At(drafts, id).entries + [entries[i]]));
      }
      assert entries[..|entries|] == entries;
      return true;
    }

    method InsertRevision(id: int, fields: Fields, d: Draft, author: int, now: int)
      modifies this`revisions
      ensures revisions == old(revisions) + [Revision(id, LastNo(old(revisions), id) + 1, fields, d.tags, d.entries, author, now)]
    {
      var no := 0;
      for i := 0 to |revisions|
        invariant no == LastNo(revisions[..i], id)
      {
        assert revisions[..i + 1][..i] == revisions[..i];
        if revisions[i].content == id && revisions[i].no > no { no := revisions[i].no; }
      }
      assert revisions[..|revisions|] == revisions;
      revisions := revisions + [Revision(id, no + 1, fields, d.tags, d.entries, author, now)];
    }

    // INSERT INTO reviews, one per revision
    method InsertReview(rid: int, review: Review) returns (ok: bool)
      modifies this`reviews
      ensures ok <==> rid !in old(reviews)
      ensures reviews == if ok then old(reviews)[rid := review] else old(reviews)
    {
      if rid in reviews { return false; }
      reviews := reviews[rid := review];
      return true;
    }

    method DemoteCanonical(id: int)
      modifies this`routes
      ensures routes == Demote(old(routes), id)
    {
      routes := map p | p in routes ::
        if routes[p].owner == id && routes[p].kind.Canonical? then routes[p].(kind := Redirect) else routes[p];
      assert routes == Demote(old(routes), id);
    }

    method ClaimCanonical(id: int, path: string)
      modifies this`routes
      ensures routes == Claim(old(routes), id, path)
    {
      if path in routes {
        routes := routes[path := routes[path].(kind := Canonical)];
      } else {
        routes := routes[path := Route(id, Canonical)];
      }
    }

    method IncrementGeneration(now: int) returns (g: int)
      modifies this`generation, this`updatedAt
      ensures g == generation == old(generation) + 1 && updatedAt == now
    {
      generation := generation + 1;
      updatedAt := now;
      g := generation;
    }

    method Dirty(now: int)
      modifies this`generation, this`updatedAt, this`jobs
      ensures Tables() == MarkDirty(old(Tables()), now)
    {
      var g := IncrementGeneration(now);
      jobs := jobs + [Job(g, Pending, None, None, 0, None, now)];
    }

    // ----- checks -----

    method CheckTags(kind: Kind, ids: seq<int>) returns (ok: bool)
      ensures ok <==> ValidTags(tags, kind, ids)
    {
      if |ids| > RELATION_LIMIT || (kind.Topic? && |ids| > 0) { return false; }
      var seen: set<int> := {};
      for i := 0 to |ids|
        invariant seen == Ids(ids[..i]) && Distinct(ids[..i]) && forall x | x in ids[..i] :: x > 0
      {
        assert ids[..i + 1] == ids[..i] + [ids[i]];
        if ids[i] <= 0 {
          assert ids[i] in ids;
          return false;
        }
        if ids[i] in seen {
          var k :| 0 <= k < i && ids[..i][k] == ids[i];
          assert ids[k] == ids[i];
          return false;
        }
        seen := seen + {ids[i]};
      }
      assert ids[..|ids|] == ids;
      if |ids| > 0 {
        var n := |tags|;
        var stored := (x: int) => 0 < x <= n;
        AllFound(ids, stored);
        ok := CountOf(ids, stored) == |ids|;
      } else {
        ok := true;
      }
    }

    method CheckEntries(id: int, kind: Kind, entries: seq<int>) returns (ok: bool)
      ensures ok <==> ValidEntries(items, id, kind, entries)
    {
      if |entries| > RELATION_LIMIT || (!kind.Topic? && |entries| > 0) { return false; }
      var seen: set<int> := {};
      for i := 0 to |entries|
        invariant seen == Ids(entries[..i]) && Distinct(entries[..i])
        invariant forall x | x in entries[..i] :: x > 0 && x != id
      {
        assert entries[..i + 1] == entries[..i] + [entries[i]];
        if entries[i] <= 0 || entries[i] == id {
          assert entries[i] in entries;
          return false;
        }
        if entries[i] in seen {
          var k :| 0 <= k < i && entries[..i][k] == entries[i];
          assert entries[k] == entries[i];
          return false;
        }
        seen := seen + {entries[i]};
      }
      assert entries[..|entries|] == entries;
      if |entries| > 0 {
        var rows := items;
        var curated := (x: int) => Curated(rows, x);
        AllFound(entries, curated);
        ok := CountOf(entries, curated) == |entries|;
      } else {
        ok := true;
      }
    }

    method ValidateRelations(id: int, kind: Kind, f: Fields, tagIds: seq<int>, entries: seq<int>) returns (fault: Option<Fault>)
      ensures fault == RelationsFault(Tables(), id, kind, f, tagIds, entries)
    {
      if kind.Topic? {
        if !f.payload.TopicPayload? || f.payload.recommendedCount < 0 || f.payload.recommendedCount > |entries| {
          return Some(PayloadFault);
        }
      }
      var cover := CoverFault(assets, f.cover);
      if cover.Some? { return cover; }
      if !Row(profiles, f.byline) { return Some(Validation); }
      var tagsOk := CheckTags(kind, tagIds);
      if !tagsOk { return Some(Validation); }
      var entriesOk := CheckEntries(id, kind, entries);
      if !entriesOk { return Some(Validation); }
      return None;
    }

    // SELECT count(*) of entries whose target cannot be published with the topic
    method UnpublishableTargets(entries: seq<int>) returns (count: nat)
      ensures count == 0 <==> forall e | e in entries :: Publishable(items, e)
    {
      count := 0;
      for i := 0 to |entries|
        invariant count == 0 <==> forall e | e in entries[..i] :: Publishable(items, e)
      {
        assert entries[..i + 1] == entries[..i] + [entries[i]];
        if !Publishable(items, entries[i]) { count := count + 1; }
      }
      assert entries[..|entries|] == entries;
    }

    // snapshot: the current draft, checked as complete, becomes the next revision.
    method Snapshot(u: Actor, id: int, version: int, now: int) returns (fault: Option<Fault>)
      requires Row(items, id) && Row(drafts, id)
      modifies this`revisions
      ensures fault.None? ==> TakeSnapshot(rules, old(Tables()), u, id, version, now) == Ok(Tables())
      ensures fault.Some? ==> TakeSnapshot(rules, old(Tables()), u, id, version, now) == Err(fault.value)
      ensures fault.Some? ==> Tables() == old(Tables())
    {
      hide FieldsFault, RelationsFault, HydrateNote, LastNo;
      var kind, d := At(items, id).kind, At(drafts, id);
      if d.fields.cover.Some? && !Row(assets, d.fields.cover.value) { return Some(Unavailable); }
      var loaded := HydrateNote(groups, kind, d.fields, false);
      if loaded.Err? { return Some(loaded.error); }
      if d.version != version { return Some(ContentVersion); }
      var full := HydrateNote(groups, kind, loaded.value, true);
      if full.Err? { return Some(full.error); }
      var wrong := FieldsFault(rules, kind, full.value, true);
      if wrong.Some? { return wrong; }
      var broken := ValidateRelations(id, kind, full.value, SortedIds(d.tags), d.entries);
      if broken.Some? { return broken; }
      InsertRevision(id, full.value, d, u.id, now);
      return None;
    }

    method ClaimPath(id: int, rid: int) returns (fault: Option<Fault>)
      requires Row(items, id) && Row(revisions, rid)
      modifies this`routes
      ensures fault.None? ==> ClaimRoute(rules, old(Tables()), id, rid) == Ok(Tables())
      ensures fault.Some? ==> ClaimRoute(rules, old(Tables()), id, rid) == Err(fault.value)
    {
      hide FieldsFault, HydrateNote, CandidatePath, Demote, Claim;
      var kind, r := At(items, id).kind, At(revisions, rid);
      var full := HydrateNote(groups, kind, r.fields, true);
      if full.Err? { return Some(full.error); }
      var wrong := FieldsFault(rules, kind, full.value, true);
      if wrong.Some? { return wrong; }
      var path := CandidatePath(kind, r.fields);
      if path.Err? { return Some(path.error); }
      if path.value in routes && routes[path.value].owner != id { return Some(RouteConflict); }
      if kind.Topic? {
        if !Recommends(kind, full.value.payload, |r.entries|) { return Some(PayloadFault); }
        var count := UnpublishableTargets(r.entries);
        if count > 0 { return Some(TopicTarget); }
      }
      DemoteCanonical(id);
      ClaimCanonical(id, path.value);
      return None;
    }

    // ----- transactions -----

    // What a transaction body promises: its change, or the fault that rolls it back.
    ghost predicate Tries(change: Change, fault: Option<Fault>)
      reads this
    {
      match fault
      case None => change == Ok(Tables())
      case Some(f) => change == Err(f)
    }

    // What a command promises: all of its change or none of it, and the fault it reports.
    ghost predicate Commits(was: Db, u: Actor, c: Command, now: int, fault: Option<Fault>)
      reads this
    {
      Tables() == After(rules, was, u, c, now) && fault == FaultOf(Apply(rules, was, u, c, now))
    }

    method TryCreate(u: Actor, kind: Kind, now: int) returns (fault: Option<Fault>)
      modifies this
      ensures Tries(DoCreate(old(Tables()), u, kind, now), fault)
    {
      if !CanCreate(u, kind) { return Some(Permission); }
      items := items + [Item(kind, u.id, Drafting, None, None, None, None, now, None)];
      drafts := drafts + [Draft(1, Fields(BLANK, "", u.id, None, false, None, InitialPayload(kind)), {}, [])];
      return None;
    }

    method TrySave(u: Actor, id: int, input: DraftInput, now: int) returns (fault: Option<Fault>)
      modifies this
      ensures Tries(DoSave(rules, old(Tables()), u, id, input, now), fault)
    {
      hide FieldsFault, RelationsFault, HydrateNote;
      if !Row(items, id) || !Row(drafts, id) { return Some(NotFound); }
      var c, d := At(items, id), At(drafts, id);
      if !CanEdit(u, c) { return Some(Permission); }
      var frozen := MutableFault(c);
      if frozen.Some? { return frozen; }
      if input.version != d.version { return Some(ContentVersion); }
      if input.fields.english.None? && d.fields.english.Some? { return Some(Validation); }
      if !CanSetByline(u, input.fields.byline) || !CanSetFeatured(u, d.fields.featured, input.fields.featured) {
        return Some(Permission);
      }
      var f := HydrateNote(groups, c.kind, input.fields, false);
      if f.Err? { return Some(f.error); }
      var wrong := FieldsFault(rules, c.kind, f.value, false);
      if wrong.Some? { return wrong; }
      var broken := ValidateRelations(id, c.kind, f.value, input.tags, input.entries);
      if broken.Some? { return broken; }
      var saved := WriteDraft(id, input.version, f.value, input.tags, input.entries);
      if !saved { return Some(ContentVersion); }
      assert Ids(input.tags) == set t | t in input.tags;
      UpdateItem(id, c.(state := if c.state.Synced? then Drafting else c.state, updatedAt := now));
      return None;
    }

    method TrySubmit(u: Actor, id: int, version: int, now: int) returns (fault: Option<Fault>)
      modifies this
      ensures Tries(DoSubmit(rules, old(Tables()), u, id, version, now), fault)
    {
      hide TakeSnapshot, CandidatePath;
      if !Row(items, id) || !Row(drafts, id) { return Some(NotFound); }
      var c := At(items, id);
      if !CanEdit(u, c) { return Some(Permission); }
      var frozen := MutableFault(c);
      if frozen.Some? { return frozen; }
      if !c.state.Drafting? && !c.state.ChangesRequested? { return Some(EditorialState); }
      var refused := Snapshot(u, id, version, now);
      if refused.Some? { return refused; }
      var rid := |revisions|;
      var path := CandidatePath(c.kind, At(revisions, rid).fields);
      if path.Err? { return Some(path.error); }
      if !RouteAvailable(routes, id, path.value) { return Some(RouteConflict); }
      UpdateItem(id, c.(state := InReview, pending := Some(rid), updatedAt := now));
      return None;
    }

    method TryRequestChanges(u: Actor, id: int, rid: int, comment: string, now: int) returns (fault: Option<Fault>)
      modifies this
      ensures Tries(DoRequestChanges(rules, old(Tables()), u, id, rid, comment, now), fault)
    {
      if !Row(items, id) || !Row(drafts, id) { return Some(NotFound); }
      var c := At(items, id);
      if !Reviews(u) { return Some(Permission); }
      var absent := PendingFault(Tables(), id, rid);
      if absent.Some? { return absent; }
      if !CanReview(u, c, At(revisions, rid)) { return Some(SelfReview); }
      if !rules.comment(comment, true) { return Some(Fault.Markdown); }
      var stored := InsertReview(rid, Review(id, u.id, RequestedChanges, comment));
      if !stored { return Some(Unavailable); }
      UpdateItem(id, c.(state := ChangesRequested, pending := None, updatedAt := now));
      return None;
    }

    method TryWithdraw(u: Actor, id: int, now: int) returns (fault: Option<Fault>)
      modifies this
      ensures Tries(DoWithdraw(old(Tables()), u, id, now), fault)
    {
      if !Row(items, id) || !Row(drafts, id) { return Some(NotFound); }
      var c := At(items, id);
      if !CanEdit(u, c) { return Some(Permission); }
      var absent := PendingFault(Tables(), id, if c.pending.Some? then c.pending.value else 0);
      if absent.Some? { return absent; }
      UpdateItem(id, c.(state := Drafting, pending := None, updatedAt := now));
      return None;
    }

    method TryPublishReviewed(u: Actor, id: int, rid: int, comment: string, now: int) returns (fault: Option<Fault>)
      modifies this
      ensures Tries(DoPublishReviewed(rules, old(Tables()), u, id, rid, comment, now), fault)
    {
      hide ClaimRoute, MarkDirty;
      if !Row(items, id) || !Row(drafts, id) { return Some(NotFound); }
      var c := At(items, id);
      if !Reviews(u) { return Some(Permission); }
      var absent := PendingFault(Tables(), id, rid);
      if absent.Some? { return absent; }
      if !CanReview(u, c, At(revisions, rid)) { return Some(SelfReview); }
      if !rules.comment(comment, false) { return Some(Fault.Markdown); }
      var refused := ClaimPath(id, rid);
      if refused.Some? { return refused; }
      var stored := InsertReview(rid, Review(id, u.id, Approved, comment));
      if !stored { return Some(Unavailable); }
      UpdateItem(id, PublishRevision(c, rid, now));
      Dirty(now);
      return None;
    }

    method TryPublishDirect(u: Actor, id: int, version: int, dates: Option<LegacyDates>, now: int) returns (fault: Option<Fault>)
      modifies this
      ensures Tries(DoPublishDirect(rules, old(Tables()), u, id, version, dates, now), fault)
    {
      hide TakeSnapshot, ClaimRoute, MarkDirty;
      if dates.Some? && !(0 <= dates.value.first <= dates.value.last <= now) { return Some(Validation); }
      if !Row(items, id) || !Row(drafts, id) { return Some(NotFound); }
      var c := At(items, id);
      if !Administers(u) { return Some(Permission); }
      var frozen := MutableFault(c);
      if frozen.Some? { return frozen; }
      if !c.state.Drafting? && !c.state.ChangesRequested? { return Some(EditorialState); }
      var refused := Snapshot(u, id, version, now);
      if refused.Some? { return refused; }
      var rid := |revisions|;
      refused := ClaimPath(id, rid);
      if refused.Some? { return refused; }
      var p := PublishRevision(c, rid, now);
      ghost var routed := Tables();
      UpdateItem(id, p);
      if dates.Some? {
        PutTwice(routed, id, p);
        UpdateItem(id, p.(firstPublished := Some(dates.value.first), lastPublished := Some(dates.value.last),
                          updatedAt := dates.value.last));
      }
      Dirty(now);
      return None;
    }

    method TryUnpublish(u: Actor, id: int, now: int) returns (fault: Option<Fault>)
      modifies this
      ensures Tries(DoUnpublish(old(Tables()), u, id, now), fault)
    {
      hide MarkDirty;
      if !Row(items, id) || !Row(drafts, id) { return Some(NotFound); }
      var c := At(items, id);
      if !Administers(u) { return Some(Permission); }
      if c.archivedAt.Some? { return Some(ContentArchived); }
      if c.published.None? { return Some(NotPublished); }
      UpdateItem(id, c.(published := None, pending := None, state := Drafting, updatedAt := now));
      Dirty(now);
      return None;
    }

    method TryArchive(u: Actor, id: int, now: int) returns (fault: Option<Fault>)
      modifies this
      ensures Tries(DoArchive(old(Tables()), u, id, now), fault)
    {
      hide MarkDirty;
      if !Row(items, id) || !Row(drafts, id) { return Some(NotFound); }
      var c := At(items, id);
      if !Administers(u) { return Some(Permission); }
      if c.archivedAt.Some? { return Some(ContentArchived); }
      UpdateItem(id, c.(archivedAt := Some(now), published := None, pending := None, state := Drafting, updatedAt := now));
      if c.published.Some? { Dirty(now); }
      return None;
    }

    method TryRestoreArchive(u: Actor, id: int, now: int) returns (fault: Option<Fault>)
      modifies this
      ensures Tries(DoRestoreArchive(old(Tables()), u, id, now), fault)
    {
      if !Row(items, id) || !Row(drafts, id) { return Some(NotFound); }
      var c := At(items, id);
      if !Administers(u) { return Some(Permission); }
      if c.archivedAt.None? { return Some(EditorialState); }
      UpdateItem(id, c.(archivedAt := None, state := Drafting, updatedAt := now));
      return None;
    }

    method TryRestoreRevision(u: Actor, id: int, no: int, version: int, now: int) returns (fault: Option<Fault>)
      modifies this
      ensures Tries(DoRestoreRevision(old(Tables()), u, id, no, version, now), fault)
    {
      hide HydrateNote;
      if !Row(items, id) || !Row(drafts, id) { return Some(NotFound); }
      var c, d := At(items, id), At(drafts, id);
      if !CanEdit(u, c) { return Some(Permission); }
      var frozen := MutableFault(c);
      if frozen.Some? { return frozen; }
      if d.version != version { return Some(ContentVersion); }
      var found := FindRevision(revisions, id, no);
      if found.None? { return Some(NotFound); }
      var r := At(revisions, found.value);
      if r.fields.cover.Some? && !Row(assets, r.fields.cover.value) { return Some(Unavailable); }
      if !CanSetFeatured(u, d.fields.featured, r.fields.featured) { return Some(Permission); }
      var f := HydrateNote(groups, c.kind, r.fields, false);
      if f.Err? { return Some(f.error); }
      var saved := WriteDraft(id, version, f.value, SortedIds(r.tags), r.entries);
      if !saved { return Some(ContentVersion); }
      assert Ids(SortedIds(r.tags)) == r.tags;
      UpdateItem(id, c.(state := Drafting, pending := None, updatedAt := now));
      return None;
    }

    method TryPutTag(u: Actor, id: int, input: TagInput, now: int) returns (fault: Option<Fault>)
      modifies this
      ensures Tries(DoPutTag(rules, old(Tables()), u, id, input, now), fault)
    {
      hide MarkDirty, PublishedUsesTag, ValidSlug;
      if !Administers(u) { return Some(Permission); }
      if id < 0 || !Bounded(input.name, 100) || !Bounded(input.description, 1000) || !ValidSlug(input.slug)
         || !Bounded(input.nameEn, 100) || !Bounded(input.descriptionEn, 1000) { return Some(Validation); }
      if Trim(input.nameEn) == "" && input.descriptionEn != "" { return Some(Validation); }
      var tag := TagRow(rules, input);
      if tag.normalized == "" { return Some(Validation); }
      if id > 0 {
        if !Row(tags, id) { return Some(NotFound); }
        if At(tags, id).slug != tag.slug { return Some(TaxonomySlug); }
      }
      var conflict := FindTagConflict(id, tag);
      if conflict { return Some(TagConflict); }
      tags := PutRow(tags, id, tag);
      if id > 0 {
        var used := PublishedUsesTag(Tables(), id);
        if used { Dirty(now); }
      }
      return None;
    }

    method FindTagConflict(id: int, tag: Tag) returns (found: bool)
      ensures !found <==> forall i | 0 <= i < |tags| && i + 1 != id ::
        tags[i].normalized != tag.normalized && tags[i].slug != tag.slug
    {
      for i := 0 to |tags|
        invariant forall k | 0 <= k < i && k + 1 != id ::
          tags[k].normalized != tag.normalized && tags[k].slug != tag.slug
      {
        if i + 1 != id && (tags[i].normalized == tag.normalized || tags[i].slug == tag.slug) { return true; }
      }
      return false;
    }

    method TryPutNoteGroup(u: Actor, id: int, input: Group, now: int) returns (fault: Option<Fault>)
      modifies this
      ensures Tries(DoPutNoteGroup(old(Tables()), u, id, input, now), fault)
    {
      hide MarkDirty, PublishedUsesGroup, ValidGroup;
      if !Administers(u) { return Some(Permission); }
      if id < 0 || !ValidGroup(input) { return Some(Validation); }
      if id > 0 {
        if !Row(groups, id) { return Some(NotFound); }
        if At(groups, id).slug != input.slug { return Some(TaxonomySlug); }
      }
      var existing := FindGroup(groups, input.slug);
      if existing.Some? && existing.value != id { return Some(GroupConflict); }
      groups := PutRow(groups, id, GroupRow(input));
      var used := PublishedUsesGroup(Tables(), input.slug);
      if used { Dirty(now); }
      return None;
    }

    method TryUpdateProfile(u: Actor, id: int, input: ProfileInput, now: int) returns (fault: Option<Fault>)
      modifies this
      ensures Tries(DoUpdateProfile(rules, old(Tables()), u, id, input, now), fault)
    {
      hide MarkDirty, PublishedUsesByline;
      var name := Trim(input.displayName);
      if name == "" || !Bounded(name, 100) || Utf8Length(input.bio) > 10000 || !rules.markdown(input.bio)
         || (input.website != "" && !rules.website(input.website)) { return Some(Validation); }
      if !u.active || (id != u.id && !u.role.Admin?) { return Some(Permission); }
      if !Row(profiles, id) { return Some(NotFound); }
      profiles := Set(profiles, id, At(profiles, id).(displayName := name, bio := input.bio, website := input.website));
      var used := PublishedUsesByline(Tables(), id);
      if used { Dirty(now); }
      return None;
    }

    method TryAsset(u: Actor, c: Command, now: int) returns (fault: Option<Fault>)
      requires c.Upload? || c.SetAssetDeleted? || c.Login?
      modifies this
      ensures Tries(Apply(rules, old(Tables()), u, c, now), fault)
    {
      match c {
        case Upload(sha, card) =>
          if !u.active { return Some(Permission); }
          if !rules.assetUrl(card) { return Some(AssetInvalid); }
          var deleted := exists i :: 0 <= i < |assets| && assets[i].sha == sha && assets[i].deletedAt.Some?;
          if deleted { return Some(AssetDeleted); }
          var present := exists i :: 0 <= i < |assets| && assets[i].sha == sha;
          if !present { assets := assets + [Asset(sha, card, None)]; }
        case SetAssetDeleted(id, deleted) =>
          if !Administers(u) { return Some(Permission); }
          if !Row(assets, id) { return Some(NotFound); }
          var a := At(assets, id);
          if a.deletedAt.Some? != deleted {
            assets := Set(assets, id, a.(deletedAt := if deleted then Some(now) else None));
          }
        case Login(profile) =>
          profiles := profiles + [profile.(bio := "", website := "")];
      }
      return None;
    }

    method Try(u: Actor, c: Command, now: int) returns (fault: Option<Fault>)
      modifies this
      ensures Tries(Apply(rules, old(Tables()), u, c, now), fault)
    {
      hide DoCreate, DoSave, DoSubmit, DoRequestChanges, DoWithdraw, DoPublishReviewed, DoPublishDirect, DoUnpublish,
           DoArchive, DoRestoreArchive, DoRestoreRevision, DoPutTag, DoPutNoteGroup, DoUpdateProfile;
      match c {
        case Create(kind) => fault := TryCreate(u, kind, now);
        case Save(id, input) => fault := TrySave(u, id, input, now);
        case Submit(id, version) => fault := TrySubmit(u, id, version, now);
        case RequestChanges(id, rid, comment) => fault := TryRequestChanges(u, id, rid, comment, now);
        case Withdraw(id) => fault := TryWithdraw(u, id, now);
        case PublishReviewed(id, rid, comment) => fault := TryPublishReviewed(u, id, rid, comment, now);
        case PublishDirect(id, version, dates) => fault := TryPublishDirect(u, id, version, dates, now);
        case Unpublish(id) => fault := TryUnpublish(u, id, now);
        case Archive(id) => fault := TryArchive(u, id, now);
        case RestoreArchive(id) => fault := TryRestoreArchive(u, id, now);
        case RestoreRevision(id, no, version) => fault := TryRestoreRevision(u, id, no, version, now);
        case PutTag(id, tag) => fault := TryPutTag(u, id, tag, now);
        case PutNoteGroup(id, group) => fault := TryPutNoteGroup(u, id, group, now);
        case UpdateProfile(id, profile) => fault := TryUpdateProfile(u, id, profile, now);
        case _ => fault := TryAsset(u, c, now);
      }
    }

    /** One command is one transaction: it takes effect as a whole, or reports its fault and changes no row. */
    method Execute(u: Actor, c: Command, now: int) returns (fault: Option<Fault>)
      modifies this
      ensures Commits(old(Tables()), u, c, now, fault)
      ensures fault.Some? ==> Tables() == old(Tables())
    {
      hide Apply;
      var saved := Tables();
      fault := Try(u, c, now);
      if fault.Some? { Rollback(saved); }
    }
  }
}
