/** The server side of autosave: a draft row changes only one version up, and only from the expected version. */
module DraftVersions {
  import opened Base
  import opened Schema
  import opened Content
  import opened Workflow
  import opened Editorial
  import opened CommandProofs
  import opened Projection
  import opened GenerationProofs
  import opened Topics
  import Autosave
  import World = AutosaveWorld

  // The version a command expects of the draft it rewrites.
  function Expected(c: Command, id: int): Option<int> {
    if c.Save? && c.id == id then Some(c.input.version)
    else if c.RestoreRevision? && c.id == id then Some(c.version)
    else None
  }

  lemma OtherDrafts(rules: Rules, db: Db, u: Actor, c: Command, now: int, next: Db)
    requires Apply(rules, db, u, c, now) == Ok(next) && !c.Save? && !c.RestoreRevision?
    ensures db.drafts <= next.drafts
  {
    hide FieldsFault, HydrateNote, CandidatePath, Claim, Demote, TakeSnapshot, TagRow, GroupRow, PublishedUsesTag,
         PublishedUsesGroup, PublishedUsesByline, FindGroup, PutRow, ClaimRoute;
    if c.PublishDirect? || c.Submit? {
      var taken := TakeSnapshot(rules, db, u, c.id, c.version, now).value;
      SnapshotTakes(rules, db, u, c.id, c.version, now, taken);
    }
  }

  lemma SavedDraft(rules: Rules, db: Db, u: Actor, c: Command, now: int, next: Db)
    requires Apply(rules, db, u, c, now) == Ok(next) && (c.Save? || c.RestoreRevision?)
    ensures Row(db.drafts, c.id) && |next.drafts| == |db.drafts|
    ensures Expected(c, c.id) == Some(At(db.drafts, c.id).version)
    ensures At(next.drafts, c.id).version == At(db.drafts, c.id).version + 1
    ensures forall i | 0 <= i < |db.drafts| && i + 1 != c.id :: next.drafts[i] == db.drafts[i]
    ensures c.Save? ==>
      var d := At(next.drafts, c.id);
      && Unmirrored(d.fields.payload) == Unmirrored(c.input.fields.payload)
      && d.fields.(payload := PostPayload) == c.input.fields.(payload := PostPayload)
      && d.entries == c.input.entries && forall t :: t in d.tags <==> t in c.input.tags
  {
    hide FieldsFault, RelationsFault;
  }

  /** Two writers cannot overwrite each other blindly: a rewrite names the version it replaces, and raises it by one. */
  lemma DraftsAreVersioned(rules: Rules, db: Db, u: Actor, c: Command, now: int, id: int)
    requires Row(db.drafts, id)
    ensures var next := After(rules, db, u, c, now);
      && Row(next.drafts, id)
      && (At(next.drafts, id) == At(db.drafts, id)
          || (Expected(c, id) == Some(At(db.drafts, id).version)
              && At(next.drafts, id).version == At(db.drafts, id).version + 1))
  {
    hide Apply;
    var change := Apply(rules, db, u, c, now);
    if change.Ok? {
      if c.Save? || c.RestoreRevision? {
        SavedDraft(rules, db, u, c, now, change.value);
      } else {
        OtherDrafts(rules, db, u, c, now, change.value);
      }
    }
  }

  // ----- the draft row as the server of the autosave world -----

  // What a save carries, without the display mirrors the server writes itself.
  datatype Material = Material(fields: Fields, tags: set<int>, entries: seq<int>)

  function Plain(f: Fields): Fields {
    f.(payload := Unmirrored(f.payload))
  }

  function OfDraft(d: Draft): Material {
    Material(Plain(d.fields), d.tags, d.entries)
  }

  function OfInput(input: DraftInput): Material {
    Material(Plain(input.fields), (set t | t in input.tags), input.entries)
  }

  ghost predicate Serves(db: Db, id: int, w: World.World<Material>) {
    Row(db.drafts, id) && w.version == At(db.drafts, id).version && w.value == OfDraft(At(db.drafts, id))
  }

  // What a caller of SaveDraft is told, as the queue sorts it.
  function AnswerOf(change: Change, version: int): Autosave.Answer {
    match change
    case Ok(_) => Autosave.Accepted(version + 1)
    case Err(fault) => if fault.ContentVersion? then Autosave.VersionConflict else Autosave.OtherError
  }

  function FateOf(change: Change): World.Fate {
    if change.Ok? || change.error.ContentVersion? then World.Served else World.Refused
  }

  lemma SavedMaterial(rules: Rules, db: Db, u: Actor, id: int, input: DraftInput, now: int, next: Db)
    requires Apply(rules, db, u, Save(id, input), now) == Ok(next)
    ensures Row(db.drafts, id) && Row(next.drafts, id) && input.version == At(db.drafts, id).version
    ensures At(next.drafts, id).version == input.version + 1 && OfDraft(At(next.drafts, id)) == OfInput(input)
  {
    hide Apply;
    SavedDraft(rules, db, u, Save(id, input), now, next);
    var d := At(next.drafts, id);
    assert Plain(d.fields) == Plain(input.fields);
    assert forall t :: t in d.tags <==> t in input.tags;
    assert d.tags == (set t | t in input.tags);
  }

  // No textual rule reports a version conflict.
  ghost predicate NamesOtherFaults(rules: Rules) {
    && (forall p, complete :: rules.prose(p, complete) != Some(ContentVersion))
    && (forall kind, p, e, complete :: rules.english(kind, p, e, complete) != Some(ContentVersion))
  }

  // Only the version check reports a version conflict.
  lemma ConflictMeansVersion(rules: Rules, db: Db, u: Actor, id: int, input: DraftInput, now: int)
    requires NamesOtherFaults(rules) && Row(db.drafts, id)
    requires DoSave(rules, db, u, id, input, now) == Err(ContentVersion)
    ensures input.version != At(db.drafts, id).version
  {
    hide ValidPayload, ValidTags, ValidEntries, Recommends;
  }

  /**
   * Serving a save request in the autosave world is executing Save on the database: the same row, up to note-group
   * mirrors, and the same answer; a save refused for any other reason is a refused request.
   */
  lemma SaveServesRequest(rules: Rules, db: Db, u: Actor, id: int, input: DraftInput, now: int,
                          w: World.World<Material>, k: nat)
    requires Serves(db, id, w) && k < |w.post| && w.post[k].Request?
    requires w.post[k].version == input.version && w.post[k].snapshot == OfInput(input)
    requires NamesOtherFaults(rules)
    ensures var change, next := Apply(rules, db, u, Save(id, input), now), After(rules, db, u, Save(id, input), now);
      var t := World.ServeRequest(w, k, FateOf(change));
      && Serves(next, id, t)
      && t.post == w.post[k := World.Reply(w.post[k].client, AnswerOf(change, input.version))]
  {
    hide FieldsFault, RelationsFault, DoSave, NamesOtherFaults;
    var change := DoSave(rules, db, u, id, input, now);
    if change.Ok? {
      SavedMaterial(rules, db, u, id, input, now, change.value);
    } else if change.error.ContentVersion? {
      ConflictMeansVersion(rules, db, u, id, input, now);
    }
  }

  /** Any other command on the draft is a version restored from the history at the current version, or nothing. */
  lemma CommandsRestoreOrLeave(rules: Rules, db: Db, u: Actor, c: Command, now: int, id: int, w: World.World<Material>)
    requires Serves(db, id, w)
    ensures var next := After(rules, db, u, c, now);
      && Row(next.drafts, id)
      && (Serves(next, id, w)
          || Serves(next, id, World.Next(w, World.Restore(w.version, OfDraft(At(next.drafts, id))))))
  {
    hide After;
    DraftsAreVersioned(rules, db, u, c, now, id);
  }
}
