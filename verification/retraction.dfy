/** A run from the empty database that ends with a site which no longer exports. */
module Retraction {
  import opened Base
  import opened Text
  import opened Schema
  import opened Ordering
  import opened Policy
  import opened Content
  import opened Workflow
  import opened Editorial
  import opened CommandProofs
  import opened Projection
  import opened Exporting
  import opened Exporter
  import opened Completeness
  import opened Topics
  import opened Publication
  import opened PublicationRuns
  import Undo

  const ADMIN := Actor(1, Admin, true)

  // Texts the rules accept in drafts and in print, for an article and for a topic.
  datatype Texts = Texts(article: Prose, source: string, topic: Prose)

  predicate Accepts(rules: Rules, t: Texts) {
    && rules.prose(t.article, false).None? && rules.prose(t.article, true).None?
    && rules.prose(t.topic, false).None? && rules.prose(t.topic, true).None?
    && rules.source(t.source, false) && rules.source(t.source, true)
  }

  function ArticleFields(t: Texts): Fields {
    Fields(t.article, "maps", 1, None, false, None, CuratedPayload(t.source))
  }

  function TopicFields(t: Texts): Fields {
    Fields(t.topic, "start", 1, None, false, None, TopicPayload(0, 1))
  }

  // An article is written and published, then a topic that recommends it, and then the article is retracted.
  function Script(t: Texts): seq<Command> {
    [Login(Author("admin", "Admin", "", "", "")),
     Create(CuratedArticle), Save(1, DraftInput(1, ArticleFields(t), [], [])), PublishDirect(1, 2, None),
     Create(Topic), Save(2, DraftInput(1, TopicFields(t), [], [1])), PublishDirect(2, 2, None),
     Unpublish(1)]
  }

  function Played(rules: Rules, commands: seq<Command>): Db
    decreases |commands|
  {
    if commands == [] then EMPTY
    else After(rules, Played(rules, commands[..|commands| - 1]), ADMIN, commands[|commands| - 1], 0)
  }

  // ----- one command at a time -----

  ghost predicate Sane(rules: Rules, db: Db) {
    Good(rules, db) && TopicsLive(db)
  }

  lemma StepSane(rules: Rules, db: Db, c: Command)
    requires Sane(rules, db) && Lawful(rules) && !Retracts(c)
    ensures Sane(rules, After(rules, db, ADMIN, c, 0))
  {
    hide Good, TopicsLive, Apply;
    StepGood(rules, db, ADMIN, c, 0);
    var change := Apply(rules, db, ADMIN, c, 0);
    if change.Ok? { TopicsStayLive(rules, db, ADMIN, c, 0, change.value); }
  }

  // A draft of a kind without notes, complete and with sound relations.
  predicate Publishing(rules: Rules, db: Db, id: int) {
    && Stored(db, id) && At(db.items, id).archivedAt.None? && At(db.items, id).state.Drafting?
    && !At(db.items, id).kind.Note? && At(db.drafts, id).tags == {} && At(db.drafts, id).fields.cover.None?
    && var kind, d := At(db.items, id).kind, At(db.drafts, id);
       && FieldsFault(rules, kind, d.fields, true).None?
       && RelationsFault(db, id, kind, d.fields, [], d.entries).None?
       && CandidatePath(kind, d.fields).Ok? && RouteAvailable(db.routes, id, CandidatePath(kind, d.fields).value)
       && (kind.Topic? ==> forall e | e in d.entries :: Publishable(db.items, e))
  }

  lemma SnapshotAccepted(rules: Rules, db: Db, id: int)
    requires Publishing(rules, db, id)
    ensures var taken := TakeSnapshot(rules, db, ADMIN, id, At(db.drafts, id).version, 0);
      && taken.Ok? && |taken.value.revisions| == |db.revisions| + 1
      && taken.value == db.(revisions := taken.value.revisions)
      && At(taken.value.revisions, |db.revisions| + 1).fields == At(db.drafts, id).fields
      && At(taken.value.revisions, |db.revisions| + 1).entries == At(db.drafts, id).entries
  {
    hide FieldsFault, RelationsFault, CandidatePath;
    assert SortedIds({}) == [];
  }

  lemma DirectAccepted(rules: Rules, db: Db, id: int)
    requires Publishing(rules, db, id)
    ensures var change := DoPublishDirect(rules, db, ADMIN, id, At(db.drafts, id).version, None, 0);
      && change.Ok?
      && var next, c, d := change.value, At(db.items, id), At(db.drafts, id);
         && next.items == Set(db.items, id, PublishRevision(c, |db.revisions| + 1, 0))
         && next.routes == Claim(Demote(db.routes, id), id, CandidatePath(c.kind, d.fields).value)
         && next.drafts == db.drafts && next.profiles == db.profiles && next.assets == db.assets && next.ready == db.ready
         && db.revisions <= next.revisions && |next.revisions| == |db.revisions| + 1
         && At(next.revisions, |db.revisions| + 1).entries == d.entries
         && At(next.revisions, |db.revisions| + 1).fields == d.fields
  {
    hide FieldsFault, CandidatePath, TakeSnapshot, CoverFault, ValidTags, ValidEntries;
    SnapshotAccepted(rules, db, id);
    var taken := TakeSnapshot(rules, db, ADMIN, id, At(db.drafts, id).version, 0).value;
    SnapshotTakes(rules, db, ADMIN, id, At(db.drafts, id).version, 0, taken);
  }

  // ----- the script -----

  // The database after the first n commands of the script.
  function Before(rules: Rules, t: Texts, n: nat): Db
    requires n <= |Script(t)|
  {
    Played(rules, Script(t)[..n])
  }

  lemma NextCommand(rules: Rules, t: Texts, n: nat)
    requires n < |Script(t)|
    ensures Before(rules, t, n + 1) == After(rules, Before(rules, t, n), ADMIN, Script(t)[n], 0)
  {
    hide After;
    assert Script(t)[..n + 1][..n] == Script(t)[..n];
  }

  // A first save without cover, English text or tags.
  lemma SaveAccepted(rules: Rules, db: Db, id: int, input: DraftInput)
    requires Stored(db, id) && At(db.items, id).archivedAt.None? && At(db.items, id).state.Drafting?
    requires At(db.drafts, id).version == input.version && At(db.drafts, id).fields.english.None? && input.tags == []
    requires !At(db.items, id).kind.Note? && FieldsFault(rules, At(db.items, id).kind, input.fields, false).None?
    requires RelationsFault(db, id, At(db.items, id).kind, input.fields, [], input.entries).None?
    ensures var c, change := At(db.items, id), DoSave(rules, db, ADMIN, id, input, 0);
      && change.Ok?
      && change.value == db.(drafts := Set(db.drafts, id, Draft(input.version + 1, input.fields, {}, input.entries)),
                             items := Set(db.items, id, c.(updatedAt := 0)))
  {
    hide FieldsFault, RelationsFault;
    assert (set x | x in input.tags) == {};
  }

  predicate Furnished(db: Db) {
    |db.profiles| == 1 && db.assets == [] && db.ready && |db.drafts| == |db.items|
  }

  predicate ArticleWritten(db: Db, t: Texts) {
    && Furnished(db) && db.drafts == [Draft(2, ArticleFields(t), {}, [])] && db.routes == map[]
    && db.items[0].kind.CuratedArticle? && db.items[0].state.Drafting? && db.items[0].archivedAt.None?
  }

  predicate ArticleCreated(db: Db) {
    && Furnished(db) && db.routes == map[]
    && db.items == [Item(CuratedArticle, 1, Drafting, None, None, None, None, 0, None)]
    && db.drafts == [Draft(1, Fields(BLANK, "", 1, None, false, None, CuratedPayload("")), {}, [])]
  }

  lemma CreateArticle(rules: Rules, t: Texts)
    ensures ArticleCreated(Before(rules, t, 2))
  {
    NextCommand(rules, t, 0);
    NextCommand(rules, t, 1);
    assert Before(rules, t, 0) == EMPTY;
    CreateAccepted(rules, Before(rules, t, 1), CuratedArticle);
    hide Before, DoCreate;
  }

  lemma WriteArticle(rules: Rules, t: Texts)
    requires Accepts(rules, t)
    ensures ArticleWritten(Before(rules, t, 3), t)
  {
    CreateArticle(rules, t);
    NextCommand(rules, t, 2);
    TextsComplete(rules, t);
    hide Before, FieldsFault, DoSave;
    SaveAccepted(rules, Before(rules, t, 2), 1, DraftInput(1, ArticleFields(t), [], []));
  }

  lemma CreateAccepted(rules: Rules, db: Db, kind: Kind)
    ensures DoCreate(db, ADMIN, kind, 0)
      == Ok(db.(items := db.items + [Item(kind, 1, Drafting, None, None, None, None, 0, None)],
                drafts := db.drafts + [Draft(1, Fields(BLANK, "", 1, None, false, None, InitialPayload(kind)), {}, [])]))
  {
  }

  lemma TextsComplete(rules: Rules, t: Texts)
    requires Accepts(rules, t)
    ensures forall complete ::
      && FieldsFault(rules, CuratedArticle, ArticleFields(t), complete).None?
      && FieldsFault(rules, Topic, TopicFields(t), complete).None?
    ensures CandidatePath(CuratedArticle, ArticleFields(t)) == Ok("/articles/maps/")
    ensures CandidatePath(Topic, TopicFields(t)) == Ok("/topics/start/")
  {
    assert ValidSlug("maps") && ValidSlug("start");
    assert "/articles/" + "maps" + "/" == "/articles/maps/" && "/topics/" + "start" + "/" == "/topics/start/";
  }

  predicate ArticleShown(db: Db) {
    && Furnished(db) && |db.items| == 1 && db.routes == map["/articles/maps/" := Route(1, Canonical)]
    && db.items[0].kind.CuratedArticle? && Public(db.items[0])
  }

  lemma ShowArticle(rules: Rules, t: Texts)
    requires Accepts(rules, t)
    ensures ArticleShown(Before(rules, t, 4))
  {
    WriteArticle(rules, t);
    NextCommand(rules, t, 3);
    var db := Before(rules, t, 3);
    TextsComplete(rules, t);
    hide Before, FieldsFault, CandidatePath, DoPublishDirect, TakeSnapshot;
    DirectAccepted(rules, db, 1);
    assert Claim(Demote(map[], 1), 1, "/articles/maps/") == map["/articles/maps/" := Route(1, Canonical)];
  }

  predicate TopicWritten(db: Db, t: Texts) {
    && Furnished(db) && |db.items| == 2 && db.routes == map["/articles/maps/" := Route(1, Canonical)]
    && Publishable(db.items, 1) && db.drafts[1] == Draft(2, TopicFields(t), {}, [1])
    && db.items[1].kind.Topic? && db.items[1].state.Drafting? && db.items[1].archivedAt.None?
  }

  lemma WriteTopic(rules: Rules, t: Texts)
    requires Accepts(rules, t)
    ensures TopicWritten(Before(rules, t, 6), t)
  {
    ShowArticle(rules, t);
    NextCommand(rules, t, 4);
    NextCommand(rules, t, 5);
    var db4, db5 := Before(rules, t, 4), Before(rules, t, 5);
    CreateAccepted(rules, db4, Topic);
    TextsComplete(rules, t);
    hide Before, FieldsFault, DoSave, DoCreate;
    SaveAccepted(rules, db5, 2, DraftInput(1, TopicFields(t), [], [1]));
  }

  lemma ShowTopic(rules: Rules, t: Texts)
    requires Accepts(rules, t)
    ensures var db := Before(rules, t, 7);
      && db.ready && |db.items| == 2 && |db.drafts| == 2 && Public(db.items[0]) && Public(db.items[1]) && PointsAt(db, 1, 1)
  {
    WriteTopic(rules, t);
    NextCommand(rules, t, 6);
    var db := Before(rules, t, 6);
    TextsComplete(rules, t);
    hide Before, FieldsFault, CandidatePath, DoPublishDirect, TakeSnapshot, Claim, Demote;
    DirectAccepted(rules, db, 2);
  }

  lemma {:induction false} ScriptSane(rules: Rules, t: Texts, n: nat)
    requires Lawful(rules) && n < |Script(t)|
    ensures Sane(rules, Before(rules, t, n))
  {
    hide Sane, After;
    if n == 0 {
      EmptySane(rules);
    } else {
      ScriptSane(rules, t, n - 1);
      NextCommand(rules, t, n - 1);
      StepSane(rules, Before(rules, t, n - 1), Script(t)[n - 1]);
    }
  }

  lemma EmptySane(rules: Rules)
    ensures Sane(rules, EMPTY)
  {
    EmptyIsGood(rules);
  }

  /**
   * The property fails: eight accepted commands of one administrator, from the empty database, end with a site
   * that has content and no longer exports, under any rules that accept an article and a topic.
   */
  lemma ScriptStopsExport(rules: Rules, b: Budget, t: Texts)
    requires Lawful(rules) && Accepts(rules, t)
    ensures var db := Before(rules, t, 8);
      && |Script(t)| == 8 && CountPublic(db.items) == 1
      && Export(rules, b, ViewOf(db), db.generation) == Err(Invalid)
  {
    ScriptSane(rules, t, 7);
    ShowTopic(rules, t);
    NextCommand(rules, t, 7);
    var db := Before(rules, t, 7);
    hide Before, Export, ViewOf, Good, TopicsLive, DoUnpublish, PointsAt, CountPublic;
    UnpublishAccepted(db);
    RetractionStopsExport(rules, b, db, ADMIN, Unpublish(1), 0, DoUnpublish(db, ADMIN, 1, 0).value, 1);
  }

  lemma UnpublishAccepted(db: Db)
    requires |db.items| == 2 && |db.drafts| == 2 && Public(db.items[0]) && Public(db.items[1])
    ensures var change := DoUnpublish(db, ADMIN, 1, 0);
      change.Ok? && change.value.ready == db.ready && CountPublic(change.value.items) == 1
  {
    var items := DoUnpublish(db, ADMIN, 1, 0).value.items;
    assert items[..1][..0] == [] && CountPublic(items[..1]) == 0;
  }

  // The script as actions of the whole system, in which nothing else happens.
  function Actions(t: Texts): seq<Action> {
    seq(|Script(t)|, i requires 0 <= i < |Script(t)| => Do(ADMIN, Script(t)[i], 0))
  }

  lemma {:induction false} ScriptRuns(cfg: Config, t: Texts, n: nat)
    requires n <= |Script(t)|
    ensures StateAt(cfg, Actions(t), n) == Publication.START.(db := Before(cfg.rules, t, n))
  {
    hide After, Script;
    if n > 0 {
      ScriptRuns(cfg, t, n - 1);
      NextState(cfg, Actions(t), n - 1);
      NextCommand(cfg.rules, t, n - 1);
    } else {
      assert Actions(t)[..0] == [] && Script(t)[..0] == [];
    }
  }

  /** So a run of the system reaches a state whose export is refused, with the worker idle and nothing gone wrong. */
  lemma SomeRunStopsExport(cfg: Config, t: Texts)
    requires Lawful(cfg.rules) && Accepts(cfg.rules, t)
    ensures var s := StateAt(cfg, Actions(t), 8);
      Export(cfg.rules, cfg.budget, ViewOf(s.db), s.db.generation) == Err(Invalid)
  {
    hide Export, ViewOf, StateAt;
    ScriptRuns(cfg, t, 8);
    ScriptStopsExport(cfg.rules, cfg.budget, t);
  }
}
