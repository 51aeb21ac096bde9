/** The CMS database, its autosave clients and the network between them, as one run of the autosave world. */
module AutosaveSite {
  import opened Base
  import opened Schema
  import opened Workflow
  import opened Autosave
  import opened AutosaveWorld
  import opened DraftVersions

  // One draft of the database with its clients and the parcels under way; history remembers what loads may see.
  datatype Site = Site(db: Db, history: map<int, Material>, clients: seq<Client<Material>>, post: seq<Parcel<Material>>)

  // How a request ends for its client, whatever it did on the server.
  datatype Ending = Answered | NeverArrived | AnswerLost

  datatype Action =
    | ClientStep(step: Step<Material>)
    | Handle(parcel: nat, user: Actor, input: DraftInput, now: int, ending: Ending)
    | Execute(user: Actor, command: Command, now: int)

  function Draft(s: Site, id: int): Schema.Draft
    requires Row(s.db.drafts, id)
  {
    At(s.db.drafts, id)
  }

  // The site with one draft row as the autosave world sees it.
  function View(s: Site, id: int): AutosaveWorld.World<Material>
    requires Row(s.db.drafts, id)
  {
    AutosaveWorld.World(Draft(s, id).version, OfDraft(Draft(s, id)), s.history, s.clients, s.post)
  }

  // A new state of the database, remembered.
  function Stored(s: Site, id: int, db: Db): Site
    requires Row(db.drafts, id)
  {
    s.(db := db, history := s.history[At(db.drafts, id).version := OfDraft(At(db.drafts, id))])
  }

  // The request names the draft it was sent for and carries what its client sent.
  predicate Handles(s: Site, parcel: nat, input: DraftInput) {
    && parcel < |s.post| && s.post[parcel].Request?
    && input.version == s.post[parcel].version && OfInput(input) == s.post[parcel].snapshot
  }

  // Servers do not step by themselves: requests are handled and commands executed on the database.
  predicate OfClient(step: Step<Material>) {
    !step.Serve? && !step.Restore?
  }

  function Step(rules: Rules, s: Site, id: int, a: Action): (next: Site)
    requires Row(s.db.drafts, id)
    ensures Row(next.db.drafts, id)
  {
    match a
    case ClientStep(step) =>
      if !OfClient(step) then s
      else
        var w := AutosaveWorld.Next(View(s, id), step);
        s.(clients := w.clients, post := w.post)
    case Handle(k, u, input, now, ending) =>
      if !Handles(s, k, input) then s
      else
        var change := Workflow.Apply(rules, s.db, u, Save(id, input), now);
        var db := Workflow.After(rules, s.db, u, Save(id, input), now);
        var answer := if ending.Answered? then AnswerOf(change, input.version) else OtherError;
        var reached := if ending.NeverArrived? || !Row(db.drafts, id) then s else Stored(s, id, db);
        reached.(post := s.post[k := Reply(s.post[k].client, answer)])
    case Execute(u, c, now) =>
      var db := Workflow.After(rules, s.db, u, c, now);
      if Row(db.drafts, id) then Stored(s, id, db) else s
  }

  // The step of the autosave world an action is.
  function StepOf(rules: Rules, s: Site, id: int, a: Action): AutosaveWorld.Step<Material>
    requires Row(s.db.drafts, id)
  {
    var idle := Restore(Draft(s, id).version + 1, OfDraft(Draft(s, id)));
    match a
    case ClientStep(step) => if OfClient(step) then step else idle
    case Handle(k, u, input, now, ending) =>
      if !Handles(s, k, input) then idle
      else
        var change := Workflow.Apply(rules, s.db, u, Save(id, input), now);
        Serve(k, if ending.Answered? then FateOf(change) else if ending.AnswerLost? && change.Ok? then LostAfter else LostBefore)
    case Execute(u, c, now) =>
      var db := Workflow.After(rules, s.db, u, c, now);
      if Row(db.drafts, id) && At(db.drafts, id) != Draft(s, id)
      then Restore(Draft(s, id).version, OfDraft(At(db.drafts, id)))
      else idle
  }

  // What the draft is now has been remembered.
  ghost predicate Remembers(s: Site, id: int) {
    && Row(s.db.drafts, id) && Draft(s, id).version in s.history
    && s.history[Draft(s, id).version] == OfDraft(Draft(s, id))
  }

  lemma ClientSimulates(rules: Rules, s: Site, id: int, step: AutosaveWorld.Step<Material>)
    requires Remembers(s, id)
    ensures var next := Step(rules, s, id, ClientStep(step));
      Remembers(next, id) && View(next, id) == Next(View(s, id), StepOf(rules, s, id, ClientStep(step)))
  {
  }

  lemma CommandSimulates(rules: Rules, s: Site, id: int, u: Actor, c: Command, now: int)
    requires Remembers(s, id)
    ensures var next := Step(rules, s, id, Execute(u, c, now));
      Remembers(next, id) && View(next, id) == Next(View(s, id), StepOf(rules, s, id, Execute(u, c, now)))
  {
    hide Workflow.After;
    DraftsAreVersioned(rules, s.db, u, c, now, id);
  }

  lemma HandleSimulates(rules: Rules, s: Site, id: int, k: nat, u: Actor, input: DraftInput, now: int, ending: Ending)
    requires Remembers(s, id) && NamesOtherFaults(rules)
    ensures var a := Handle(k, u, input, now, ending); var next := Step(rules, s, id, a);
      Remembers(next, id) && View(next, id) == Next(View(s, id), StepOf(rules, s, id, a))
  {
    if Handles(s, k, input) {
      SaveServesRequest(rules, s.db, u, id, input, now, View(s, id), k);
      hide Workflow.Apply, NamesOtherFaults;
      DraftsAreVersioned(rules, s.db, u, Save(id, input), now, id);
      SavedVersion(rules, s.db, u, id, input, now);
    }
  }

  // An accepted save was at the version it named, a refused one left the database alone.
  lemma SavedVersion(rules: Rules, db: Db, u: Actor, id: int, input: DraftInput, now: int)
    requires Row(db.drafts, id)
    ensures var change, next := Workflow.Apply(rules, db, u, Save(id, input), now), Workflow.After(rules, db, u, Save(id, input), now);
      && (change.Ok? ==> input.version == At(db.drafts, id).version && Row(next.drafts, id)
                         && At(next.drafts, id).version == input.version + 1
                         && OfDraft(At(next.drafts, id)) == OfInput(input))
      && (change.Err? ==> next == db)
  {
    hide Workflow.Apply;
    var change := Workflow.Apply(rules, db, u, Save(id, input), now);
    if change.Ok? {
      SavedMaterial(rules, db, u, id, input, now, change.value);
    }
  }

  lemma StepSimulates(rules: Rules, s: Site, id: int, a: Action)
    requires Remembers(s, id) && NamesOtherFaults(rules)
    ensures Remembers(Step(rules, s, id, a), id)
    ensures View(Step(rules, s, id, a), id) == Next(View(s, id), StepOf(rules, s, id, a))
  {
    hide NamesOtherFaults, Step, StepOf, Remembers, View, Next;
    match a
    case ClientStep(step) => ClientSimulates(rules, s, id, step);
    case Execute(u, c, now) => CommandSimulates(rules, s, id, u, c, now);
    case Handle(k, u, input, now, ending) => HandleSimulates(rules, s, id, k, u, input, now, ending);
  }

  // ----- whole runs -----

  // A database whose draft is as it was created, before any client has opened it.
  predicate Fresh(db: Db, id: int) {
    Row(db.drafts, id) && At(db.drafts, id).version == 1
  }

  function Start(db: Db, id: int): Site
    requires Fresh(db, id)
  {
    Site(db, map[1 := OfDraft(At(db.drafts, id))], [], [])
  }

  function Play(rules: Rules, db: Db, id: int, actions: seq<Action>): (s: Site)
    requires Fresh(db, id)
    ensures Row(s.db.drafts, id)
    decreases |actions|
  {
    if actions == [] then Start(db, id)
    else Step(rules, Play(rules, db, id, actions[..|actions| - 1]), id, actions[|actions| - 1])
  }

  function Steps(rules: Rules, db: Db, id: int, actions: seq<Action>): (steps: seq<AutosaveWorld.Step<Material>>)
    requires Fresh(db, id)
    ensures |steps| == |actions|
    decreases |actions|
  {
    if actions == [] then []
    else
      var before := actions[..|actions| - 1];
      Steps(rules, db, id, before) + [StepOf(rules, Play(rules, db, id, before), id, actions[|actions| - 1])]
  }

  /**
   * The database, its clients and the network between them run as the autosave world does: whatever commands anyone
   * executes, and whatever becomes of requests and answers, one step for each action.
   */
  lemma {:induction false} SiteRuns(rules: Rules, db: Db, id: int, actions: seq<Action>)
    requires Fresh(db, id) && NamesOtherFaults(rules)
    ensures Remembers(Play(rules, db, id, actions), id)
    ensures View(Play(rules, db, id, actions), id)
      == Run(Begin(OfDraft(At(db.drafts, id))), Steps(rules, db, id, actions))
    decreases |actions|
  {
    hide NamesOtherFaults, Step, StepOf, Next, OfDraft;
    if actions != [] {
      var before := actions[..|actions| - 1];
      SiteRuns(rules, db, id, before);
      StepSimulates(rules, Play(rules, db, id, before), id, actions[|actions| - 1]);
      var steps := Steps(rules, db, id, actions);
      assert steps[..|steps| - 1] == Steps(rules, db, id, before);
    }
  }

  /**
   * So no update is lost in the database: after any run, a handled request that changes the draft replaces exactly
   * what its client had last acknowledged or loaded, by what that client sent, one version up.
   */
  lemma DatabaseLosesNoUpdate(rules: Rules, db: Db, id: int, actions: seq<Action>,
                              k: nat, u: Actor, input: DraftInput, now: int, ending: Ending)
    requires Fresh(db, id) && NamesOtherFaults(rules) && Handles(Play(rules, db, id, actions), k, input)
    ensures var s := Play(rules, db, id, actions);
      var next, i := Step(rules, s, id, Handle(k, u, input, now, ending)), s.post[k].client;
      && i < |s.clients|
      && (Draft(next, id).version != Draft(s, id).version ==>
            && OfDraft(Draft(s, id)) == s.clients[i].acknowledged && Draft(s, id).version == s.clients[i].version
            && OfDraft(Draft(next, id)) == s.post[k].snapshot && Draft(next, id).version == Draft(s, id).version + 1)
      && (Draft(next, id).version == Draft(s, id).version ==> OfDraft(Draft(next, id)) == OfDraft(Draft(s, id)))
  {
    hide NamesOtherFaults, Step, Next, OfDraft, Play, Steps, Run, Handles;
    var s, a := Play(rules, db, id, actions), Handle(k, u, input, now, ending);
    SiteRuns(rules, db, id, actions);
    StepSimulates(rules, s, id, a);
    Parcels(s, k, input);
    NoLostUpdate(OfDraft(At(db.drafts, id)), Steps(rules, db, id, actions), k, StepOf(rules, s, id, a).fate);
  }

  lemma Parcels(s: Site, k: nat, input: DraftInput)
    requires Handles(s, k, input)
    ensures k < |s.post| && s.post[k].Request?
  {
  }

  /** A client at the draft's version has the draft's value as its last acknowledged one, over every run. */
  lemma ClientsKnowTheDraft(rules: Rules, db: Db, id: int, actions: seq<Action>, i: nat)
    requires Fresh(db, id) && NamesOtherFaults(rules) && i < |Play(rules, db, id, actions).clients|
    ensures var s := Play(rules, db, id, actions);
      && s.clients[i].version <= Draft(s, id).version
      && (s.clients[i].version == Draft(s, id).version ==> s.clients[i].acknowledged == OfDraft(Draft(s, id)))
  {
    hide NamesOtherFaults, Step, Next, OfDraft, Play, Steps, Run;
    SiteRuns(rules, db, id, actions);
    SameVersionSameValue(OfDraft(At(db.drafts, id)), Steps(rules, db, id, actions), i);
  }
}
