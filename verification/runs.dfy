/** Theorems about every run of the publication system from a fresh installation. */
module PublicationRuns {
  import opened Base
  import opened Schema
  import opened Workflow
  import opened Editorial
  import opened CommandProofs
  import opened Projection
  import opened Exporting
  import opened Jobs
  import opened Publication
  import opened PublicationSafety

  // The state after the first n actions.
  ghost function StateAt(cfg: Config, actions: seq<Action>, n: nat): Sys
    requires n <= |actions|
  {
    Run(cfg, Publication.START, actions[..n])
  }

  ghost function LedgerAt(cfg: Config, actions: seq<Action>, n: nat): Ledger
    requires n <= |actions|
  {
    if n == 0 then Extend(map[], EMPTY)
    else Extend(LedgerAt(cfg, actions, n - 1), StateAt(cfg, actions, n).db)
  }

  lemma NextState(cfg: Config, actions: seq<Action>, n: nat)
    requires n < |actions|
    ensures StateAt(cfg, actions, n + 1) == Step(cfg, StateAt(cfg, actions, n), actions[n])
  {
    hide Step;
    assert actions[..n + 1][..n] == actions[..n];
  }

  lemma {:induction false} RunInv(cfg: Config, actions: seq<Action>, n: nat)
    requires Lawful(cfg.rules) && n <= |actions|
    ensures Inv(cfg, LedgerAt(cfg, actions, n), StateAt(cfg, actions, n))
  {
    hide Inv, Step, Extend, StateAt;
    if n == 0 {
      StartState(cfg, actions);
      StartInv(cfg);
    } else {
      RunInv(cfg, actions, n - 1);
      NextState(cfg, actions, n - 1);
      StepInv(cfg, LedgerAt(cfg, actions, n - 1), StateAt(cfg, actions, n - 1), actions[n - 1]);
    }
  }

  lemma StartState(cfg: Config, actions: seq<Action>)
    ensures StateAt(cfg, actions, 0) == Publication.START
  {
  }

  lemma {:induction false} LedgerContinues(cfg: Config, actions: seq<Action>, i: nat, j: nat)
    requires Lawful(cfg.rules) && i <= j <= |actions|
    ensures Continues(LedgerAt(cfg, actions, i), LedgerAt(cfg, actions, j))
    ensures StateAt(cfg, actions, i).db.generation <= StateAt(cfg, actions, j).db.generation
    decreases j
  {
    hide Inv, Step, Extend, StateAt;
    if i < j {
      LedgerContinues(cfg, actions, i, j - 1);
      RunInv(cfg, actions, j - 1);
      NextState(cfg, actions, j - 1);
      StepInv(cfg, LedgerAt(cfg, actions, j - 1), StateAt(cfg, actions, j - 1), actions[j - 1]);
    }
  }

  /** Two states of a run with the same generation publish the same view, whatever happened in between. */
  lemma SameGenerationSameView(cfg: Config, actions: seq<Action>, i: nat, j: nat)
    requires Lawful(cfg.rules) && i <= j <= |actions|
    requires StateAt(cfg, actions, i).db.generation == StateAt(cfg, actions, j).db.generation
    ensures ViewOf(StateAt(cfg, actions, i).db) == ViewOf(StateAt(cfg, actions, j).db)
  {
    hide StateAt, ViewOf, LedgerAt, Good, ObjectsOk, AllJobsOk, LatestOk, LogOk, StageOk;
    RunInv(cfg, actions, i);
    RunInv(cfg, actions, j);
    LedgerContinues(cfg, actions, i, j);
  }

  /** A stored snapshot is the export of the view its generation had, at every moment the site was at it. */
  lemma ObjectsAreExports(cfg: Config, actions: seq<Action>, n: nat, i: nat, g: int)
    requires Lawful(cfg.rules) && i <= n <= |actions| && SnapshotKey(g) in StateAt(cfg, actions, n).objects
    requires StateAt(cfg, actions, i).db.generation == g
    ensures Export(cfg.rules, cfg.budget, ViewOf(StateAt(cfg, actions, i).db), g)
      == Ok(StateAt(cfg, actions, n).objects[SnapshotKey(g)].snapshot)
  {
    hide StateAt, ViewOf, LedgerAt, Good, AllJobsOk, LatestOk, LogOk, StageOk, Export;
    RunInv(cfg, actions, i);
    RunInv(cfg, actions, n);
    LedgerContinues(cfg, actions, i, n);
    assert Right(cfg, LedgerAt(cfg, actions, n), g, StateAt(cfg, actions, n).objects[SnapshotKey(g)]);
  }

  // Every generation up to the current one was the site's at some moment.
  lemma {:induction false} GenerationReached(cfg: Config, actions: seq<Action>, n: nat, g: int) returns (i: nat)
    requires Lawful(cfg.rules) && n <= |actions| && 0 <= g <= StateAt(cfg, actions, n).db.generation
    ensures i <= n && StateAt(cfg, actions, i).db.generation == g
  {
    hide Inv, Step, Extend, StateAt;
    StartState(cfg, actions);
    i := n;
    if n > 0 && StateAt(cfg, actions, n).db.generation != g {
      RunInv(cfg, actions, n - 1);
      NextState(cfg, actions, n - 1);
      StepInv(cfg, LedgerAt(cfg, actions, n - 1), StateAt(cfg, actions, n - 1), actions[n - 1]);
      i := GenerationReached(cfg, actions, n - 1, g);
    }
  }

  /** Re-uploading after a crash or an ambiguous failure meets its own bytes, never a conflict. */
  lemma UploadNeverConflicts(cfg: Config, actions: seq<Action>, n: nat)
    requires Lawful(cfg.rules) && n <= |actions| && StateAt(cfg, actions, n).stage.Uploading?
    ensures var s := StateAt(cfg, actions, n); var key := SnapshotKey(s.stage.job.generation);
      key in s.objects ==> s.objects[key] == Json(s.stage.snapshot)
  {
    hide StateAt, ViewOf, LedgerAt, Good, AllJobsOk, LatestOk, LogOk, Right, LedgerOk;
    RunInv(cfg, actions, n);
    var s := StateAt(cfg, actions, n);
    StoredIsRight(cfg, LedgerAt(cfg, actions, n), s, s.stage.job, s.stage.snapshot);
  }

  // ----- objects and latest.json over time -----

  ghost predicate Newer(a: Option<Latest>, b: Option<Latest>) {
    a.Some? ==> b.Some? && a.value.generation <= b.value.generation
  }

  lemma StepAdvances(cfg: Config, ledger: Ledger, s: Sys, a: Action)
    requires Inv(cfg, ledger, s)
    ensures Newer(s.latest, Step(cfg, s, a).latest) && Kept(s.objects, Step(cfg, s, a).objects)
  {
    hide Inv, After, ViewOf, Fresh, Sweep, Pick, Read, Recheck, PutSnapshot, Mark,
         Reload, CheckKey, Name, Hook, Finish, Record, RetryStep;
    if a.Work? && s.stage.Naming? { NameInv(cfg, ledger, s, s.stage.job, a.outcome); }
  }

  /** latest.json never goes back and stored snapshots never change or vanish. */
  lemma {:induction false} LatestNeverGoesBack(cfg: Config, actions: seq<Action>, i: nat, j: nat)
    requires Lawful(cfg.rules) && i <= j <= |actions|
    ensures Newer(StateAt(cfg, actions, i).latest, StateAt(cfg, actions, j).latest)
    ensures Kept(StateAt(cfg, actions, i).objects, StateAt(cfg, actions, j).objects)
    decreases j
  {
    hide Inv, Step, Extend, StateAt;
    if i < j {
      LatestNeverGoesBack(cfg, actions, i, j - 1);
      RunInv(cfg, actions, j - 1);
      NextState(cfg, actions, j - 1);
      StepAdvances(cfg, LedgerAt(cfg, actions, j - 1), StateAt(cfg, actions, j - 1), actions[j - 1]);
    }
  }

  /** latest.json names a stored export with exactly its digest, and never runs ahead of the site. */
  lemma LatestNeverDangles(cfg: Config, actions: seq<Action>, n: nat)
    requires Lawful(cfg.rules) && n <= |actions| && StateAt(cfg, actions, n).latest.Some?
    ensures var s := StateAt(cfg, actions, n); var l := s.latest.value;
      && 0 < l.generation <= s.db.generation && l.key == SnapshotKey(l.generation)
      && l.key in s.objects && l.digest == Sha256(s.objects[l.key])
      && s.objects[l.key].snapshot.generation == l.generation
  {
    hide StateAt, ViewOf, LedgerAt, Good, AllJobsOk, LogOk, StageOk, Acceptable;
    RunInv(cfg, actions, n);
    var s := StateAt(cfg, actions, n);
    assert Right(cfg, LedgerAt(cfg, actions, n), s.latest.value.generation, s.objects[s.latest.value.key]);
  }

  /** Whenever the hook fired, latest.json named the generation the site was at; triggered jobs fired it. */
  lemma HooksNameTheSite(cfg: Config, actions: seq<Action>, n: nat)
    requires Lawful(cfg.rules) && n <= |actions|
    ensures var s := StateAt(cfg, actions, n);
      && (forall e | e in s.log && e.Hooked? :: e.named == e.current)
      && forall j | j in s.db.jobs && j.state.BuildTriggered? :: Hooked(j.generation, j.generation) in s.log
  {
    hide StateAt, ViewOf, LedgerAt, AllJobsOk, StageOk, LatestOk, ObjectsOk, LedgerOk;
    RunInv(cfg, actions, n);
    var s := StateAt(cfg, actions, n);
    Parts(cfg, LedgerAt(cfg, actions, n), s);
    forall j | j in s.db.jobs && j.state.BuildTriggered?
      ensures Hooked(j.generation, j.generation) in s.log
    {
      var i :| 0 <= i < |s.db.jobs| && s.db.jobs[i] == j;
      assert Fired(s.log, i + 1);
    }
  }

  /** One job per generation; keys, digests, attempts and due times agree with the state of each. */
  lemma JobsHaveShape(cfg: Config, actions: seq<Action>, n: nat)
    requires Lawful(cfg.rules) && n <= |actions|
    ensures var s := StateAt(cfg, actions, n);
      && |s.db.jobs| == s.db.generation
      && forall i | 0 <= i < |s.db.jobs| ::
           s.db.jobs[i].generation == i + 1 && JobOk(s.objects, s.db.generation, s.db.jobs[i])
  {
    hide StateAt, ViewOf, LedgerAt, StageOk, LatestOk, ObjectsOk, LedgerOk, JobOk;
    RunInv(cfg, actions, n);
    Parts(cfg, LedgerAt(cfg, actions, n), StateAt(cfg, actions, n));
  }
}
