/** How many attempts can fail, and what a quiet system reaches. */
module PublicationLiveness {
  import opened Base
  import opened Schema
  import opened Workflow
  import opened Editorial
  import opened CommandProofs
  import opened Projection
  import opened GenerationProofs
  import opened Graph
  import opened Exporting
  import opened Listing
  import opened Completeness
  import opened Jobs
  import opened Publication
  import opened PublicationSafety
  import opened PublicationRuns

  // ----- recorded failures -----

  function Failures(log: seq<Event>): nat {
    if log == [] then 0 else Failures(log[..|log| - 1]) + if log[|log| - 1].Recorded? then 1 else 0
  }

  function Retries(log: seq<Event>): nat {
    if log == [] then 0 else Retries(log[..|log| - 1]) + if log[|log| - 1].Retried? then 1 else 0
  }

  // Automatic attempts not used up yet, over all jobs.
  function Left(jobs: seq<Job>): int {
    if jobs == [] then 0 else Left(jobs[..|jobs| - 1]) + MAX_AUTOMATIC_ATTEMPTS - jobs[|jobs| - 1].attempts
  }

  // Failures recorded so far plus attempts left, against what commands and retries granted.
  function Spent(s: Sys): int {
    Failures(s.log) + Left(s.db.jobs) - MAX_AUTOMATIC_ATTEMPTS * (|s.db.jobs| + Retries(s.log))
  }

  lemma LogStep(log: seq<Event>, e: Event)
    ensures Failures(log + [e]) == Failures(log) + if e.Recorded? then 1 else 0
    ensures Retries(log + [e]) == Retries(log) + if e.Retried? then 1 else 0
  {
    assert (log + [e])[..|log|] == log;
  }

  lemma {:induction false} LeftPut(jobs: seq<Job>, id: int, row: Job)
    requires Row(jobs, id)
    ensures Left(Set(jobs, id, row)) == Left(jobs) + At(jobs, id).attempts - row.attempts
  {
    var n := |jobs| - 1;
    var put := Set(jobs, id, row);
    if id == |jobs| {
      assert put[..n] == jobs[..n];
    } else {
      assert put[..n] == Set(jobs[..n], id, row);
      LeftPut(jobs[..n], id, row);
    }
  }

  lemma {:induction false} LeftSame(a: seq<Job>, b: seq<Job>)
    requires |a| == |b| && forall i | 0 <= i < |a| :: a[i].attempts == b[i].attempts
    ensures Left(a) == Left(b)
  {
    if a != [] { LeftSame(a[..|a| - 1], b[..|b| - 1]); }
  }

  lemma {:induction false} LeftIsNatural(jobs: seq<Job>)
    requires forall i | 0 <= i < |jobs| :: jobs[i].attempts <= MAX_AUTOMATIC_ATTEMPTS
    ensures Left(jobs) >= 0
  {
    if jobs != [] { LeftIsNatural(jobs[..|jobs| - 1]); }
  }

  // A statement that leaves every attempt count alone.
  lemma JobsSpend(s: Sys, jobs: seq<Job>, next: Sys)
    requires next.db.jobs == jobs && next.log == s.log
    requires |jobs| == |s.db.jobs| && forall i | 0 <= i < |jobs| :: jobs[i].attempts == s.db.jobs[i].attempts
    ensures Spent(next) == Spent(s)
  {
    LeftSame(s.db.jobs, jobs);
  }

  ghost predicate SameAttempts(a: Sys, b: Sys) {
    && |a.db.jobs| == |b.db.jobs|
    && forall i | 0 <= i < |a.db.jobs| :: a.db.jobs[i].attempts == b.db.jobs[i].attempts
  }

  lemma WorkSpends(cfg: Config, s: Sys, o: Outcome, now: int)
    requires !s.stage.Failing? && !s.stage.Hooking?
    ensures SameAttempts(s, WorkStep(cfg, s, o, now)) && WorkStep(cfg, s, o, now).log == s.log
  {
    hide Export, ViewOf;
  }

  lemma HookSpends(s: Sys, job: Job, o: Outcome)
    ensures Spent(Hook(s, job, o)) == Spent(s)
  {
    LogStep(s.log, Hooked(if s.latest.Some? then s.latest.value.generation else 0, s.db.generation));
  }

  lemma RecordSpends(s: Sys, job: Job, o: Outcome, now: int)
    ensures Spent(Record(s, job, o, now)) <= Spent(s)
  {
    var failed := MarkFailed(s.db.jobs, job.generation, NextAttempt(job.attempts + 1, now));
    if o != Breaks && failed.Some? {
      var was := At(s.db.jobs, job.generation);
      LeftPut(s.db.jobs, job.generation,
              was.(state := Failed, attempts := was.attempts + 1, nextAttempt := NextAttempt(job.attempts + 1, now)));
      LogStep(s.log, Event.Recorded(job.generation));
    }
  }

  lemma RetrySpends(cfg: Config, ledger: Ledger, s: Sys, u: Actor, id: int)
    requires Inv(cfg, ledger, s)
    ensures Spent(RetryStep(s, u, id)) <= Spent(s)
  {
    hide Inv;
    if RetryStep(s, u, id) != s {
      RowGeneration(cfg, ledger, s, id);
      var was := At(s.db.jobs, id);
      LeftPut(s.db.jobs, id,
              was.(state := if was.key.None? then Pending else SnapshotUploaded, attempts := 0, nextAttempt := None));
      LogStep(s.log, Event.Retried(id));
    }
  }

  lemma DoSpends(cfg: Config, ledger: Ledger, s: Sys, u: Actor, c: Command, now: int)
    requires Inv(cfg, ledger, s) && Lawful(cfg.rules)
    ensures Spent(s.(db := After(cfg.rules, s.db, u, c, now))) <= Spent(s)
  {
    hide After, Good, ViewOf;
    GenerationDeterminesView(cfg.rules, s.db, u, c, now);
    var jobs := After(cfg.rules, s.db, u, c, now).jobs;
    if |jobs| == |s.db.jobs| + 1 { assert jobs[..|s.db.jobs|] == s.db.jobs; }
  }

  lemma StepSpends(cfg: Config, ledger: Ledger, s: Sys, a: Action)
    requires Inv(cfg, ledger, s) && Lawful(cfg.rules)
    ensures Spent(Step(cfg, s, a)) <= Spent(s)
  {
    hide Inv, After, RetryStep, Spent;
    match a
    case Do(u, c, now) => DoSpends(cfg, ledger, s, u, c, now);
    case Retry(u, id, _) => RetrySpends(cfg, ledger, s, u, id);
    case Crash => SameSpent(s, Step(cfg, s, a));
    case Work(o, now) =>
      if s.stage.Failing? {
        RecordSpends(s, s.stage.job, o, now);
      } else if s.stage.Hooking? {
        HookSpends(s, s.stage.job, o);
      } else {
        WorkSpends(cfg, s, o, now);
        JobsSpend(s, WorkStep(cfg, s, o, now).db.jobs, WorkStep(cfg, s, o, now));
      }
  }

  lemma SameSpent(s: Sys, t: Sys)
    requires t.db == s.db && t.log == s.log
    ensures Spent(t) == Spent(s)
  {
  }

  lemma {:induction false} RunSpends(cfg: Config, actions: seq<Action>, i: nat, n: nat)
    requires Lawful(cfg.rules) && i <= n <= |actions|
    ensures Spent(StateAt(cfg, actions, n)) <= Spent(StateAt(cfg, actions, i))
    decreases n
  {
    hide Inv, Step, StateAt, Spent, Extend;
    if i < n {
      RunSpends(cfg, actions, i, n - 1);
      RunInv(cfg, actions, n - 1);
      NextState(cfg, actions, n - 1);
      StepSpends(cfg, LedgerAt(cfg, actions, n - 1), StateAt(cfg, actions, n - 1), actions[n - 1]);
    }
  }

  /**
   * Between two moments of any run, the failures recorded are at most the attempts left at the first, plus
   * six for every generation and every operator retry in between. Crashes and faults add none.
   */
  lemma FailuresAreBounded(cfg: Config, actions: seq<Action>, i: nat, n: nat)
    requires Lawful(cfg.rules) && i <= n <= |actions|
    ensures var s, t := StateAt(cfg, actions, i), StateAt(cfg, actions, n);
      Failures(t.log) - Failures(s.log)
        <= Left(s.db.jobs) + MAX_AUTOMATIC_ATTEMPTS * (t.db.generation - s.db.generation + Retries(t.log) - Retries(s.log))
  {
    hide StateAt, JobOk;
    RunSpends(cfg, actions, i, n);
    JobsHaveShape(cfg, actions, i);
    JobsHaveShape(cfg, actions, n);
    forall k | 0 <= k < |StateAt(cfg, actions, n).db.jobs|
      ensures StateAt(cfg, actions, n).db.jobs[k].attempts <= MAX_AUTOMATIC_ATTEMPTS
    {
      AttemptsBound(StateAt(cfg, actions, n), k);
    }
    LeftIsNatural(StateAt(cfg, actions, n).db.jobs);
  }

  lemma AttemptsBound(s: Sys, k: int)
    requires 0 <= k < |s.db.jobs| && JobOk(s.objects, s.db.generation, s.db.jobs[k])
    ensures s.db.jobs[k].attempts <= MAX_AUTOMATIC_ATTEMPTS
  {
  }

  // ----- convergence -----

  // n worker steps with nothing else going on and nothing failing.
  ghost function Calmly(cfg: Config, s: Sys, now: int, n: nat): Sys
    decreases n
  {
    if n == 0 then s else Calmly(cfg, WorkStep(cfg, s, Works, now), now, n - 1)
  }

  lemma {:induction false} CalmlyAdds(cfg: Config, s: Sys, now: int, m: nat, n: nat)
    ensures Calmly(cfg, s, now, m + n) == Calmly(cfg, Calmly(cfg, s, now, m), now, n)
    decreases m
  {
    hide WorkStep;
    if m > 0 { CalmlyAdds(cfg, WorkStep(cfg, s, Works, now), now, m - 1, n); }
  }

  predicate Going(stage: Stage) {
    !stage.Idle? && !stage.Failing? && !stage.Sweeping?
  }

  // The next n undisturbed steps neither fail nor end the poll.
  ghost predicate Smooth(cfg: Config, s: Sys, now: int, n: nat)
    decreases n
  {
    n > 0 ==> var t := WorkStep(cfg, s, Works, now); Going(t.stage) && Smooth(cfg, t, now, n - 1)
  }

  lemma SmoothStep(cfg: Config, s: Sys, now: int, n: nat)
    requires n > 0 && Smooth(cfg, s, now, n)
    ensures var t := WorkStep(cfg, s, Works, now);
      Going(t.stage) && Smooth(cfg, t, now, n - 1) && Calmly(cfg, s, now, n) == Calmly(cfg, t, now, n - 1)
  {
    hide WorkStep;
  }

  lemma {:induction false} SmoothAdds(cfg: Config, s: Sys, now: int, m: nat, n: nat)
    ensures Smooth(cfg, s, now, m + n) <==> Smooth(cfg, s, now, m) && Smooth(cfg, Calmly(cfg, s, now, m), now, n)
    decreases m
  {
    hide WorkStep;
    if m > 0 { SmoothAdds(cfg, WorkStep(cfg, s, Works, now), now, m - 1, n); }
  }

  lemma {:induction false} CalmlyInv(cfg: Config, ledger: Ledger, s: Sys, now: int, n: nat)
    requires Inv(cfg, ledger, s)
    ensures Inv(cfg, ledger, Calmly(cfg, s, now, n))
    decreases n
  {
    hide Inv, WorkStep;
    if n > 0 {
      WorkInv(cfg, ledger, s, Works, now);
      CalmlyInv(cfg, ledger, WorkStep(cfg, s, Works, now), now, n - 1);
    }
  }

  function LastJob(s: Sys): Job
    requires s.db.jobs != []
  {
    s.db.jobs[|s.db.jobs| - 1]
  }

  // A quiet system with work to do that can be done.
  ghost predicate Ready(cfg: Config, s: Sys, now: int) {
    && s.stage.Idle? && s.db.jobs != [] && Due(LastJob(s), now)
    && (LastJob(s).key.None? ==> Export(cfg.rules, cfg.budget, ViewOf(s.db), s.db.generation).Ok?)
  }

  function Swiped(s: Sys): Sys {
    SetJobs(s, Supersede(s.db.jobs, s.db.generation))
  }

  // Polling supersedes the older jobs and picks the newest.
  lemma PollsTheNewest(cfg: Config, ledger: Ledger, s: Sys, now: int)
    requires Inv(cfg, ledger, s) && Ready(cfg, s, now)
    ensures Calmly(cfg, s, now, 4) == Go(Swiped(s), Starting(LastJob(s))) && Smooth(cfg, s, now, 4)
    ensures LastJob(s).generation == s.db.generation
    ensures Swiped(s).db.jobs != [] && LastJob(Swiped(s)) == LastJob(s)
  {
    hide Inv, Good, AllJobsOk, LatestOk, LogOk, LedgerOk, ObjectsOk, StageOk, JobOk, Export, ViewOf,
         Read, Recheck, PutSnapshot, Mark, Reload, CheckKey, Name, Hook, Finish, Sweep, Record, Fresh;
    hide WorkStep, Calmly, Smooth;
    RowGeneration(cfg, ledger, s, |s.db.jobs|);
    Parts(cfg, ledger, s);
    PicksTheNewest(cfg, s, now);
  }

  lemma PicksTheNewest(cfg: Config, s: Sys, now: int)
    requires s.stage.Idle? && s.db.jobs != [] && Due(LastJob(s), now) && LastJob(s).generation == s.db.generation
    ensures Calmly(cfg, s, now, 4) == Go(Swiped(s), Starting(LastJob(s))) && Smooth(cfg, s, now, 4)
    ensures Swiped(s).db.jobs != [] && LastJob(Swiped(s)) == LastJob(s)
  {
    hide Export, ViewOf, Read, Recheck, PutSnapshot, Mark, Reload, CheckKey, Name, Hook, Finish, Sweep, Record, Fresh;
    var s1 := WorkStep(cfg, s, Works, now);
    var s2 := WorkStep(cfg, s1, Works, now);
    var s3 := WorkStep(cfg, s2, Works, now);
    var s4 := WorkStep(cfg, s3, Works, now);
    assert s3 == Go(Swiped(s), Swept);
    assert s4 == Go(Swiped(s), Starting(LastJob(s)));
    assert Calmly(cfg, s, now, 4) == Calmly(cfg, s1, now, 3) == Calmly(cfg, s2, now, 2)
      == Calmly(cfg, s3, now, 1) == Calmly(cfg, s4, now, 0);
    assert Smooth(cfg, s4, now, 0) && Smooth(cfg, s3, now, 1) && Smooth(cfg, s2, now, 2) && Smooth(cfg, s1, now, 3);
  }

  // A job without a snapshot gets one.
  lemma UploadsTheSnapshot(cfg: Config, ledger: Ledger, s: Sys, job: Job, now: int)
    requires Inv(cfg, ledger, s) && s.stage == Starting(job) && job.key.None? && job.generation == s.db.generation
    requires Export(cfg.rules, cfg.budget, ViewOf(s.db), s.db.generation).Ok?
    ensures Smooth(cfg, s, now, 8)
    ensures var t := Calmly(cfg, s, now, 8);
      && t.stage.Checking? && Row(t.db.jobs, job.generation) && t.stage.job == At(t.db.jobs, job.generation)
      && t.db == s.db.(jobs := Set(s.db.jobs, job.generation, t.stage.job)) && t.stage.job.generation == job.generation
  {
    hide Inv, Export, ViewOf, PutSnapshot, Mark, Reload, CheckKey, Name, Hook, Finish, Sweep, Record, Pick;
    CalmlyInv(cfg, ledger, s, now, 3);
    var snapshot := Export(cfg.rules, cfg.budget, ViewOf(s.db), s.db.generation).value;
    var s1 := WorkStep(cfg, s, Works, now);
    assert s1 == Go(s, Reading(job));
    var s2 := WorkStep(cfg, s1, Works, now);
    assert s2 == Go(s, Rechecking(job, snapshot));
    var s3 := WorkStep(cfg, s2, Works, now);
    assert s3 == Go(s, Confirming(job, snapshot));
    var s4 := WorkStep(cfg, s3, Works, now);
    assert s4 == Go(s, Uploading(job, snapshot));
    assert Calmly(cfg, s, now, 3) == Calmly(cfg, s1, now, 2) == Calmly(cfg, s2, now, 1) == Calmly(cfg, s3, now, 0);
    UploadsFrom(cfg, ledger, s3, job, snapshot, now);
    assert Smooth(cfg, s2, now, 6) && Smooth(cfg, s1, now, 7);
    assert Calmly(cfg, s, now, 8) == Calmly(cfg, s1, now, 7) == Calmly(cfg, s2, now, 6) == Calmly(cfg, s3, now, 5);
  }

  lemma ConfirmingFacts(cfg: Config, ledger: Ledger, s: Sys, job: Job, snapshot: Snapshot)
    requires Inv(cfg, ledger, s) && s.stage == Confirming(job, snapshot)
    ensures Row(s.db.jobs, job.generation) && At(s.db.jobs, job.generation) == job
    ensures job.key.None? && Actionable(job) && !job.state.SnapshotUploaded?
    ensures SnapshotKey(job.generation) in s.objects ==> s.objects[SnapshotKey(job.generation)] == Json(snapshot)
  {
    hide Good, LedgerOk, AllJobsOk, LatestOk, LogOk, Right;
    RowGeneration(cfg, ledger, s, job.generation);
    StoredIsRight(cfg, ledger, s, job, snapshot);
  }

  lemma UploadsFrom(cfg: Config, ledger: Ledger, s: Sys, job: Job, snapshot: Snapshot, now: int)
    requires Inv(cfg, ledger, s) && s.stage == Confirming(job, snapshot) && job.generation == s.db.generation
    ensures Smooth(cfg, s, now, 5)
    ensures var t := Calmly(cfg, s, now, 5);
      && t.stage.Checking? && Row(t.db.jobs, job.generation) && t.stage.job == At(t.db.jobs, job.generation)
      && t.db == s.db.(jobs := Set(s.db.jobs, job.generation, t.stage.job)) && t.stage.job.generation == job.generation
  {
    hide Inv, Export, ViewOf, Read, Recheck, CheckKey, Name, Hook, Finish, Sweep, Record, Pick;
    ConfirmingFacts(cfg, ledger, s, job, snapshot);
    var s1 := WorkStep(cfg, s, Works, now);
    assert s1 == Go(s, Uploading(job, snapshot));
    var s2 := WorkStep(cfg, s1, Works, now);
    assert s2.stage == Reconfirming(job, snapshot) && s2.db == s.db;
    var s3 := WorkStep(cfg, s2, Works, now);
    assert s3 == Go(s2, Marking(job, snapshot));
    MarksFrom(cfg, s3, job, snapshot, now);
    assert Smooth(cfg, s2, now, 3) && Smooth(cfg, s1, now, 4);
    assert Calmly(cfg, s, now, 5) == Calmly(cfg, s1, now, 4) == Calmly(cfg, s2, now, 3) == Calmly(cfg, s3, now, 2);
  }

  lemma MarksFrom(cfg: Config, s: Sys, job: Job, snapshot: Snapshot, now: int)
    requires s.stage == Marking(job, snapshot) && Row(s.db.jobs, job.generation) && At(s.db.jobs, job.generation) == job
    requires Actionable(job) && !job.state.SnapshotUploaded?
    ensures Smooth(cfg, s, now, 2)
    ensures var t := Calmly(cfg, s, now, 2);
      && t.stage.Checking? && Row(t.db.jobs, job.generation) && t.stage.job == At(t.db.jobs, job.generation)
      && t.db == s.db.(jobs := Set(s.db.jobs, job.generation, t.stage.job)) && t.stage.job.generation == job.generation
  {
    hide Export, ViewOf, Read, Recheck, PutSnapshot, CheckKey, Name, Hook, Finish, Sweep, Record, Pick;
    var row := job.(state := SnapshotUploaded, key := Some(SnapshotKey(job.generation)),
                    digest := Some(Sha256(Json(snapshot))), nextAttempt := None);
    var s1 := WorkStep(cfg, s, Works, now);
    assert s1.stage == Reloading(job) && s1.db == s.db.(jobs := Set(s.db.jobs, job.generation, row));
    var s2 := WorkStep(cfg, s1, Works, now);
    assert s2 == Go(s1, Checking(row));
    assert Smooth(cfg, s2, now, 0) && Smooth(cfg, s1, now, 1);
    assert Calmly(cfg, s, now, 2) == Calmly(cfg, s1, now, 1) == Calmly(cfg, s2, now, 0);
  }

  lemma CheckingFacts(cfg: Config, ledger: Ledger, s: Sys, job: Job)
    requires Inv(cfg, ledger, s) && s.stage == Checking(job)
    ensures Row(s.db.jobs, job.generation) && At(s.db.jobs, job.generation) == job
    ensures job.key == Some(SnapshotKey(job.generation)) && job.digest.Some? && Actionable(job) && !job.state.Pending?
  {
    hide Good, LedgerOk, AllJobsOk, LatestOk, LogOk, Right;
    RowGeneration(cfg, ledger, s, job.generation);
  }

  // A job with a snapshot is named by latest.json, the hook fires, and the job is done.
  lemma NamesAndFires(cfg: Config, s: Sys, job: Job, now: int)
    requires s.stage == Checking(job) && job.generation == s.db.generation
    requires Row(s.db.jobs, job.generation) && At(s.db.jobs, job.generation) == job
    requires job.key == Some(SnapshotKey(job.generation)) && job.digest.Some? && Actionable(job) && !job.state.Pending?
    ensures Smooth(cfg, s, now, 6)
    ensures var t := Calmly(cfg, s, now, 7);
      && t.stage.Idle? && t.latest == Some(LatestFor(job))
      && t.db == s.db.(jobs := Set(s.db.jobs, job.generation, job.(state := BuildTriggered, nextAttempt := None)))
  {
    Names(cfg, s, job, now);
    FiresFrom(cfg, Go(s, Naming(job)), job, now);
    hide WorkStep, Calmly, Smooth;
    CalmlyAdds(cfg, s, now, 3, 4);
    SmoothAdds(cfg, s, now, 3, 3);
  }

  lemma Names(cfg: Config, s: Sys, job: Job, now: int)
    requires s.stage == Checking(job) && job.generation == s.db.generation
    requires job.key == Some(SnapshotKey(job.generation)) && job.digest.Some?
    ensures Calmly(cfg, s, now, 3) == Go(s, Naming(job)) && Smooth(cfg, s, now, 3)
  {
    hide Export, ViewOf, Read, Recheck, PutSnapshot, Mark, Reload, Hook, Finish, Sweep, Record, Pick;
    var s1 := WorkStep(cfg, s, Works, now);
    assert s1 == Go(s, Fencing(job));
    var s2 := WorkStep(cfg, s1, Works, now);
    var s3 := WorkStep(cfg, s2, Works, now);
    assert s3 == Go(s, Naming(job));
    assert Smooth(cfg, s3, now, 0) && Smooth(cfg, s2, now, 1) && Smooth(cfg, s1, now, 2);
    assert Calmly(cfg, s, now, 3) == Calmly(cfg, s1, now, 2) == Calmly(cfg, s2, now, 1) == Calmly(cfg, s3, now, 0);
  }

  lemma FiresFrom(cfg: Config, s: Sys, job: Job, now: int)
    requires s.stage == Naming(job) && Row(s.db.jobs, job.generation) && At(s.db.jobs, job.generation) == job
    requires job.key.Some? && job.digest.Some? && Actionable(job) && !job.state.Pending? && job.generation == s.db.generation
    ensures Smooth(cfg, s, now, 3)
    ensures var t := Calmly(cfg, s, now, 4);
      && t.stage.Idle? && t.latest == Some(LatestFor(job))
      && t.db == s.db.(jobs := Set(s.db.jobs, job.generation, job.(state := BuildTriggered, nextAttempt := None)))
  {
    hide Export, ViewOf, Read, Recheck, PutSnapshot, Mark, Reload, CheckKey, Sweep, Record, Pick;
    var s1 := WorkStep(cfg, s, Works, now);
    var s2 := WorkStep(cfg, s1, Works, now);
    assert s2.stage == Hooking(job) && s2.db == s.db && s2.latest == Some(LatestFor(job));
    var s3 := WorkStep(cfg, s2, Works, now);
    assert s3.stage == Finishing(job) && s3.db == s.db && s3.latest == s2.latest;
    var s4 := WorkStep(cfg, s3, Works, now);
    assert Smooth(cfg, s3, now, 0) && Smooth(cfg, s2, now, 1) && Smooth(cfg, s1, now, 2);
    assert Calmly(cfg, s, now, 4) == Calmly(cfg, s1, now, 3) == Calmly(cfg, s2, now, 2)
      == Calmly(cfg, s3, now, 1) == Calmly(cfg, s4, now, 0);
  }

  // The site's generation is published and nothing is left to do.
  ghost predicate Converged(s: Sys) {
    && s.stage.Idle? && s.db.jobs != [] && LastJob(s).state.BuildTriggered?
    && s.latest.Some? && s.latest.value.generation == s.db.generation
    && s.latest.value.key in s.objects && s.latest.value.digest == Sha256(s.objects[s.latest.value.key])
    && forall i | 0 <= i < |s.db.jobs| :: s.db.jobs[i].state.BuildTriggered? || s.db.jobs[i].state.Superseded?
  }

  // Steps one call of ProcessOnce takes when nothing fails.
  function StepsOf(s: Sys): nat
    requires s.db.jobs != []
  {
    if LastJob(s).key.None? then 19 else 12
  }

  lemma SwipedOlder(s: Sys, g: int)
    requires JobsOk(s.db) && AllJobsOk(s.objects, s.db) && g == s.db.generation
    ensures var jobs := Supersede(s.db.jobs, g);
      forall i | 0 <= i < |jobs| - 1 :: jobs[i].state.BuildTriggered? || jobs[i].state.Superseded?
  {
    forall i | 0 <= i < |s.db.jobs| - 1
      ensures Supersede(s.db.jobs, g)[i].state.BuildTriggered? || Supersede(s.db.jobs, g)[i].state.Superseded?
    {
      assert s.db.jobs[i].generation < g;
    }
  }

  lemma Concludes(cfg: Config, ledger: Ledger, s: Sys, t: Sys, job: Job)
    requires Inv(cfg, ledger, t) && t.stage.Idle? && 0 < job.generation == |s.db.jobs| == s.db.generation
    requires job.key.Some? && job.digest.Some? && t.latest == Some(LatestFor(job)) && t.db.generation == s.db.generation
    requires forall i | 0 <= i < |s.db.jobs| - 1 :: s.db.jobs[i].state.BuildTriggered? || s.db.jobs[i].state.Superseded?
    requires t.db.jobs == Set(s.db.jobs, job.generation, job.(state := BuildTriggered, nextAttempt := None))
    ensures Converged(t)
  {
    hide Good, LedgerOk, ObjectsOk, AllJobsOk, LogOk;
  }

  /**
   * Once commands and faults stop, one call of ProcessOnce on a due job whose generation exports publishes
   * that generation: latest.json names it, its job is triggered, every older job is triggered or superseded.
   */
  lemma Converges(cfg: Config, ledger: Ledger, s: Sys, now: int)
    requires Inv(cfg, ledger, s) && Ready(cfg, s, now)
    ensures Converged(Calmly(cfg, s, now, StepsOf(s)))
    ensures var t := Calmly(cfg, s, now, StepsOf(s)); t.db == s.db.(jobs := t.db.jobs)
    ensures Smooth(cfg, s, now, StepsOf(s) - 1)
  {
    hide Export, ViewOf, LedgerOk, ObjectsOk, JobOk, LatestOk, LogOk, WorkStep, Calmly, Smooth, Converged;
    var job := LastJob(s);
    PollsTheNewest(cfg, ledger, s, now);
    var s1 := Calmly(cfg, s, now, 4);
    CalmlyInv(cfg, ledger, s, now, 4);
    GoodJobs(cfg.rules, s.db);
    SwipedOlder(s, s.db.generation);
    hide Good, Inv, Supersede;
    if job.key.None? {
      SwipedView(cfg, ledger, s, s1);
      UploadsTheSnapshot(cfg, ledger, s1, job, now);
      var s2 := Calmly(cfg, s1, now, 8);
      CalmlyInv(cfg, ledger, s1, now, 8);
      Finishes(cfg, ledger, s2, s2.stage.job, now);
      CalmlyAdds(cfg, s, now, 4, 8);
      CalmlyAdds(cfg, s, now, 12, 7);
      SmoothAdds(cfg, s, now, 4, 8);
      SmoothAdds(cfg, s, now, 12, 6);
    } else {
      CalmlyInv(cfg, ledger, s1, now, 1);
      ChecksAtOnce(cfg, ledger, s1, job, now);
      var s2 := Calmly(cfg, s1, now, 1);
      Finishes(cfg, ledger, s2, job, now);
      CalmlyAdds(cfg, s, now, 4, 1);
      CalmlyAdds(cfg, s, now, 5, 7);
      SmoothAdds(cfg, s, now, 4, 1);
      SmoothAdds(cfg, s, now, 5, 6);
    }
  }

  lemma SwipedView(cfg: Config, ledger: Ledger, s: Sys, t: Sys)
    requires Inv(cfg, ledger, s) && Inv(cfg, ledger, t) && t.db.generation == s.db.generation
    ensures ViewOf(t.db) == ViewOf(s.db)
  {
    hide ViewOf, Good;
  }

  lemma ChecksAtOnce(cfg: Config, ledger: Ledger, s: Sys, job: Job, now: int)
    requires Inv(cfg, ledger, s) && s.stage == Starting(job) && job.key.Some? && job.generation == s.db.generation
    ensures Calmly(cfg, s, now, 1) == Go(s, Checking(job)) && Smooth(cfg, s, now, 1)
  {
    hide Inv, Export, ViewOf;
    assert WorkStep(cfg, s, Works, now) == Go(s, Checking(job));
    assert Smooth(cfg, WorkStep(cfg, s, Works, now), now, 0);
    assert Calmly(cfg, s, now, 1) == Calmly(cfg, WorkStep(cfg, s, Works, now), now, 0);
  }

  lemma Finishes(cfg: Config, ledger: Ledger, s: Sys, job: Job, now: int)
    requires Inv(cfg, ledger, s) && s.stage == Checking(job) && job.generation == s.db.generation
    requires forall i | 0 <= i < |s.db.jobs| - 1 :: s.db.jobs[i].state.BuildTriggered? || s.db.jobs[i].state.Superseded?
    ensures Converged(Calmly(cfg, s, now, 7)) && Smooth(cfg, s, now, 6)
    ensures var t := Calmly(cfg, s, now, 7); t.db == s.db.(jobs := t.db.jobs)
  {
    CheckingFacts(cfg, ledger, s, job);
    NamesAndFires(cfg, s, job, now);
    CalmlyInv(cfg, ledger, s, now, 7);
    RowGeneration(cfg, ledger, s, job.generation);
    GoodJobs(cfg.rules, s.db);
    hide Inv, Calmly;
    Concludes(cfg, ledger, s, Calmly(cfg, s, now, 7), job);
  }

  // n undisturbed worker steps, as actions.
  ghost function Quietly(now: int, n: nat): seq<Action> {
    seq(n, _ => Work(Works, now))
  }

  lemma {:induction false} QuietRun(cfg: Config, actions: seq<Action>, now: int, n: nat)
    ensures Run(cfg, Publication.START, actions + Quietly(now, n)) == Calmly(cfg, Run(cfg, Publication.START, actions), now, n)
  {
    hide WorkStep;
    if n == 0 {
      assert actions + Quietly(now, 0) == actions;
    } else {
      var all := actions + Quietly(now, n);
      assert all[..|all| - 1] == actions + Quietly(now, n - 1);
      QuietRun(cfg, actions, now, n - 1);
      CalmlyAdds(cfg, Run(cfg, Publication.START, actions), now, n - 1, 1);
      var before := Calmly(cfg, Run(cfg, Publication.START, actions), now, n - 1);
      assert Calmly(cfg, before, now, 1) == Calmly(cfg, WorkStep(cfg, before, Works, now), now, 0);
    }
  }

  /** After any run, if the newest job is due and its generation exports, a quiet spell publishes it. */
  lemma QuietSpellPublishes(cfg: Config, actions: seq<Action>, now: int)
    requires Lawful(cfg.rules) && Ready(cfg, Run(cfg, Publication.START, actions), now)
    ensures var steps := StepsOf(Run(cfg, Publication.START, actions));
      Converged(Run(cfg, Publication.START, actions + Quietly(now, steps)))
  {
    hide Inv, Ready, Converged, Calmly;
    assert actions[..|actions|] == actions;
    RunInv(cfg, actions, |actions|);
    var s := Run(cfg, Publication.START, actions);
    HasJobs(cfg, s, now);
    Converges(cfg, LedgerAt(cfg, actions, |actions|), s, now);
    QuietRun(cfg, actions, now, StepsOf(s));
  }

  lemma HasJobs(cfg: Config, s: Sys, now: int)
    requires Ready(cfg, s, now)
    ensures s.db.jobs != []
  {
  }

  /** Every reachable state exports exactly when the limits hold and every published topic's targets are published. */
  lemma ReachableExports(cfg: Config, actions: seq<Action>, n: nat)
    requires Lawful(cfg.rules) && n <= |actions| && StateAt(cfg, actions, n).db.ready
    ensures var db := StateAt(cfg, actions, n).db; var v := ViewOf(db);
      && (forall k | 0 <= k < |v.rows| :: Addable(v.rows[k]))
      && (Export(cfg.rules, cfg.budget, v, db.generation).Ok? <==>
            Fits(cfg.budget, v, Collect(cfg.budget, v.rows)) && |Tagged(v.rows)| <= MAX_LINKS && TopicsLive(db))
  {
    hide Inv, StateAt, LedgerAt, Acceptable, Fits, Collect, Tagged, TopicsLive, Addable;
    RunInv(cfg, actions, n);
    Parts(cfg, LedgerAt(cfg, actions, n), StateAt(cfg, actions, n));
    ExportIff(cfg.rules, cfg.budget, StateAt(cfg, actions, n).db);
  }

  /** An idle system whose newest job is due is ready if the limits hold and every topic points at published articles. */
  lemma LiveTopicsAreReady(cfg: Config, ledger: Ledger, s: Sys, now: int)
    requires Inv(cfg, ledger, s) && s.stage.Idle? && s.db.jobs != [] && Due(LastJob(s), now) && s.db.ready
    requires var v := ViewOf(s.db);
      && (forall k | 0 <= k < |v.rows| :: Addable(v.rows[k]))
      && Fits(cfg.budget, v, Collect(cfg.budget, v.rows)) && |Tagged(v.rows)| <= MAX_LINKS
    requires TopicsLive(s.db)
    ensures Ready(cfg, s, now)
  {
    hide Inv, Acceptable, Fits, Collect, Tagged, TopicsLive;
    Parts(cfg, ledger, s);
    ExportIff(cfg.rules, cfg.budget, s.db);
  }
}
