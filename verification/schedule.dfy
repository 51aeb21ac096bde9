/** When the worker takes a job up again: the delay after a failure, and what never starts again. */
module PublicationSchedule {
  import opened Base
  import opened Schema
  import opened Workflow
  import opened Editorial
  import opened Projection
  import opened GenerationProofs
  import opened Exporting
  import opened Jobs
  import opened Publication
  import opened PublicationSafety
  import opened PublicationRuns

  // The times at which an attempt that failed at now is repeated: five delays in milliseconds, then none.
  predicate RetryTime(attempts: int, now: int, next: Option<int>) {
    && (attempts == 1 ==> next == Some(now + 30000))
    && (attempts == 2 ==> next == Some(now + 120000))
    && (attempts == 3 ==> next == Some(now + 600000))
    && (attempts == 4 ==> next == Some(now + 1800000))
    && (attempts == 5 ==> next == Some(now + 3600000))
    && (attempts >= 6 ==> next == None)
  }

  predicate Open(j: Job) {
    j.state == Pending || j.state == SnapshotUploaded || j.state == JobState.Failed
  }

  /** What becomes of a failed attempt: the row of an open job counts it and gets its next time; nothing else changes. */
  lemma FailureIsRecorded(cfg: Config, ledger: Ledger, s: Sys, o: Outcome, now: int)
    requires Inv(cfg, ledger, s) && s.stage.Failing?
    ensures var g, t := s.stage.job.generation, WorkStep(cfg, s, o, now);
      && 0 < g <= |s.db.jobs| && t.stage == Idle && t.objects == s.objects && t.latest == s.latest
      && (if o == Breaks || !Open(s.db.jobs[g - 1]) then t.db == s.db && t.log == s.log
          else
            var was, row := s.db.jobs[g - 1], t.db.jobs[g - 1];
            && t.log == s.log + [Recorded(g)] && t.db == s.db.(jobs := s.db.jobs[g - 1 := row])
            && row == was.(state := JobState.Failed, attempts := was.attempts + 1, nextAttempt := row.nextAttempt)
            && 1 <= row.attempts <= 6 && RetryTime(row.attempts, now, row.nextAttempt))
  {
    hide Good, LedgerOk, ObjectsOk, AllJobsOk, LatestOk, LogOk, Export, ViewOf;
  }

  /** The poll takes up the newest job unless it is done or replaced, has failed for good, or its time has not come. */
  lemma TakenUpWhenDue(cfg: Config, s: Sys, o: Outcome, now: int)
    requires s.stage == Swept
    ensures var t := WorkStep(cfg, s, o, now); var n := |s.db.jobs|;
      && t == s.(stage := t.stage)
      && t.stage == if o == Works && n > 0
                       && (s.db.jobs[n - 1].state == Pending || s.db.jobs[n - 1].state == SnapshotUploaded
                           || (s.db.jobs[n - 1].state == JobState.Failed && s.db.jobs[n - 1].nextAttempt.Some?
                               && s.db.jobs[n - 1].nextAttempt.value <= now))
                    then Starting(s.db.jobs[n - 1]) else Idle
  {
  }

  // The worker is at job g.
  predicate Carries(stage: Stage, g: int) {
    !stage.Idle? && !stage.Locked? && !stage.Polled? && !stage.Swept? && stage.job.generation == g
  }

  // Row g is still row j, or was replaced by a newer generation, and the worker is not at it.
  ghost predicate Rests(s: Sys, g: int, j: Job) {
    && 0 < g <= |s.db.jobs| && !Carries(s.stage, g)
    && (s.db.jobs[g - 1] == j || s.db.jobs[g - 1] == j.(state := Superseded, nextAttempt := None))
  }

  // A clock reading at which a failed job may be repeated, or an operator's retry of it.
  predicate MayRestart(a: Action, g: int, next: Option<int>) {
    (a.Work? && next.Some? && next.value <= a.now) || (a.Retry? && a.id == g)
  }

  // One step, other than a due clock reading or a retry, leaves a failed job at rest.
  lemma RestStep(cfg: Config, ledger: Ledger, s: Sys, g: int, j: Job, a: Action)
    requires Inv(cfg, ledger, s) && Lawful(cfg.rules) && Rests(s, g, j) && j.state == JobState.Failed && !MayRestart(a, g, j.nextAttempt)
    ensures Rests(Step(cfg, s, a), g, j)
  {
    hide Inv, WorkStep, RetryStep, After, Coupled;
    match a
    case Do(u, c, now) => CommandKeepsJobs(cfg, ledger, s, u, c, now, g);
    case Retry(u, id, _) => RetryOfOthers(s, u, id, g);
    case Work(o, now) => WorkOnOthers(cfg, ledger, s, g, j, o, now);
    case Crash =>
  }

  lemma RetryOfOthers(s: Sys, u: Actor, id: int, g: int)
    requires 0 < g <= |s.db.jobs| && id != g
    ensures RetryStep(s, u, id).db.jobs[g - 1] == s.db.jobs[g - 1] && RetryStep(s, u, id).stage == s.stage
  {
  }

  // Commands write no row of the outbox but a new one.
  lemma CommandKeepsJobs(cfg: Config, ledger: Ledger, s: Sys, u: Actor, c: Command, now: int, g: int)
    requires Inv(cfg, ledger, s) && Lawful(cfg.rules) && 0 < g <= |s.db.jobs|
    ensures var next := After(cfg.rules, s.db, u, c, now); |s.db.jobs| <= |next.jobs| && next.jobs[g - 1] == s.db.jobs[g - 1]
  {
    hide Good, After, ViewOf;
    GenerationDeterminesView(cfg.rules, s.db, u, c, now);
  }

  lemma WorkOnOthers(cfg: Config, ledger: Ledger, s: Sys, g: int, j: Job, o: Outcome, now: int)
    requires Inv(cfg, ledger, s) && Rests(s, g, j) && j.state == JobState.Failed
    requires j.nextAttempt.Some? ==> now < j.nextAttempt.value
    ensures Rests(WorkStep(cfg, s, o, now), g, j)
  {
    hide Inv, WorkStep, Carries;
    Parts(cfg, ledger, s);
    RowsWritten(cfg, s, o, now, g);
    StageOfOthers(cfg, s, g, j, o, now);
  }

  // A row is rewritten only while it is open, by the worker at that job or as superseded.
  ghost predicate Rewritten(s: Sys, g: int, t: Sys)
    requires 0 < g <= |s.db.jobs| == |t.db.jobs|
  {
    var was, row := s.db.jobs[g - 1], t.db.jobs[g - 1];
    row == was || (Actionable(was) && (row == was.(state := Superseded, nextAttempt := None) || Carries(s.stage, g)))
  }

  lemma SupersededRow(jobs: seq<Job>, generation: int, g: int)
    requires 0 < g <= |jobs|
    ensures var was, row := jobs[g - 1], Supersede(jobs, generation)[g - 1];
      row == was || (Actionable(was) && row == was.(state := Superseded, nextAttempt := None))
  {
  }

  lemma RowsWritten(cfg: Config, s: Sys, o: Outcome, now: int, g: int)
    requires 0 < g <= |s.db.jobs|
    ensures Rewritten(s, g, WorkStep(cfg, s, o, now))
  {
    hide Fresh, Pick, Read, Recheck, PutSnapshot, Reload, CheckKey, Name, Hook, Mark, Finish, Record, Supersede;
    match s.stage
    case Polled(generation) => SupersededRow(s.db.jobs, generation, g);
    case Sweeping(job, generation, _) => SupersededRow(s.db.jobs, generation, g);
    case Marking(job, snapshot) => MarkedRow(s, job, snapshot, o, g);
    case Finishing(job) => FinishedRow(s, job, o, g);
    case Failing(job) => RecordedRow(s, job, o, now, g);
    case _ =>
  }

  lemma MarkedRow(s: Sys, job: Job, snapshot: Snapshot, o: Outcome, g: int)
    requires 0 < g <= |s.db.jobs| && s.stage == Marking(job, snapshot)
    ensures Rewritten(s, g, Mark(s, job, snapshot, o))
  {
  }

  lemma FinishedRow(s: Sys, job: Job, o: Outcome, g: int)
    requires 0 < g <= |s.db.jobs| && s.stage == Finishing(job)
    ensures Rewritten(s, g, Finish(s, job, o))
  {
  }

  lemma RecordedRow(s: Sys, job: Job, o: Outcome, now: int, g: int)
    requires 0 < g <= |s.db.jobs| && s.stage == Failing(job)
    ensures Rewritten(s, g, Record(s, job, o, now))
  {
  }

  lemma StageOfOthers(cfg: Config, s: Sys, g: int, j: Job, o: Outcome, now: int)
    requires JobsOk(s.db) && Rests(s, g, j) && j.state == JobState.Failed
    requires j.nextAttempt.Some? ==> now < j.nextAttempt.value
    ensures !Carries(WorkStep(cfg, s, o, now).stage, g)
  {
    hide Supersede, MarkUploaded, MarkTriggered, MarkFailed, Export, ViewOf, Backoff;
    match s.stage
    case Swept =>
    case _ => hide Pick;
  }

  lemma {:induction false} RestRun(cfg: Config, actions: seq<Action>, i: nat, n: nat, g: int, j: Job)
    requires Lawful(cfg.rules) && i <= n <= |actions| && Rests(StateAt(cfg, actions, i), g, j) && j.state == JobState.Failed
    requires forall m | i <= m < n :: !MayRestart(actions[m], g, j.nextAttempt)
    ensures Rests(StateAt(cfg, actions, n), g, j)
    decreases n
  {
    hide Inv, Step, StateAt, Extend, Rests, MayRestart;
    if i < n {
      RestRun(cfg, actions, i, n - 1, g, j);
      RunInv(cfg, actions, n - 1);
      NextState(cfg, actions, n - 1);
      RestStep(cfg, LedgerAt(cfg, actions, n - 1), StateAt(cfg, actions, n - 1), g, j, actions[n - 1]);
    }
  }

  /**
   * Between the failure recorded at step k and the next time the worker is at that job there is a retry by an
   * operator, or, unless it was the sixth, a clock reading later by at least the delay of that attempt.
   */
  lemma FailedJobWaits(cfg: Config, actions: seq<Action>, k: nat, n: nat, g: int)
    requires Lawful(cfg.rules) && k < n <= |actions|
    requires StateAt(cfg, actions, k).stage.Failing? && StateAt(cfg, actions, k).stage.job.generation == g
    requires StateAt(cfg, actions, k + 1).log == StateAt(cfg, actions, k).log + [Recorded(g)]
    requires Carries(StateAt(cfg, actions, n).stage, g)
    ensures var jobs := StateAt(cfg, actions, k + 1).db.jobs;
      && 0 < g <= |jobs| && actions[k].Work? && jobs[g - 1].state == JobState.Failed
      && RetryTime(jobs[g - 1].attempts, actions[k].now, jobs[g - 1].nextAttempt)
      && exists m :: k < m < n && MayRestart(actions[m], g, jobs[g - 1].nextAttempt)
  {
    hide Inv, StateAt, WorkStep, After, RetryTime, MayRestart;
    RunInv(cfg, actions, k);
    NextState(cfg, actions, k);
    var s, a := StateAt(cfg, actions, k), actions[k];
    assert a.Work? by { OnlyWorkRecords(cfg, s, a, g); }
    FailureIsRecorded(cfg, LedgerAt(cfg, actions, k), s, a.outcome, a.now);
    var j := StateAt(cfg, actions, k + 1).db.jobs[g - 1];
    if forall m | k < m < n :: !MayRestart(actions[m], g, j.nextAttempt) {
      RestRun(cfg, actions, k + 1, n, g, j);
    }
  }

  lemma OnlyWorkRecords(cfg: Config, s: Sys, a: Action, g: int)
    requires Step(cfg, s, a).log == s.log + [Recorded(g)]
    ensures a.Work?
  {
    hide WorkStep, After;
    assert (s.log + [Recorded(g)])[|s.log|] == Recorded(g);
  }

  // ----- jobs that are done -----

  predicate Done(s: Sys, g: int) {
    0 < g <= |s.db.jobs| && (s.db.jobs[g - 1].state == BuildTriggered || s.db.jobs[g - 1].state == Superseded)
  }

  lemma DoneStep(cfg: Config, ledger: Ledger, s: Sys, a: Action, g: int)
    requires Inv(cfg, ledger, s) && Lawful(cfg.rules) && Done(s, g)
    ensures Done(Step(cfg, s, a), g) && Step(cfg, s, a).db.jobs[g - 1] == s.db.jobs[g - 1]
  {
    hide Inv;
    match a
    case Do(u, c, now) =>
      hide After, Coupled;
      CommandKeepsJobs(cfg, ledger, s, u, c, now, g);
    case Work(o, now) =>
      hide WorkStep;
      RowsWritten(cfg, s, o, now, g);
    case _ =>
  }

  /** A triggered or superseded job is finished: nothing ever changes its row again. */
  lemma {:induction false} DoneJobsStay(cfg: Config, actions: seq<Action>, i: nat, n: nat, g: int)
    requires Lawful(cfg.rules) && i <= n <= |actions| && Done(StateAt(cfg, actions, i), g)
    ensures Done(StateAt(cfg, actions, n), g)
    ensures StateAt(cfg, actions, n).db.jobs[g - 1] == StateAt(cfg, actions, i).db.jobs[g - 1]
    decreases n
  {
    hide Inv, Step, StateAt, Extend;
    if i < n {
      DoneJobsStay(cfg, actions, i, n - 1, g);
      RunInv(cfg, actions, n - 1);
      NextState(cfg, actions, n - 1);
      DoneStep(cfg, LedgerAt(cfg, actions, n - 1), StateAt(cfg, actions, n - 1), actions[n - 1], g);
    }
  }

  // ----- stale work -----

  // The stages that first ask whether the generation is still the job's.
  predicate AsksFirst(stage: Stage) {
    stage.Starting? || stage.Confirming? || stage.Reconfirming? || stage.Refreshing? || stage.Verifying?
  }

  /** A job goes on only at its own generation; a newer one leads to the sweep, a failed query to a failed attempt. */
  lemma GoesOnIfCurrent(cfg: Config, s: Sys, o: Outcome, now: int)
    requires AsksFirst(s.stage)
    ensures var t, job := WorkStep(cfg, s, o, now), s.stage.job;
      && t == s.(stage := t.stage)
      && (if o != Works then t.stage == Failing(job)
          else if s.db.generation != job.generation then
            t.stage.Sweeping? && t.stage.job == job && t.stage.generation == s.db.generation
          else !t.stage.Sweeping? && !t.stage.Failing? && !t.stage.Idle? && t.stage.job == job)
  {
    hide Export, ViewOf;
  }

  /** An export that a newer generation overtook is dropped. */
  lemma StaleExportIsDropped(cfg: Config, s: Sys, o: Outcome, now: int)
    requires (s.stage.Reading? || s.stage.Rechecking?) && s.db.generation != s.stage.job.generation
    ensures WorkStep(cfg, s, o, now) == s.(stage := if o == Works then Idle else Failing(s.stage.job))
  {
  }

  /**
   * Overtaken work is dropped, not failed: open older jobs are superseded, no attempt is counted, nothing is recorded.
   * Only a statement that fails leads to a failed attempt.
   */
  lemma StaleIsDropped(cfg: Config, s: Sys, o: Outcome, now: int)
    requires s.stage.Sweeping?
    ensures var t := WorkStep(cfg, s, o, now);
      && t.stage == (if o == Works then Idle else Failing(s.stage.job))
      && t == s.(db := s.db.(jobs := t.db.jobs), stage := t.stage) && |t.db.jobs| == |s.db.jobs|
      && forall i | 0 <= i < |s.db.jobs| ::
           var was, row := s.db.jobs[i], t.db.jobs[i];
           row == if o != Breaks && was.generation < s.stage.generation && Open(was)
                  then was.(state := Superseded, nextAttempt := None) else was
  {
    hide Export, ViewOf, Fresh, Pick, Read, Recheck, PutSnapshot, Reload, CheckKey, Name, Hook, Mark, Finish, Record;
  }

  // ----- the fence -----

  // Commands readers may notice: what is published, and the tables it shows.
  predicate TouchesReaders(c: Command) {
    match c
    case PublishReviewed(_, _, _) => true
    case PublishDirect(_, _, _) => true
    case Unpublish(_) => true
    case Archive(_) => true
    case PutTag(_, _) => true
    case PutNoteGroup(_, _) => true
    case UpdateProfile(_, _) => true
    case _ => false
  }

  /** Between naming a snapshot and the end of its hook exactly those commands wait; the others go on. */
  lemma FenceHolds(cfg: Config, s: Sys, u: Actor, c: Command, now: int)
    ensures (s.stage.Refreshing? || s.stage.Naming? || s.stage.Verifying? || s.stage.Hooking?) && TouchesReaders(c) ==>
      Step(cfg, s, Do(u, c, now)) == s
    ensures !TouchesReaders(c) || s.stage.Idle? || s.stage.Failing? || s.stage.Uploading? || s.stage.Finishing? ==>
      Step(cfg, s, Do(u, c, now)) == s.(db := Workflow.After(cfg.rules, s.db, u, c, now))
  {
  }
}
