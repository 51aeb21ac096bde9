/** The publication worker as code: ProcessOnce over a database, a store and a clock that others use meanwhile. */
module PublicationWorker {
  import opened Base
  import opened Schema
  import opened Policy
  import opened Workflow
  import opened Editorial
  import opened Projection
  import opened Exporting
  import opened Exporter
  import opened Jobs
  import opened Publication
  import opened PublicationSafety
  import opened PublicationLiveness
  import opened PublicationSchedule

  // What happens around one call: what others do first, how the call ends, and when.
  datatype Turn = Turn(meanwhile: seq<Action>, outcome: Outcome, now: int)

  datatype Failure = Fine | Stale | Broken

  predicate Checks(stage: Stage) {
    stage.Starting? || stage.Confirming? || stage.Reconfirming? || stage.Refreshing? || stage.Verifying?
  }

  // Where a stage that checks freshness continues.
  function Onward(stage: Stage): Stage
    requires Checks(stage)
  {
    match stage
    case Starting(job) => if job.key.None? then Reading(job) else Checking(job)
    case Confirming(job, snapshot) => Uploading(job, snapshot)
    case Reconfirming(job, snapshot) => Marking(job, snapshot)
    case Refreshing(job) => Naming(job)
    case Verifying(job) => Hooking(job)
  }

  datatype Refusal = Conflict | Permission | NotFound | RetryForbidden

  class Worker {
    const cfg: Config
    var db: Db
    var objects: map<Key, Bytes>
    var latest: Option<Latest>
    var log: seq<Event>
    var flow: bool
    var fence: bool
    var turns: seq<Turn>
    const clock: int
    ghost const start: Sys
    ghost var stage: Stage
    ghost var trace: seq<Action>
    ghost var ledger: Ledger

    ghost function System(): Sys
      reads this
    {
      Sys(db, objects, latest, stage, log)
    }

    // The object is a state of a run of the publication system, and the locks are what the stage says.
    ghost predicate Valid()
      reads this
    {
      && Lawful(cfg.rules) && Inv(cfg, ledger, System()) && System() == Run(cfg, start, trace)
      && flow == !stage.Idle? && fence == HoldsFence(stage)
    }

    // Once the turns are used up nobody interferes, calls work and the clock stands.
    constructor (cfg: Config, s: Sys, ghost ledger: Ledger, turns: seq<Turn>, clock: int)
      requires Lawful(cfg.rules) && Inv(cfg, ledger, s) && s.stage.Idle?
      ensures Valid() && System() == s && this.cfg == cfg && start == s && trace == [] && stage == Idle
      ensures this.turns == turns && this.clock == clock
    {
      this.cfg, this.clock := cfg, clock;
      db, objects, latest, log := s.db, s.objects, s.latest, s.log;
      flow, fence := false, false;
      this.turns := turns;
      start, stage, trace := s, Idle, [];
      this.ledger := ledger;
    }

    // With nobody interfering and no call failing, the next step of the machine is taken.
    twostate predicate Calm()
      reads this
    {
      old(turns) == [] ==> turns == [] && System() == WorkStep(cfg, old(System()), Works, clock)
    }

    // With nobody interfering and the next n steps smooth, those steps are taken and nothing fails.
    twostate predicate Smoothly(n: nat, fine: bool)
      reads this
    {
      old(turns) == [] && Smooth(cfg, old(System()), clock, n) ==>
        fine && turns == [] && System() == Calmly(cfg, old(System()), clock, n)
    }

    // Others act between two calls of the worker: commands, unless the fence stops them. Retries are refused.
    method Interfere(actions: seq<Action>)
      requires Valid() && flow
      modifies this`db, this`trace, this`ledger
      ensures Valid() && old(trace) <= trace
    {
      hide Inv, Run, After, Extend;
      for i := 0 to |actions|
        invariant Valid() && old(trace) <= trace
      {
        if actions[i].Do? {
          var a := actions[i];
          StepInv(cfg, ledger, System(), a);
          RunStep(cfg, start, trace, a);
          if !(Fenced(a.command) && fence) {
            db := After(cfg.rules, db, a.user, a.command, a.now);
          }
          ledger := Extend(ledger, db);
          trace := trace + [a];
        }
      }
    }

    method NextTurn() returns (o: Outcome, now: int)
      requires Valid() && flow
      modifies this`db, this`trace, this`ledger, this`turns
      ensures Valid() && old(trace) <= trace
      ensures old(turns) == [] ==> turns == [] && o == Works && now == clock && System() == old(System())
    {
      hide Inv, Run;
      o, now := Works, clock;
      if turns != [] {
        o, now := turns[0].outcome, turns[0].now;
        Interfere(turns[0].meanwhile);
        turns := turns[1..];
      }
    }

    // Book-keeping after the effects of one step.
    ghost method Advance(was: Sys, o: Outcome, now: int)
      requires Lawful(cfg.rules) && Inv(cfg, ledger, was) && was == Run(cfg, start, trace)
      requires Sys(db, objects, latest, WorkStep(cfg, was, o, now).stage, log) == WorkStep(cfg, was, o, now)
      modifies this`stage, this`trace
      ensures System() == WorkStep(cfg, was, o, now) && Inv(cfg, ledger, System()) && System() == Run(cfg, start, trace)
      ensures trace == old(trace) + [Work(o, now)]
    {
      hide Inv, WorkStep, Run;
      WorkInv(cfg, ledger, was, o, now);
      RunStep(cfg, start, trace, Work(o, now));
      stage := WorkStep(cfg, was, o, now).stage;
      trace := trace + [Work(o, now)];
    }

    predicate Triggered(generation: int)
      reads this`db
    {
      Row(db.jobs, generation) && At(db.jobs, generation).state.BuildTriggered?
    }

    // s.flow.TryLock()
    method Lock()
      requires Valid() && stage == Idle
      modifies this`flow, this`stage, this`trace
      ensures Valid() && stage == Locked && old(trace) <= trace
      ensures Calm()
    {
      hide Inv, Run;
      ghost var was := System();
      flow := true;
      Advance(was, Works, clock);
    }

    method GetSiteState() returns (g: Option<int>)
      requires Valid() && stage == Locked
      modifies this`db, this`trace, this`ledger, this`turns, this`stage, this`flow
      ensures Valid() && old(trace) <= trace
      ensures Calm()
      ensures if g.Some? then stage == Polled(g.value) else stage == Idle
    {
      hide Inv, Run;
      var o, now := NextTurn();
      ghost var was := System();
      g := if o == Works then Some(db.generation) else None;
      flow := o == Works;
      Advance(was, o, now);
    }

    method SupersedeOlder(generation: int) returns (ok: bool)
      requires Valid() && stage == Polled(generation)
      modifies this`db, this`trace, this`ledger, this`turns, this`stage, this`flow
      ensures Valid() && old(trace) <= trace
      ensures Calm()
      ensures stage == if ok then Swept else Idle
    {
      hide Inv, Run;
      var o, now := NextTurn();
      ghost var was := System();
      if o != Breaks { db := db.(jobs := Supersede(db.jobs, generation)); }
      ok := o == Works;
      flow := ok;
      Advance(was, o, now);
    }

    // The newest job, if it is due.
    method PickJob() returns (picked: Option<Job>, o: Outcome, now: int)
      requires Valid() && stage == Swept
      modifies this`db, this`trace, this`ledger, this`turns, this`stage, this`flow
      ensures Valid() && old(trace) <= trace && trace != [] && trace[|trace| - 1] == Work(o, now)
      ensures Calm()
      ensures if picked.Some? then stage == Starting(picked.value) else stage == Idle
      ensures var n := |db.jobs|;
        picked == if o == Works && n > 0
                     && (db.jobs[n - 1].state == Pending || db.jobs[n - 1].state == SnapshotUploaded
                         || (db.jobs[n - 1].state == JobState.Failed && db.jobs[n - 1].nextAttempt.Some?
                             && db.jobs[n - 1].nextAttempt.value <= now))
                  then Some(db.jobs[n - 1]) else None
    {
      hide Inv, Run;
      o, now := NextTurn();
      ghost var was := System();
      picked := None;
      if o == Works && db.jobs != [] {
        var job := db.jobs[|db.jobs| - 1];
        if Due(job, now) { picked := Some(job); }
      }
      flow := picked.Some?;
      Advance(was, o, now);
    }

    // fresh: stale work is superseded and dropped, a failed query is a failed attempt.
    method Fresh(job: Job) returns (f: Failure)
      requires Valid() && Checks(stage) && stage.job == job
      modifies this`db, this`trace, this`ledger, this`turns, this`stage, this`flow, this`fence
      ensures Valid() && old(trace) <= trace
      ensures f == Fine ==> stage == Onward(old(stage))
      ensures f == Failure.Stale ==> stage == Idle
      ensures f == Broken ==> stage == Failing(job)
      ensures f == Fine ==> Calm()
      ensures old(turns) == [] && f != Fine ==> !Going(WorkStep(cfg, old(System()), Works, clock).stage)
    {
      hide Inv, Run, WorkStep;
      var generation := CompareGeneration(job);
      if generation.None? { return Broken; }
      if generation.value == job.generation { return Fine; }
      f := DropStale(job, generation.value);
    }

    method CompareGeneration(job: Job) returns (g: Option<int>)
      requires Valid() && Checks(stage) && stage.job == job
      modifies this`db, this`trace, this`ledger, this`turns, this`stage, this`fence
      ensures Valid() && old(trace) <= trace
      ensures Calm()
      ensures g.None? ==> stage == Failing(job)
      ensures g == Some(job.generation) ==> stage == Onward(old(stage))
      ensures g.Some? && g.value != job.generation ==> stage.Sweeping? && stage.job == job && stage.generation == g.value
    {
      hide Inv, Run, Read, Recheck, PutSnapshot, Mark, Reload, CheckKey, Name, Hook, Finish, Sweep, Record, Pick;
      var o, now := NextTurn();
      ghost var was := System();
      if o == Works {
        g := Some(db.generation);
      } else {
        g := None;
        fence := false;
      }
      Advance(was, o, now);
    }

    method DropStale(job: Job, generation: int) returns (f: Failure)
      requires Valid() && stage.Sweeping? && stage.job == job && stage.generation == generation
      modifies this`db, this`trace, this`ledger, this`turns, this`stage, this`flow, this`fence
      ensures Valid() && old(trace) <= trace
      ensures (f == Failure.Stale && stage == Idle) || (f == Broken && stage == Failing(job))
    {
      hide Inv, Run, Read, Recheck, PutSnapshot, Mark, Reload, CheckKey, Name, Hook, Finish, Record, Pick;
      var o, now := NextTurn();
      ghost var was := System();
      if o != Breaks { db := db.(jobs := Supersede(db.jobs, generation)); }
      fence := false;
      flow := o != Works;
      Advance(was, o, now);
      return if o == Works then Failure.Stale else Broken;
    }

    method ReadSnapshot(job: Job) returns (f: Failure, snapshot: Option<Snapshot>)
      requires Valid() && stage == Reading(job)
      modifies this`db, this`trace, this`ledger, this`turns, this`stage, this`flow
      ensures Valid() && old(trace) <= trace
      ensures Calm()
      ensures f == Fine ==> snapshot.Some? && stage == Rechecking(job, snapshot.value)
      ensures f == Failure.Stale ==> stage == Idle
      ensures f == Broken ==> stage == Failing(job)
    {
      hide Inv, Run, Export;
      var o, now := NextTurn();
      ghost var was := System();
      f, snapshot := Broken, None;
      if o == Works {
        var exported := ExportSnapshot(cfg.rules, cfg.budget, db, job.generation);
        if exported.Ok? {
          f, snapshot := Fine, Some(exported.value);
        } else if exported.error == ExportFault.Stale {
          f := Failure.Stale;
        }
      }
      flow := f != Failure.Stale;
      Advance(was, o, now);
    }

    // The exporter's second look at the generation.
    method StillCurrent(job: Job, snapshot: Snapshot) returns (f: Failure)
      requires Valid() && stage == Rechecking(job, snapshot)
      modifies this`db, this`trace, this`ledger, this`turns, this`stage, this`flow
      ensures Valid() && old(trace) <= trace
      ensures Calm()
      ensures f == Fine ==> stage == Confirming(job, snapshot)
      ensures f == Failure.Stale ==> stage == Idle
      ensures f == Broken ==> stage == Failing(job)
    {
      hide Inv, Run;
      var o, now := NextTurn();
      ghost var was := System();
      f := if o != Works then Broken else if db.generation != job.generation then Failure.Stale else Fine;
      flow := f != Failure.Stale;
      Advance(was, o, now);
    }

    method PutImmutable(job: Job, snapshot: Snapshot) returns (f: Failure)
      requires Valid() && stage == Uploading(job, snapshot)
      modifies this`db, this`trace, this`ledger, this`turns, this`stage, this`objects
      ensures Valid() && old(trace) <= trace
      ensures Calm()
      ensures f == Fine ==> stage == Reconfirming(job, snapshot)
      ensures f != Fine ==> f == Broken && stage == Failing(job)
    {
      hide Inv, Run, Read, Recheck, Mark, Reload, CheckKey, Name, Hook, Finish, Sweep, Record, Pick;
      var o, now := NextTurn();
      ghost var was := System();
      var key, data := SnapshotKey(job.generation), Json(snapshot);
      f := Broken;
      if o != Breaks {
        if key !in objects {
          objects := objects[key := data];
          f := if o == Works then Fine else Broken;
        } else if Sha256(objects[key]) == Sha256(data) {
          f := if o == Works then Fine else Broken;
        }
      }
      Advance(was, o, now);
    }

    method MarkSnapshotUploaded(job: Job, snapshot: Snapshot) returns (f: Failure)
      requires Valid() && stage == Marking(job, snapshot)
      modifies this`db, this`trace, this`ledger, this`turns, this`stage
      ensures Valid() && old(trace) <= trace
      ensures Calm()
      ensures f == Fine ==> stage == Reloading(job)
      ensures f != Fine ==> f == Broken && stage == Failing(job)
    {
      hide Inv, Run, Read, Recheck, PutSnapshot, Reload, CheckKey, Name, Hook, Finish, Sweep, Record, Pick;
      var o, now := NextTurn();
      ghost var was := System();
      f := Broken;
      if o != Breaks {
        var marked := MarkUploaded(db.jobs, job.generation, SnapshotKey(job.generation), Sha256(Json(snapshot)));
        if marked.Some? {
          db := db.(jobs := marked.value);
          f := if o == Works then Fine else Broken;
        }
      }
      Advance(was, o, now);
    }

    method GetJob(job: Job) returns (f: Failure, row: Job)
      requires Valid() && stage == Reloading(job)
      modifies this`db, this`trace, this`ledger, this`turns, this`stage
      ensures Valid() && old(trace) <= trace
      ensures Calm()
      ensures f == Fine ==> stage == Checking(row) && row.generation == job.generation && row.attempts == job.attempts
      ensures f != Fine ==> f == Broken && stage == Failing(job)
    {
      hide Inv, Run, Read, Recheck, PutSnapshot, Mark, CheckKey, Name, Hook, Finish, Sweep, Record, Pick;
      var o, now := NextTurn();
      ghost var was := System();
      ReloadedRow(cfg, ledger, was, job);
      f, row := Broken, job;
      if o == Works && Row(db.jobs, job.generation) {
        f, row := Fine, At(db.jobs, job.generation);
      }
      Advance(was, o, now);
    }

    // The key and digest of the row are those of the job.
    method CheckRow(job: Job) returns (ok: bool)
      requires Valid() && stage == Checking(job)
      modifies this`stage, this`trace
      ensures Valid() && old(trace) <= trace
      ensures Calm()
      ensures stage == if ok then Fencing(job) else Failing(job)
    {
      hide Inv, Run;
      ghost var was := System();
      ok := job.key == Some(SnapshotKey(job.generation)) && job.digest.Some?;
      Advance(was, Works, clock);
    }

    // s.fence.Lock(): from here no public command can commit.
    method LockFence(job: Job)
      requires Valid() && stage == Fencing(job)
      modifies this`stage, this`trace, this`fence
      ensures Valid() && old(trace) <= trace && stage == Refreshing(job)
      ensures Calm()
    {
      hide Inv, Run;
      ghost var was := System();
      fence := true;
      Advance(was, Works, clock);
    }

    method PutLatest(job: Job) returns (f: Failure)
      requires Valid() && stage == Naming(job)
      modifies this`db, this`trace, this`ledger, this`turns, this`stage, this`latest, this`fence
      ensures Valid() && old(trace) <= trace
      ensures Calm()
      ensures (f == Fine && stage == Verifying(job)) || (f == Broken && stage == Failing(job))
      ensures latest == old(latest) || (job.key.Some? && job.digest.Some?
        && latest == Some(Latest(3, job.generation, job.key.value, job.digest.value, job.createdAt)))
      ensures f == Fine ==> latest.Some? && latest.value.generation == job.generation
    {
      hide Inv, Run, Read, Recheck, PutSnapshot, Mark, Reload, CheckKey, Hook, Finish, Sweep, Record, Pick;
      var o, now := NextTurn();
      ghost var was := System();
      f := Broken;
      if o != Breaks && job.key.Some? && job.digest.Some? {
        latest := Some(Latest(3, job.generation, job.key.value, job.digest.value, job.createdAt));
        f := if o == Works then Fine else Broken;
      }
      fence := f == Fine;
      Advance(was, o, now);
    }

    // The hook and, on return, the fence's release.
    method CallHook(job: Job) returns (f: Failure)
      requires Valid() && stage == Hooking(job)
      modifies this`db, this`trace, this`ledger, this`turns, this`stage, this`log, this`fence
      ensures Valid() && old(trace) <= trace
      ensures Calm()
      ensures (f == Fine && stage == Finishing(job)) || (f == Broken && stage == Failing(job))
    {
      hide Inv, Run, Read, Recheck, PutSnapshot, Mark, Reload, CheckKey, Name, Finish, Sweep, Record, Pick;
      var o, now := NextTurn();
      ghost var was := System();
      if o != Breaks {
        log := log + [Hooked(if latest.Some? then latest.value.generation else 0, db.generation)];
      }
      f := if o == Works then Fine else Broken;
      fence := false;
      Advance(was, o, now);
    }

    method MarkBuildTriggered(job: Job) returns (f: Failure)
      requires Valid() && stage == Finishing(job)
      modifies this`db, this`trace, this`ledger, this`turns, this`stage, this`flow
      ensures Valid() && old(trace) <= trace
      ensures Calm()
      ensures (f == Fine && stage == Idle && Triggered(job.generation)) || (f == Broken && stage == Failing(job))
    {
      hide Inv, Run, Read, Recheck, PutSnapshot, Mark, Reload, CheckKey, Name, Hook, Sweep, Record, Pick;
      var o, now := NextTurn();
      ghost var was := System();
      f := Broken;
      if o != Breaks {
        var marked := MarkTriggered(db.jobs, job.generation);
        if marked.Some? {
          db := db.(jobs := marked.value);
          f := if o == Works then Fine else Broken;
        }
      }
      flow := f != Fine;
      Advance(was, o, now);
    }

    method FailJob(job: Job, ghost held: Job)
      requires Valid() && stage == Failing(held) && held.generation == job.generation && held.attempts == job.attempts
      modifies this`db, this`trace, this`ledger, this`turns, this`stage, this`flow, this`log
      ensures Valid() && old(trace) <= trace && stage == Idle
      ensures old(turns) == [] && 0 < job.generation <= |old(db.jobs)| && Open(old(db.jobs)[job.generation - 1]) ==>
        && job.generation <= |db.jobs|
        && var was, row := old(db.jobs)[job.generation - 1], db.jobs[job.generation - 1];
        && log == old(log) + [Event.Recorded(job.generation)] && db == old(db).(jobs := old(db.jobs)[job.generation - 1 := row])
        && row == was.(state := JobState.Failed, attempts := was.attempts + 1, nextAttempt := row.nextAttempt)
        && RetryTime(row.attempts, clock, row.nextAttempt)
    {
      hide Inv, Run, Read, Recheck, PutSnapshot, Mark, Reload, CheckKey, Name, Hook, Finish, Sweep, Pick;
      var o, now := NextTurn();
      ghost var was := System();
      FailureIsRecorded(cfg, ledger, was, o, now);
      if o != Breaks {
        var failed := MarkFailed(db.jobs, job.generation, NextAttempt(job.attempts + 1, now));
        if failed.Some? {
          db := db.(jobs := failed.value);
          log := log + [Event.Recorded(job.generation)];
        }
      }
      flow := false;
      Advance(was, o, now);
    }

    // ExportSnapshot: the consistent read and the second look at the generation.
    method ReadCurrent(job: Job) returns (f: Failure, snapshot: Option<Snapshot>)
      requires Valid() && stage == Reading(job)
      modifies this`db, this`trace, this`ledger, this`turns, this`stage, this`flow
      ensures Valid() && old(trace) <= trace
      ensures f == Fine ==> snapshot.Some? && stage == Confirming(job, snapshot.value)
      ensures f == Failure.Stale ==> stage == Idle
      ensures f == Broken ==> stage == Failing(job)
      ensures Smoothly(2, f == Fine)
    {
      hide Valid, WorkStep, Calmly, Smooth;
      ghost var quiet := turns == [] && Smooth(cfg, System(), clock, 2);
      Unroll(quiet, 2);
      f, snapshot := ReadSnapshot(job);
      if f != Fine { return; }
      Unroll(quiet, 1);
      f := StillCurrent(job, snapshot.value);
      AtEnd(quiet && f == Fine);
    }

    method UploadIfFresh(job: Job, snapshot: Snapshot) returns (f: Failure)
      requires Valid() && stage == Confirming(job, snapshot)
      modifies this`db, this`trace, this`ledger, this`turns, this`stage, this`flow, this`fence, this`objects
      ensures Valid() && old(trace) <= trace
      ensures f == Fine ==> stage == Reconfirming(job, snapshot)
      ensures f == Failure.Stale ==> stage == Idle
      ensures f == Broken ==> stage == Failing(job)
      ensures Smoothly(2, f == Fine)
    {
      hide Valid, WorkStep, Calmly, Smooth;
      ghost var quiet := turns == [] && Smooth(cfg, System(), clock, 2);
      Unroll(quiet, 2);
      f := Fresh(job);
      if f != Fine { return; }
      Unroll(quiet, 1);
      f := PutImmutable(job, snapshot);
      AtEnd(quiet && f == Fine);
    }

    method RecordIfFresh(job: Job, snapshot: Snapshot) returns (f: Failure, row: Job)
      requires Valid() && stage == Reconfirming(job, snapshot)
      modifies this`db, this`trace, this`ledger, this`turns, this`stage, this`flow, this`fence
      ensures Valid() && old(trace) <= trace && row.generation == job.generation && row.attempts == job.attempts
      ensures f == Fine ==> stage == Checking(row)
      ensures f == Failure.Stale ==> stage == Idle
      ensures f == Broken ==> stage == Failing(job)
      ensures Smoothly(3, f == Fine)
    {
      hide Valid, WorkStep, Calmly, Smooth;
      ghost var quiet := turns == [] && Smooth(cfg, System(), clock, 3);
      row := job;
      Unroll(quiet, 3);
      f := Fresh(job);
      if f != Fine { return; }
      Unroll(quiet, 2);
      f := MarkSnapshotUploaded(job, snapshot);
      if f != Fine { return; }
      Unroll(quiet, 1);
      f, row := GetJob(job);
      if f != Fine { row := job; }
      AtEnd(quiet && f == Fine);
    }

    // What one more undisturbed step does.
    lemma Unroll(quiet: bool, n: nat)
      requires quiet ==> n > 0 && Smooth(cfg, System(), clock, n)
      ensures quiet ==>
        var t := WorkStep(cfg, System(), Works, clock);
        Going(t.stage) && Smooth(cfg, t, clock, n - 1) && Calmly(cfg, System(), clock, n) == Calmly(cfg, t, clock, n - 1)
    {
      hide WorkStep, Inv;
      if quiet { SmoothStep(cfg, System(), clock, n); }
    }

    lemma AtEnd(quiet: bool)
      ensures quiet ==> Calmly(cfg, System(), clock, 0) == System()
    {
    }

    // The snapshot part of process: export, upload and record it.
    method StoreSnapshot(job: Job) returns (f: Failure, row: Job)
      requires Valid() && stage == Reading(job)
      modifies this`db, this`trace, this`ledger, this`turns, this`stage, this`flow, this`fence, this`objects
      ensures Valid() && old(trace) <= trace && row.generation == job.generation && row.attempts == job.attempts
      ensures f == Fine ==> stage == Checking(row)
      ensures f == Failure.Stale ==> stage == Idle
      ensures f == Broken ==> stage == Failing(job)
      ensures Smoothly(7, f == Fine)
    {
      hide Valid, WorkStep, Calmly, Smooth;
      Splits(cfg, System(), clock, 2, 5);
      row := job;
      var snapshot;
      f, snapshot := ReadCurrent(job);
      if f != Fine { return; }
      Splits(cfg, System(), clock, 2, 3);
      f := UploadIfFresh(job, snapshot.value);
      if f != Fine { return; }
      f, row := RecordIfFresh(job, snapshot.value);
    }

    // latest.json, under the fence.
    method NameIfFresh(job: Job) returns (f: Failure)
      requires Valid() && stage == Fencing(job)
      modifies this`db, this`trace, this`ledger, this`turns, this`stage, this`flow, this`fence, this`latest
      ensures Valid() && old(trace) <= trace
      ensures f == Fine ==> stage == Verifying(job)
      ensures f == Failure.Stale ==> stage == Idle
      ensures f == Broken ==> stage == Failing(job)
      ensures Smoothly(3, f == Fine)
    {
      hide Valid, WorkStep, Calmly, Smooth;
      ghost var quiet := turns == [] && Smooth(cfg, System(), clock, 3);
      Unroll(quiet, 3);
      LockFence(job);
      Unroll(quiet, 2);
      f := Fresh(job);
      if f != Fine { return; }
      Unroll(quiet, 1);
      f := PutLatest(job);
      AtEnd(quiet && f == Fine);
    }

    method HookIfFresh(job: Job) returns (f: Failure)
      requires Valid() && stage == Verifying(job)
      modifies this`db, this`trace, this`ledger, this`turns, this`stage, this`flow, this`fence, this`log
      ensures Valid() && old(trace) <= trace
      ensures f == Fine ==> stage == Finishing(job)
      ensures f == Failure.Stale ==> stage == Idle
      ensures f == Broken ==> stage == Failing(job)
      ensures Smoothly(2, f == Fine)
    {
      hide Valid, WorkStep, Calmly, Smooth;
      ghost var quiet := turns == [] && Smooth(cfg, System(), clock, 2);
      Unroll(quiet, 2);
      f := Fresh(job);
      if f != Fine { return; }
      Unroll(quiet, 1);
      f := CallHook(job);
      AtEnd(quiet && f == Fine);
    }

    // The stages under the fence.
    method Announce(job: Job) returns (f: Failure)
      requires Valid() && stage == Fencing(job)
      modifies this`db, this`trace, this`ledger, this`turns, this`stage, this`flow, this`fence, this`latest, this`log
      ensures Valid() && old(trace) <= trace
      ensures f == Fine ==> stage == Finishing(job)
      ensures f == Failure.Stale ==> stage == Idle
      ensures f == Broken ==> stage == Failing(job)
      ensures Smoothly(5, f == Fine)
    {
      hide Valid, WorkStep, Calmly, Smooth;
      Splits(cfg, System(), clock, 3, 2);
      f := NameIfFresh(job);
      if f != Fine { return; }
      f := HookIfFresh(job);
    }

    // The job in hand is fresh and has its snapshot.
    method Prepare(job: Job) returns (f: Failure, current: Job)
      requires Valid() && stage == Starting(job)
      modifies this`db, this`trace, this`ledger, this`turns, this`stage, this`flow, this`fence, this`objects
      ensures Valid() && old(trace) <= trace && current.generation == job.generation && current.attempts == job.attempts
      ensures f == Fine ==> stage == Checking(current)
      ensures f == Failure.Stale ==> stage == Idle
      ensures f == Broken ==> stage == Failing(job)
      ensures Smoothly(if job.key.None? then 8 else 1, f == Fine)
    {
      hide Valid, WorkStep, Calmly, Smooth;
      ghost var n := if job.key.None? then 8 else 1;
      ghost var quiet := turns == [] && Smooth(cfg, System(), clock, n);
      current := job;
      Unroll(quiet, n);
      f := Fresh(job);
      if f != Fine { return; }
      if job.key.None? {
        f, current := StoreSnapshot(job);
      } else {
        AtEnd(quiet);
      }
    }

    // Its row is checked, named under the fence, and the hook fired.
    method CheckAndAnnounce(job: Job) returns (f: Failure)
      requires Valid() && stage == Checking(job)
      modifies this`db, this`trace, this`ledger, this`turns, this`stage, this`flow, this`fence, this`latest, this`log
      ensures Valid() && old(trace) <= trace
      ensures f == Fine ==> stage == Finishing(job)
      ensures f == Failure.Stale ==> stage == Idle
      ensures f == Broken ==> stage == Failing(job)
      ensures Smoothly(6, f == Fine)
    {
      hide Valid, WorkStep, Calmly, Smooth;
      ghost var quiet := turns == [] && Smooth(cfg, System(), clock, 6);
      Unroll(quiet, 6);
      var sound := CheckRow(job);
      if !sound { return Broken; }
      f := Announce(job);
    }

    method Process(job: Job) returns (f: Failure, ghost held: Job)
      requires Valid() && stage == Starting(job)
      modifies this`db, this`trace, this`ledger, this`turns, this`stage, this`flow, this`fence, this`objects, this`latest, this`log
      ensures Valid() && old(trace) <= trace
      ensures f != Broken ==> stage == Idle
      ensures f == Fine ==> Triggered(job.generation)
      ensures f == Broken ==> stage == Failing(held) && held.generation == job.generation && held.attempts == job.attempts
      ensures old(turns) == [] && Smooth(cfg, old(System()), clock, StepsFrom(job) - 1) ==>
        f != Failure.Stale && turns == [] && System() == Calmly(cfg, old(System()), clock, StepsFrom(job))
    {
      hide Valid, WorkStep, Calmly, Smooth;
      held := job;
      var current;
      Splits(cfg, System(), clock, StepsFrom(job) - 7, 6);
      Splits(cfg, System(), clock, StepsFrom(job) - 7, 7);
      f, current := Prepare(job);
      if f != Fine { return; }
      held := current;
      Splits(cfg, System(), clock, 6, 1);
      f := CheckAndAnnounce(current);
      if f != Fine { return; }
      OneStep(cfg, System(), clock);
      f := MarkBuildTriggered(current);
    }

    // Poll: supersede what is older and pick the newest job, if it is due.
    method Poll() returns (job: Option<Job>, now: int)
      requires Valid() && stage == Idle
      modifies this`db, this`trace, this`ledger, this`turns, this`stage, this`flow
      ensures Valid() && old(trace) <= trace
      ensures if job.Some? then stage == Starting(job.value) else stage == Idle
      ensures job.Some? ==> trace != [] && trace[|trace| - 1] == Work(Works, now)
      ensures job.Some? ==>
        && db.jobs != [] && job.value == db.jobs[|db.jobs| - 1]
        && job.value.state != BuildTriggered && job.value.state != Superseded
        && (job.value.state == JobState.Failed ==> job.value.nextAttempt.Some? && job.value.nextAttempt.value <= now)
      ensures Smoothly(4, job.Some?)
    {
      hide Valid, WorkStep, Calmly, Smooth;
      job, now := None, clock;
      ghost var quiet := turns == [] && Smooth(cfg, System(), clock, 4);
      Unroll(quiet, 4);
      Lock();
      Unroll(quiet, 3);
      var generation := GetSiteState();
      if generation.None? { return; }
      Unroll(quiet, 2);
      var swept := SupersedeOlder(generation.value);
      if !swept { return; }
      Unroll(quiet, 1);
      var o;
      job, o, now := PickJob();
      AtEnd(quiet && job.Some?);
    }

    /**
     * One poll. Whatever others do between its calls and however the calls end, the database, the store,
     * latest.json and the log are those of a run of the publication system, and the locks are released.
     * When nobody interferes and no call fails, a system that is ready is published.
     */
    method ProcessOnce() returns (published: Option<int>)
      requires Valid() && stage == Idle
      modifies this`db, this`trace, this`ledger, this`turns, this`stage, this`flow, this`fence, this`objects, this`latest, this`log
      ensures Valid() && old(trace) <= trace && stage == Idle && !flow && !fence
      ensures published.Some? ==> Triggered(published.value)
      ensures old(turns == [] && Ready(cfg, System(), clock)) ==> published == Some(old(db.generation)) && Converged(System())
    {
      hide Inv, Run, WorkStep, Calmly, Smooth, Ready, Converged;
      published := None;
      ghost var calm := turns == [] && Ready(cfg, System(), clock);
      if calm { ReadyPoll(cfg, ledger, System(), clock); }
      var job, _ := Poll();
      if job.None? { return; }
      var f;
      ghost var held;
      f, held := Process(job.value);
      if f == Broken {
        FailJob(job.value, held);
      }
      if f == Fine { published := Some(job.value.generation); }
    }

    /** An operator's retry: only of the failed job of the current generation, and never beside a running flow. */
    method Retry(u: Actor, id: int) returns (r: Option<Refusal>)
      requires Valid()
      modifies this`db, this`log, this`trace
      ensures Valid() && trace == old(trace) + [Action.Retry(u, id, 0)]
      ensures System() == RetryStep(old(System()), u, id)
      ensures r == if old(flow) then Some(Conflict)
                   else if !u.active || u.role == Editor then Some(Refusal.Permission)
                   else if id <= 0 || |old(db.jobs)| < id then Some(Refusal.NotFound)
                   else if old(db.jobs)[id - 1].state != JobState.Failed || id != old(db.generation) then Some(RetryForbidden)
                   else None
      ensures r.Some? ==> db == old(db) && log == old(log)
      ensures r.None? ==>
        var was, row := old(db.jobs)[id - 1], db.jobs[id - 1];
        && db == old(db).(jobs := old(db.jobs)[id - 1 := row]) && log == old(log) + [Event.Retried(id)]
        && row == was.(state := if was.key.None? then Pending else SnapshotUploaded, attempts := 0, nextAttempt := None)
    {
      hide Inv, Run;
      ghost var was := System();
      RetryInv(cfg, ledger, was, u, id);
      RunStep(cfg, start, trace, Action.Retry(u, id, 0));
      trace := trace + [Action.Retry(u, id, 0)];
      if flow { return Some(Conflict); }
      if !Reviews(u) { return Some(Refusal.Permission); }
      if !Row(db.jobs, id) { return Some(Refusal.NotFound); }
      RowGeneration(cfg, ledger, was, id);
      if !At(db.jobs, id).state.Failed? || At(db.jobs, id).generation != db.generation { return Some(RetryForbidden); }
      db := db.(jobs := MarkRetried(db.jobs, id).value);
      log := log + [Event.Retried(id)];
      return None;
    }
  }

  // Steps from picking a job to its end when nothing fails.
  function StepsFrom(job: Job): (n: nat)
    ensures n >= 8
  {
    if job.key.None? then 15 else 8
  }

  lemma OneStep(cfg: Config, s: Sys, now: int)
    ensures Calmly(cfg, s, now, 1) == WorkStep(cfg, s, Works, now)
  {
    hide WorkStep;
    assert Calmly(cfg, WorkStep(cfg, s, Works, now), now, 0) == WorkStep(cfg, s, Works, now);
  }

  lemma ReadyPoll(cfg: Config, ledger: Ledger, s: Sys, now: int)
    requires Inv(cfg, ledger, s) && Ready(cfg, s, now)
    ensures Smooth(cfg, s, now, 4)
    ensures var t := Calmly(cfg, s, now, 4);
      && t.stage.Starting? && t.stage.job.generation == s.db.generation
      && Smooth(cfg, t, now, StepsFrom(t.stage.job) - 1)
      && Converged(Calmly(cfg, t, now, StepsFrom(t.stage.job))) && Calmly(cfg, t, now, StepsFrom(t.stage.job)).stage.Idle?
  {
    hide Inv, Ready, WorkStep, Calmly, Smooth, Converged, Swiped;
    HasJobs(cfg, s, now);
    Converges(cfg, ledger, s, now);
    PollsTheNewest(cfg, ledger, s, now);
    ConvergedIdle(Calmly(cfg, s, now, StepsOf(s)));
    Splits(cfg, s, now, 4, StepsOf(s) - 5);
    Splits(cfg, s, now, 4, StepsOf(s) - 4);
  }

  lemma ConvergedIdle(s: Sys)
    requires Converged(s)
    ensures s.stage.Idle?
  {
  }

  lemma Splits(cfg: Config, s: Sys, now: int, m: nat, n: nat)
    ensures Smooth(cfg, s, now, m + n) ==> Smooth(cfg, s, now, m) && Smooth(cfg, Calmly(cfg, s, now, m), now, n)
    ensures Calmly(cfg, s, now, m + n) == Calmly(cfg, Calmly(cfg, s, now, m), now, n)
  {
    SmoothAdds(cfg, s, now, m, n);
    CalmlyAdds(cfg, s, now, m, n);
  }

  lemma RunStep(cfg: Config, start: Sys, trace: seq<Action>, a: Action)
    ensures Run(cfg, start, trace + [a]) == Step(cfg, Run(cfg, start, trace), a)
  {
    hide Step;
    assert (trace + [a])[..|trace|] == trace;
  }

  // Nobody else rewrites the row of the job in hand.
  lemma ReloadedRow(cfg: Config, ledger: Ledger, s: Sys, job: Job)
    requires Inv(cfg, ledger, s) && s.stage == Reloading(job)
    ensures Row(s.db.jobs, job.generation)
    ensures At(s.db.jobs, job.generation).generation == job.generation && At(s.db.jobs, job.generation).attempts == job.attempts
  {
    hide Good, LedgerOk, ObjectsOk, AllJobsOk, LatestOk, LogOk;
    RowGeneration(cfg, ledger, s, job.generation);
  }
}
