/** publication_jobs: the guarded row transitions. A job is identified by its generation. */
module Jobs {
  import opened Base
  import opened Schema

  const MAX_AUTOMATIC_ATTEMPTS := 6

  predicate Actionable(j: Job) {
    j.state.Pending? || j.state.SnapshotUploaded? || j.state.Failed?
  }

  // UPDATE ... SET state='superseded' WHERE generation < ? AND state IN (...)
  function Supersede(jobs: seq<Job>, generation: int): (r: seq<Job>)
    ensures |r| == |jobs|
  {
    seq(|jobs|, i requires 0 <= i < |jobs| =>
      if jobs[i].generation < generation && Actionable(jobs[i])
      then jobs[i].(state := Superseded, nextAttempt := None) else jobs[i])
  }

  function MarkUploaded(jobs: seq<Job>, id: int, key: Key, digest: Digest): (r: Option<seq<Job>>)
    ensures r.Some? ==> |r.value| == |jobs|
  {
    if Row(jobs, id) && (At(jobs, id).state.Pending? || At(jobs, id).state.Failed?)
    then Some(Set(jobs, id, At(jobs, id).(state := SnapshotUploaded, key := Some(key), digest := Some(digest), nextAttempt := None)))
    else None
  }

  function MarkTriggered(jobs: seq<Job>, id: int): (r: Option<seq<Job>>)
    ensures r.Some? ==> |r.value| == |jobs|
  {
    if Row(jobs, id) && (At(jobs, id).state.SnapshotUploaded? || At(jobs, id).state.Failed?)
    then Some(Set(jobs, id, At(jobs, id).(state := BuildTriggered, nextAttempt := None)))
    else None
  }

  function MarkFailed(jobs: seq<Job>, id: int, next: Option<int>): (r: Option<seq<Job>>)
    ensures r.Some? ==> |r.value| == |jobs|
  {
    if Row(jobs, id) && Actionable(At(jobs, id))
    then Some(Set(jobs, id, At(jobs, id).(state := Failed, attempts := At(jobs, id).attempts + 1, nextAttempt := next)))
    else None
  }

  function MarkRetried(jobs: seq<Job>, id: int): (r: Option<seq<Job>>)
    ensures r.Some? ==> |r.value| == |jobs|
  {
    if Row(jobs, id) && At(jobs, id).state.Failed?
    then Some(Set(jobs, id, At(jobs, id).(state := if At(jobs, id).key.None? then Pending else SnapshotUploaded,
                                          attempts := 0, nextAttempt := None)))
    else None
  }

  const DELAYS := [30000, 120000, 600000, 1800000, 3600000]

  // Milliseconds until the next automatic attempt.
  function Backoff(attempt: int): (delay: int)
    ensures 30000 <= delay <= 3600000
  {
    DELAYS[if attempt < 1 then 0 else if attempt > |DELAYS| then |DELAYS| - 1 else attempt - 1]
  }

  // When an attempt that failed as number attempt is tried again by itself.
  function NextAttempt(attempt: int, now: int): Option<int> {
    if attempt < MAX_AUTOMATIC_ATTEMPTS then Some(now + Backoff(attempt)) else None
  }

  // Picked by the poller: neither done nor waiting nor out of attempts.
  predicate Due(j: Job, now: int) {
    && !j.state.BuildTriggered? && !j.state.Superseded?
    && (j.state.Failed? ==> j.nextAttempt.Some? && j.nextAttempt.value <= now)
  }
}

/** The publication outbox as a state machine: commands, worker micro-steps, faults, crashes and retries interleave. */
module Publication {
  import opened Base
  import opened Schema
  import opened Policy
  import opened Workflow
  import opened Projection
  import opened Exporting
  import opened Jobs

  datatype Config = Config(rules: Rules, budget: Budget)

  datatype Latest = Latest(schemaVersion: int, generation: int, key: Key, digest: Digest, exportedAt: int)

  // Where the worker stands, with what it holds in local variables.
  datatype Stage =
    | Idle
    | Locked
    | Polled(generation: int)
    | Swept
    | Starting(job: Job)
    | Reading(job: Job)
    | Rechecking(job: Job, snapshot: Snapshot)
    | Confirming(job: Job, snapshot: Snapshot)
    | Uploading(job: Job, snapshot: Snapshot)
    | Reconfirming(job: Job, snapshot: Snapshot)
    | Marking(job: Job, snapshot: Snapshot)
    | Reloading(job: Job)
    | Checking(job: Job)
    | Fencing(job: Job)
    | Refreshing(job: Job)
    | Naming(job: Job)
    | Verifying(job: Job)
    | Hooking(job: Job)
    | Finishing(job: Job)
    | Sweeping(job: Job, generation: int, fenced: bool)
    | Failing(job: Job)

  // How an external call ends: it may fail after it took effect.
  datatype Outcome = Works | Breaks | BreaksAfter

  datatype Event = Hooked(named: int, current: int) | Recorded(generation: int) | Retried(generation: int)

  datatype Sys = Sys(db: Db, objects: map<Key, Bytes>, latest: Option<Latest>, stage: Stage, log: seq<Event>)

  datatype Action =
    | Do(user: Actor, command: Command, now: int)
    | Retry(user: Actor, id: int, now: int)
    | Work(outcome: Outcome, now: int)
    | Crash

  const START := Sys(EMPTY, map[], None, Idle, [])

  predicate HoldsFence(stage: Stage) {
    || stage.Refreshing? || stage.Naming? || stage.Verifying? || stage.Hooking?
    || (stage.Sweeping? && stage.fenced)
  }

  function SetJobs(s: Sys, jobs: seq<Job>): Sys {
    s.(db := s.db.(jobs := jobs))
  }

  // The worker and the operator's retry write job rows and nothing else of the database.
  ghost predicate JobsOnly(s: Sys, t: Sys) {
    t.db == s.db.(jobs := t.db.jobs) && |t.db.jobs| == |s.db.jobs|
  }

  predicate SameStore(s: Sys, t: Sys) {
    t.objects == s.objects && t.latest == s.latest
  }

  ghost predicate Kept(a: map<Key, Bytes>, b: map<Key, Bytes>) {
    forall k | k in a :: k in b && b[k] == a[k]
  }

  function Go(s: Sys, stage: Stage): Sys {
    s.(stage := stage)
  }

  // fresh: continue only while the generation is still the job's.
  function Fresh(s: Sys, job: Job, o: Outcome, next: Stage, fenced: bool): (t: Sys)
    ensures t.db == s.db && SameStore(s, t)
  {
    if o != Works then Go(s, Failing(job))
    else if s.db.generation != job.generation then Go(s, Sweeping(job, s.db.generation, fenced))
    else Go(s, next)
  }

  // The statement of a failed freshness check; stale work is dropped without a record.
  function Sweep(s: Sys, job: Job, generation: int, o: Outcome): (t: Sys)
    ensures JobsOnly(s, t) && SameStore(s, t)
  {
    var next := if o == Breaks then s else SetJobs(s, Supersede(s.db.jobs, generation));
    Go(next, if o == Works then Idle else Failing(job))
  }

  function Pick(s: Sys, o: Outcome, now: int): (t: Sys)
    ensures t.db == s.db && SameStore(s, t)
  {
    if o != Works || s.db.jobs == [] then Go(s, Idle)
    else
      var job := s.db.jobs[|s.db.jobs| - 1];
      Go(s, if Due(job, now) then Starting(job) else Idle)
  }

  function SnapshotKey(generation: int): Key {
    SnapshotObject(generation)
  }

  // The consistent read of the exporter.
  ghost function Read(cfg: Config, s: Sys, job: Job, o: Outcome): (t: Sys)
    ensures t.db == s.db && SameStore(s, t)
  {
    if o != Works then Go(s, Failing(job))
    else
      match Export(cfg.rules, cfg.budget, ViewOf(s.db), job.generation)
      case Ok(snapshot) => Go(s, Rechecking(job, snapshot))
      case Err(Stale) => Go(s, Idle)
      case Err(Invalid) => Go(s, Failing(job))
  }

  // After its read transaction the exporter looks at the generation once more.
  function Recheck(s: Sys, job: Job, snapshot: Snapshot, o: Outcome): (t: Sys)
    ensures t.db == s.db && SameStore(s, t)
  {
    if o != Works then Go(s, Failing(job))
    else if s.db.generation != job.generation then Go(s, Idle)
    else Go(s, Confirming(job, snapshot))
  }

  // Create-only: an existing object is accepted only with the same digest.
  function PutSnapshot(s: Sys, job: Job, snapshot: Snapshot, o: Outcome): (t: Sys)
    ensures t.db == s.db && t.latest == s.latest && Kept(s.objects, t.objects)
  {
    var key, data := SnapshotKey(job.generation), Json(snapshot);
    if o == Breaks then Go(s, Failing(job))
    else if key in s.objects && Sha256(s.objects[key]) != Sha256(data) then Go(s, Failing(job))
    else
      var next := if key in s.objects then s else s.(objects := s.objects[key := data]);
      Go(next, if o == Works then Reconfirming(job, snapshot) else Failing(job))
  }

  function Mark(s: Sys, job: Job, snapshot: Snapshot, o: Outcome): (t: Sys)
    ensures JobsOnly(s, t) && SameStore(s, t)
  {
    var marked := MarkUploaded(s.db.jobs, job.generation, SnapshotKey(job.generation), Sha256(Json(snapshot)));
    if o == Breaks || marked.None? then Go(s, Failing(job))
    else Go(SetJobs(s, marked.value), if o == Works then Reloading(job) else Failing(job))
  }

  function Reload(s: Sys, job: Job, o: Outcome): (t: Sys)
    ensures t.db == s.db && SameStore(s, t)
  {
    if o != Works || !Row(s.db.jobs, job.generation) then Go(s, Failing(job))
    else Go(s, Checking(At(s.db.jobs, job.generation)))
  }

  function CheckKey(s: Sys, job: Job): (t: Sys)
    ensures t.db == s.db && SameStore(s, t)
  {
    if job.key == Some(SnapshotKey(job.generation)) && job.digest.Some? then Go(s, Fencing(job)) else Go(s, Failing(job))
  }

  function Name(s: Sys, job: Job, o: Outcome): (t: Sys)
    ensures t.db == s.db && t.objects == s.objects
  {
    if o == Breaks || job.key.None? || job.digest.None? then Go(s, Failing(job))
    else
      var latest := Latest(3, job.generation, job.key.value, job.digest.value, job.createdAt);
      Go(s.(latest := Some(latest)), if o == Works then Verifying(job) else Failing(job))
  }

  function Hook(s: Sys, job: Job, o: Outcome): (t: Sys)
    ensures t.db == s.db && SameStore(s, t)
  {
    var fired := s.(log := s.log + [Hooked(if s.latest.Some? then s.latest.value.generation else 0, s.db.generation)]);
    if o == Works then Go(fired, Finishing(job))
    else Go(if o == Breaks then s else fired, Failing(job))
  }

  function Finish(s: Sys, job: Job, o: Outcome): (t: Sys)
    ensures JobsOnly(s, t) && SameStore(s, t)
  {
    var marked := MarkTriggered(s.db.jobs, job.generation);
    if o == Breaks || marked.None? then Go(s, Failing(job))
    else Go(SetJobs(s, marked.value), if o == Works then Idle else Failing(job))
  }

  function Record(s: Sys, job: Job, o: Outcome, now: int): (t: Sys)
    ensures JobsOnly(s, t) && SameStore(s, t)
  {
    var failed := MarkFailed(s.db.jobs, job.generation, NextAttempt(job.attempts + 1, now));
    if o == Breaks || failed.None? then Go(s, Idle)
    else Go(SetJobs(s, failed.value).(log := s.log + [Recorded(job.generation)]), Idle)
  }

  // One step of ProcessOnce.
  ghost function WorkStep(cfg: Config, s: Sys, o: Outcome, now: int): (t: Sys)
    ensures JobsOnly(s, t)
  {
    match s.stage
    case Idle => Go(s, Locked)
    case Locked => Go(s, if o == Works then Polled(s.db.generation) else Idle)
    case Polled(g) =>
      var next := if o == Breaks then s else SetJobs(s, Supersede(s.db.jobs, g));
      Go(next, if o == Works then Swept else Idle)
    case Swept => Pick(s, o, now)
    case Starting(job) => Fresh(s, job, o, if job.key.None? then Reading(job) else Checking(job), false)
    case Reading(job) => Read(cfg, s, job, o)
    case Rechecking(job, snapshot) => Recheck(s, job, snapshot, o)
    case Confirming(job, snapshot) => Fresh(s, job, o, Uploading(job, snapshot), false)
    case Uploading(job, snapshot) => PutSnapshot(s, job, snapshot, o)
    case Reconfirming(job, snapshot) => Fresh(s, job, o, Marking(job, snapshot), false)
    case Marking(job, snapshot) => Mark(s, job, snapshot, o)
    case Reloading(job) => Reload(s, job, o)
    case Checking(job) => CheckKey(s, job)
    case Fencing(job) => Go(s, Refreshing(job))
    case Refreshing(job) => Fresh(s, job, o, Naming(job), true)
    case Naming(job) => Name(s, job, o)
    case Verifying(job) => Fresh(s, job, o, Hooking(job), true)
    case Hooking(job) => Hook(s, job, o)
    case Finishing(job) => Finish(s, job, o)
    case Sweeping(job, g, _) => Sweep(s, job, g, o)
    case Failing(job) => Record(s, job, o, now)
  }

  // An operator's retry waits for no one: it is refused while a flow runs.
  function RetryStep(s: Sys, u: Actor, id: int): (t: Sys)
    ensures JobsOnly(s, t) && SameStore(s, t)
  {
    if !s.stage.Idle? || !Reviews(u) || !Row(s.db.jobs, id) || At(s.db.jobs, id).generation != s.db.generation then s
    else
      match MarkRetried(s.db.jobs, id)
      case None => s
      case Some(jobs) => SetJobs(s, jobs).(log := s.log + [Retried(id)])
  }

  ghost function Step(cfg: Config, s: Sys, a: Action): Sys {
    match a
    case Do(u, c, now) => if Fenced(c) && HoldsFence(s.stage) then s else s.(db := After(cfg.rules, s.db, u, c, now))
    case Retry(u, id, _) => RetryStep(s, u, id)
    case Work(o, now) => WorkStep(cfg, s, o, now)
    case Crash => Go(s, Idle)
  }

  ghost function Run(cfg: Config, s: Sys, actions: seq<Action>): Sys
    decreases |actions|
  {
    if actions == [] then s
    else Step(cfg, Run(cfg, s, actions[..|actions| - 1]), actions[|actions| - 1])
  }
}
