/** What every interleaving of commands, worker steps, faults, crashes and retries keeps true. */
module PublicationSafety {
  import opened Base
  import opened Schema
  import opened Policy
  import opened Workflow
  import opened Editorial
  import opened CommandProofs
  import opened Projection
  import opened GenerationProofs
  import opened Exporting
  import opened Jobs
  import opened Publication

  // The published view each generation stands for.
  type Ledger = map<int, View>

  ghost predicate LedgerOk(ledger: Ledger, db: Db) {
    && (forall g :: g in ledger <==> 0 <= g <= db.generation)
    && 0 <= db.generation && ledger[db.generation] == ViewOf(db)
    && forall g | g in ledger :: ledger[g].generation == g
  }

  // data is the export of generation g.
  ghost predicate Right(cfg: Config, ledger: Ledger, g: int, data: Bytes) {
    g in ledger && Export(cfg.rules, cfg.budget, ledger[g], g) == Ok(data.snapshot)
  }

  ghost predicate ObjectsOk(cfg: Config, ledger: Ledger, objects: map<Key, Bytes>) {
    forall k | k in objects :: Right(cfg, ledger, k.generation, objects[k])
  }

  ghost predicate JobOk(objects: map<Key, Bytes>, current: int, j: Job) {
    && 0 <= j.attempts <= MAX_AUTOMATIC_ATTEMPTS
    && (j.key.None? <==> j.digest.None?)
    && (j.key.Some? ==> j.key.value == SnapshotKey(j.generation) && j.key.value in objects
                        && j.digest == Some(Sha256(objects[j.key.value])))
    && (j.state.Pending? ==> j.key.None? && j.attempts == 0)
    && (j.state.SnapshotUploaded? || j.state.BuildTriggered? ==> j.key.Some? && j.attempts < MAX_AUTOMATIC_ATTEMPTS)
    && (j.state.Failed? ==> j.attempts > 0 && (j.nextAttempt.Some? <==> j.attempts < MAX_AUTOMATIC_ATTEMPTS))
    && (!j.state.Failed? ==> j.nextAttempt.None?)
    && (j.state.Superseded? ==> j.generation < current)
  }

  ghost predicate AllJobsOk(objects: map<Key, Bytes>, db: Db) {
    forall i | 0 <= i < |db.jobs| :: JobOk(objects, db.generation, db.jobs[i])
  }

  function LatestFor(job: Job): Latest
    requires job.key.Some? && job.digest.Some?
  {
    Latest(3, job.generation, job.key.value, job.digest.value, job.createdAt)
  }

  // latest.json names a stored object, its digest, a generation not ahead of the site, and its job's time.
  ghost predicate LatestOk(objects: map<Key, Bytes>, db: Db, latest: Option<Latest>) {
    latest.Some? ==>
      var l := latest.value;
      && l.schemaVersion == 3 && 0 < l.generation <= db.generation
      && l.key == SnapshotKey(l.generation) && l.key in objects && l.digest == Sha256(objects[l.key])
      && Row(db.jobs, l.generation) && l.exportedAt == At(db.jobs, l.generation).createdAt
  }

  predicate Fired(log: seq<Event>, g: int) {
    Hooked(g, g) in log
  }

  ghost predicate LogOk(db: Db, log: seq<Event>) {
    && (forall e | e in log && e.Hooked? :: e.named == e.current)
    && forall i | 0 <= i < |db.jobs| && db.jobs[i].state.BuildTriggered? :: Fired(log, i + 1)
  }

  // The worker's copy of the row, possibly older than a write of its own.
  ghost predicate Held(db: Db, job: Job) {
    && Row(db.jobs, job.generation) && 0 <= job.attempts < MAX_AUTOMATIC_ATTEMPTS
    && At(db.jobs, job.generation).attempts == job.attempts
  }

  ghost predicate Exact(db: Db, job: Job) {
    Held(db, job) && At(db.jobs, job.generation) == job && Actionable(job)
  }

  ghost predicate Unstored(cfg: Config, ledger: Ledger, db: Db, job: Job, snapshot: Snapshot) {
    Exact(db, job) && job.key.None? && Right(cfg, ledger, job.generation, Json(snapshot))
  }

  ghost predicate StoredNow(objects: map<Key, Bytes>, g: int, snapshot: Snapshot) {
    SnapshotKey(g) in objects && objects[SnapshotKey(g)] == Json(snapshot)
  }

  ghost predicate Keyed(db: Db, job: Job) {
    Exact(db, job) && job.key.Some? && job.digest.Some?
  }

  ghost predicate StageOk(cfg: Config, ledger: Ledger, s: Sys) {
    match s.stage
    case Idle => true
    case Locked => true
    case Polled(g) => g <= s.db.generation
    case Swept => true
    case Starting(job) => Exact(s.db, job)
    case Reading(job) => Exact(s.db, job) && job.key.None?
    case Rechecking(job, snapshot) => Unstored(cfg, ledger, s.db, job, snapshot)
    case Confirming(job, snapshot) => Unstored(cfg, ledger, s.db, job, snapshot)
    case Uploading(job, snapshot) => Unstored(cfg, ledger, s.db, job, snapshot)
    case Reconfirming(job, snapshot) => Unstored(cfg, ledger, s.db, job, snapshot) && StoredNow(s.objects, job.generation, snapshot)
    case Marking(job, snapshot) => Unstored(cfg, ledger, s.db, job, snapshot) && StoredNow(s.objects, job.generation, snapshot)
    case Reloading(job) => Held(s.db, job) && At(s.db.jobs, job.generation).state.SnapshotUploaded?
    case Checking(job) => Keyed(s.db, job)
    case Fencing(job) => Keyed(s.db, job)
    case Refreshing(job) => Keyed(s.db, job)
    case Naming(job) => Keyed(s.db, job) && job.generation == s.db.generation
    case Verifying(job) => Keyed(s.db, job) && job.generation == s.db.generation && s.latest == Some(LatestFor(job))
    case Hooking(job) => Keyed(s.db, job) && job.generation == s.db.generation && s.latest == Some(LatestFor(job))
    case Finishing(job) => Keyed(s.db, job) && Fired(s.log, job.generation)
    case Sweeping(job, g, _) => Exact(s.db, job) && g <= s.db.generation
    case Failing(job) => Held(s.db, job)
  }

  /** The invariant of the publication system. */
  ghost predicate Inv(cfg: Config, ledger: Ledger, s: Sys) {
    && Good(cfg.rules, s.db) && LedgerOk(ledger, s.db) && ObjectsOk(cfg, ledger, s.objects)
    && AllJobsOk(s.objects, s.db) && LatestOk(s.objects, s.db, s.latest) && LogOk(s.db, s.log)
    && StageOk(cfg, ledger, s)
  }

  function Extend(ledger: Ledger, db: Db): Ledger {
    ledger[db.generation := ViewOf(db)]
  }

  lemma StartInv(cfg: Config)
    ensures Inv(cfg, Extend(map[], EMPTY), Publication.START)
  {
    EmptyIsGood(cfg.rules);
  }

  // ----- job writes -----

  ghost predicate SameJobs(a: seq<Job>, b: seq<Job>) {
    |a| == |b| && forall i | 0 <= i < |a| :: a[i].generation == b[i].generation && a[i].createdAt == b[i].createdAt
  }

  lemma ViewApart(rules: Rules, db: Db, jobs: seq<Job>)
    requires ItemsOk(db) && RoutesOk(db)
    ensures ViewOf(db.(jobs := jobs)) == ViewOf(db)
  {
    hide FetchTag, FetchGroup;
    var next := db.(jobs := jobs);
    forall i | 0 <= i < |db.items| && Public(db.items[i])
      ensures Row(db.revisions, db.items[i].published.value)
    {
      assert ItemOk(db.items[i], i + 1, db.drafts[i], db.revisions, db.reviews);
    }
    SameView(db, next);
  }

  // Job rows are no part of the published view.
  lemma JobsApart(rules: Rules, db: Db, jobs: seq<Job>)
    requires Good(rules, db) && SameJobs(db.jobs, jobs)
    ensures Good(rules, db.(jobs := jobs)) && ViewOf(db.(jobs := jobs)) == ViewOf(db)
  {
    hide RevisionOk, TagOk, ViewOf;
    var next := db.(jobs := jobs);
    RevisionsStay(rules, db, next);
    ViewApart(rules, db, jobs);
    forall i | 0 <= i < |db.items|
      ensures Homed(next, i)
    {
      assert Homed(db, i);
    }
  }

  // ----- commands -----

  // The outbox after a command: untouched, or one generation and one pending job further.
  lemma RightStays(cfg: Config, ledger: Ledger, db: Db, next: Db, g: int, data: Bytes)
    requires LedgerOk(ledger, db) && Right(cfg, ledger, g, data) && next.generation == db.generation + 1
    ensures Right(cfg, Extend(ledger, next), g, data)
  {
    hide Export, ViewOf;
  }

  lemma BumpedInv(cfg: Config, ledger: Ledger, s: Sys, next: Db, now: int)
    requires Inv(cfg, ledger, s) && Good(cfg.rules, next) && Bumped(s.db, next, now) && !HoldsFence(s.stage)
    ensures Inv(cfg, Extend(ledger, next), s.(db := next))
  {
    hide Good, ViewOf, Export, Right, ObjectsOk, AllJobsOk, LatestOk, LogOk, StageOk;
    assert JobsOk(s.db) by { GoodJobs(cfg.rules, s.db); }
    BumpedLedger(ledger, s.db, next, now);
    BumpedObjects(cfg, ledger, s, next);
    BumpedJobs(s, next, now);
    BumpedStage(cfg, ledger, s, next, now);
  }

  lemma GoodJobs(rules: Rules, db: Db)
    requires Good(rules, db)
    ensures JobsOk(db)
  {
  }

  lemma BumpedLedger(ledger: Ledger, db: Db, next: Db, now: int)
    requires LedgerOk(ledger, db) && Bumped(db, next, now)
    ensures LedgerOk(Extend(ledger, next), next)
  {
    assert ViewOf(next).generation == next.generation;
    hide ViewOf;
  }

  lemma BumpedObjects(cfg: Config, ledger: Ledger, s: Sys, next: Db)
    requires LedgerOk(ledger, s.db) && ObjectsOk(cfg, ledger, s.objects) && next.generation == s.db.generation + 1
    ensures ObjectsOk(cfg, Extend(ledger, next), s.objects)
  {
    hide Right, LedgerOk, Extend;
    forall k | k in s.objects
      ensures Right(cfg, Extend(ledger, next), k.generation, s.objects[k])
    {
      RightStays(cfg, ledger, s.db, next, k.generation, s.objects[k]);
    }
  }

  lemma BumpedJobs(s: Sys, next: Db, now: int)
    requires JobsOk(s.db) && Bumped(s.db, next, now)
    requires AllJobsOk(s.objects, s.db) && LatestOk(s.objects, s.db, s.latest) && LogOk(s.db, s.log)
    ensures AllJobsOk(s.objects, next) && LatestOk(s.objects, next, s.latest) && LogOk(next, s.log)
  {
    forall i | 0 <= i < |next.jobs|
      ensures JobOk(s.objects, next.generation, next.jobs[i])
    {
      if i < |s.db.jobs| { assert JobOk(s.objects, s.db.generation, s.db.jobs[i]); }
    }
  }

  lemma BumpedStage(cfg: Config, ledger: Ledger, s: Sys, next: Db, now: int)
    requires LedgerOk(ledger, s.db) && Bumped(s.db, next, now) && !HoldsFence(s.stage) && StageOk(cfg, ledger, s)
    ensures StageOk(cfg, Extend(ledger, next), s.(db := next))
  {
    hide Right, LedgerOk, Extend;
    match s.stage
    case Rechecking(job, snapshot) => RightStays(cfg, ledger, s.db, next, job.generation, Json(snapshot));
    case Confirming(job, snapshot) => RightStays(cfg, ledger, s.db, next, job.generation, Json(snapshot));
    case Uploading(job, snapshot) => RightStays(cfg, ledger, s.db, next, job.generation, Json(snapshot));
    case Reconfirming(job, snapshot) => RightStays(cfg, ledger, s.db, next, job.generation, Json(snapshot));
    case Marking(job, snapshot) => RightStays(cfg, ledger, s.db, next, job.generation, Json(snapshot));
    case _ =>
  }

  // A command either leaves the published view alone or starts a generation of its own.
  lemma DoInv(cfg: Config, ledger: Ledger, s: Sys, u: Actor, c: Command, now: int)
    requires Inv(cfg, ledger, s) && Lawful(cfg.rules) && !(Fenced(c) && HoldsFence(s.stage))
    ensures var next := After(cfg.rules, s.db, u, c, now); Inv(cfg, Extend(ledger, next), s.(db := next))
    ensures var next := After(cfg.rules, s.db, u, c, now);
      s.db.generation <= next.generation <= s.db.generation + 1 && Continues(ledger, Extend(ledger, next))
  {
    hide Good, After, ViewOf, Right, AllJobsOk, ObjectsOk, Export;
    var next := After(cfg.rules, s.db, u, c, now);
    StepGood(cfg.rules, s.db, u, c, now);
    GenerationDeterminesView(cfg.rules, s.db, u, c, now);
    if next.generation == s.db.generation && ViewOf(next) == ViewOf(s.db) && next.jobs == s.db.jobs {
      assert Extend(ledger, next) == ledger;
      QuietInv(cfg, ledger, s, next);
    } else {
      BumpedInv(cfg, ledger, s, next, now);
    }
  }

  lemma QuietInv(cfg: Config, ledger: Ledger, s: Sys, next: Db)
    requires Inv(cfg, ledger, s) && Good(cfg.rules, next)
    requires next.generation == s.db.generation && ViewOf(next) == ViewOf(s.db) && next.jobs == s.db.jobs
    ensures Inv(cfg, ledger, s.(db := next))
  {
    hide Good, ViewOf, Right, JobOk;
  }

  // ----- worker steps -----

  lemma GoInv(cfg: Config, ledger: Ledger, s: Sys, stage: Stage)
    requires Inv(cfg, ledger, s) && StageOk(cfg, ledger, Go(s, stage))
    ensures Inv(cfg, ledger, Go(s, stage))
  {
    hide Good, ViewOf, Right, JobOk, LedgerOk, StageOk;
  }

  // Other job rows, or a longer log.
  lemma JobsInv(cfg: Config, ledger: Ledger, s: Sys, jobs: seq<Job>, log: seq<Event>, stage: Stage)
    requires Inv(cfg, ledger, s) && SameJobs(s.db.jobs, jobs) && s.log <= log
    requires forall i | 0 <= i < |jobs| :: JobOk(s.objects, s.db.generation, jobs[i])
    requires forall i | 0 <= i < |jobs| && jobs[i].state.BuildTriggered? :: Fired(log, i + 1)
    requires forall e | e in log && e.Hooked? :: e.named == e.current
    requires StageOk(cfg, ledger, Go(SetJobs(s, jobs).(log := log), stage))
    ensures Inv(cfg, ledger, Go(SetJobs(s, jobs).(log := log), stage))
  {
    hide Good, ViewOf, Right, JobOk, StageOk, Extend;
    JobsApart(cfg.rules, s.db, jobs);
    JobsLedger(ledger, s.db, jobs);
  }

  lemma JobsLedger(ledger: Ledger, db: Db, jobs: seq<Job>)
    requires LedgerOk(ledger, db) && ViewOf(db.(jobs := jobs)) == ViewOf(db)
    ensures LedgerOk(ledger, db.(jobs := jobs))
  {
    hide ViewOf;
  }

  // One job row rewritten.
  lemma PutJobInv(cfg: Config, ledger: Ledger, s: Sys, id: int, row: Job, log: seq<Event>, stage: Stage)
    requires Inv(cfg, ledger, s) && Row(s.db.jobs, id) && s.log <= log
    requires row.generation == At(s.db.jobs, id).generation && row.createdAt == At(s.db.jobs, id).createdAt
    requires JobOk(s.objects, s.db.generation, row) && (row.state.BuildTriggered? ==> Fired(log, id))
    requires forall e | e in log && e.Hooked? :: e.named == e.current
    requires StageOk(cfg, ledger, Go(SetJobs(s, Set(s.db.jobs, id, row)).(log := log), stage))
    ensures Inv(cfg, ledger, Go(SetJobs(s, Set(s.db.jobs, id, row)).(log := log), stage))
  {
    hide Inv, StageOk, JobOk, AllJobsOk, LogOk, SameJobs;
    Parts(cfg, ledger, s);
    PutRows(s, id, row, log);
    JobsInv(cfg, ledger, s, Set(s.db.jobs, id, row), log, stage);
  }

  lemma Parts(cfg: Config, ledger: Ledger, s: Sys)
    requires Inv(cfg, ledger, s)
    ensures JobsOk(s.db) && AllJobsOk(s.objects, s.db) && LogOk(s.db, s.log) && LatestOk(s.objects, s.db, s.latest)
    ensures Good(cfg.rules, s.db) && LedgerOk(ledger, s.db) && ObjectsOk(cfg, ledger, s.objects) && StageOk(cfg, ledger, s)
  {
  }

  lemma PutRows(s: Sys, id: int, row: Job, log: seq<Event>)
    requires AllJobsOk(s.objects, s.db) && LogOk(s.db, s.log) && Row(s.db.jobs, id) && s.log <= log
    requires row.generation == At(s.db.jobs, id).generation && row.createdAt == At(s.db.jobs, id).createdAt
    requires JobOk(s.objects, s.db.generation, row) && (row.state.BuildTriggered? ==> Fired(log, id))
    ensures var jobs := Set(s.db.jobs, id, row);
      && SameJobs(s.db.jobs, jobs)
      && forall i | 0 <= i < |jobs| ::
           JobOk(s.objects, s.db.generation, jobs[i]) && (jobs[i].state.BuildTriggered? ==> Fired(log, i + 1))
  {
    hide JobOk;
    var jobs := Set(s.db.jobs, id, row);
    forall i | 0 <= i < |jobs|
      ensures JobOk(s.objects, s.db.generation, jobs[i]) && (jobs[i].state.BuildTriggered? ==> Fired(log, i + 1))
    {
      if i + 1 != id {
        assert JobOk(s.objects, s.db.generation, s.db.jobs[i]);
        if jobs[i].state.BuildTriggered? { assert Fired(s.log, i + 1); }
      }
    }
  }

  // Job rows agree with their position.
  lemma RowGeneration(cfg: Config, ledger: Ledger, s: Sys, id: int)
    requires Inv(cfg, ledger, s) && Row(s.db.jobs, id)
    ensures At(s.db.jobs, id).generation == id && JobOk(s.objects, s.db.generation, At(s.db.jobs, id))
    ensures id <= s.db.generation
  {
  }

  lemma SupersedeInv(cfg: Config, ledger: Ledger, s: Sys, g: int, stage: Stage)
    requires Inv(cfg, ledger, s) && g <= s.db.generation
    requires StageOk(cfg, ledger, Go(SetJobs(s, Supersede(s.db.jobs, g)), stage))
    ensures Inv(cfg, ledger, Go(SetJobs(s, Supersede(s.db.jobs, g)), stage))
  {
    hide Inv, StageOk, JobOk, AllJobsOk, SameJobs, Supersede;
    Parts(cfg, ledger, s);
    SupersedeRows(s, g);
    JobsInv(cfg, ledger, s, Supersede(s.db.jobs, g), s.log, stage);
    assert SetJobs(s, Supersede(s.db.jobs, g)).(log := s.log) == SetJobs(s, Supersede(s.db.jobs, g));
  }

  lemma SupersedeRows(s: Sys, g: int)
    requires AllJobsOk(s.objects, s.db) && LogOk(s.db, s.log) && g <= s.db.generation
    ensures var jobs := Supersede(s.db.jobs, g);
      && SameJobs(s.db.jobs, jobs)
      && forall i | 0 <= i < |jobs| ::
           JobOk(s.objects, s.db.generation, jobs[i]) && (jobs[i].state.BuildTriggered? ==> Fired(s.log, i + 1))
  {
    hide Fired;
    var jobs := Supersede(s.db.jobs, g);
    forall i | 0 <= i < |jobs|
      ensures JobOk(s.objects, s.db.generation, jobs[i]) && (jobs[i].state.BuildTriggered? ==> Fired(s.log, i + 1))
    {
      assert JobOk(s.objects, s.db.generation, s.db.jobs[i]);
    }
  }

  lemma PollInv(cfg: Config, ledger: Ledger, s: Sys, o: Outcome, now: int)
    requires Inv(cfg, ledger, s) && (s.stage.Idle? || s.stage.Locked? || s.stage.Polled? || s.stage.Swept?)
    ensures Inv(cfg, ledger, WorkStep(cfg, s, o, now))
  {
    hide Good, LedgerOk, ObjectsOk, JobOk, LatestOk, LogOk, Export;
    match s.stage
    case Idle => GoInv(cfg, ledger, s, Locked);
    case Locked => GoInv(cfg, ledger, s, if o == Works then Polled(s.db.generation) else Idle);
    case Polled(g) =>
      var next := if o == Works then Swept else Idle;
      if o == Breaks { GoInv(cfg, ledger, s, next); } else { SupersedeInv(cfg, ledger, s, g, next); }
    case Swept =>
      if o == Works && s.db.jobs != [] && Due(s.db.jobs[|s.db.jobs| - 1], now) {
        DueIsExact(cfg, ledger, s, now);
        GoInv(cfg, ledger, s, Starting(s.db.jobs[|s.db.jobs| - 1]));
      } else {
        GoInv(cfg, ledger, s, Idle);
      }
  }

  // A due job still has automatic attempts left.
  lemma DueIsExact(cfg: Config, ledger: Ledger, s: Sys, now: int)
    requires Inv(cfg, ledger, s) && s.db.jobs != [] && Due(s.db.jobs[|s.db.jobs| - 1], now)
    ensures Exact(s.db, s.db.jobs[|s.db.jobs| - 1])
  {
    hide Inv;
    RowGeneration(cfg, ledger, s, |s.db.jobs|);
  }

  lemma FreshInv(cfg: Config, ledger: Ledger, s: Sys, job: Job, o: Outcome, next: Stage, fenced: bool)
    requires Inv(cfg, ledger, s) && Exact(s.db, job)
    requires s.db.generation == job.generation ==> StageOk(cfg, ledger, Go(s, next))
    ensures Inv(cfg, ledger, Fresh(s, job, o, next, fenced))
  {
    hide Good, LedgerOk, ObjectsOk, JobOk, LatestOk, LogOk, Export;
    if o != Works {
      GoInv(cfg, ledger, s, Failing(job));
    } else if s.db.generation != job.generation {
      GoInv(cfg, ledger, s, Sweeping(job, s.db.generation, fenced));
    } else {
      GoInv(cfg, ledger, s, next);
    }
  }

  lemma FreshSteps(cfg: Config, ledger: Ledger, s: Sys, o: Outcome, now: int)
    requires Inv(cfg, ledger, s)
    requires s.stage.Starting? || s.stage.Confirming? || s.stage.Reconfirming? || s.stage.Refreshing? || s.stage.Verifying?
    ensures Inv(cfg, ledger, WorkStep(cfg, s, o, now))
  {
    hide Good, LedgerOk, ObjectsOk, AllJobsOk, LatestOk, LogOk, Right, Fresh;
    match s.stage
    case Starting(job) =>
      RowGeneration(cfg, ledger, s, job.generation);
      FreshInv(cfg, ledger, s, job, o, if job.key.None? then Reading(job) else Checking(job), false);
    case Confirming(job, snapshot) => FreshInv(cfg, ledger, s, job, o, Uploading(job, snapshot), false);
    case Reconfirming(job, snapshot) => FreshInv(cfg, ledger, s, job, o, Marking(job, snapshot), false);
    case Refreshing(job) => FreshInv(cfg, ledger, s, job, o, Naming(job), true);
    case Verifying(job) => FreshInv(cfg, ledger, s, job, o, Hooking(job), true);
  }

  lemma ReadInv(cfg: Config, ledger: Ledger, s: Sys, job: Job, o: Outcome)
    requires Inv(cfg, ledger, s) && s.stage == Reading(job)
    ensures Inv(cfg, ledger, Read(cfg, s, job, o))
  {
    hide Good, ObjectsOk, JobOk, LatestOk, LogOk, Acceptable, Assemble, ViewOf;
    var r := Export(cfg.rules, cfg.budget, ViewOf(s.db), job.generation);
    if o != Works || r == Err(Invalid) {
      GoInv(cfg, ledger, s, Failing(job));
    } else if r.Ok? {
      // The view read carries the generation it was read at.
      assert ledger[job.generation] == ViewOf(s.db);
      GoInv(cfg, ledger, s, Rechecking(job, r.value));
    } else {
      GoInv(cfg, ledger, s, Idle);
    }
  }

  lemma RecheckInv(cfg: Config, ledger: Ledger, s: Sys, job: Job, snapshot: Snapshot, o: Outcome)
    requires Inv(cfg, ledger, s) && s.stage == Rechecking(job, snapshot)
    ensures Inv(cfg, ledger, Recheck(s, job, snapshot, o))
  {
    hide Good, ObjectsOk, JobOk, LatestOk, LogOk, LedgerOk, Right;
    GoInv(cfg, ledger, s, if o != Works then Failing(job)
                          else if s.db.generation != job.generation then Idle
                          else Confirming(job, snapshot));
  }

  // An object already stored under the key holds the same bytes: no integrity error.
  lemma StoredIsRight(cfg: Config, ledger: Ledger, s: Sys, job: Job, snapshot: Snapshot)
    requires ObjectsOk(cfg, ledger, s.objects) && Right(cfg, ledger, job.generation, Json(snapshot))
    ensures SnapshotKey(job.generation) in s.objects ==> s.objects[SnapshotKey(job.generation)] == Json(snapshot)
  {
    hide Export;
    var key := SnapshotKey(job.generation);
    if key in s.objects {
      assert Right(cfg, ledger, key.generation, s.objects[key]);
    }
  }

  lemma StoreInv(cfg: Config, ledger: Ledger, s: Sys, job: Job, snapshot: Snapshot)
    requires Inv(cfg, ledger, s) && s.stage == Uploading(job, snapshot) && SnapshotKey(job.generation) !in s.objects
    ensures Inv(cfg, ledger, s.(objects := s.objects[SnapshotKey(job.generation) := Json(snapshot)]))
  {
    hide Good, LedgerOk, Right, LogOk;
    var objects := s.objects[SnapshotKey(job.generation) := Json(snapshot)];
    forall i | 0 <= i < |s.db.jobs|
      ensures JobOk(objects, s.db.generation, s.db.jobs[i])
    {
      assert JobOk(s.objects, s.db.generation, s.db.jobs[i]);
    }
  }

  lemma UploadInv(cfg: Config, ledger: Ledger, s: Sys, job: Job, snapshot: Snapshot, o: Outcome)
    requires Inv(cfg, ledger, s) && s.stage == Uploading(job, snapshot)
    ensures Inv(cfg, ledger, PutSnapshot(s, job, snapshot, o))
  {
    hide Good, LedgerOk, Right, LogOk, JobOk, LatestOk, ObjectsOk;
    StoredIsRight(cfg, ledger, s, job, snapshot);
    if o == Breaks {
      GoInv(cfg, ledger, s, Failing(job));
    } else {
      var next := s;
      if SnapshotKey(job.generation) !in s.objects {
        StoreInv(cfg, ledger, s, job, snapshot);
        next := s.(objects := s.objects[SnapshotKey(job.generation) := Json(snapshot)]);
      }
      GoInv(cfg, ledger, next, if o == Works then Reconfirming(job, snapshot) else Failing(job));
    }
  }

  lemma MarkInv(cfg: Config, ledger: Ledger, s: Sys, job: Job, snapshot: Snapshot, o: Outcome)
    requires Inv(cfg, ledger, s) && s.stage == Marking(job, snapshot)
    ensures Inv(cfg, ledger, Mark(s, job, snapshot, o))
  {
    hide Good, LedgerOk, Right, LatestOk, ObjectsOk, AllJobsOk;
    Parts(cfg, ledger, s);
    RowGeneration(cfg, ledger, s, job.generation);
    if o == Breaks {
      GoInv(cfg, ledger, s, Failing(job));
    } else {
      var row := job.(state := SnapshotUploaded, key := Some(SnapshotKey(job.generation)),
                      digest := Some(Sha256(Json(snapshot))), nextAttempt := None);
      assert MarkUploaded(s.db.jobs, job.generation, SnapshotKey(job.generation), Sha256(Json(snapshot)))
        == Some(Set(s.db.jobs, job.generation, row));
      PutJobInv(cfg, ledger, s, job.generation, row, s.log, if o == Works then Reloading(job) else Failing(job));
      assert SetJobs(s, Set(s.db.jobs, job.generation, row)).(log := s.log) == SetJobs(s, Set(s.db.jobs, job.generation, row));
    }
  }

  lemma ReloadInv(cfg: Config, ledger: Ledger, s: Sys, job: Job, o: Outcome)
    requires Inv(cfg, ledger, s) && s.stage == Reloading(job)
    ensures Inv(cfg, ledger, Reload(s, job, o))
  {
    hide Good, LedgerOk, LatestOk, ObjectsOk, LogOk, AllJobsOk;
    RowGeneration(cfg, ledger, s, job.generation);
    GoInv(cfg, ledger, s, if o != Works then Failing(job) else Checking(At(s.db.jobs, job.generation)));
  }

  lemma CheckInv(cfg: Config, ledger: Ledger, s: Sys, job: Job)
    requires Inv(cfg, ledger, s) && s.stage == Checking(job)
    ensures CheckKey(s, job) == Go(s, Fencing(job)) && Inv(cfg, ledger, CheckKey(s, job))
  {
    hide Good, LedgerOk, LatestOk, ObjectsOk, LogOk, AllJobsOk;
    RowGeneration(cfg, ledger, s, job.generation);
    GoInv(cfg, ledger, s, Fencing(job));
  }

  lemma NameInv(cfg: Config, ledger: Ledger, s: Sys, job: Job, o: Outcome)
    requires Inv(cfg, ledger, s) && s.stage == Naming(job)
    ensures Inv(cfg, ledger, Name(s, job, o))
    ensures s.latest.Some? ==> Name(s, job, o).latest.Some? && s.latest.value.generation <= Name(s, job, o).latest.value.generation
  {
    hide Good, LedgerOk, ObjectsOk, LogOk, AllJobsOk;
    RowGeneration(cfg, ledger, s, job.generation);
    if o == Breaks {
      GoInv(cfg, ledger, s, Failing(job));
    } else {
      var next := s.(latest := Some(LatestFor(job)));
      assert LatestOk(next.objects, next.db, next.latest);
      hide JobOk, LatestOk;
      LatestInv(cfg, ledger, s, job);
      GoInv(cfg, ledger, next.(stage := Failing(job)), if o == Works then Verifying(job) else Failing(job));
    }
  }

  lemma LatestInv(cfg: Config, ledger: Ledger, s: Sys, job: Job)
    requires Inv(cfg, ledger, s) && s.stage == Naming(job)
    requires LatestOk(s.objects, s.db, Some(LatestFor(job)))
    ensures Inv(cfg, ledger, s.(latest := Some(LatestFor(job)), stage := Failing(job)))
  {
    hide Good, LedgerOk, ObjectsOk, LogOk, JobOk, LatestOk;
  }

  lemma HookInv(cfg: Config, ledger: Ledger, s: Sys, job: Job, o: Outcome)
    requires Inv(cfg, ledger, s) && s.stage == Hooking(job)
    ensures Inv(cfg, ledger, Hook(s, job, o))
  {
    hide Good, LedgerOk, ObjectsOk, AllJobsOk, LatestOk;
    Parts(cfg, ledger, s);
    if o == Breaks {
      GoInv(cfg, ledger, s, Failing(job));
    } else {
      var g := job.generation;
      var log := s.log + [Hooked(g, g)];
      var fired := s.(log := log);
      assert LogOk(fired.db, log) by {
        forall i | 0 <= i < |s.db.jobs| && s.db.jobs[i].state.BuildTriggered?
          ensures Fired(log, i + 1)
        {
          assert Fired(s.log, i + 1);
        }
      }
      assert Hooked(g, g) in log by { assert log[|s.log|] == Hooked(g, g); }
      GoInv(cfg, ledger, fired, if o == Works then Finishing(job) else Failing(job));
    }
  }

  lemma FinishInv(cfg: Config, ledger: Ledger, s: Sys, job: Job, o: Outcome)
    requires Inv(cfg, ledger, s) && s.stage == Finishing(job)
    ensures Inv(cfg, ledger, Finish(s, job, o))
  {
    hide Good, LedgerOk, LatestOk, ObjectsOk, AllJobsOk;
    Parts(cfg, ledger, s);
    RowGeneration(cfg, ledger, s, job.generation);
    if o == Breaks {
      GoInv(cfg, ledger, s, Failing(job));
    } else {
      var row := job.(state := BuildTriggered, nextAttempt := None);
      assert MarkTriggered(s.db.jobs, job.generation) == Some(Set(s.db.jobs, job.generation, row));
      PutJobInv(cfg, ledger, s, job.generation, row, s.log, if o == Works then Idle else Failing(job));
      assert SetJobs(s, Set(s.db.jobs, job.generation, row)).(log := s.log) == SetJobs(s, Set(s.db.jobs, job.generation, row));
    }
  }

  lemma SweepInv(cfg: Config, ledger: Ledger, s: Sys, job: Job, g: int, o: Outcome)
    requires Inv(cfg, ledger, s) && s.stage.Sweeping? && s.stage.job == job && s.stage.generation == g
    ensures Inv(cfg, ledger, Sweep(s, job, g, o))
  {
    hide Good, LedgerOk, LatestOk, ObjectsOk, AllJobsOk, LogOk;
    RowGeneration(cfg, ledger, s, job.generation);
    var next := if o == Works then Idle else Failing(job);
    if o == Breaks {
      GoInv(cfg, ledger, s, next);
    } else {
      SupersedeInv(cfg, ledger, s, g, next);
    }
  }

  lemma RecordInv(cfg: Config, ledger: Ledger, s: Sys, job: Job, o: Outcome, now: int)
    requires Inv(cfg, ledger, s) && s.stage == Failing(job)
    ensures Inv(cfg, ledger, Record(s, job, o, now))
  {
    hide Good, LedgerOk, LatestOk, ObjectsOk, AllJobsOk;
    Parts(cfg, ledger, s);
    RowGeneration(cfg, ledger, s, job.generation);
    var failed := MarkFailed(s.db.jobs, job.generation, NextAttempt(job.attempts + 1, now));
    if o == Breaks || failed.None? {
      GoInv(cfg, ledger, s, Idle);
    } else {
      var was := At(s.db.jobs, job.generation);
      var row := was.(state := Failed, attempts := was.attempts + 1, nextAttempt := NextAttempt(job.attempts + 1, now));
      var log := s.log + [Event.Recorded(job.generation)];
      PutJobInv(cfg, ledger, s, job.generation, row, log, Idle);
    }
  }

  lemma WorkInv(cfg: Config, ledger: Ledger, s: Sys, o: Outcome, now: int)
    requires Inv(cfg, ledger, s)
    ensures Inv(cfg, ledger, WorkStep(cfg, s, o, now))
  {
    hide Good, LedgerOk, LatestOk, ObjectsOk, AllJobsOk, LogOk, JobOk, Right, Fresh, Read, Recheck, PutSnapshot, Mark,
         Reload, CheckKey, Name, Hook, Finish, Sweep, Record, Pick;
    match s.stage
    case Reading(job) => ReadInv(cfg, ledger, s, job, o);
    case Rechecking(job, snapshot) => RecheckInv(cfg, ledger, s, job, snapshot, o);
    case Uploading(job, snapshot) => UploadInv(cfg, ledger, s, job, snapshot, o);
    case Marking(job, snapshot) => MarkInv(cfg, ledger, s, job, snapshot, o);
    case Reloading(job) => ReloadInv(cfg, ledger, s, job, o);
    case Checking(job) => CheckInv(cfg, ledger, s, job);
    case Fencing(job) => GoInv(cfg, ledger, s, Refreshing(job));
    case Naming(job) => NameInv(cfg, ledger, s, job, o);
    case Hooking(job) => HookInv(cfg, ledger, s, job, o);
    case Finishing(job) => FinishInv(cfg, ledger, s, job, o);
    case Sweeping(job, g, _) => SweepInv(cfg, ledger, s, job, g, o);
    case Failing(job) => RecordInv(cfg, ledger, s, job, o, now);
    case Starting(_) => FreshSteps(cfg, ledger, s, o, now);
    case Confirming(_, _) => FreshSteps(cfg, ledger, s, o, now);
    case Reconfirming(_, _) => FreshSteps(cfg, ledger, s, o, now);
    case Refreshing(_) => FreshSteps(cfg, ledger, s, o, now);
    case Verifying(_) => FreshSteps(cfg, ledger, s, o, now);
    case _ => PollInv(cfg, ledger, s, o, now);
  }

  lemma RetryInv(cfg: Config, ledger: Ledger, s: Sys, u: Actor, id: int)
    requires Inv(cfg, ledger, s)
    ensures Inv(cfg, ledger, RetryStep(s, u, id))
  {
    hide Good, LedgerOk, LatestOk, ObjectsOk, AllJobsOk;
    var next := RetryStep(s, u, id);
    if next != s {
      Parts(cfg, ledger, s);
      RowGeneration(cfg, ledger, s, id);
      var was := At(s.db.jobs, id);
      var row := was.(state := if was.key.None? then Pending else SnapshotUploaded, attempts := 0, nextAttempt := None);
      var log := s.log + [Event.Retried(id)];
      PutJobInv(cfg, ledger, s, id, row, log, Idle);
    }
  }

  // What a generation stands for is settled once.
  ghost predicate Continues(a: Ledger, b: Ledger) {
    forall g | g in a :: g in b && b[g] == a[g]
  }

  lemma Known(ledger: Ledger, db: Db)
    requires LedgerOk(ledger, db)
    ensures Extend(ledger, db) == ledger
  {
  }

  lemma StepInv(cfg: Config, ledger: Ledger, s: Sys, a: Action)
    requires Inv(cfg, ledger, s) && Lawful(cfg.rules)
    ensures Inv(cfg, Extend(ledger, Step(cfg, s, a).db), Step(cfg, s, a))
    ensures Continues(ledger, Extend(ledger, Step(cfg, s, a).db))
    ensures s.db.generation <= Step(cfg, s, a).db.generation <= s.db.generation + 1
  {
    hide Good, LatestOk, ObjectsOk, AllJobsOk, LogOk, ViewOf, After, WorkStep, RetryStep, LedgerOk, StageOk, Extend;
    Known(ledger, s.db);
    match a
    case Do(u, c, now) =>
      if !(Fenced(c) && HoldsFence(s.stage)) { DoInv(cfg, ledger, s, u, c, now); }
    case Retry(u, id, _) =>
      RetryInv(cfg, ledger, s, u, id);
      Known(ledger, RetryStep(s, u, id).db);
    case Work(o, now) =>
      WorkInv(cfg, ledger, s, o, now);
      Known(ledger, WorkStep(cfg, s, o, now).db);
    case Crash => StopInv(cfg, ledger, s);
  }

  lemma StopInv(cfg: Config, ledger: Ledger, s: Sys)
    requires Inv(cfg, ledger, s)
    ensures Inv(cfg, ledger, Go(s, Idle))
  {
    GoInv(cfg, ledger, s, Idle);
  }
}
