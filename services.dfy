/**
 * The scheduler manager: a two-state lifecycle (`running` or not) guarding
 * the scheduling library's start and shutdown, in front of the library's job
 * table.  The library itself is modelled abstractly: its job table is a map
 * from job id to job, its job store is either attached or not, and it is
 * either started or not.  Next-fire computation, misfire handling and the
 * firing loop stay inside the library and are not modelled.
 */
module Services {
  import opened Wrappers
  import Values
  import opened Schemas
  import opened JobRegistry
  import opened SchedulerExceptions

  /** One hour in seconds; the library lets a job fire up to two hours late. */
  const HourInSecs: int := 3600

  /** A scheduled job as the library stores it. */
  datatype Job = Job(
    id: string,
    name: string,
    func: Handler,
    trigger: LibraryTrigger,
    kwargs: map<string, Values.Value>,
    maxInstances: int)

  /** The job store attached on start: a database table inside a schema. */
  datatype JobstoreConfig = SqlAlchemyJobstore(tableName: string, tableSchema: string)

  // ---------------------------------------------------------------------------
  // The job table.

  /** A stored job sits under its own id, runs one instance at a time and has a registered handler. */
  ghost predicate WellFormedTable(jobs: map<string, Job>) {
    forall id :: id in jobs ==>
      && jobs[id].id == id
      && jobs[id].maxInstances == 1
      && ResolveHandler(Registry, jobs[id].name) == Success(jobs[id].func)
  }

  /** `get_job`: the stored job, or `JobNotFound` carrying the id asked for. */
  function Lookup(jobs: map<string, Job>, jobId: string): (r: Result<Job, SchedulerError>)
    ensures r.Success? <==> jobId in jobs
    ensures r.Success? ==> r.value == jobs[jobId]
    ensures r.Failure? ==> r.error == JobNotFound(jobId)
  {
    if jobId in jobs then Success(jobs[jobId]) else Failure(JobNotFound(jobId))
  }

  /** `delete_job`: the table without the id, whether or not it was there. */
  function Removed(jobs: map<string, Job>, jobId: string): (r: map<string, Job>)
    ensures jobId !in r
    ensures forall id :: id != jobId ==> (id in r <==> id in jobs)
    ensures forall id :: id in r ==> r[id] == jobs[id]
  {
    jobs - {jobId}
  }

  /**
   * The id the library stores a job under: the given one, or the one it
   * generates when none is given or the given one is empty (`id or uuid4().hex`).
   */
  function StoredId(jobId: Option<string>, generatedId: string): (id: string)
    ensures id == generatedId || (jobId.Some? && id == jobId.value)
    ensures jobId.Some? && jobId.value != "" ==> id == jobId.value
    ensures jobId.None? || jobId.value == "" ==> id == generatedId
  {
    if jobId.Some? && jobId.value != "" then jobId.value else generatedId
  }

  /**
   * `add_job` against a given registry: resolve the handler, then let the
   * library store the job under `StoredId`.  Refusing a taken id unless `replaceExisting` is the
   * library's behaviour.
   */
  function Added(
    registry: map<string, RegistryItem>, jobs: map<string, Job>, jobName: string, trigger: LibraryTrigger,
    jobId: Option<string>, replaceExisting: bool, kwargs: map<string, Values.Value>, generatedId: string
  ): (r: (Result<Job, SchedulerError>, map<string, Job>))
    ensures jobName !in registry ==> r == (Failure(UnknownJobFunction(jobName)), jobs)
    ensures jobName in registry && registry[jobName].BareCallable? ==> r == (Failure(TypeError(jobName)), jobs)
    ensures r.0.Failure? ==> r.1 == jobs
    ensures r.0.Success? ==>
      && jobName in registry
      && r.0.value.id == StoredId(jobId, generatedId)
      && r.0.value.name == jobName
      && r.0.value.func == registry[jobName].func
      && r.0.value.trigger == trigger
      && r.0.value.kwargs == kwargs
      && r.0.value.maxInstances == 1
      && r.1 == jobs[r.0.value.id := r.0.value]
    ensures jobName in registry && registry[jobName].FuncRecord? ==>
      (r.0.Success? <==> StoredId(jobId, generatedId) !in jobs || replaceExisting)
  {
    var resolved := ResolveHandler(registry, jobName);
    if resolved.Failure? then
      (Failure(if resolved.error.NotRegistered? then UnknownJobFunction(jobName) else TypeError(jobName)), jobs)
    else
      var id := StoredId(jobId, generatedId);
      if id in jobs && !replaceExisting then (Failure(ConflictingIdError(id)), jobs)
      else
        var job := Job(id, jobName, resolved.value, trigger, kwargs, 1);
        (Success(job), jobs[id := job])
  }

  /**
   * With the registry as written, `add_job` raises a TypeError for every
   * registered name and stores nothing; an unregistered name still raises
   * `UnknownJobFunction`.
   */
  lemma AddJobAsWrittenRaises(
    jobs: map<string, Job>, jobName: string, trigger: LibraryTrigger, jobId: Option<string>,
    replaceExisting: bool, kwargs: map<string, Values.Value>, generatedId: string)
    ensures
      var (r, after) := Added(RegistryAsWritten, jobs, jobName, trigger, jobId, replaceExisting, kwargs, generatedId);
      && after == jobs
      && r == Failure(if jobName == NotifyStudentsName then TypeError(jobName) else UnknownJobFunction(jobName))
  {
  }

  /** Every outcome of adding, refused or not, leaves the table well formed. */
  lemma AddedKeepsTableWellFormed(
    jobs: map<string, Job>, jobName: string, trigger: LibraryTrigger, jobId: Option<string>,
    replaceExisting: bool, kwargs: map<string, Values.Value>, generatedId: string)
    requires WellFormedTable(jobs)
    ensures WellFormedTable(Added(Registry, jobs, jobName, trigger, jobId, replaceExisting, kwargs, generatedId).1)
  {
    var r := Added(Registry, jobs, jobName, trigger, jobId, replaceExisting, kwargs, generatedId);
    if r.0.Success? {
      RegistryResolves(jobName);
    }
  }

  /** A job that was added is found under its id with the trigger and arguments it was submitted with. */
  lemma AddThenLookup(
    jobs: map<string, Job>, jobName: string, trigger: LibraryTrigger, jobId: Option<string>,
    replaceExisting: bool, kwargs: map<string, Values.Value>, generatedId: string)
    requires Added(Registry, jobs, jobName, trigger, jobId, replaceExisting, kwargs, generatedId).0.Success?
    ensures
      var (r, after) := Added(Registry, jobs, jobName, trigger, jobId, replaceExisting, kwargs, generatedId);
      var found := Lookup(after, StoredId(jobId, generatedId));
      found.Success? && found.value.trigger == trigger && found.value.kwargs == kwargs && found == Success(r.value)
  {
  }

  /** Deleting twice is deleting once, and afterwards the job is not found. */
  lemma RemovedIdempotent(jobs: map<string, Job>, jobId: string)
    ensures Removed(Removed(jobs, jobId), jobId) == Removed(jobs, jobId)
    ensures Lookup(Removed(jobs, jobId), jobId) == Failure(JobNotFound(jobId))
  {
  }

  /** A job with the same id that was refused leaves the first job's trigger in place. */
  lemma DuplicateIdKeepsFirst(
    jobs: map<string, Job>, jobName: string, trigger: LibraryTrigger, jobId: string,
    kwargs: map<string, Values.Value>, generatedId: string)
    requires jobName in Registry && StoredId(Some(jobId), generatedId) in jobs
    ensures
      var id := StoredId(Some(jobId), generatedId);
      var (r, after) := Added(Registry, jobs, jobName, trigger, Some(jobId), false, kwargs, generatedId);
      r == Failure(ConflictingIdError(id)) && after == jobs
  {
  }

  // ---------------------------------------------------------------------------
  // The lifecycle.

  /** The manager's flag, and what the library holds: an attached job store, a started scheduler. */
  datatype Lifecycle = Lifecycle(running: bool, storeAttached: bool, libraryStarted: bool)

  /** A freshly constructed manager. */
  const Initial: Lifecycle := Lifecycle(false, false, false)

  /** The manager's flag agrees with the library's state. */
  predicate InSync(s: Lifecycle) {
    s.running == s.libraryStarted
  }

  /**
   * `start` as written: the flag is set first; the job store is then attached
   * under the library's default alias, which the library refuses when that
   * alias is already taken, and the library is started.
   */
  function StartStepAsWritten(s: Lifecycle): (r: (Outcome<SchedulerError>, Lifecycle))
    ensures s.running ==> r == (Fail(SchedulerAlreadyRunning), s)
    ensures !s.running ==> r.1.running
    ensures !s.running && s.storeAttached ==> r == (Fail(StoreAliasInUse), s.(running := true))
    ensures !s.running && !s.storeAttached && s.libraryStarted ==>
      r == (Fail(LibraryAlreadyRunning), s.(running := true, storeAttached := true))
    ensures !s.running && !s.storeAttached && !s.libraryStarted ==> r == (Pass, Lifecycle(true, true, true))
  {
    if s.running then (Fail(SchedulerAlreadyRunning), s)
    else
      var flagged := s.(running := true);
      if flagged.storeAttached then (Fail(StoreAliasInUse), flagged)
      else
        var attached := flagged.(storeAttached := true);
        if attached.libraryStarted then (Fail(LibraryAlreadyRunning), attached)
        else (Pass, attached.(libraryStarted := true))
  }

  /** `start` with the job store attached only on the first start. */
  function StartStep(s: Lifecycle): (r: (Outcome<SchedulerError>, Lifecycle))
    ensures s.running ==> r == (Fail(SchedulerAlreadyRunning), s)
    ensures InSync(s) && !s.running ==> r == (Pass, Lifecycle(true, true, true))
  {
    if s.running then (Fail(SchedulerAlreadyRunning), s)
    else
      var attached := s.(running := true, storeAttached := true);
      if attached.libraryStarted then (Fail(LibraryAlreadyRunning), attached)
      else (Pass, attached.(libraryStarted := true))
  }

  /** `stop`: refused when not running; otherwise the flag is cleared, then the library is shut down. */
  function StopStep(s: Lifecycle): (r: (Outcome<SchedulerError>, Lifecycle))
    ensures !s.running ==> r == (Fail(SchedulerStopped), s)
    ensures s.running ==> !r.1.running && r.1.storeAttached == s.storeAttached
    ensures InSync(s) && s.running ==> r == (Pass, s.(running := false, libraryStarted := false))
    ensures s.running && !s.libraryStarted ==> r == (Fail(LibraryNotRunning), s.(running := false))
  {
    if !s.running then (Fail(SchedulerStopped), s)
    else
      var cleared := s.(running := false);
      if !cleared.libraryStarted then (Fail(LibraryNotRunning), cleared)
      else (Pass, cleared.(libraryStarted := false))
  }

  /** Starting and stopping keep the flag in agreement with the library. */
  lemma StartStopKeepInSync(s: Lifecycle)
    requires InSync(s)
    ensures InSync(StartStep(s).1) && InSync(StopStep(s).1)
  {
  }

  /**
   * As written, a restart after a stop is refused by the library (the store
   * alias is taken), yet the flag has already been set: the manager now
   * claims to run while the library is stopped.
   */
  lemma RestartFailsAsWritten()
    ensures
      var (first, s1) := StartStepAsWritten(Initial);
      var (second, s2) := StopStep(s1);
      var (third, s3) := StartStepAsWritten(s2);
      var (fourth, s4) := StopStep(s3);
      var (fifth, s5) := StartStepAsWritten(s4);
      && first == Pass && second == Pass
      && third == Fail(StoreAliasInUse)
      && s3.running && !s3.libraryStarted && !InSync(s3)
      && fourth == Fail(LibraryNotRunning) && !s4.running
      && fifth == Fail(StoreAliasInUse) && s5 == s3
      && Stuck(s3)
  {
  }

  /** The state the failed restart leaves: the store alias is taken and the library is stopped. */
  predicate Stuck(s: Lifecycle) {
    s.storeAttached && !s.libraryStarted
  }

  datatype LifecycleOp = StartOp | StopOp

  /** One call, with `start` corrected or, when `asWritten`, as written. */
  function Apply(s: Lifecycle, op: LifecycleOp, asWritten: bool := false): (Outcome<SchedulerError>, Lifecycle) {
    match op
    case StartOp => if asWritten then StartStepAsWritten(s) else StartStep(s)
    case StopOp => StopStep(s)
  }

  /** The state after a series of calls, or the first exception raised. */
  function Run(s: Lifecycle, ops: seq<LifecycleOp>): Result<Lifecycle, SchedulerError>
    decreases |ops|
  {
    if ops == [] then Success(s)
    else
      var (outcome, next) := Apply(s, ops[0]);
      if outcome.Fail? then Failure(outcome.error) else Run(next, ops[1..])
  }

  /** Calls that alternate, beginning with the one the current state allows. */
  ghost predicate Alternating(running: bool, ops: seq<LifecycleOp>) {
    forall i :: 0 <= i < |ops| ==> ops[i] == (if (i % 2 == 0) == running then StopOp else StartOp)
  }

  /** Calls alternate from `running` exactly when the first is the allowed one and the rest alternate from its opposite. */
  lemma AlternatingCons(running: bool, ops: seq<LifecycleOp>)
    requires ops != []
    ensures Alternating(running, ops) <==>
      ops[0] == (if running then StopOp else StartOp) && Alternating(!running, ops[1..])
  {
    if Alternating(running, ops) {
      forall i | 0 <= i < |ops[1..]|
        ensures ops[1..][i] == (if (i % 2 == 0) == !running then StopOp else StartOp)
      {
        assert ops[1..][i] == ops[i + 1];
      }
    }
    if ops[0] == (if running then StopOp else StartOp) && Alternating(!running, ops[1..]) {
      forall i | 0 <= i < |ops|
        ensures ops[i] == (if (i % 2 == 0) == running then StopOp else StartOp)
      {
        if i > 0 {
          assert ops[i] == ops[1..][i - 1];
        }
      }
    }
  }

  /**
   * A series of `start` and `stop` calls raises nothing exactly when the calls
   * alternate, and then the manager ends running exactly when it made an odd
   * number of flips away from where it began.
   */
  lemma {:induction false} RunSucceedsIffAlternating(s: Lifecycle, ops: seq<LifecycleOp>)
    requires InSync(s)
    ensures Run(s, ops).Success? <==> Alternating(s.running, ops)
    ensures Run(s, ops).Success? ==>
      InSync(Run(s, ops).value) && Run(s, ops).value.running == (s.running != (|ops| % 2 == 1))
    decreases |ops|
  {
    if ops != [] {
      var (outcome, next) := Apply(s, ops[0]);
      AlternatingCons(s.running, ops);
      if ops[0] == (if s.running then StopOp else StartOp) {
        assert outcome == Pass && InSync(next) && next.running == !s.running;
        RunSucceedsIffAlternating(next, ops[1..]);
      } else {
        assert outcome.Fail?;
      }
    }
  }

  /**
   * The outcome of each call in a series whose caller catches every
   * exception and goes on with the next call.
   */
  function Outcomes(s: Lifecycle, ops: seq<LifecycleOp>, asWritten: bool): (r: seq<Outcome<SchedulerError>>)
    ensures |r| == |ops|
    ensures ops != [] ==> r[0] == Apply(s, ops[0], asWritten).0
    decreases |ops|
  {
    if ops == [] then []
    else
      var (outcome, next) := Apply(s, ops[0], asWritten);
      [outcome] + Outcomes(next, ops[1..], asWritten)
  }

  /**
   * As written, once a restart has failed every later `start` and `stop`
   * raises, however the calls are ordered and whichever exceptions are caught.
   */
  lemma {:induction false} StuckStaysStuckAsWritten(s: Lifecycle, ops: seq<LifecycleOp>)
    requires Stuck(s)
    ensures forall i :: 0 <= i < |ops| ==> Outcomes(s, ops, true)[i].Fail?
    decreases |ops|
  {
    if ops != [] {
      var (outcome, next) := Apply(s, ops[0], true);
      assert outcome.Fail? && Stuck(next);
      StuckStaysStuckAsWritten(next, ops[1..]);
      assert Outcomes(s, ops, true) == [outcome] + Outcomes(next, ops[1..], true);
    }
  }

  /** start, stop, start succeeds; start twice and stop on a fresh manager fail. */
  lemma LifecycleScenarios()
    ensures Run(Initial, [StartOp, StopOp, StartOp]) == Success(Lifecycle(true, true, true))
    ensures Run(Initial, [StartOp, StartOp]) == Failure(SchedulerAlreadyRunning)
    ensures Run(Initial, [StopOp]) == Failure(SchedulerStopped)
  {
  }

  // ---------------------------------------------------------------------------
  // The manager object.

  class SchedulerManager {
    const schedulerSchema: string
    const schedulerTable: string
    /** How late, in seconds, the library may still fire a job. */
    const misfireGraceTime: int
    var running: bool
    /** The library's job store once attached. */
    var jobstore: Option<JobstoreConfig>
    /** Whether the library's scheduler is started. */
    var libraryStarted: bool
    /** The library's job table. */
    var jobs: map<string, Job>

    ghost predicate Valid()
      reads this
    {
      && running == libraryStarted
      && (jobstore.Some? ==> jobstore.value == SqlAlchemyJobstore(schedulerTable, schedulerSchema))
      && WellFormedTable(jobs)
    }

    function State(): Lifecycle
      reads this
    {
      Lifecycle(running, jobstore.Some?, libraryStarted)
    }

    constructor (schedulerSchema: string, schedulerTable: string)
      ensures Valid()
      ensures State() == Initial && jobs == map[]
      ensures this.schedulerSchema == schedulerSchema && this.schedulerTable == schedulerTable
      ensures misfireGraceTime == 2 * HourInSecs
    {
      this.schedulerSchema := schedulerSchema;
      this.schedulerTable := schedulerTable;
      misfireGraceTime := 2 * HourInSecs;
      running := false;
      jobstore := None;
      libraryStarted := false;
      jobs := map[];
    }

    /** `get_jobs`: every stored job, each once. */
    method GetJobs() returns (r: set<Job>)
      requires Valid()
      ensures forall j :: j in r <==> j.id in jobs && jobs[j.id] == j
    {
      r := jobs.Values;
      forall j | j in r
        ensures j.id in jobs && jobs[j.id] == j
      {
        var id :| id in jobs && jobs[id] == j;
      }
    }

    /** `get_job`. */
    method GetJob(jobId: string) returns (r: Result<Job, SchedulerError>)
      ensures r == Lookup(jobs, jobId)
    {
      if jobId in jobs {
        r := Success(jobs[jobId]);
      } else {
        r := Failure(JobNotFound(jobId));
      }
    }

    /** `delete_job`: an unknown id is not an error. */
    method DeleteJob(jobId: string)
      requires Valid()
      modifies this
      ensures Valid()
      ensures jobs == Removed(old(jobs), jobId)
      ensures State() == old(State()) && jobstore == old(jobstore)
    {
      if jobId in jobs {
        jobs := jobs - {jobId};
      }
    }

    /** `add_job`, with `max_instances=1`. */
    method AddJob(
      jobName: string, trigger: LibraryTrigger, kwargs: map<string, Values.Value>, generatedId: string,
      jobId: Option<string> := None, replaceExisting: bool := false
    ) returns (r: Result<Job, SchedulerError>)
      requires Valid()
      modifies this
      ensures Valid()
      ensures (r, jobs) == Added(Registry, old(jobs), jobName, trigger, jobId, replaceExisting, kwargs, generatedId)
      ensures State() == old(State()) && jobstore == old(jobstore)
    {
      AddedKeepsTableWellFormed(jobs, jobName, trigger, jobId, replaceExisting, kwargs, generatedId);
      var resolved := ResolveHandler(Registry, jobName);
      if resolved.Failure? {
        r := Failure(if resolved.error.NotRegistered? then UnknownJobFunction(jobName) else TypeError(jobName));
        return;
      }
      var id := StoredId(jobId, generatedId);
      if id in jobs && !replaceExisting {
        r := Failure(ConflictingIdError(id));
        return;
      }
      var job := Job(id, jobName, resolved.value, trigger, kwargs, 1);
      jobs := jobs[id := job];
      r := Success(job);
    }

    /** `start`, attaching the job store on the first start only. */
    method Start() returns (r: Outcome<SchedulerError>)
      requires Valid()
      modifies this
      ensures Valid()
      ensures (r, State()) == StartStep(old(State()))
      ensures jobs == old(jobs)
    {
      if running {
        return Fail(SchedulerAlreadyRunning);
      }
      running := true;
      if jobstore.None? {
        jobstore := Some(SqlAlchemyJobstore(schedulerTable, schedulerSchema));
      }
      libraryStarted := true;
      r := Pass;
    }

    /** `stop`. */
    method Stop() returns (r: Outcome<SchedulerError>)
      requires Valid()
      modifies this
      ensures Valid()
      ensures (r, State()) == StopStep(old(State()))
      ensures jobs == old(jobs) && jobstore == old(jobstore)
    {
      if !running {
        return Fail(SchedulerStopped);
      }
      running := false;
      libraryStarted := false;
      r := Pass;
    }
  }

  /** What a caller of a fresh manager observes: stop fails, start/stop/start succeeds, start twice fails. */
  method RestartScenario() returns (stopFresh: Outcome<SchedulerError>, start1: Outcome<SchedulerError>,
                                    stop1: Outcome<SchedulerError>, start2: Outcome<SchedulerError>,
                                    start3: Outcome<SchedulerError>)
    ensures stopFresh == Fail(SchedulerStopped)
    ensures start1 == Pass && stop1 == Pass && start2 == Pass
    ensures start3 == Fail(SchedulerAlreadyRunning)
  {
    var m := new SchedulerManager("scheduler", "apscheduler_jobs");
    stopFresh := m.Stop();
    start1 := m.Start();
    stop1 := m.Stop();
    start2 := m.Start();
    start3 := m.Start();
  }
}
