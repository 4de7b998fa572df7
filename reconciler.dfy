/**
 * Reconciliation of the scheduler's registry against the task table
 * (`DatabaseSync._schedule_tasks`, `_reload_config`, `setup_jobs`,
 * `_schedule_periodic_reload`). The pure functions state what one pass does to the
 * registry; the methods of `DatabaseSync` perform the pass on a `Scheduler` and are
 * proved to agree with them.
 */
module Reconciler {
  import opened Wrappers
  import opened Text
  import opened Triggers
  import opened Registry
  import opened Repository

  /** Period of the reconciliation job, in seconds (every 5 minutes). */
  const ReloadPeriod: nat := 300
  /** Period of the metrics job, in seconds (every minute). */
  const MetricsPeriod: nat := 60

  /** What one task's turn in `_schedule_tasks` does with the task's job. */
  datatype Decision =
    | Skip               // no schedule (lower-casing it raises, the per-task handler skips) or unsupported
    | RemoveExisting     // `never` with a job in the registry
    | NothingToRemove    // `never` and no job
    | AddNew(job: Job)   // supported schedule, no job yet
    | KeepExisting       // job exists, overwrite off
    | Unchanged          // job exists, overwrite on, same trigger
    | Reschedule(trigger: Trigger)  // job exists, overwrite on, trigger differs

  /** The schedule as `_schedule_tasks` compares it: lower-cased, or absent. */
  function Frequency(task: TaskRecord): Option<string>
  {
    match task.schedule
    case None => None
    case Some(s) => Some(Lower(s))
  }

  function Decide(current: Option<Job>, task: TaskRecord, overwrite: bool): Decision
  {
    match Frequency(task)
    case None => Skip
    case Some(frequency) =>
      if frequency == "never" then
        if current.Some? then RemoveExisting else NothingToRemove
      else
        match TriggerFor(frequency)
        case None => Skip
        case Some(trigger) =>
          if current.None? then AddNew(Job(trigger, RunTask(task.taskId)))
          else if !overwrite then KeepExisting
          else if NeedsReschedule(current.value.trigger, trigger) then Reschedule(trigger)
          else Unchanged
  }

  function Apply(current: Option<Job>, d: Decision): Option<Job>
  {
    match d
    case RemoveExisting => None
    case NothingToRemove => None
    case AddNew(job) => Some(job)
    case Reschedule(trigger) =>
      if current.Some? then Some(current.value.(trigger := trigger)) else current
    case _ => current
  }

  predicate Mutates(d: Decision)
  {
    d.RemoveExisting? || d.AddNew? || d.Reschedule?
  }

  function MutationOf(id: string, d: Decision): seq<Mutation>
  {
    match d
    case RemoveExisting => [Removed(id)]
    case AddNew(job) => [Added(id, job)]
    case Reschedule(trigger) => [Rescheduled(id, trigger)]
    case _ => []
  }

  /** The job a task's turn leaves under its job id, given the job found there. */
  function Scheduled(current: Option<Job>, task: TaskRecord, overwrite: bool): Option<Job>
  {
    Apply(current, Decide(current, task, overwrite))
  }

  /**
   * What a turn does, case by case, as the source promises: no schedule or an
   * unsupported one leaves the job alone; `never` removes it; a supported schedule adds
   * a job that runs the task, keeps an existing job when overwrite is off, and otherwise
   * gives it the mapped trigger while keeping what it runs.
   */
  lemma ScheduledMeaning(current: Option<Job>, task: TaskRecord, overwrite: bool)
    ensures Frequency(task).None? ==> Scheduled(current, task, overwrite) == current
    ensures Frequency(task) == Some("never") ==> Scheduled(current, task, overwrite) == None
    ensures Frequency(task).Some? && Frequency(task) != Some("never") && !IsSupported(Frequency(task).value)
      ==> Scheduled(current, task, overwrite) == current
    ensures Frequency(task).Some? && IsSupported(Frequency(task).value) ==>
      var trigger := TriggerFor(Frequency(task).value).value;
      Scheduled(current, task, overwrite) ==
        Some(if current.None? then Job(trigger, RunTask(task.taskId))
             else if overwrite then current.value.(trigger := trigger)
             else current.value)
  {
  }

  /**
   * A job left by a task's turn runs that task, provided the job found there did: firing it
   * starts one more wrapper run for exactly that task.
   */
  lemma ScheduledJobStartsItsTask(current: Option<Job>, task: TaskRecord, overwrite: bool, inFlight: multiset<int>)
    requires current.None? || current.value.action == RunTask(task.taskId)
    requires Scheduled(current, task, overwrite).Some?
    ensures StartRun(inFlight, Scheduled(current, task, overwrite).value) == inFlight + multiset{task.taskId}
  {
    ScheduledMeaning(current, task, overwrite);
  }

  /** The registry with `id` holding `job`, or without `id` when `job` is `None`. */
  function Put(jobs: map<string, Job>, id: string, job: Option<Job>): map<string, Job>
  {
    match job
    case None => jobs - {id}
    case Some(j) => jobs[id := j]
  }

  lemma PutAt(jobs: map<string, Job>, id: string, job: Option<Job>, k: string)
    ensures Lookup(Put(jobs, id, job), k) == if k == id then job else Lookup(jobs, k)
  {
  }

  lemma PutUnchanged(jobs: map<string, Job>, id: string)
    ensures Put(jobs, id, Lookup(jobs, id)) == jobs
  {
    if id in jobs {
      assert jobs[id := jobs[id]] == jobs;
    } else {
      assert jobs - {id} == jobs;
    }
  }

  /** A per-task rewrite of the job under the task's job id. */
  type TurnFn = (Option<Job>, TaskRecord) -> Option<Job>
  /** The registry mutations one turn performs. */
  type LogFn = (Option<Job>, TaskRecord) -> seq<Mutation>

  /** The job id a task claims. */
  type KeyFn = TaskRecord -> string

  /** A pass over the tasks in list order, each rewriting the job under its own key with `turn`. */
  function Pass(jobs: map<string, Job>, tasks: seq<TaskRecord>, key: KeyFn, turn: TurnFn): map<string, Job>
    decreases |tasks|
  {
    if tasks == [] then jobs
    else
      var before := Pass(jobs, tasks[..|tasks| - 1], key, turn);
      var id := key(tasks[|tasks| - 1]);
      Put(before, id, turn(Lookup(before, id), tasks[|tasks| - 1]))
  }

  /** The mutations a pass performs, in order. */
  function PassLog(jobs: map<string, Job>, tasks: seq<TaskRecord>, key: KeyFn, turn: TurnFn, log: LogFn): seq<Mutation>
    decreases |tasks|
  {
    if tasks == [] then []
    else
      var before := Pass(jobs, tasks[..|tasks| - 1], key, turn);
      var id := key(tasks[|tasks| - 1]);
      PassLog(jobs, tasks[..|tasks| - 1], key, turn, log) + log(Lookup(before, id), tasks[|tasks| - 1])
  }

  /** No two tasks claim the same key. */
  predicate DistinctKeys(tasks: seq<TaskRecord>, key: KeyFn)
  {
    forall i, j :: 0 <= i < j < |tasks| ==> key(tasks[i]) != key(tasks[j])
  }

  function TaskJobId(task: TaskRecord): string
  {
    JobId(task.taskId)
  }

  /** `_schedule_tasks`' turn for one task. */
  function Turn(overwrite: bool): TurnFn
  {
    (current: Option<Job>, task: TaskRecord) => Scheduled(current, task, overwrite)
  }

  function TurnLog(overwrite: bool): LogFn
  {
    (current: Option<Job>, task: TaskRecord) => MutationOf(JobId(task.taskId), Decide(current, task, overwrite))
  }

  /** One task's turn of `_schedule_tasks` on the whole registry. */
  function ScheduleOne(jobs: map<string, Job>, task: TaskRecord, overwrite: bool): map<string, Job>
  {
    var id := JobId(task.taskId);
    Put(jobs, id, Scheduled(Lookup(jobs, id), task, overwrite))
  }

  /** `_schedule_tasks`: the tasks' turns in list order. */
  function ScheduleAll(jobs: map<string, Job>, tasks: seq<TaskRecord>, overwrite: bool): map<string, Job>
  {
    Pass(jobs, tasks, TaskJobId, Turn(overwrite))
  }

  /** The registry mutations `_schedule_tasks` performs, in order. */
  function PassMutations(jobs: map<string, Job>, tasks: seq<TaskRecord>, overwrite: bool): seq<Mutation>
  {
    PassLog(jobs, tasks, TaskJobId, Turn(overwrite), TurnLog(overwrite))
  }

  function TaskJobIds(tasks: seq<TaskRecord>): set<string>
  {
    set t | t in tasks :: JobId(t.taskId)
  }

  /** The `dbtask_` jobs whose task is not among the fetched tasks. */
  function StaleIds(jobs: map<string, Job>, tasks: seq<TaskRecord>): set<string>
  {
    set id | id in jobs && IsDbTaskId(id) && id !in TaskJobIds(tasks)
  }

  /** `_reload_config`: drop the stale jobs, then schedule the fetched tasks with overwrite on. */
  function Reload(jobs: map<string, Job>, tasks: seq<TaskRecord>): map<string, Job>
  {
    ScheduleAll(jobs - StaleIds(jobs, tasks), tasks, true)
  }

  function RemovalsOf(ids: seq<string>): (r: seq<Mutation>)
    ensures |r| == |ids|
    ensures forall i :: 0 <= i < |ids| ==> r[i] == Removed(ids[i])
  {
    seq(|ids|, i requires 0 <= i < |ids| => Removed(ids[i]))
  }

  /** The registry right after start-up, before the scheduler runs. */
  function BootJobs(tasks: seq<TaskRecord>): map<string, Job>
  {
    ScheduleAll(map[MetricsJobId := Job(Interval(MetricsPeriod), RunMetrics)], tasks, false)
      [ReloadJobId := Job(Interval(ReloadPeriod), RunReload)]
  }

  /**
   * The registry calls of `_schedule_periodic_reload`: a removal of the reload job when
   * one is present, then the addition of the fresh one.
   */
  function ReloadInstallation(jobs: map<string, Job>): (r: seq<Mutation>)
    ensures |r| == if ReloadJobId in jobs then 2 else 1
    ensures r[|r| - 1] == Added(ReloadJobId, Job(Interval(ReloadPeriod), RunReload))
    ensures |r| == 2 ==> r[0] == Removed(ReloadJobId)
  {
    (if ReloadJobId in jobs then [Removed(ReloadJobId)] else []) + [Added(ReloadJobId, Job(Interval(ReloadPeriod), RunReload))]
  }

  // ---------------------------------------------------------------------------
  // Lemmas about one turn
  // ---------------------------------------------------------------------------

  /** A decision that mutates nothing leaves the job as it is and logs nothing. */
  lemma QuietDecisionKeepsJob(current: Option<Job>, task: TaskRecord, overwrite: bool)
    requires !Mutates(Decide(current, task, overwrite))
    ensures Scheduled(current, task, overwrite) == current
    ensures MutationOf(JobId(task.taskId), Decide(current, task, overwrite)) == []
  {
  }

  /** After a task's turn, the same turn again mutates nothing. */
  lemma TurnIsSettled(current: Option<Job>, task: TaskRecord, overwrite: bool)
    ensures !Mutates(Decide(Scheduled(current, task, overwrite), task, overwrite))
  {
  }

  /**
   * A turn looks only at the task's id and schedule: editing any other field of the
   * task (tables, connections, name) never adds, removes or reschedules its job.
   */
  lemma {:induction false} OtherFieldsDoNotMatter(current: Option<Job>, t: TaskRecord, u: TaskRecord, overwrite: bool)
    requires t.taskId == u.taskId && t.schedule == u.schedule
    ensures Decide(current, t, overwrite) == Decide(current, u, overwrite)
    ensures !Mutates(Decide(Scheduled(current, t, overwrite), u, overwrite))
  {
    TurnIsSettled(current, t, overwrite);
  }

  /**
   * A job created for one supported frequency is rescheduled when the task moves to
   * another supported frequency and overwrite is on, and kept when overwrite is off.
   */
  lemma FrequencyChangeReschedules(job: Job, task: TaskRecord, oldFrequency: string)
    requires IsSupported(oldFrequency) && job.trigger == TriggerFor(oldFrequency).value
    requires Frequency(task).Some? && IsSupported(Frequency(task).value)
    requires Frequency(task).value != oldFrequency
    ensures Decide(Some(job), task, true) == Reschedule(TriggerFor(Frequency(task).value).value)
    ensures Decide(Some(job), task, false) == KeepExisting
  {
    if TriggerFor(Frequency(task).value) == TriggerFor(oldFrequency) {
      TriggerForInjective(oldFrequency, Frequency(task).value);
    }
  }

  // ---------------------------------------------------------------------------
  // Lemmas about a pass, for any turn
  // ---------------------------------------------------------------------------

  /** Distinct task ids give distinct job ids. */
  lemma DistinctJobIds(tasks: seq<TaskRecord>, i: nat, j: nat)
    requires UniqueIds(tasks) && i < |tasks| && j < |tasks| && i != j
    ensures JobId(tasks[i].taskId) != JobId(tasks[j].taskId)
  {
    if JobId(tasks[i].taskId) == JobId(tasks[j].taskId) {
      JobIdInjective(tasks[i].taskId, tasks[j].taskId);
    }
  }

  /** Distinct task ids give distinct job ids. */
  lemma UniqueIdsDistinctKeys(tasks: seq<TaskRecord>)
    requires UniqueIds(tasks)
    ensures DistinctKeys(tasks, TaskJobId)
  {
    forall i, j | 0 <= i < j < |tasks|
      ensures TaskJobId(tasks[i]) != TaskJobId(tasks[j])
    {
      DistinctJobIds(tasks, i, j);
    }
  }

  /** A pass over one more task is the shorter pass followed by that task's turn. */
  lemma PassStep(jobs: map<string, Job>, tasks: seq<TaskRecord>, key: KeyFn, turn: TurnFn, log: LogFn, i: nat)
    requires i < |tasks|
    ensures var before := Pass(jobs, tasks[..i], key, turn);
      Pass(jobs, tasks[..i + 1], key, turn) == Put(before, key(tasks[i]), turn(Lookup(before, key(tasks[i])), tasks[i])) &&
      PassLog(jobs, tasks[..i + 1], key, turn, log) ==
        PassLog(jobs, tasks[..i], key, turn, log) + log(Lookup(before, key(tasks[i])), tasks[i])
  {
    assert tasks[..i + 1][..i] == tasks[..i];
  }

  /** A pass leaves alone every job id that belongs to none of its tasks. */
  lemma {:induction false} PassUntouched(jobs: map<string, Job>, tasks: seq<TaskRecord>, key: KeyFn, turn: TurnFn, id: string)
    requires forall t :: t in tasks ==> key(t) != id
    ensures Lookup(Pass(jobs, tasks, key, turn), id) == Lookup(jobs, id)
    decreases |tasks|
  {
    if tasks != [] {
      var init := tasks[..|tasks| - 1];
      var last := tasks[|tasks| - 1];
      assert forall t :: t in init ==> t in tasks;
      assert last in tasks;
      PassUntouched(jobs, init, key, turn, id);
      var before := Pass(jobs, init, key, turn);
      PutAt(before, key(last), turn(Lookup(before, key(last)), last), id);
    }
  }

  /** With distinct keys, each task's job ends as that task's own turn leaves it. */
  lemma {:induction false} PassAt(jobs: map<string, Job>, tasks: seq<TaskRecord>, key: KeyFn, turn: TurnFn, i: nat)
    requires DistinctKeys(tasks, key) && i < |tasks|
    ensures Lookup(Pass(jobs, tasks, key, turn), key(tasks[i])) == turn(Lookup(jobs, key(tasks[i])), tasks[i])
    decreases |tasks|
  {
    var id := key(tasks[i]);
    var n := |tasks| - 1;
    var init := tasks[..n];
    var before := Pass(jobs, init, key, turn);
    PutAt(before, key(tasks[n]), turn(Lookup(before, key(tasks[n])), tasks[n]), id);
    if i == n {
      forall t | t in init
        ensures key(t) != id
      {
        var k :| 0 <= k < n && init[k] == t;
        assert tasks[k] == t;
      }
      PassUntouched(jobs, init, key, turn, id);
    } else {
      assert DistinctKeys(init, key) by {
        forall a, b | 0 <= a < b < |init|
          ensures key(init[a]) != key(init[b])
        {
          assert init[a] == tasks[a] && init[b] == tasks[b];
        }
      }
      assert init[i] == tasks[i];
      PassAt(jobs, init, key, turn, i);
    }
  }

  /** A pass in which no task's turn changes or logs anything is a no-op. */
  lemma {:induction false} QuietPass(jobs: map<string, Job>, tasks: seq<TaskRecord>, key: KeyFn, turn: TurnFn, log: LogFn)
    requires forall t :: t in tasks ==>
      turn(Lookup(jobs, key(t)), t) == Lookup(jobs, key(t)) && log(Lookup(jobs, key(t)), t) == []
    ensures Pass(jobs, tasks, key, turn) == jobs
    ensures PassLog(jobs, tasks, key, turn, log) == []
    decreases |tasks|
  {
    if tasks != [] {
      var init := tasks[..|tasks| - 1];
      var last := tasks[|tasks| - 1];
      assert forall t :: t in init ==> t in tasks;
      assert last in tasks;
      QuietPass(jobs, init, key, turn, log);
      PutUnchanged(jobs, key(last));
    }
  }

  /**
   * When every task claiming a key removes its job, a pass over tasks that include such
   * a claim ends without that key's job.
   */
  lemma {:induction false} RemovingClaimsRemove(jobs: map<string, Job>, tasks: seq<TaskRecord>, key: KeyFn, turn: TurnFn, id: string)
    requires forall t, o :: t in tasks && key(t) == id ==> turn(o, t) == None
    requires exists t :: t in tasks && key(t) == id
    ensures id !in Pass(jobs, tasks, key, turn)
    decreases |tasks|
  {
    var init := tasks[..|tasks| - 1];
    var last := tasks[|tasks| - 1];
    var before := Pass(jobs, init, key, turn);
    assert last in tasks;
    PutAt(before, key(last), turn(Lookup(before, key(last)), last), id);
    if key(last) != id {
      var t :| t in tasks && key(t) == id;
      assert t in init by {
        var k :| 0 <= k < |tasks| && tasks[k] == t;
        assert k < |tasks| - 1;
        assert init[k] == t;
      }
      assert forall u :: u in init ==> u in tasks;
      RemovingClaimsRemove(jobs, init, key, turn, id);
    }
  }

  // ---------------------------------------------------------------------------
  // Lemmas about `_schedule_tasks`
  // ---------------------------------------------------------------------------

  /** `_schedule_tasks` over one more task adds that task's turn. */
  lemma ScheduleAllStep(jobs: map<string, Job>, tasks: seq<TaskRecord>, overwrite: bool, i: nat)
    requires i < |tasks|
    ensures ScheduleAll(jobs, tasks[..i + 1], overwrite) == ScheduleOne(ScheduleAll(jobs, tasks[..i], overwrite), tasks[i], overwrite)
    ensures PassMutations(jobs, tasks[..i + 1], overwrite) == PassMutations(jobs, tasks[..i], overwrite) +
      MutationOf(JobId(tasks[i].taskId),
        Decide(Lookup(ScheduleAll(jobs, tasks[..i], overwrite), JobId(tasks[i].taskId)), tasks[i], overwrite))
  {
    PassStep(jobs, tasks, TaskJobId, Turn(overwrite), TurnLog(overwrite), i);
  }

  /** Jobs outside the `dbtask_` namespace are never touched by a pass. */
  lemma ScheduleAllKeepsForeignJobs(jobs: map<string, Job>, tasks: seq<TaskRecord>, overwrite: bool, id: string)
    requires !IsDbTaskId(id)
    ensures Lookup(ScheduleAll(jobs, tasks, overwrite), id) == Lookup(jobs, id)
  {
    forall t | t in tasks
      ensures JobId(t.taskId) != id
    {
      JobIdIsDbTaskId(t.taskId);
    }
    PassUntouched(jobs, tasks, TaskJobId, Turn(overwrite), id);
  }

  /** With distinct task ids, each task's job ends as that task's own turn leaves it. */
  lemma ScheduleAllAt(jobs: map<string, Job>, tasks: seq<TaskRecord>, overwrite: bool, i: nat)
    requires UniqueIds(tasks) && i < |tasks|
    ensures var id := JobId(tasks[i].taskId);
      Lookup(ScheduleAll(jobs, tasks, overwrite), id) == Scheduled(Lookup(jobs, id), tasks[i], overwrite)
  {
    UniqueIdsDistinctKeys(tasks);
    PassAt(jobs, tasks, TaskJobId, Turn(overwrite), i);
  }

  /** A pass only ever adds job ids of its own tasks. */
  lemma ScheduleAllKeys(jobs: map<string, Job>, tasks: seq<TaskRecord>, overwrite: bool)
    ensures ScheduleAll(jobs, tasks, overwrite).Keys <= jobs.Keys + TaskJobIds(tasks)
  {
    forall id | id in ScheduleAll(jobs, tasks, overwrite) && id !in TaskJobIds(tasks)
      ensures id in jobs
    {
      PassUntouched(jobs, tasks, TaskJobId, Turn(overwrite), id);
    }
  }

  /**
   * Idempotence: with distinct task ids, a second pass over the same tasks performs no
   * add, no remove and no reschedule, and leaves the registry as the first pass left it.
   */
  lemma SecondPassIsQuiet(jobs: map<string, Job>, tasks: seq<TaskRecord>, overwrite: bool)
    requires UniqueIds(tasks)
    ensures var once := ScheduleAll(jobs, tasks, overwrite);
      PassMutations(once, tasks, overwrite) == [] && ScheduleAll(once, tasks, overwrite) == once
  {
    var once := ScheduleAll(jobs, tasks, overwrite);
    forall t | t in tasks
      ensures Turn(overwrite)(Lookup(once, JobId(t.taskId)), t) == Lookup(once, JobId(t.taskId))
      ensures TurnLog(overwrite)(Lookup(once, JobId(t.taskId)), t) == []
    {
      var i :| 0 <= i < |tasks| && tasks[i] == t;
      ScheduleAllAt(jobs, tasks, overwrite, i);
      TurnIsSettled(Lookup(jobs, JobId(t.taskId)), t, overwrite);
      QuietDecisionKeepsJob(Lookup(once, JobId(t.taskId)), t, overwrite);
    }
    QuietPass(once, tasks, TaskJobId, Turn(overwrite), TurnLog(overwrite));
  }

  /**
   * When every task claiming an id says `never`, a pass ends without that id's job,
   * provided some task claims it.
   */
  lemma NeverClaimsRemove(jobs: map<string, Job>, tasks: seq<TaskRecord>, overwrite: bool, taskId: int)
    requires forall t :: t in tasks && t.taskId == taskId ==> Frequency(t) == Some("never")
    requires exists t :: t in tasks && t.taskId == taskId
    ensures JobId(taskId) !in ScheduleAll(jobs, tasks, overwrite)
  {
    forall t, o | t in tasks && TaskJobId(t) == JobId(taskId)
      ensures Turn(overwrite)(o, t) == None
    {
      JobIdInjective(t.taskId, taskId);
      ScheduledMeaning(o, t, overwrite);
    }
    RemovingClaimsRemove(jobs, tasks, TaskJobId, Turn(overwrite), JobId(taskId));
  }

  // ---------------------------------------------------------------------------
  // Lemmas about reload
  // ---------------------------------------------------------------------------

  /** Reload never touches `reload_db_jobs`, `metric_collector` or any other non-`dbtask_` job. */
  lemma ReloadKeepsForeignJobs(jobs: map<string, Job>, tasks: seq<TaskRecord>, id: string)
    requires !IsDbTaskId(id)
    ensures Lookup(Reload(jobs, tasks), id) == Lookup(jobs, id)
  {
    ScheduleAllKeepsForeignJobs(jobs - StaleIds(jobs, tasks), tasks, true, id);
  }

  /** Reload removes every `dbtask_` job that no fetched task claims. */
  lemma ReloadRemovesStale(jobs: map<string, Job>, tasks: seq<TaskRecord>, id: string)
    requires IsDbTaskId(id) && id !in TaskJobIds(tasks)
    ensures id !in Reload(jobs, tasks)
  {
    PassUntouched(jobs - StaleIds(jobs, tasks), tasks, TaskJobId, Turn(true), id);
  }

  /** With distinct ids, each fetched task's job ends as its turn (with overwrite) leaves it. */
  lemma ReloadAt(jobs: map<string, Job>, tasks: seq<TaskRecord>, i: nat)
    requires UniqueIds(tasks) && i < |tasks|
    ensures var id := JobId(tasks[i].taskId);
      Lookup(Reload(jobs, tasks), id) == Scheduled(Lookup(jobs, id), tasks[i], true)
  {
    var id := JobId(tasks[i].taskId);
    assert id in TaskJobIds(tasks);
    assert Lookup(jobs - StaleIds(jobs, tasks), id) == Lookup(jobs, id);
    ScheduleAllAt(jobs - StaleIds(jobs, tasks), tasks, true, i);
  }

  /** A failed fetch yields no tasks, so reload then removes every `dbtask_` job and nothing else. */
  lemma ReloadAfterFailedFetch(jobs: map<string, Job>)
    ensures Reload(jobs, FetchSyncTasks(Unavailable)) == map id | id in jobs && !IsDbTaskId(id) :: jobs[id]
  {
  }

  /**
   * When every fetched task has a supported schedule, reload leaves exactly one job per
   * fetched task in the `dbtask_` namespace, with the mapped trigger, and no other.
   */
  lemma ReloadJobSet(jobs: map<string, Job>, tasks: seq<TaskRecord>)
    requires UniqueIds(tasks)
    requires forall t :: t in tasks ==> Frequency(t).Some? && IsSupported(Frequency(t).value)
    ensures (set id | id in Reload(jobs, tasks) && IsDbTaskId(id)) == TaskJobIds(tasks)
    ensures forall t :: t in tasks ==>
      JobId(t.taskId) in Reload(jobs, tasks) &&
      Reload(jobs, tasks)[JobId(t.taskId)].trigger == TriggerFor(Frequency(t).value).value
  {
    var r := Reload(jobs, tasks);
    forall id | id in r && IsDbTaskId(id)
      ensures id in TaskJobIds(tasks)
    {
      if id !in TaskJobIds(tasks) {
        ReloadRemovesStale(jobs, tasks, id);
      }
    }
    forall t | t in tasks
      ensures JobId(t.taskId) in r && r[JobId(t.taskId)].trigger == TriggerFor(Frequency(t).value).value
    {
      var i :| 0 <= i < |tasks| && tasks[i] == t;
      ReloadAt(jobs, tasks, i);
      ScheduledMeaning(Lookup(jobs, JobId(t.taskId)), t, true);
      JobIdIsDbTaskId(t.taskId);
    }
  }

  /**
   * Idempotence of reload: with distinct ids, a second reload over the same fetched
   * tasks finds nothing stale, performs no registry mutation and changes nothing.
   */
  lemma ReloadIdempotent(jobs: map<string, Job>, tasks: seq<TaskRecord>)
    requires UniqueIds(tasks)
    ensures var once := Reload(jobs, tasks);
      StaleIds(once, tasks) == {} &&
      PassMutations(once - StaleIds(once, tasks), tasks, true) == [] &&
      Reload(once, tasks) == once
  {
    var pruned := jobs - StaleIds(jobs, tasks);
    var once := Reload(jobs, tasks);
    forall id | id in once && IsDbTaskId(id)
      ensures id in TaskJobIds(tasks)
    {
      if id !in TaskJobIds(tasks) {
        ReloadRemovesStale(jobs, tasks, id);
      }
    }
    assert StaleIds(once, tasks) == {};
    assert once - StaleIds(once, tasks) == once;
    SecondPassIsQuiet(pruned, tasks, true);
  }

  /**
   * A task that is disabled, deleted, without schedule or set to `never` (in any letter
   * case) has no job after the next reload, whether or not the fetch succeeded.
   */
  lemma UnwantedTaskRemovedOnReload(jobs: map<string, Job>, store: Store, taskId: int)
    requires store.Available? ==> forall row :: row in store.rows && row.task.taskId == taskId ==>
      !row.enabled || row.task.schedule.None? || Lower(row.task.schedule.value) == "never"
    ensures JobId(taskId) !in Reload(jobs, FetchSyncTasks(store))
  {
    var tasks := FetchSyncTasks(store);
    var id := JobId(taskId);
    JobIdIsDbTaskId(taskId);
    if id !in TaskJobIds(tasks) {
      ReloadRemovesStale(jobs, tasks, id);
    } else {
      var claim :| claim in tasks && JobId(claim.taskId) == id;
      JobIdInjective(claim.taskId, taskId);
      forall t | t in tasks && t.taskId == taskId
        ensures Frequency(t) == Some("never")
      {
        var row :| row in store.rows && IsScheduledRow(row) && row.task == t;
      }
      NeverClaimsRemove(jobs - StaleIds(jobs, tasks), tasks, true, taskId);
    }
  }

  /**
   * Before the scheduler starts, the registry holds the metrics job, the reload job, and
   * one job per fetched task with a supported schedule, with the mapped trigger.
   */
  lemma BootJobSet(tasks: seq<TaskRecord>)
    requires UniqueIds(tasks)
    ensures var r := BootJobs(tasks);
      MetricsJobId in r && r[MetricsJobId] == Job(Interval(MetricsPeriod), RunMetrics) &&
      ReloadJobId in r && r[ReloadJobId] == Job(Interval(ReloadPeriod), RunReload) &&
      (set id | id in r && IsDbTaskId(id)) ==
        (set t | t in tasks && Frequency(t).Some? && IsSupported(Frequency(t).value) :: JobId(t.taskId))
    ensures forall t :: t in tasks && Frequency(t).Some? && IsSupported(Frequency(t).value) ==>
      JobId(t.taskId) in BootJobs(tasks) &&
      BootJobs(tasks)[JobId(t.taskId)] == Job(TriggerFor(Frequency(t).value).value, RunTask(t.taskId))
  {
    var start := map[MetricsJobId := Job(Interval(MetricsPeriod), RunMetrics)];
    var r := BootJobs(tasks);
    BootstrapIdsAreNotDbTaskIds();
    ScheduleAllKeepsForeignJobs(start, tasks, false, MetricsJobId);
    var wanted := set t | t in tasks && Frequency(t).Some? && IsSupported(Frequency(t).value) :: JobId(t.taskId);
    forall id | id in r && IsDbTaskId(id)
      ensures id in wanted
    {
      if id !in TaskJobIds(tasks) {
        PassUntouched(start, tasks, TaskJobId, Turn(false), id);
      } else {
        var t :| t in tasks && JobId(t.taskId) == id;
        var i :| 0 <= i < |tasks| && tasks[i] == t;
        ScheduleAllAt(start, tasks, false, i);
        ScheduledMeaning(Lookup(start, id), t, false);
      }
    }
    forall t | t in tasks && Frequency(t).Some? && IsSupported(Frequency(t).value)
      ensures JobId(t.taskId) in r && r[JobId(t.taskId)] == Job(TriggerFor(Frequency(t).value).value, RunTask(t.taskId))
    {
      var i :| 0 <= i < |tasks| && tasks[i] == t;
      JobIdIsDbTaskId(t.taskId);
      ScheduleAllAt(start, tasks, false, i);
      ScheduledMeaning(Lookup(start, JobId(t.taskId)), t, false);
    }
  }

  // ---------------------------------------------------------------------------
  // The reconciler's methods on the live registry
  // ---------------------------------------------------------------------------

  lemma ConcatAssoc(a: seq<Mutation>, b: seq<Mutation>, c: seq<Mutation>)
    ensures (a + b) + c == a + (b + c)
  {
  }

  class DatabaseSync {
    const scheduler: Scheduler

    /** `__init__`: initial scheduling from the store, then the periodic reload job. */
    constructor (scheduler: Scheduler, store: Store)
      modifies scheduler
      ensures this.scheduler == scheduler
      ensures scheduler.jobs ==
        ScheduleAll(old(scheduler.jobs), FetchSyncTasks(store), false)
          [ReloadJobId := Job(Interval(ReloadPeriod), RunReload)]
      ensures var setup := ScheduleAll(old(scheduler.jobs), FetchSyncTasks(store), false);
        scheduler.history == old(scheduler.history) + PassMutations(old(scheduler.jobs), FetchSyncTasks(store), false) +
          ReloadInstallation(setup)
    {
      this.scheduler := scheduler;
      new;
      SetupJobs(store);
      SchedulePeriodicReload();
    }

    /** `_schedule_tasks`: each task's turn in list order, as `ScheduleAll` and `PassMutations` say. */
    method ScheduleTasks(tasks: seq<TaskRecord>, overwrite: bool)
      modifies scheduler
      ensures scheduler.jobs == ScheduleAll(old(scheduler.jobs), tasks, overwrite)
      ensures scheduler.history == old(scheduler.history) + PassMutations(old(scheduler.jobs), tasks, overwrite)
    {
      for i := 0 to |tasks|
        invariant scheduler.jobs == ScheduleAll(old(scheduler.jobs), tasks[..i], overwrite)
        invariant scheduler.history ==
          old(scheduler.history) + PassMutations(old(scheduler.jobs), tasks[..i], overwrite)
      {
        ScheduleAllStep(old(scheduler.jobs), tasks, overwrite, i);
        ghost var before := scheduler.history;
        ScheduleTask(tasks[i], overwrite);
        ConcatAssoc(old(scheduler.history), PassMutations(old(scheduler.jobs), tasks[..i], overwrite), scheduler.history[|before|..]);
      }
      assert tasks[..|tasks|] == tasks;
    }

    /** One iteration of `_schedule_tasks`' loop. */
    method ScheduleTask(task: TaskRecord, overwrite: bool)
      modifies scheduler
      ensures scheduler.jobs == ScheduleOne(old(scheduler.jobs), task, overwrite)
      ensures scheduler.history == old(scheduler.history) +
        MutationOf(JobId(task.taskId), Decide(Lookup(old(scheduler.jobs), JobId(task.taskId)), task, overwrite))
    {
      var id := JobId(task.taskId);
      match task.schedule {
        case None =>
          // lower-casing a missing schedule raises; the per-task handler skips the task
          PutUnchanged(scheduler.jobs, id);
        case Some(raw) =>
          var frequency := Lower(raw);
          if frequency == "never" {
            var existing := scheduler.GetJob(id);
            if existing.Some? {
              var _ := scheduler.RemoveJob(id);
            }
          } else {
            var trigger := TriggerFor(frequency);
            if trigger.Some? {
              var existing := scheduler.GetJob(id);
              if existing.Some? {
                if overwrite && NeedsReschedule(existing.value.trigger, trigger.value) {
                  var _ := scheduler.RescheduleJob(id, trigger.value);
                } else {
                  PutUnchanged(scheduler.jobs, id);
                }
              } else {
                var _ := scheduler.AddJob(id, Job(trigger.value, RunTask(task.taskId)));
              }
            } else {
              PutUnchanged(scheduler.jobs, id);
            }
          }
      }
    }

    /**
     * `_reload_config`: remove the stale `dbtask_` jobs (in some order, which `removed`
     * records), then schedule the fetched tasks with overwrite on.
     */
    method ReloadConfig(store: Store) returns (ghost removed: seq<string>)
      modifies scheduler
      ensures scheduler.jobs == Reload(old(scheduler.jobs), FetchSyncTasks(store))
      ensures multiset(removed) == multiset(StaleIds(old(scheduler.jobs), FetchSyncTasks(store)))
      ensures scheduler.history == old(scheduler.history) + RemovalsOf(removed) +
        PassMutations(old(scheduler.jobs) - StaleIds(old(scheduler.jobs), FetchSyncTasks(store)),
                      FetchSyncTasks(store), true)
    {
      var current := set id | id in scheduler.jobs && IsDbTaskId(id);
      var tasks := FetchSyncTasks(store);
      var wanted := set t | t in tasks :: JobId(t.taskId);
      var stale := current - wanted;
      assert stale == StaleIds(old(scheduler.jobs), tasks);
      removed := RemoveJobs(stale);
      ScheduleTasks(tasks, true);
    }

    /** The removal loop of `_reload_config`: each id in `ids` is removed once, in some order. */
    method RemoveJobs(ids: set<string>) returns (ghost removed: seq<string>)
      requires ids <= scheduler.jobs.Keys
      modifies scheduler
      ensures scheduler.jobs == old(scheduler.jobs) - ids
      ensures multiset(removed) == multiset(ids)
      ensures scheduler.history == old(scheduler.history) + RemovalsOf(removed)
    {
      var toRemove := ids;
      removed := [];
      while toRemove != {}
        invariant toRemove <= ids
        invariant scheduler.jobs == old(scheduler.jobs) - (ids - toRemove)
        invariant multiset(removed) == multiset(ids - toRemove)
        invariant scheduler.history == old(scheduler.history) + RemovalsOf(removed)
        decreases toRemove
      {
        var id :| id in toRemove;
        var _ := scheduler.RemoveJob(id);
        assert ids - (toRemove - {id}) == (ids - toRemove) + {id};
        assert RemovalsOf(removed + [id]) == RemovalsOf(removed) + [Removed(id)];
        removed := removed + [id];
        toRemove := toRemove - {id};
      }
      assert ids - toRemove == ids;
    }

    /** `_schedule_periodic_reload`: (re)install the reconciliation job, every 5 minutes. */
    method SchedulePeriodicReload()
      modifies scheduler
      ensures scheduler.jobs == old(scheduler.jobs)[ReloadJobId := Job(Interval(ReloadPeriod), RunReload)]
      ensures scheduler.history == old(scheduler.history) + ReloadInstallation(old(scheduler.jobs))
    {
      var existing := scheduler.GetJob(ReloadJobId);
      if existing.Some? {
        var _ := scheduler.RemoveJob(ReloadJobId);
      }
      var _ := scheduler.AddJob(ReloadJobId, Job(Interval(ReloadPeriod), RunReload));
    }

    /** `setup_jobs`: initial scheduling with overwrite off. */
    method SetupJobs(store: Store)
      modifies scheduler
      ensures scheduler.jobs == ScheduleAll(old(scheduler.jobs), FetchSyncTasks(store), false)
      ensures scheduler.history ==
        old(scheduler.history) + PassMutations(old(scheduler.jobs), FetchSyncTasks(store), false)
    {
      var tasks := FetchSyncTasks(store);
      if tasks == [] {
        return;
      }
      ScheduleTasks(tasks, false);
    }
  }

  /**
   * Module start-up: the metrics job is added unless present, then the `DatabaseSync`
   * instance schedules the stored tasks and the reload job.
   */
  method Boot(store: Store) returns (manager: DatabaseSync)
    ensures fresh(manager.scheduler)
    ensures manager.scheduler.jobs == BootJobs(FetchSyncTasks(store))
  {
    var scheduler := new Scheduler();
    var existing := scheduler.GetJob(MetricsJobId);
    if existing.None? {
      var _ := scheduler.AddJob(MetricsJobId, Job(Interval(MetricsPeriod), RunMetrics));
    }
    manager := new DatabaseSync(scheduler, store);
  }
}
