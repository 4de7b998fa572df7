/**
 * The scheduler's job registry: a map from job id to job, mutated in place by
 * `add_job`, `remove_job` and `reschedule_job`. Clock, next-run times and threads
 * are not part of this model.
 */
module Registry {
  import opened Wrappers
  import opened Text
  import opened Triggers

  const DbTaskPrefix: string := "dbtask_"
  const ReloadJobId: string := "reload_db_jobs"
  const MetricsJobId: string := "metric_collector"

  /** What a job runs when it fires. */
  datatype Action =
    | RunTask(taskId: int)   // start a thread running the sync wrapper for the task
    | RunReload              // the periodic reconciliation
    | RunMetrics             // the metrics sampler

  datatype Job = Job(trigger: Trigger, action: Action)

  /** One registry mutation, as recorded in the scheduler's history. */
  datatype Mutation =
    | Added(id: string, job: Job)
    | Removed(id: string)
    | Rescheduled(id: string, trigger: Trigger)

  predicate IsDbTaskId(id: string)
  {
    StartsWith(id, DbTaskPrefix)
  }

  /** The job id of a task, `dbtask_<id>`. */
  function JobId(taskId: int): string
  {
    DbTaskPrefix + IntToDecimal(taskId)
  }

  /** Every task's job id lies in the `dbtask_` namespace. */
  lemma JobIdIsDbTaskId(taskId: int)
    ensures IsDbTaskId(JobId(taskId))
  {
    assert JobId(taskId)[..|DbTaskPrefix|] == DbTaskPrefix;
  }

  /** Distinct tasks get distinct job ids. */
  lemma JobIdInjective(a: int, b: int)
    requires JobId(a) == JobId(b)
    ensures a == b
  {
    assert IntToDecimal(a) == JobId(a)[|DbTaskPrefix|..] == JobId(b)[|DbTaskPrefix|..] == IntToDecimal(b);
    IntToDecimalInjective(a, b);
  }

  /** The bootstrap jobs live outside the `dbtask_` namespace. */
  lemma BootstrapIdsAreNotDbTaskIds()
    ensures !IsDbTaskId(ReloadJobId) && !IsDbTaskId(MetricsJobId)
  {
    assert ReloadJobId[..|DbTaskPrefix|][0] == 'r' != DbTaskPrefix[0];
    assert MetricsJobId[..|DbTaskPrefix|][0] == 'm' != DbTaskPrefix[0];
  }

  function Lookup(jobs: map<string, Job>, id: string): Option<Job>
  {
    if id in jobs then Some(jobs[id]) else None
  }

  /**
   * Firing a task's job starts one more wrapper run for that task, however many are
   * still in flight: there is no single-flight guard. `inFlight` counts the wrapper
   * threads running per task.
   */
  function StartRun(inFlight: multiset<int>, job: Job): (r: multiset<int>)
    ensures job.action.RunTask? ==> r[job.action.taskId] == inFlight[job.action.taskId] + 1
    ensures job.action.RunTask? ==> forall id :: id != job.action.taskId ==> r[id] == inFlight[id]
    ensures !job.action.RunTask? ==> r == inFlight
  {
    match job.action
    case RunTask(id) => inFlight + multiset{id}
    case _ => inFlight
  }

  /** Two fires of a task's job while neither run has finished leave both runs in flight. */
  lemma RepeatedFiresOverlap(inFlight: multiset<int>, taskId: int, trigger: Trigger)
    ensures var job := Job(trigger, RunTask(taskId));
      StartRun(StartRun(inFlight, job), job)[taskId] == inFlight[taskId] + 2
  {
  }

  class Scheduler {
    var jobs: map<string, Job>
    /** Every mutation applied to the registry, oldest first. */
    ghost var history: seq<Mutation>

    constructor ()
      ensures jobs == map[] && history == []
    {
      jobs := map[];
      history := [];
    }

    method GetJob(id: string) returns (job: Option<Job>)
      ensures job == Lookup(jobs, id)
    {
      job := if id in jobs then Some(jobs[id]) else None;
    }

    /** `add_job` without `replace_existing`: refuses an id that is already taken. */
    method AddJob(id: string, job: Job) returns (added: bool)
      modifies this
      ensures added <==> id !in old(jobs)
      ensures jobs == if added then old(jobs)[id := job] else old(jobs)
      ensures history == old(history) + if added then [Added(id, job)] else []
    {
      added := id !in jobs;
      if added {
        jobs := jobs[id := job];
        history := history + [Added(id, job)];
      }
    }

    /** `remove_job`: fails on an unknown id. */
    method RemoveJob(id: string) returns (removed: bool)
      modifies this
      ensures removed <==> id in old(jobs)
      ensures jobs == old(jobs) - {id}
      ensures history == old(history) + if removed then [Removed(id)] else []
    {
      removed := id in jobs;
      if removed {
        jobs := jobs - {id};
        history := history + [Removed(id)];
      }
    }

    /** `reschedule_job`: replaces the trigger and keeps the job's action. */
    method RescheduleJob(id: string, trigger: Trigger) returns (found: bool)
      modifies this
      ensures found <==> id in old(jobs)
      ensures jobs == if found then old(jobs)[id := old(jobs)[id].(trigger := trigger)] else old(jobs)
      ensures history == old(history) + if found then [Rescheduled(id, trigger)] else []
    {
      found := id in jobs;
      if found {
        jobs := jobs[id := jobs[id].(trigger := trigger)];
        history := history + [Rescheduled(id, trigger)];
      }
    }
  }
}
