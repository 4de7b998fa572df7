/**
 * The task repository: the control store's tasks joined with their source and target
 * connections. The store is abstract; a read that fails (missing database file, query
 * error) is `Unavailable`.
 */
module Repository {
  import opened Wrappers

  datatype Connection = Connection(
    id: int,
    name: string,
    engine: Option<string>,             // NULL reads as None
    host: string,
    port: int,
    database: string,
    username: string,
    encryptedPassword: Option<string>,
    sslEnabled: bool)

  datatype TaskRecord = TaskRecord(
    taskId: int,
    name: string,
    schedule: Option<string>,           // NULL reads as None
    tables: Option<string>,             // JSON text, or NULL
    source: Connection,
    target: Connection)

  /** One row of the join of the task table with its two connections. */
  datatype TaskRow = TaskRow(enabled: bool, task: TaskRecord)

  datatype Store = Available(rows: seq<TaskRow>) | Unavailable

  /**
   * The filter of the scheduled-task query: enabled, with a schedule, and a schedule
   * other than `'never'`. The comparison is case-sensitive, so `'Never'` passes.
   */
  predicate IsScheduledRow(row: TaskRow)
  {
    row.enabled && row.task.schedule.Some? && row.task.schedule.value != "never"
  }

  predicate UniqueIds(tasks: seq<TaskRecord>)
  {
    forall i, j :: 0 <= i < j < |tasks| ==> tasks[i].taskId != tasks[j].taskId
  }

  /** Task ids are the table's primary key. */
  predicate UniqueRowIds(rows: seq<TaskRow>)
  {
    forall i, j :: 0 <= i < j < |rows| ==> rows[i].task.taskId != rows[j].task.taskId
  }

  /** The tasks the scheduled-task query returns. */
  function ScheduledRows(rows: seq<TaskRow>): (r: seq<TaskRecord>)
    ensures |r| <= |rows|
    ensures forall t :: t in r ==> exists row :: row in rows && IsScheduledRow(row) && row.task == t
    ensures forall row :: row in rows && IsScheduledRow(row) ==> row.task in r
  {
    if rows == [] then []
    else
      var rest := ScheduledRows(rows[1..]);
      assert forall row :: row in rows[1..] ==> row in rows;
      assert forall row :: row in rows ==> row == rows[0] || row in rows[1..];
      if IsScheduledRow(rows[0]) then [rows[0].task] + rest else rest
  }

  /** The query keeps the primary key unique. */
  lemma {:induction false} ScheduledRowsUnique(rows: seq<TaskRow>)
    requires UniqueRowIds(rows)
    ensures UniqueIds(ScheduledRows(rows))
  {
    if rows != [] {
      var rest := ScheduledRows(rows[1..]);
      assert UniqueRowIds(rows[1..]) by {
        forall i, j | 0 <= i < j < |rows| - 1
          ensures rows[1..][i].task.taskId != rows[1..][j].task.taskId
        {
          assert rows[1..][i] == rows[i + 1] && rows[1..][j] == rows[j + 1];
        }
      }
      ScheduledRowsUnique(rows[1..]);
      if IsScheduledRow(rows[0]) {
        forall k | 0 <= k < |rest|
          ensures rest[k].taskId != rows[0].task.taskId
        {
          assert rest[k] in rest;
          var row :| row in rows[1..] && IsScheduledRow(row) && row.task == rest[k];
          var m :| 0 <= m < |rows[1..]| && rows[1..][m] == row;
          assert rows[m + 1] == row;
        }
        var r := [rows[0].task] + rest;
        forall i, j | 0 <= i < j < |r|
          ensures r[i].taskId != r[j].taskId
        {
          if i == 0 {
            assert r[j] == rest[j - 1];
          } else {
            assert r[i] == rest[i - 1] && r[j] == rest[j - 1];
          }
        }
      }
    }
  }

  /** `_fetch_sync_tasks_from_db`: a failed read yields no tasks rather than an error. */
  function FetchSyncTasks(store: Store): (r: seq<TaskRecord>)
    ensures store.Unavailable? ==> r == []
    ensures store.Available? ==> r == ScheduledRows(store.rows)
  {
    match store
    case Available(rows) => ScheduledRows(rows)
    case Unavailable => []
  }

  /** The first enabled row with the given task id; no schedule filter is applied. */
  function FirstEnabledWithId(rows: seq<TaskRow>, taskId: int): (r: Option<TaskRecord>)
    ensures r.Some? <==> exists row :: row in rows && row.enabled && row.task.taskId == taskId
    ensures r.Some? ==> r.value.taskId == taskId
    ensures r.Some? ==> exists row :: row in rows && row.enabled && row.task == r.value
  {
    if rows == [] then None
    else if rows[0].enabled && rows[0].task.taskId == taskId then Some(rows[0].task)
    else
      assert forall row :: row in rows[1..] ==> row in rows;
      assert forall row :: row in rows ==> row == rows[0] || row in rows[1..];
      FirstEnabledWithId(rows[1..], taskId)
  }

  /**
   * `_fetch_single_task_from_db`: the enabled task with that id, or `None` when there is
   * none or the read fails.
   */
  function FetchSingleTask(store: Store, taskId: int): (r: Option<TaskRecord>)
    ensures store.Unavailable? ==> r == None
    ensures store.Available? ==> r == FirstEnabledWithId(store.rows, taskId)
  {
    match store
    case Available(rows) => FirstEnabledWithId(rows, taskId)
    case Unavailable => None
  }
}
