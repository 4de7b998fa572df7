/**
 * One sync run: `perform_database_sync` (resolve the two passwords, dispatch on the
 * engine pair, log the outcome) and the wrapper the scheduler calls for a task id
 * (`_perform_database_sync_wrapper`: re-read the task, check it is still live, build the
 * payload, log a failure to do so). The control store's log table and `last_sync`
 * column form a `Ledger`; wall-clock readings come from a `Clock`.
 */
module Executor {
  import opened Wrappers
  import opened Text
  import opened Repository
  import opened Vault
  import opened Pipeline

  const SourceDecryptMessage: string := "Decrypt source pass failed"
  const TargetDecryptMessage: string := "Decrypt target pass failed"
  const UnsupportedPrefix: string := "Unsupported sync: "
  const WrapperPrefix: string := "Wrapper error: "
  /** The text of the AttributeError that `.lower()` of a missing (`None`) value raises. */
  const NoneLowerError: string := "'NoneType' object has no attribute 'lower'"
  const PostgresEngine: string := "postgresql"

  /** One row of the sync log. */
  datatype RunRecord = RunRecord(
    taskId: int,
    startTime: int,
    endTime: int,
    status: Status,
    message: string,
    rowsSynced: int)

  /**
   * The sync log table and the tasks' `last_sync` column. A write to a store that does
   * not accept it is logged and dropped, so it changes nothing.
   */
  class Ledger {
    const writable: bool
    var log: seq<RunRecord>
    var lastSync: map<int, int>

    constructor (writable: bool, log: seq<RunRecord>, lastSync: map<int, int>)
      ensures this.writable == writable && this.log == log && this.lastSync == lastSync
    {
      this.writable := writable;
      this.log := log;
      this.lastSync := lastSync;
    }

    /** `update_sync_log`. */
    method UpdateSyncLog(r: RunRecord)
      modifies this
      ensures log == old(log) + (if writable then [r] else [])
      ensures lastSync == old(lastSync)
    {
      if writable {
        log := log + [r];
      }
    }

    /** `update_last_sync_time`. */
    method UpdateLastSyncTime(taskId: int, time: int)
      modifies this
      ensures lastSync == if writable then old(lastSync)[taskId := time] else old(lastSync)
      ensures log == old(log)
    {
      if writable {
        lastSync := lastSync[taskId := time];
      }
    }
  }

  /** Wall-clock time: the `n`-th reading is `readings(n)`; nothing is assumed about the values. */
  class Clock {
    const readings: nat -> int
    var taken: nat

    constructor (readings: nat -> int)
      ensures this.readings == readings && taken == 0
    {
      this.readings := readings;
      taken := 0;
    }

    /** `datetime.now(timezone.utc)`. */
    method Now() returns (t: int)
      modifies this
      ensures t == readings(old(taken)) && taken == old(taken) + 1
    {
      t := readings(taken);
      taken := taken + 1;
    }
  }

  /** The dict of one connection in a sync payload; its password entry is rewritten in place. */
  class ConnectionPayload {
    const connection: Connection
    var password: Option<string>

    constructor (connection: Connection)
      ensures this.connection == connection && password == connection.encryptedPassword
    {
      this.connection := connection;
      password := connection.encryptedPassword;
    }
  }

  /** The sync payload: task id, the two connection dicts, the tables option. */
  class SyncPayload {
    const taskId: int
    const source: ConnectionPayload
    const target: ConnectionPayload
    const tables: Option<string>

    constructor (taskId: int, source: ConnectionPayload, target: ConnectionPayload, tables: Option<string>)
      ensures this.taskId == taskId && this.source == source && this.target == target && this.tables == tables
    {
      this.taskId := taskId;
      this.source := source;
      this.target := target;
      this.tables := tables;
    }
  }

  /** What the tools of a sync depend on besides the two passwords. */
  datatype Tools = Tools(outcome: Step -> StepOutcome, csvWritten: bool, adminPassword: string)

  // ---------------------------------------------------------------------------
  // Passwords
  // ---------------------------------------------------------------------------

  datatype Resolved = Use(password: Option<string>) | DecryptFailed

  /**
   * The caller's side of decryption: only a non-empty value holding a colon is decrypted,
   * and a `None` from decryption is a failure; any other value (missing, empty, plain
   * text) is used as it is.
   */
  function ResolvePassword(stored: Option<string>, decipher: Decipher): Resolved
  {
    if stored.Some? && stored.value != "" && ':' in stored.value then
      match DecryptPassword(stored.value, decipher)
      case Some(p) => Use(Some(p))
      case None => DecryptFailed
    else Use(stored)
  }

  /** A value without a colon is never decrypted and reaches the tools unchanged. */
  lemma PlainPasswordPassesThrough(stored: Option<string>, decipher: Decipher)
    requires stored.None? || ':' !in stored.value
    ensures ResolvePassword(stored, decipher) == Use(stored)
  {
  }

  /** Resolution fails exactly when a value holding a colon does not decrypt. */
  lemma DecryptFailedIff(stored: Option<string>, decipher: Decipher)
    ensures ResolvePassword(stored, decipher) == DecryptFailed <==>
      stored.Some? && ':' in stored.value && DecryptPassword(stored.value, decipher).None?
  {
    if stored.Some? && ':' in stored.value {
      assert stored.value != "";
    }
  }

  /** A value in the stored format resolves to what the cipher yields, or fails with it. */
  lemma StoredFormatResolves(iv: seq<byte>, ciphertext: seq<byte>, decipher: Decipher)
    requires |iv| == IvLength
    ensures var stored := Hexlify(iv) + ":" + Hexlify(ciphertext);
      ResolvePassword(Some(stored), decipher) ==
        if decipher(iv, ciphertext).Some? then Use(decipher(iv, ciphertext)) else DecryptFailed
  {
    var stored := Hexlify(iv) + ":" + Hexlify(ciphertext);
    DecryptStoredFormat(iv, ciphertext, decipher);
    assert stored[|Hexlify(iv)|] == ':';
  }

  // ---------------------------------------------------------------------------
  // perform_database_sync
  // ---------------------------------------------------------------------------

  /** How one `perform_database_sync` ends. */
  datatype Performed =
    | SourceDecryptFailed
    | TargetDecryptFailed
    | EngineRaised                                   // `.lower()` of a missing engine, outside the `try`
    | Dispatched(result: SyncResult, trace: seq<Step>)

  /** The reference semantics of `perform_database_sync`. */
  function Perform(sourceStored: Option<string>, targetStored: Option<string>,
                   sourceEngine: Option<string>, targetEngine: Option<string>,
                   decipher: Decipher, tools: Tools): Performed
  {
    match ResolvePassword(sourceStored, decipher)
    case DecryptFailed => SourceDecryptFailed
    case Use(sourcePassword) =>
      PerformAfterSource(sourcePassword, targetStored, sourceEngine, targetEngine, decipher, tools)
  }

  /** The rest of `perform_database_sync` once the source password is resolved. */
  function PerformAfterSource(sourcePassword: Option<string>, targetStored: Option<string>,
                              sourceEngine: Option<string>, targetEngine: Option<string>,
                              decipher: Decipher, tools: Tools): Performed
  {
    match ResolvePassword(targetStored, decipher)
    case DecryptFailed => TargetDecryptFailed
    case Use(targetPassword) =>
      if sourceEngine.None? || targetEngine.None? then EngineRaised
      else
        Dispatch(Lower(sourceEngine.value), Lower(targetEngine.value), sourcePassword, targetPassword, tools)
  }

  /** The engine pair decides: PostgreSQL to PostgreSQL runs the pipeline, any other pair is refused. */
  function Dispatch(from: string, to: string, sourcePassword: Option<string>, targetPassword: Option<string>,
                    tools: Tools): (p: Performed)
    ensures p.Dispatched?
    ensures p.trace != [] <==> from == PostgresEngine && to == PostgresEngine
    ensures p.trace == [] ==>
      (p.result.status == Error && p.result.rowsSynced == 0 && StartsWith(p.result.message, UnsupportedPrefix))
  {
    if from == PostgresEngine && to == PostgresEngine then
      var run := Sync(Setting(tools.outcome, tools.csvWritten, tools.adminPassword, sourcePassword, targetPassword));
      Dispatched(run.result, run.trace)
    else Dispatched(SyncResult(Error, UnsupportedPrefix + from + " to " + to, 0), [])
  }

  /** The status, message and rows a run writes to the sync log; `None` when it writes nothing. */
  function Logged(p: Performed): Option<SyncResult>
  {
    match p
    case SourceDecryptFailed => Some(SyncResult(Error, SourceDecryptMessage, 0))
    case TargetDecryptFailed => Some(SyncResult(Error, TargetDecryptMessage, 0))
    case EngineRaised => None
    case Dispatched(result, _) => Some(result)
  }

  /** A run that reached the pipeline or the refusal and reported success. */
  predicate Succeeded(p: Performed)
  {
    p.Dispatched? && p.result.status == Success
  }

  /** The tool invocations one run starts. */
  function Trace(p: Performed): seq<Step>
  {
    if p.Dispatched? then p.trace else []
  }

  function Written(ledger: bool, taskId: int, entry: Option<SyncResult>, start: int, end: int): seq<RunRecord>
  {
    if ledger && entry.Some? then
      [RunRecord(taskId, start, end, entry.value.status, entry.value.message, entry.value.rowsSynced)]
    else []
  }

  /**
   * Every run that gets past the password checks and the engine names logs exactly one
   * record, and so does each password failure; only a missing engine logs nothing.
   */
  lemma OneRecordUnlessEngineMissing(sourceStored: Option<string>, targetStored: Option<string>,
                                     sourceEngine: Option<string>, targetEngine: Option<string>,
                                     decipher: Decipher, tools: Tools)
    ensures var p := Perform(sourceStored, targetStored, sourceEngine, targetEngine, decipher, tools);
      Logged(p).None? <==>
        ResolvePassword(sourceStored, decipher).Use? && ResolvePassword(targetStored, decipher).Use? &&
        (sourceEngine.None? || targetEngine.None?)
  {
  }

  /** A source password that fails to decrypt ends the run whatever the target holds, and no tool runs. */
  lemma SourceFailureIgnoresTarget(sourceStored: Option<string>, targetStored: Option<string>, otherStored: Option<string>,
                                   sourceEngine: Option<string>, targetEngine: Option<string>,
                                   decipher: Decipher, tools: Tools)
    requires ResolvePassword(sourceStored, decipher) == DecryptFailed
    ensures Perform(sourceStored, targetStored, sourceEngine, targetEngine, decipher, tools) == SourceDecryptFailed
    ensures Perform(sourceStored, otherStored, sourceEngine, targetEngine, decipher, tools) == SourceDecryptFailed
  {
  }

  /**
   * Engine names are compared after lower-casing: a pair other than PostgreSQL to
   * PostgreSQL runs no tool and logs which pair it refused.
   */
  lemma UnsupportedPairRunsNothing(sourceStored: Option<string>, targetStored: Option<string>,
                                   sourceEngine: string, targetEngine: string,
                                   decipher: Decipher, tools: Tools)
    requires ResolvePassword(sourceStored, decipher).Use? && ResolvePassword(targetStored, decipher).Use?
    requires Lower(sourceEngine) != PostgresEngine || Lower(targetEngine) != PostgresEngine
    ensures Perform(sourceStored, targetStored, Some(sourceEngine), Some(targetEngine), decipher, tools) ==
      Dispatched(SyncResult(Error, UnsupportedPrefix + Lower(sourceEngine) + " to " + Lower(targetEngine), 0), [])
  {
  }

  /** `PostgreSQL` in any letter case selects the pipeline, with the resolved passwords. */
  lemma PostgresPairRunsPipeline(sourceStored: Option<string>, targetStored: Option<string>,
                                 sourceEngine: string, targetEngine: string,
                                 decipher: Decipher, tools: Tools)
    requires ResolvePassword(sourceStored, decipher).Use? && ResolvePassword(targetStored, decipher).Use?
    requires Lower(sourceEngine) == PostgresEngine && Lower(targetEngine) == PostgresEngine
    ensures var run := Sync(Setting(tools.outcome, tools.csvWritten, tools.adminPassword,
                                    ResolvePassword(sourceStored, decipher).password,
                                    ResolvePassword(targetStored, decipher).password));
      Perform(sourceStored, targetStored, Some(sourceEngine), Some(targetEngine), decipher, tools) ==
        Dispatched(run.result, run.trace)
  {
  }

  /**
   * `perform_database_sync`: the source password is resolved and written back before the
   * target's; each decryption failure logs its own record; a missing engine raises; the
   * `finally` logs the result, and a success first sets `last_sync` to the start time.
   */
  method PerformDatabaseSync(payload: SyncPayload, decipher: Decipher, tools: Toolchain, adminPassword: string,
                             ledger: Ledger, clock: Clock) returns (raised: Option<string>)
    requires payload.source != payload.target
    modifies payload.source, payload.target, tools, ledger, clock
    ensures var p := Perform(old(payload.source.password), old(payload.target.password),
                             payload.source.connection.engine, payload.target.connection.engine,
                             decipher, Tools(tools.outcome, tools.csvWritten, adminPassword));
      raised == (if p.EngineRaised? then Some(NoneLowerError) else None) &&
      ledger.log == old(ledger.log) + Written(ledger.writable, payload.taskId, Logged(p),
                                              clock.readings(old(clock.taken)), clock.readings(old(clock.taken) + 1)) &&
      clock.taken == old(clock.taken) + (if p.EngineRaised? then 0 else 2) &&
      ledger.lastSync == (if ledger.writable && Succeeded(p)
                          then old(ledger.lastSync)[payload.taskId := clock.readings(old(clock.taken))]
                          else old(ledger.lastSync)) &&
      tools.attempted == old(tools.attempted) + Trace(p)
    ensures var s := ResolvePassword(old(payload.source.password), decipher);
      payload.source.password == (if s.Use? then s.password else old(payload.source.password))
    ensures var s := ResolvePassword(old(payload.source.password), decipher);
      var t := ResolvePassword(old(payload.target.password), decipher);
      payload.target.password == (if s.Use? && t.Use? then t.password else old(payload.target.password))
  {
    var taskId := payload.taskId;
    var sourceFailed := ResolveInPlace(payload.source, decipher);
    if sourceFailed {
      LogFailure(taskId, SourceDecryptMessage, ledger, clock);
      return None;
    }
    raised := ContinueAfterSource(payload, decipher, tools, adminPassword, ledger, clock);
  }

  /** `perform_database_sync` from the target password on, the source password already written back. */
  method ContinueAfterSource(payload: SyncPayload, decipher: Decipher, tools: Toolchain, adminPassword: string,
                             ledger: Ledger, clock: Clock) returns (raised: Option<string>)
    requires payload.source != payload.target
    modifies payload.target, tools, ledger, clock
    ensures var p := PerformAfterSource(payload.source.password, old(payload.target.password),
                                        payload.source.connection.engine, payload.target.connection.engine,
                                        decipher, Tools(tools.outcome, tools.csvWritten, adminPassword));
      raised == (if p.EngineRaised? then Some(NoneLowerError) else None) &&
      ledger.log == old(ledger.log) + Written(ledger.writable, payload.taskId, Logged(p),
                                              clock.readings(old(clock.taken)), clock.readings(old(clock.taken) + 1)) &&
      clock.taken == old(clock.taken) + (if p.EngineRaised? then 0 else 2) &&
      ledger.lastSync == (if ledger.writable && Succeeded(p)
                          then old(ledger.lastSync)[payload.taskId := clock.readings(old(clock.taken))]
                          else old(ledger.lastSync)) &&
      tools.attempted == old(tools.attempted) + Trace(p)
    ensures var t := ResolvePassword(old(payload.target.password), decipher);
      payload.target.password == (if t.Use? then t.password else old(payload.target.password))
  {
    var taskId := payload.taskId;
    var targetFailed := ResolveInPlace(payload.target, decipher);
    if targetFailed {
      LogFailure(taskId, TargetDecryptMessage, ledger, clock);
      return None;
    }
    if payload.source.connection.engine.None? || payload.target.connection.engine.None? {
      return Some(NoneLowerError);
    }
    DispatchAndLog(taskId, Lower(payload.source.connection.engine.value), Lower(payload.target.connection.engine.value),
                   payload.source.password, payload.target.password, tools, adminPassword, ledger, clock);
    return None;
  }

  /** Log an error record, with rows 0, stamped with the clock's next two readings. */
  method LogFailure(taskId: int, message: string, ledger: Ledger, clock: Clock)
    modifies ledger, clock
    ensures ledger.log == old(ledger.log) + Written(ledger.writable, taskId, Some(SyncResult(Error, message, 0)),
                                                    clock.readings(old(clock.taken)), clock.readings(old(clock.taken) + 1))
    ensures clock.taken == old(clock.taken) + 2
    ensures ledger.lastSync == old(ledger.lastSync)
  {
    var startTime := clock.Now();
    var endTime := clock.Now();
    ledger.UpdateSyncLog(RunRecord(taskId, startTime, endTime, Error, message, 0));
  }

  /** One connection's password: decrypt a value holding a colon and write the result back, unless it fails. */
  method ResolveInPlace(connection: ConnectionPayload, decipher: Decipher) returns (failed: bool)
    modifies connection
    ensures var r := ResolvePassword(old(connection.password), decipher);
      failed == r.DecryptFailed? &&
      connection.password == (if r.Use? then r.password else old(connection.password))
  {
    var stored := connection.password;
    var password := stored;
    if stored.Some? && stored.value != "" && ':' in stored.value {
      password := DecryptPassword(stored.value, decipher);
      if password.None? {
        return true;
      }
    }
    connection.password := password;
    return false;
  }

  /** The `try`/`finally` of `perform_database_sync`, from the start time on. */
  method DispatchAndLog(taskId: int, sourceEngine: string, targetEngine: string,
                        sourcePassword: Option<string>, targetPassword: Option<string>,
                        tools: Toolchain, adminPassword: string, ledger: Ledger, clock: Clock)
    modifies tools, ledger, clock
    ensures var p := Dispatch(sourceEngine, targetEngine, sourcePassword, targetPassword,
                              Tools(tools.outcome, tools.csvWritten, adminPassword));
      ledger.log == old(ledger.log) + Written(ledger.writable, taskId, Some(p.result),
                                              clock.readings(old(clock.taken)), clock.readings(old(clock.taken) + 1)) &&
      clock.taken == old(clock.taken) + 2 &&
      ledger.lastSync == (if ledger.writable && p.result.status == Success
                          then old(ledger.lastSync)[taskId := clock.readings(old(clock.taken))]
                          else old(ledger.lastSync)) &&
      tools.attempted == old(tools.attempted) + p.trace
  {
    var startTime := clock.Now();
    var result: SyncResult;
    if sourceEngine == PostgresEngine && targetEngine == PostgresEngine {
      result := SyncPostgresqlToPostgresql(tools, adminPassword, sourcePassword, targetPassword);
      if result.status == Success {
        ledger.UpdateLastSyncTime(taskId, startTime);
      }
    } else {
      result := SyncResult(Error, UnsupportedPrefix + sourceEngine + " to " + targetEngine, 0);
    }
    // the `finally`
    var endTime := clock.Now();
    ledger.UpdateSyncLog(RunRecord(taskId, startTime, endTime, result.status, result.message, result.rowsSynced));
  }

  // ---------------------------------------------------------------------------
  // _perform_database_sync_wrapper
  // ---------------------------------------------------------------------------

  /** How one scheduled fire of the wrapper ends. */
  datatype Fired =
    | NotFound                   // no enabled task with that id, or the read failed
    | ScheduleRaised             // `.lower()` of a missing schedule, outside the `try`
    | NeverScheduled             // schedule is `never` in some letter case
    | PayloadFailed(error: string)  // the tables text is not JSON
    | Ran(performed: Performed)

  /** The tables entry of the payload: an absent or empty text is `None`, any other is parsed. */
  function TablesError(tables: Option<string>, jsonError: string -> Option<string>): Option<string>
  {
    if tables.Some? && tables.value != "" then jsonError(tables.value) else None
  }

  /**
   * The reference semantics of the wrapper. `jsonError` gives the decoder's message for a
   * text that is not JSON, and `None` for one that is.
   */
  function Fire(store: Store, taskId: int, jsonError: string -> Option<string>, decipher: Decipher, tools: Tools): Fired
  {
    match FetchSingleTask(store, taskId)
    case None => NotFound
    case Some(task) =>
      if task.schedule.None? then ScheduleRaised
      else if Lower(task.schedule.value) == "never" then NeverScheduled
      else Attempt(task, jsonError, decipher, tools)
  }

  /** The wrapper's `try`: build the payload (parsing the tables text) and run the sync. */
  function Attempt(task: TaskRecord, jsonError: string -> Option<string>, decipher: Decipher, tools: Tools): (f: Fired)
    ensures f.PayloadFailed? || f.Ran?
    ensures f.PayloadFailed? <==> task.tables.Some? && task.tables.value != "" && jsonError(task.tables.value).Some?
  {
    match TablesError(task.tables, jsonError)
    case Some(e) => PayloadFailed(e)
    case None =>
      Ran(Perform(task.source.encryptedPassword, task.target.encryptedPassword,
                  task.source.engine, task.target.engine, decipher, tools))
  }

  /** The record one fire logs, if any: the wrapper's own for a failure it catches. */
  function FireLogged(f: Fired): Option<SyncResult>
  {
    match f
    case PayloadFailed(e) => Some(SyncResult(Error, WrapperPrefix + e, 0))
    case Ran(EngineRaised) => Some(SyncResult(Error, WrapperPrefix + NoneLowerError, 0))
    case Ran(p) => Logged(p)
    case _ => None
  }

  /**
   * A fire logs exactly one record when the task is found enabled with a schedule other
   * than `never`, and none otherwise.
   */
  lemma OneRecordPerLiveFire(store: Store, taskId: int, jsonError: string -> Option<string>, decipher: Decipher, tools: Tools)
    ensures var task := FetchSingleTask(store, taskId);
      FireLogged(Fire(store, taskId, jsonError, decipher, tools)).Some? <==>
        task.Some? && task.value.schedule.Some? && Lower(task.value.schedule.value) != "never"
  {
  }

  /** A fire runs a tool only for a found, live task whose payload was built and whose engines are both PostgreSQL. */
  lemma ToolsRunOnlyForLiveTasks(store: Store, taskId: int, jsonError: string -> Option<string>, decipher: Decipher, tools: Tools)
    requires var f := Fire(store, taskId, jsonError, decipher, tools); f.Ran? && f.performed.Dispatched? && f.performed.trace != []
    ensures var task := FetchSingleTask(store, taskId).value;
      store.Available? && task.schedule.Some? && Lower(task.schedule.value) != "never" &&
      task.source.engine.Some? && Lower(task.source.engine.value) == PostgresEngine &&
      task.target.engine.Some? && Lower(task.target.engine.value) == PostgresEngine
  {
  }

  /** A task that is disabled or gone by the time its job fires is not run and logs nothing. */
  lemma DisabledTaskIsNotRun(store: Store, taskId: int, jsonError: string -> Option<string>, decipher: Decipher, tools: Tools)
    requires store.Available? ==> forall row :: row in store.rows && row.task.taskId == taskId ==> !row.enabled
    ensures Fire(store, taskId, jsonError, decipher, tools) == NotFound
  {
  }

  /** The wrapper lets an exception escape only for a task without schedule. */
  lemma OnlyMissingScheduleEscapes(store: Store, taskId: int, jsonError: string -> Option<string>, decipher: Decipher, tools: Tools)
    ensures Fire(store, taskId, jsonError, decipher, tools) == ScheduleRaised <==>
      FetchSingleTask(store, taskId).Some? && FetchSingleTask(store, taskId).value.schedule.None?
  {
  }

  /**
   * `_perform_database_sync_wrapper`: fetch the task afresh, abort when it is gone or set
   * to `never`, then build the payload and run the sync.
   */
  method PerformDatabaseSyncWrapper(taskId: int, store: Store, jsonError: string -> Option<string>, decipher: Decipher,
                                    tools: Toolchain, adminPassword: string, ledger: Ledger, clock: Clock)
    returns (raised: Option<string>)
    modifies tools, ledger, clock
    ensures var f := Fire(store, taskId, jsonError, decipher, Tools(tools.outcome, tools.csvWritten, adminPassword));
      raised == (if f.ScheduleRaised? then Some(NoneLowerError) else None) &&
      ledger.log == old(ledger.log) + Written(ledger.writable, taskId, FireLogged(f),
                                              clock.readings(old(clock.taken)), clock.readings(old(clock.taken) + 1)) &&
      clock.taken == old(clock.taken) + (if FireLogged(f).Some? then 2 else 0) &&
      ledger.lastSync == (if ledger.writable && SucceededRun(f)
                          then old(ledger.lastSync)[taskId := clock.readings(old(clock.taken))]
                          else old(ledger.lastSync)) &&
      tools.attempted == old(tools.attempted) + FireTrace(f)
  {
    var found := FetchSingleTask(store, taskId);
    if found.None? {
      return None;
    }
    var task := found.value;
    if task.schedule.None? {
      return Some(NoneLowerError);
    }
    if Lower(task.schedule.value) == "never" {
      return None;
    }
    TryPerform(task, jsonError, decipher, tools, adminPassword, ledger, clock);
    return None;
  }

  /** A fire whose sync reported success. */
  predicate SucceededRun(f: Fired)
  {
    f.Ran? && Succeeded(f.performed)
  }

  /** The tool invocations one fire starts. */
  function FireTrace(f: Fired): seq<Step>
  {
    if f.Ran? then Trace(f.performed) else []
  }

  /**
   * The `try`/`except` of the wrapper: a failure to build the payload, or an exception
   * out of the sync, is logged as a wrapper error with the clock's next two readings.
   */
  method TryPerform(task: TaskRecord, jsonError: string -> Option<string>, decipher: Decipher,
                    tools: Toolchain, adminPassword: string, ledger: Ledger, clock: Clock)
    modifies tools, ledger, clock
    ensures var f := Attempt(task, jsonError, decipher, Tools(tools.outcome, tools.csvWritten, adminPassword));
      ledger.log == old(ledger.log) + Written(ledger.writable, task.taskId, FireLogged(f),
                                              clock.readings(old(clock.taken)), clock.readings(old(clock.taken) + 1)) &&
      clock.taken == old(clock.taken) + (if FireLogged(f).Some? then 2 else 0) &&
      ledger.lastSync == (if ledger.writable && SucceededRun(f)
                          then old(ledger.lastSync)[task.taskId := clock.readings(old(clock.taken))]
                          else old(ledger.lastSync)) &&
      tools.attempted == old(tools.attempted) + FireTrace(f)
  {
    var failure: Option<string>;
    var tablesError := TablesError(task.tables, jsonError);
    if tablesError.Some? {
      failure := tablesError;
    } else {
      failure := RunPayload(task, decipher, tools, adminPassword, ledger, clock);
    }
    if failure.Some? {
      LogFailure(task.taskId, WrapperPrefix + failure.value, ledger, clock);
    }
  }

  /** Build a fresh payload from the task's record and hand it to `perform_database_sync`. */
  method RunPayload(task: TaskRecord, decipher: Decipher, tools: Toolchain, adminPassword: string,
                    ledger: Ledger, clock: Clock) returns (raised: Option<string>)
    modifies tools, ledger, clock
    ensures var p := Perform(task.source.encryptedPassword, task.target.encryptedPassword,
                             task.source.engine, task.target.engine,
                             decipher, Tools(tools.outcome, tools.csvWritten, adminPassword));
      raised == (if p.EngineRaised? then Some(NoneLowerError) else None) &&
      ledger.log == old(ledger.log) + Written(ledger.writable, task.taskId, Logged(p),
                                              clock.readings(old(clock.taken)), clock.readings(old(clock.taken) + 1)) &&
      clock.taken == old(clock.taken) + (if p.EngineRaised? then 0 else 2) &&
      ledger.lastSync == (if ledger.writable && Succeeded(p)
                          then old(ledger.lastSync)[task.taskId := clock.readings(old(clock.taken))]
                          else old(ledger.lastSync)) &&
      tools.attempted == old(tools.attempted) + Trace(p)
  {
    var source := new ConnectionPayload(task.source);
    var target := new ConnectionPayload(task.target);
    var payload := new SyncPayload(task.taskId, source, target, task.tables);
    raised := PerformDatabaseSync(payload, decipher, tools, adminPassword, ledger, clock);
  }
}
