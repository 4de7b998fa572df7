# Scheduled database sync engine, modelled in Dafny

This project models the scheduling and execution core of the `db-sync` service
(`app/db-sync/sync_manager.py`). The service keeps an in-memory registry of
scheduled jobs in step with a task table. When a task's job fires, it re-reads the
task, decrypts the connection passwords and runs a PostgreSQL-to-PostgreSQL copy as a
fixed sequence of external tool invocations. Every run that gets past the schedule
test is logged, provided the database accepts the write.

Modules, in dependency order:

- `Wrappers`: `Option` and `Result`.
- `Text`: ASCII lower-casing, prefixes, splitting at the first occurrence of a character, and decimal rendering of task ids.
- `Triggers`: the trigger values. Also the frequency-to-trigger mapping of `_create_trigger_from_schedule` and the reschedule test.
- `Registry`: the job registry, a `Scheduler` class holding a map of job ids to jobs plus a ghost history of mutations. Also the `dbtask_<id>` job-id format and the bootstrap job ids.
- `Repository`: the two task queries, `_fetch_sync_tasks_from_db` and `_fetch_single_task_from_db`, over a table of joined task rows. An unreadable database is `Unavailable`.
- `Reconciler`: `_schedule_tasks`, `_reload_config`, `setup_jobs`, `_schedule_periodic_reload` and the module start-up.
  - Pure functions (`Decide`, `Scheduled`, `ScheduleAll`, `Reload`, `BootJobs`) state what a pass does to the registry.
  - The methods of class `DatabaseSync` mutate a `Scheduler` and are proved to agree with those functions.
- `Vault`: `decrypt_password`. The AES-CBC/PKCS7/UTF-8 stage is a function parameter (`Decipher`), and `hexlify`/`unhexlify` are modelled.
- `Pipeline`: `sync_postgresql_to_postgresql` as thirteen tool steps. A `Toolchain` object fixes what each step meets: exit 0, a non-zero exit with its stderr, or a launch failure. Covered:
  - which steps run, and in what order;
  - which failures are fatal;
  - the `finally` that turns TimescaleDB restoring mode back on;
  - the message the sync returns.
- `Executor`: `perform_database_sync` and `_perform_database_sync_wrapper`.
  - Payload objects carry a password that is decrypted in place.
  - A `Ledger` stands for the `sync_logs` and `last_sync` writes.
  - A `Clock` yields the `datetime.now` readings.
  - The reference functions `Perform` and `Fire` state the outcome of one run and of one fire.

Three behaviours of the code are easy to misread; the model follows the code:

- A stored password without `:` is passed through unchanged by the caller (lines 359 and 365). `decrypt_password` itself returns `None` for it (line 66).
- Nothing prevents two wrapper runs of one task from overlapping (line 237). `Registry.StartRun` records one more run in flight per fire.
- The task query filters `schedule != 'never'` case-sensitively (line 128). A task whose schedule is `Never` is therefore fetched, and then removed by `_schedule_tasks` after lower-casing (`UnwantedTaskRemovedOnReload`).

## Model

| member | source | states |
|---|---|---|
| Text.Lower | app/db-sync/sync_manager.py:220 | lower-casing keeps the length and maps each character on its own |
| Text.LowerIdempotent | app/db-sync/sync_manager.py:175 | lower-casing twice is lower-casing once, so the `never` tests after `.lower()` are stable |
| Text.SplitFirst | app/db-sync/sync_manager.py:70 | `split(':', 1)` yields a head without the separator, and head, separator and tail put back together give the input |
| Text.SplitFirstUnique | app/db-sync/sync_manager.py:70 | any decomposition head + `:` + tail with a colon-free head is the split's result |
| Text.NatToDecimalInjective | app/db-sync/sync_manager.py:221 | distinct naturals render as distinct decimal texts |
| Text.NatToDecimal | app/db-sync/sync_manager.py:221 | the decimal rendering of a natural, as `str()` writes it: at least one digit, only digits, one digit exactly below 10 |
| Text.IntToDecimal | app/db-sync/sync_manager.py:221 | `str()` of an integer: a minus sign before the digits of its magnitude when negative |
| Text.IntToDecimalInjective | app/db-sync/sync_manager.py:221 | distinct integers, signs included, render as distinct texts |
| Triggers.TriggerFor | app/db-sync/sync_manager.py:204-213 | a trigger exists exactly for hourly, daily and weekly: a 3600-second interval, daily at 02:00, Mondays at 02:00 |
| Triggers.TriggerForInjective | app/db-sync/sync_manager.py:204-213 | different supported frequencies never map to the same trigger |
| Triggers.NeedsReschedule | app/db-sync/sync_manager.py:244-262 | the type, interval and cron-field comparison holds exactly when the two triggers differ |
| Registry.JobIdIsDbTaskId | app/db-sync/sync_manager.py:221 | every task's job id starts with `dbtask_` |
| Registry.JobIdInjective | app/db-sync/sync_manager.py:221 | two tasks share a job id only if they share a task id |
| Registry.JobId | app/db-sync/sync_manager.py:221 | the job id of a task, `dbtask_` followed by the decimal task id |
| Registry.BootstrapIdsAreNotDbTaskIds | app/db-sync/sync_manager.py:298 | `reload_db_jobs` and `metric_collector` lie outside the namespace `_reload_config` prunes |
| Registry.StartRun | app/db-sync/sync_manager.py:237 | a task's fire adds one run in flight for that task, whatever is already running, and no other task's count changes; other jobs start no wrapper |
| Registry.RepeatedFiresOverlap | app/db-sync/sync_manager.py:237 | two fires of one task's job, before either run ends, leave two more runs of that task in flight |
| Registry.Lookup | app/db-sync/sync_manager.py:225 | `get_job` on the registry map: the job under the id, or nothing when the id is absent |
| Registry.Scheduler.GetJob | app/db-sync/sync_manager.py:225 | the lookup returns the job under the id, or nothing |
| Registry.Scheduler.AddJob | app/db-sync/sync_manager.py:287 | with `replace_existing=False` the job is added exactly when the id is free; the registry and history change only then |
| Registry.Scheduler.RemoveJob | app/db-sync/sync_manager.py:228 | the id is gone afterwards; a removal is recorded exactly when the id was present |
| Registry.Scheduler.RescheduleJob | app/db-sync/sync_manager.py:267 | an existing job gets the new trigger and keeps its action; a missing id changes nothing |
| Repository.IsScheduledRow | app/db-sync/sync_manager.py:128 | the row filter of the scheduled-task query: enabled, schedule not null, and schedule not literally `never`, compared case-sensitively |
| Repository.ScheduledRows | app/db-sync/sync_manager.py:125-132 | the result holds exactly the tasks of enabled rows whose schedule is present and not literally `never` |
| Repository.ScheduledRowsUnique | app/db-sync/sync_manager.py:125-132 | task ids unique in the table stay unique in the query's result |
| Repository.FetchSyncTasks | app/db-sync/sync_manager.py:112-135 | an unreadable database yields no tasks; otherwise the scheduled rows |
| Repository.FirstEnabledWithId | app/db-sync/sync_manager.py:150-158 | a task is found exactly when an enabled row has the id; the one found has that id and comes from an enabled row |
| Repository.FetchSingleTask | app/db-sync/sync_manager.py:137-164 | an unreadable database yields nothing; otherwise the first enabled row with the id |
| Reconciler.Frequency | app/db-sync/sync_manager.py:220 | the lower-cased schedule of a task, or nothing when it is null (where `.lower()` would raise) |
| Reconciler.Apply | app/db-sync/sync_manager.py:223-287 | what a decision's registry call does to the job under the id: `remove_job` (line 228) leaves none, `add_job` (line 287) leaves the new job, `reschedule_job` (line 267) gives an existing job the new trigger and keeps its action; the other decisions leave the job as found |
| Reconciler.MutationOf | app/db-sync/sync_manager.py:223-287 | the registry call a decision makes, as one recorded mutation: a removal, an addition or a reschedule; the skipping, keeping and unchanged decisions make none |
| Reconciler.Scheduled | app/db-sync/sync_manager.py:219-294 | the job a task's turn leaves under its id: the decision `Decide` takes, applied to the job found |
| Reconciler.ScheduledMeaning | app/db-sync/sync_manager.py:215-294 | one task's turn: no schedule or an unsupported one leaves the job; `never` removes it; a supported one adds a job running the task, keeps the job without overwrite, and with overwrite sets the mapped trigger but keeps the action |
| Reconciler.Decide | app/db-sync/sync_manager.py:219-283 | the decision of one task's turn from the lower-cased schedule, the job found under its id and the overwrite flag: skip, remove, add, keep, leave unchanged or reschedule |
| Reconciler.ScheduledJobStartsItsTask | app/db-sync/sync_manager.py:237 | a job left by a task's turn, where the job found ran that task, starts one more run of exactly that task when it fires |
| Reconciler.QuietDecisionKeepsJob | app/db-sync/sync_manager.py:239-283 | a turn that mutates nothing leaves the job and records no mutation |
| Reconciler.TurnIsSettled | app/db-sync/sync_manager.py:239-283 | a second turn for the same task right after the first has nothing left to do |
| Reconciler.OtherFieldsDoNotMatter | app/db-sync/sync_manager.py:215-233 | a turn depends only on the task id and schedule; changed connection details or names cause no mutation |
| Reconciler.FrequencyChangeReschedules | app/db-sync/sync_manager.py:241-283 | a changed frequency reschedules the job under overwrite and is ignored without it |
| Reconciler.DistinctJobIds | app/db-sync/sync_manager.py:221 | tasks with distinct ids in a list get distinct job ids |
| Reconciler.UniqueIdsDistinctKeys | app/db-sync/sync_manager.py:216-221 | unique task ids make the per-task job ids distinct |
| Reconciler.RemovalsOf | app/db-sync/sync_manager.py:303-305 | one recorded removal per removed id, in order |
| Reconciler.ScheduleAll | app/db-sync/sync_manager.py:215-294 | the registry `_schedule_tasks` leaves: each listed task's turn in list order, each on the registry the earlier turns left |
| Reconciler.PassMutations | app/db-sync/sync_manager.py:215-294 | the `add_job`, `remove_job` and `reschedule_job` calls of that pass, in order |
| Reconciler.TaskJobIds | app/db-sync/sync_manager.py:300 | the set of `dbtask_` ids of the fetched tasks |
| Reconciler.StaleIds | app/db-sync/sync_manager.py:298-303 | the `dbtask_` job ids in the registry with no fetched task |
| Reconciler.Reload | app/db-sync/sync_manager.py:296-312 | the registry after `_reload_config`: the stale ids removed, then the overwrite pass over the fetched tasks |
| Reconciler.BootJobs | app/db-sync/sync_manager.py:519-529 | the registry after module start-up: the metrics job, the non-overwrite pass over the fetched tasks, then the reload job |
| Reconciler.PassStep | app/db-sync/sync_manager.py:216 | the loop over tasks processes each task against the registry left by the earlier ones and appends that turn's mutations |
| Reconciler.PassUntouched | app/db-sync/sync_manager.py:216-294 | a pass leaves every id no task maps to unchanged |
| Reconciler.PassAt | app/db-sync/sync_manager.py:216-294 | with distinct ids, a task's job after the pass is its own turn applied to the job found before the pass |
| Reconciler.QuietPass | app/db-sync/sync_manager.py:216-294 | a pass whose every turn is quiet changes nothing and records nothing |
| Reconciler.RemovingClaimsRemove | app/db-sync/sync_manager.py:223-229 | when every task mapped to an id removes it, the id is absent after the pass |
| Reconciler.ScheduleAllStep | app/db-sync/sync_manager.py:216-294 | `_schedule_tasks` over one more task is one more turn on the registry, with its mutations appended |
| Reconciler.ScheduleAllKeepsForeignJobs | app/db-sync/sync_manager.py:215-294 | scheduling tasks never touches a job outside `dbtask_` |
| Reconciler.ScheduleAllAt | app/db-sync/sync_manager.py:215-294 | with unique task ids, each task's job afterwards is exactly that task's turn on the job found before |
| Reconciler.ScheduleAllKeys | app/db-sync/sync_manager.py:215-294 | scheduling adds no job ids beyond the tasks' own |
| Reconciler.SecondPassIsQuiet | app/db-sync/sync_manager.py:215-294 | a second pass over the same task list records no mutation and changes nothing; for daily and weekly tasks this rests on the structural cron equality admitted at `Triggers.NeedsReschedule` |
| Reconciler.NeverClaimsRemove | app/db-sync/sync_manager.py:223-229 | a task listed only with `never` has no job after the pass |
| Reconciler.ReloadKeepsForeignJobs | app/db-sync/sync_manager.py:296-312 | reloading keeps the reload and metrics jobs and every other job outside `dbtask_` |
| Reconciler.ReloadRemovesStale | app/db-sync/sync_manager.py:298-308 | a `dbtask_` job with no task in the fetched list is gone afterwards |
| Reconciler.ReloadAt | app/db-sync/sync_manager.py:296-312 | after a reload, each fetched task's job is its overwrite turn on the job found before |
| Reconciler.ReloadAfterFailedFetch | app/db-sync/sync_manager.py:296-312 | when the task table cannot be read, a reload removes every task job and keeps the rest |
| Reconciler.ReloadJobSet | app/db-sync/sync_manager.py:296-312 | after a reload over supported tasks, the task jobs are exactly the fetched tasks' ids, each with its mapped trigger |
| Reconciler.ReloadIdempotent | app/db-sync/sync_manager.py:296-312 | a second reload over the same tasks removes nothing, records nothing and changes nothing; for daily and weekly tasks this rests on the structural cron equality admitted at `Triggers.NeedsReschedule` |
| Reconciler.UnwantedTaskRemovedOnReload | app/db-sync/sync_manager.py:296-312 | a task that is disabled, unscheduled or set to `never` in any letter case has no job after a reload |
| Reconciler.BootJobSet | app/db-sync/sync_manager.py:519-529 | after start-up the registry holds the metrics job (every 60 s), the reload job (every 300 s) and exactly one job per supported task, running that task |
| Reconciler.ReloadInstallation | app/db-sync/sync_manager.py:314-320 | the registry calls installing the reload job: a removal exactly when a reload job is present, then the addition of a job running the reload every 300 s |
| Reconciler.DatabaseSync.constructor | app/db-sync/sync_manager.py:99-102 | construction runs the initial scheduling without overwrite, then installs the reload job; the history records exactly the pass's mutations followed by the reload installation |
| Reconciler.DatabaseSync.ScheduleTasks | app/db-sync/sync_manager.py:215-294 | the loop leaves the registry `ScheduleAll` describes and records exactly the pass's mutations |
| Reconciler.DatabaseSync.ScheduleTask | app/db-sync/sync_manager.py:217-294 | one iteration performs the task's decision on the registry and records its mutation |
| Reconciler.DatabaseSync.ReloadConfig | app/db-sync/sync_manager.py:296-312 | the registry ends as `Reload` describes; each stale id is removed once, then the overwrite pass runs on the pruned registry |
| Reconciler.DatabaseSync.RemoveJobs | app/db-sync/sync_manager.py:303-308 | the removal loop deletes exactly the given ids, one recorded removal each |
| Reconciler.DatabaseSync.SchedulePeriodicReload | app/db-sync/sync_manager.py:314-321 | one reload job every 300 s replaces any earlier one; the history records the removal, when there was a job, and the addition |
| Reconciler.DatabaseSync.SetupJobs | app/db-sync/sync_manager.py:323-329 | the initial pass schedules the fetched tasks without overwrite; an empty fetch changes nothing |
| Reconciler.Boot | app/db-sync/sync_manager.py:519-529 | the module start-up leaves the registry `BootJobs` describes |
| Vault.HexValue | app/db-sync/sync_manager.py:72-73 | the value of a hex digit in either letter case, as `unhexlify` reads it; every value is below 16 |
| Vault.Unhexlify | app/db-sync/sync_manager.py:72-73 | decoding succeeds exactly on an even number of hex digits in either case and halves the length |
| Vault.HexDigit | app/db-sync/sync_manager.py:72-73 | each digit written decodes back to its value |
| Vault.UnhexlifyHexlify | app/db-sync/sync_manager.py:72-73 | hex decoding undoes hex encoding |
| Vault.Hexlify | app/db-sync/sync_manager.py:72-73 | the lower-case hex encoding of the stored format, whose inverse `unhexlify` is |
| Vault.HexlifyHasNoColon | app/db-sync/sync_manager.py:70 | a hex-encoded vector holds no colon, so the first colon of the stored format is its separator |
| Vault.DecryptPassword | app/db-sync/sync_manager.py:64-82 | the empty text gives the empty text, a text without `:` gives `None`, a vector or ciphertext part that is not valid hex gives `None`, any password obtained came through a 32-character vector, and a 32-character vector with valid hex parts, in either letter case, gives exactly what the cipher yields for the decoded parts |
| Vault.DecryptStoredFormat | app/db-sync/sync_manager.py:64-82 | `hex(iv):hex(ciphertext)` with a 16-byte vector decrypts to what the cipher yields for that vector and ciphertext |
| Vault.LaterColonFails | app/db-sync/sync_manager.py:70-73 | only the first colon splits; a colon in the ciphertext part makes decoding fail |
| Vault.WrongIvLengthFails | app/db-sync/sync_manager.py:71 | a vector part of the wrong length is refused whatever follows |
| Pipeline.CredentialOf | app/db-sync/sync_manager.py:409-411 | the `PGPASSWORD` environment each step gets: the source user for the dump and copy-out, the target user for its five steps, the admin for the rest |
| Pipeline.Checked | app/db-sync/sync_manager.py:413-421 | every step runs with `check=True` except the drop of the database (line 413) and the drop of the trigger (line 421) |
| Pipeline.Captured | app/db-sync/sync_manager.py:423 | only the hypertable creation captures stderr |
| Pipeline.Launch | app/db-sync/sync_manager.py:409-415 | a `None` password in the environment makes the step fail to start with the TypeError text; otherwise the step meets its outcome |
| Pipeline.FailureMessage | app/db-sync/sync_manager.py:440-441 | a non-zero exit reports `Sync CMD failed: ` followed by the stderr when captured, and by `None` otherwise; a step that cannot start reports the exception text |
| Pipeline.Fatal | app/db-sync/sync_manager.py:413-441 | a step ends the run when it cannot start, whatever its `check` flag, so an unchecked step that cannot start still ends the run; a non-zero exit ends it only for a step run with `check=True` |
| Pipeline.Prelude | app/db-sync/sync_manager.py:413-427 | the nine steps of the outer `try` before the inner one, in source order: drop and create the database, create the extension, pre-restore, dump, restore, drop the trigger, create the hypertable, restoring off |
| Pipeline.CopySteps | app/db-sync/sync_manager.py:431-434 | the copy-out, then the copy-in only when the CSV file exists |
| Pipeline.FirstFatal | app/db-sync/sync_manager.py:412-427 | the index of the first step whose outcome is fatal, with every earlier step non-fatal |
| Pipeline.Started | app/db-sync/sync_manager.py:412-427 | the steps a phase attempts: all of them when none is fatal, otherwise up to and including the first fatal one |
| Pipeline.SuccessIffNoFatalStep | app/db-sync/sync_manager.py:412-441 | the sync succeeds exactly when no step it ran failed fatally; success runs all steps in order and returns "PostgreSQL sync completed." with 0 rows |
| Pipeline.RestoringOnIffOffSucceeded | app/db-sync/sync_manager.py:427-436 | restoring mode is turned back on exactly when turning it off succeeded |
| Pipeline.ErrorIsLastFailure | app/db-sync/sync_manager.py:428-441 | an error reports a fatal step's failure with no fatal step after it, so a `finally` failure overrides a copy failure |
| Pipeline.FatalStepStopsTheRun | app/db-sync/sync_manager.py:412-438 | after a fatal step nothing more runs, except the restoring-on step after a copy failure |
| Pipeline.RowsAlwaysZero | app/db-sync/sync_manager.py:402-441 | every result reports 0 rows synced |
| Pipeline.UncheckedExitsDoNotMatter | app/db-sync/sync_manager.py:413-421 | the exit status of the two unchecked steps changes nothing, as long as they start |
| Pipeline.FirstFatalAgrees | app/db-sync/sync_manager.py:412-441 | two settings that agree on which steps are fatal stop at the same step |
| Pipeline.MissingTargetPassword | app/db-sync/sync_manager.py:399-415 | with no target password, the first target-user step cannot start and the sync reports the TypeError |
| Pipeline.Toolchain.Run | app/db-sync/sync_manager.py:413-438 | a step either cannot start (a missing password in its environment) or meets its outcome; it is recorded as attempted |
| Pipeline.Toolchain.CsvExists | app/db-sync/sync_manager.py:432 | the existence test reports whether the copy-out wrote the file |
| Pipeline.RestoreSchema | app/db-sync/sync_manager.py:413-427 | the first nine steps run in order up to the first fatal one, and its failure is returned |
| Pipeline.RunPreludeStep | app/db-sync/sync_manager.py:413-427 | one step of the first phase is attempted and its failure, if fatal, returned |
| Pipeline.CopyHypertable | app/db-sync/sync_manager.py:428-434 | the copy-out runs, the copy-in only when the file exists, and the first fatal failure is kept pending |
| Pipeline.SyncPostgresqlToPostgresql | app/db-sync/sync_manager.py:387-443 | the method returns `Sync`'s result and attempts exactly `Sync`'s steps |
| Pipeline.Sync | app/db-sync/sync_manager.py:387-443 | the steps attempted and the result of one sync: the first nine steps, then the copy phase, the restoring-on step in its `finally` whose failure overrides, then the post-restore step |
| Executor.Ledger.UpdateSyncLog | app/db-sync/sync_manager.py:332-338 | a record is appended when the database accepts writes; a failed write is swallowed |
| Executor.Ledger.UpdateLastSyncTime | app/db-sync/sync_manager.py:340-346 | `last_sync` of the task is set when the database accepts writes |
| Executor.Clock.Now | app/db-sync/sync_manager.py:372-381 | each call yields the next reading |
| Executor.ResolvePassword | app/db-sync/sync_manager.py:358-368 | the password a run uses: a value holding `:` is decrypted and a failed decryption aborts; any other value, missing or empty included, is used as it is |
| Executor.ConnectionPayload.constructor | app/db-sync/sync_manager.py:183-194 | the payload's password starts as the stored, encrypted value |
| Executor.PlainPasswordPassesThrough | app/db-sync/sync_manager.py:358-365 | a missing password or one without `:` is used unchanged |
| Executor.DecryptFailedIff | app/db-sync/sync_manager.py:358-367 | a run aborts on a password exactly when it holds `:` and does not decrypt |
| Executor.StoredFormatResolves | app/db-sync/sync_manager.py:358-368 | a password in the stored format resolves to the cipher's output, or aborts when the cipher fails |
| Executor.Dispatch | app/db-sync/sync_manager.py:374-381 | past the engine test every run reaches the logging `finally`; tools run exactly for PostgreSQL to PostgreSQL, and any other pair gets an `Unsupported sync: ` error with 0 rows |
| Executor.Perform | app/db-sync/sync_manager.py:349-381 | the outcome of one `perform_database_sync`: a source or target decryption failure, the exception from a missing engine, or the dispatched result with its tool steps |
| Executor.PerformAfterSource | app/db-sync/sync_manager.py:364-381 | the rest of a run once the source password is resolved: the target decryption failure, the exception from a missing engine, or the dispatched result |
| Executor.Logged | app/db-sync/sync_manager.py:361-381 | the record a run writes: the decryption failure messages, nothing when an engine is missing, otherwise the sync result |
| Executor.Written | app/db-sync/sync_manager.py:332-338 | the `sync_logs` row `update_sync_log` inserts for a run: task id, start and end stamps, status, message and rows; nothing when the database refuses the write or the run logs nothing |
| Executor.OneRecordUnlessEngineMissing | app/db-sync/sync_manager.py:358-381 | a run logs no record exactly when both passwords resolve and an engine is missing |
| Executor.SourceFailureIgnoresTarget | app/db-sync/sync_manager.py:358-361 | a source password that fails to decrypt ends the run whatever the target holds |
| Executor.UnsupportedPairRunsNothing | app/db-sync/sync_manager.py:370-377 | any pair other than PostgreSQL to PostgreSQL, after lower-casing, runs no tool and reports the pair |
| Executor.PostgresPairRunsPipeline | app/db-sync/sync_manager.py:370-376 | PostgreSQL in any letter case, on both sides, runs the pipeline with the resolved passwords |
| Executor.PerformDatabaseSync | app/db-sync/sync_manager.py:349-381 | the method's log, `last_sync`, clock reads, tool trace, exception and passwords written back are those `Perform` describes |
| Executor.ContinueAfterSource | app/db-sync/sync_manager.py:364-381 | from the target password on, the log, `last_sync`, clock reads, tool trace, exception and target password written back are those `PerformAfterSource` describes |
| Executor.LogFailure | app/db-sync/sync_manager.py:360-361 | an error record with 0 rows is logged, stamped with two fresh readings |
| Executor.ResolveInPlace | app/db-sync/sync_manager.py:358-362 | a password is decrypted and written back, or the failure reported with the payload left as it was |
| Executor.DispatchAndLog | app/db-sync/sync_manager.py:372-381 | the start time is read, the pipeline or the refusal runs, `last_sync` is set on success, and the `finally` logs the result |
| Executor.TablesError | app/db-sync/sync_manager.py:195 | an absent or empty tables text is not parsed; any other is, and its JSON error is the payload failure |
| Executor.SyncPayload.constructor | app/db-sync/sync_manager.py:181-196 | the payload holds the task id, the two connection dicts and the tables option it was built from |
| Executor.Attempt | app/db-sync/sync_manager.py:180-198 | the wrapper's `try` ends with a payload failure or a run, and the payload fails exactly when a non-empty tables text is not JSON |
| Executor.Fire | app/db-sync/sync_manager.py:166-202 | the outcome of one fire: task not found, the exception from a null schedule, `never`, a payload failure or a run |
| Executor.FireLogged | app/db-sync/sync_manager.py:166-202 | the record a fire writes: a run's own record, or `Wrapper error: ` with the exception text for a payload failure or a missing engine |
| Executor.OneRecordPerLiveFire | app/db-sync/sync_manager.py:166-202 | a fire logs exactly one record when the task is found with a schedule other than `never`, and none otherwise |
| Executor.ToolsRunOnlyForLiveTasks | app/db-sync/sync_manager.py:166-198 | a fire that runs a tool had an enabled, scheduled, non-`never` task with PostgreSQL on both sides |
| Executor.DisabledTaskIsNotRun | app/db-sync/sync_manager.py:153-172 | a disabled or deleted task is not run when its job fires |
| Executor.OnlyMissingScheduleEscapes | app/db-sync/sync_manager.py:175 | the wrapper raises exactly when the task is found but its schedule is null |
| Executor.PerformDatabaseSyncWrapper | app/db-sync/sync_manager.py:166-202 | the method's log, `last_sync`, clock reads, tool trace and exception are those `Fire` describes |
| Executor.TryPerform | app/db-sync/sync_manager.py:180-202 | a payload or sync exception is logged as `Wrapper error: ...`; otherwise the sync's own effects |
| Executor.RunPayload | app/db-sync/sync_manager.py:181-198 | the payload is rebuilt from the task and the sync's effects are those `Perform` describes |

## Left out

- AES-CBC decryption, PKCS7 unpadding, UTF-8 decoding and the key derivation (lines 56-61). They are the `Decipher` parameter, and `None` stands for any exception they raise.
- SQLite access and the text of the two queries. The task table is a sequence of joined rows (`Store`). A `Ledger` whose `writable` flag is off stands for a database that refuses writes. The model assumes that both writes of one run succeed or fail together, since one `writable` flag stands for both; in the code, `update_sync_log` (lines 332-338) and `update_last_sync_time` (lines 340-346) open separate connections and can fail independently. No stated property depends on this assumption.
- Executor.Ledger.UpdateLastSyncTime: the `updated_at` stamp it writes (line 343) is not modelled, because the model only tracks `last_sync`. It also sets `last_sync` for any task id, whereas the `UPDATE ... WHERE id = ?` at line 343 changes nothing when the task row was deleted after the fetch; the model does not track which task rows still exist at write time.
- Executor.Clock.Now: readings are arbitrary integers; the `datetime` values and their ISO format are not modelled.
- Executor.PerformDatabaseSync: only the two log stamps are modelled clock readings. The `datetime.now()` calls for the dump file name (line 401) and for `updated_at` (line 343) fall between them and are not modelled; the readings are arbitrary, so no stated property depends on it.
- Threads and the scheduler's clock: job firing times, next-run times and concurrent registry access. `Registry.StartRun` counts runs in flight but does not model interleavings.
- The reschedule fallback at lines 270-276 (`add_job` with `replace_existing` after a failed `reschedule_job`). The scheduler here does not raise, so the fallback cannot happen; the per-task `except` (lines 293-294) is modelled only as the schedule-is-null skip.
- Text.Lower: lower-cases ASCII letters only, because Python's full Unicode case mapping is not modelled.
- Triggers.NeedsReschedule: cron equality is structural over day of week, hour and minute, as the source comment at line 258 assumes.
- The tables text itself (line 195). Only whether `json.loads` raises matters, through the `jsonError` parameter; the parsed value is not used by the modelled code.
- The literal command lines, dump and CSV file names, `os.remove` of the CSV file and the kept-dump log (lines 401-411, 426, 437, 443).
- The check at line 424 is unreachable, because `check=True` already raises on a non-zero exit (line 423); it is not modelled.
- The Flask endpoints (lines 446-516), metrics collection (lines 84-95) and all logging.
- Missing dictionary keys: the payload and task fields are always present, so the `.get` defaults (lines 175, 220, 370-371) are not modelled. An absent engine or schedule is a present `None`.
