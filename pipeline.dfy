/**
 * The PostgreSQL-to-PostgreSQL sync (`sync_postgresql_to_postgresql`) as a sequence of
 * external tool invocations. What each tool does is not modelled: a `Toolchain` says,
 * for each step, what running it would meet, and the model fixes which steps run, in
 * which order, and what the sync reports.
 */
module Pipeline {
  import opened Wrappers

  /** The tool invocations of one sync, in source order. */
  datatype Step =
    | DropDatabase      // psql as admin on `postgres`, check off
    | CreateDatabase    // psql as admin on `postgres`
    | CreateExtension   // psql as the target user: timescaledb extension
    | PreRestore        // psql as admin: timescaledb_pre_restore()
    | DumpSource        // pg_dump of the source, hypertable data excluded
    | Restore           // pg_restore into the target as the target user
    | DropTrigger       // psql as the target user: drop ts_insert_blocker, check off
    | CreateHypertable  // psql as the target user, output captured
    | RestoringOff      // psql as admin: timescaledb.restoring = off
    | CopyOut           // psql on the source: \COPY hypertable TO csv
    | CopyIn            // psql as the target user: \COPY hypertable FROM csv
    | RestoringOn       // psql as admin: timescaledb.restoring = on (in a finally)
    | PostRestore       // psql as admin: timescaledb_post_restore()

  /** What `subprocess.run` meets when it runs one step. */
  datatype StepOutcome =
    | Ok                     // exit status 0
    | NonZero(stderr: string)  // non-zero exit; what the tool wrote to stderr
    | NotStarted(error: string)  // the process could not be launched; the exception's text

  datatype Status = Success | Error

  /** The triple the sync returns: status, message, rows synced. */
  datatype SyncResult = SyncResult(status: Status, message: string, rowsSynced: int)

  /** Whose password a step puts in PGPASSWORD. */
  datatype Credential = Admin | SourceUser | TargetUser

  function CredentialOf(step: Step): Credential
  {
    match step
    case DumpSource => SourceUser
    case CopyOut => SourceUser
    case CreateExtension => TargetUser
    case Restore => TargetUser
    case DropTrigger => TargetUser
    case CreateHypertable => TargetUser
    case CopyIn => TargetUser
    case _ => Admin
  }

  /** Steps run with `check=True`: a non-zero exit raises. */
  predicate Checked(step: Step)
  {
    step != DropDatabase && step != DropTrigger
  }

  /** The one step whose stderr is captured, so the raised error carries it. */
  predicate Captured(step: Step)
  {
    step == CreateHypertable
  }

  /** The text of the TypeError `subprocess.run` raises for a `None` value in its environment. */
  const NoneEnvError: string := "expected str, bytes or os.PathLike object, not NoneType"
  const CalledProcessPrefix: string := "Sync CMD failed: "
  const CompletedMessage: string := "PostgreSQL sync completed."

  /**
   * Everything a sync depends on: what each tool would meet, whether the CSV export
   * leaves a file behind, the admin password (read from the environment, so always a
   * string) and the payload's two passwords.
   */
  datatype Setting = Setting(
    outcome: Step -> StepOutcome,
    csvWritten: bool,
    adminPassword: string,
    sourcePassword: Option<string>,
    targetPassword: Option<string>)

  /** The PGPASSWORD a step is started with. */
  function EnvPassword(s: Setting, step: Step): Option<string>
  {
    match CredentialOf(step)
    case Admin => Some(s.adminPassword)
    case SourceUser => s.sourcePassword
    case TargetUser => s.targetPassword
  }

  /** A step whose environment holds `None` cannot be launched; otherwise the tool decides. */
  function Launch(outcome: Step -> StepOutcome, step: Step, env: Option<string>): StepOutcome
  {
    if env.None? then NotStarted(NoneEnvError) else outcome(step)
  }

  function Meets(s: Setting, step: Step): StepOutcome
  {
    Launch(s.outcome, step, EnvPassword(s, step))
  }

  /** A step that raises: a launch failure always, a non-zero exit when checked. */
  predicate Fatal(step: Step, o: StepOutcome)
  {
    o.NotStarted? || (o.NonZero? && Checked(step))
  }

  /** The message the sync reports for a fatal step. */
  function FailureMessage(step: Step, o: StepOutcome): string
  {
    match o
    case NotStarted(e) => e
    case NonZero(err) => CalledProcessPrefix + (if Captured(step) then err else "None")
    case Ok => ""
  }

  /** What the sync returns when `step` raised with outcome `o`. */
  function Raised(step: Step, o: StepOutcome): SyncResult
  {
    SyncResult(Error, FailureMessage(step, o), 0)
  }

  function Failed(s: Setting, step: Step): SyncResult
  {
    Raised(step, Meets(s, step))
  }

  /** The steps of the outer `try` before the inner one. */
  const Prelude: seq<Step> :=
    [DropDatabase, CreateDatabase, CreateExtension, PreRestore, DumpSource, Restore,
     DropTrigger, CreateHypertable, RestoringOff]

  /** The inner `try`: the import runs only when the export left a CSV file. */
  function CopySteps(s: Setting): seq<Step>
  {
    if s.csvWritten then [CopyOut, CopyIn] else [CopyOut]
  }

  /**
   * Where a run of `steps` in order stops: the index of the first fatal step, or
   * `|steps|` when none is fatal.
   */
  function FirstFatal(s: Setting, steps: seq<Step>): (n: nat)
    ensures n <= |steps|
    ensures forall k :: 0 <= k < n ==> !Fatal(steps[k], Meets(s, steps[k]))
    ensures n < |steps| ==> Fatal(steps[n], Meets(s, steps[n]))
  {
    if steps == [] then 0
    else if Fatal(steps[0], Meets(s, steps[0])) then 0
    else 1 + FirstFatal(s, steps[1..])
  }

  /** The steps a run of `steps` starts: all of them up to and including the first fatal one. */
  function Started(s: Setting, steps: seq<Step>): seq<Step>
  {
    var n := FirstFatal(s, steps);
    if n < |steps| then steps[..n + 1] else steps
  }

  datatype Run = Run(trace: seq<Step>, result: SyncResult)

  /**
   * The reference semantics of one sync: the prelude stops at its first fatal step; once
   * it is through, the restoring flag is always switched back on after the copy phase,
   * and a failure there replaces the copy phase's own; the post-restore step runs last.
   */
  function Sync(s: Setting): Run
  {
    var p := FirstFatal(s, Prelude);
    if p < |Prelude| then Run(Prelude[..p + 1], Failed(s, Prelude[p]))
    else
      var copy := CopySteps(s);
      var c := FirstFatal(s, copy);
      var upTo := Prelude + Started(s, copy) + [RestoringOn];
      if Fatal(RestoringOn, Meets(s, RestoringOn)) then Run(upTo, Failed(s, RestoringOn))
      else if c < |copy| then Run(upTo, Failed(s, copy[c]))
      else if Fatal(PostRestore, Meets(s, PostRestore)) then Run(upTo + [PostRestore], Failed(s, PostRestore))
      else Run(upTo + [PostRestore], SyncResult(Success, CompletedMessage, 0))
  }

  // ---------------------------------------------------------------------------
  // Lemmas about one run
  // ---------------------------------------------------------------------------

  /** The contract of `FirstFatal` pins it down: any index with its two properties is it. */
  lemma FirstFatalIs(s: Setting, steps: seq<Step>, n: nat)
    requires n <= |steps|
    requires forall k :: 0 <= k < n ==> !Fatal(steps[k], Meets(s, steps[k]))
    requires n < |steps| ==> Fatal(steps[n], Meets(s, steps[n]))
    ensures FirstFatal(s, steps) == n
  {
  }

  /**
   * A sync succeeds exactly when none of the steps it ran raised, and a successful sync
   * ran every step, with the import only when the export left a file.
   */
  lemma SuccessIffNoFatalStep(s: Setting)
    ensures Sync(s).result.status == Success <==>
      forall k :: 0 <= k < |Sync(s).trace| ==> !Fatal(Sync(s).trace[k], Meets(s, Sync(s).trace[k]))
    ensures Sync(s).result.status == Success ==>
      Sync(s).trace == Prelude + CopySteps(s) + [RestoringOn, PostRestore] &&
      Sync(s).result == SyncResult(Success, CompletedMessage, 0)
  {
    var r := Sync(s);
    var p := FirstFatal(s, Prelude);
    var copy := CopySteps(s);
    var c := FirstFatal(s, copy);
    if p < |Prelude| {
      assert r.trace[p] == Prelude[p];
    } else {
      var upTo := Prelude + Started(s, copy) + [RestoringOn];
      assert upTo[|upTo| - 1] == RestoringOn;
      if c < |copy| {
        assert upTo[|Prelude| + c] == copy[c];
      }
      assert (upTo + [PostRestore])[|upTo|] == PostRestore;
      if r.result.status == Success {
        forall k | 0 <= k < |r.trace|
          ensures !Fatal(r.trace[k], Meets(s, r.trace[k]))
        {
          if k < |Prelude| {
            assert r.trace[k] == Prelude[k];
          } else if k < |Prelude| + |copy| {
            assert r.trace[k] == copy[k - |Prelude|];
          }
        }
      }
    }
  }

  /** The restoring flag is switched back on exactly when switching it off succeeded. */
  lemma RestoringOnIffOffSucceeded(s: Setting)
    ensures RestoringOn in Sync(s).trace <==>
      RestoringOff in Sync(s).trace && !Fatal(RestoringOff, Meets(s, RestoringOff))
  {
    var p := FirstFatal(s, Prelude);
    var copy := CopySteps(s);
    if p < |Prelude| {
      assert RestoringOn !in Prelude;
      assert RestoringOff in Prelude[..p + 1] ==> p == 8 by {
        if RestoringOff in Prelude[..p + 1] {
          var k :| 0 <= k < p + 1 && Prelude[..p + 1][k] == RestoringOff;
          assert Prelude[k] == RestoringOff;
        }
      }
    } else {
      var t := Sync(s).trace;
      assert t[8] == RestoringOff;
      assert t[|t| - 1] == RestoringOn || t[|t| - 2] == RestoringOn;
    }
  }

  /**
   * A failed sync reports the message of the last step that raised: the first fatal step
   * of the prelude, or of the copy phase unless switching the restoring flag back on
   * also raised, in which case that failure wins.
   */
  lemma ErrorIsLastFailure(s: Setting)
    ensures var r := Sync(s);
      r.result.status == Error ==>
        exists n :: 0 <= n < |r.trace| && Fatal(r.trace[n], Meets(s, r.trace[n])) &&
          r.result == Failed(s, r.trace[n]) &&
          forall k :: n < k < |r.trace| ==> !Fatal(r.trace[k], Meets(s, r.trace[k]))
  {
    var r := Sync(s);
    var p := FirstFatal(s, Prelude);
    var copy := CopySteps(s);
    var c := FirstFatal(s, copy);
    if p < |Prelude| {
      assert r.trace[p] == Prelude[p];
    } else {
      var upTo := Prelude + Started(s, copy) + [RestoringOn];
      if Fatal(RestoringOn, Meets(s, RestoringOn)) {
        assert r.trace[|upTo| - 1] == RestoringOn;
      } else if c < |copy| {
        assert r.trace[|Prelude| + c] == copy[c];
        assert r.trace[|Prelude| + c + 1] == RestoringOn;
      } else if Fatal(PostRestore, Meets(s, PostRestore)) {
        assert r.trace[|upTo|] == PostRestore;
      }
    }
  }

  /** A fatal step outside the copy phase ends the run; one inside it is followed only by switching restoring back on. */
  lemma FatalStepStopsTheRun(s: Setting, n: nat)
    requires n < |Sync(s).trace| && Fatal(Sync(s).trace[n], Meets(s, Sync(s).trace[n]))
    ensures var t := Sync(s).trace;
      if t[n] == CopyOut || t[n] == CopyIn then t[n + 1..] == [RestoringOn] else n == |t| - 1
  {
    var t := Sync(s).trace;
    var p := FirstFatal(s, Prelude);
    var copy := CopySteps(s);
    var c := FirstFatal(s, copy);
    if n < |Prelude| {
      assert t[n] == Prelude[n];
      assert p == n;
    } else if n < |Prelude| + |Started(s, copy)| {
      assert t[n] == copy[n - |Prelude|];
      assert c == n - |Prelude|;
      assert t[n + 1..] == [RestoringOn];
    }
  }

  /** However a sync goes, it reports no rows. */
  lemma RowsAlwaysZero(s: Setting)
    ensures Sync(s).result.rowsSynced == 0
  {
  }

  /**
   * The two unchecked steps cannot change a sync: whatever exit status they have, as long
   * as they can be launched, the same steps run and the same result is reported.
   */
  lemma UncheckedExitsDoNotMatter(s: Setting, u: Setting)
    requires s.csvWritten == u.csvWritten
    requires forall step :: Checked(step) ==> Meets(s, step) == Meets(u, step)
    requires forall step :: !Checked(step) ==> !Meets(s, step).NotStarted? && !Meets(u, step).NotStarted?
    ensures Sync(s) == Sync(u)
  {
    assert forall step :: Fatal(step, Meets(s, step)) == Fatal(step, Meets(u, step));
    FirstFatalAgrees(s, u, Prelude);
    FirstFatalAgrees(s, u, CopySteps(s));
  }

  lemma {:induction false} FirstFatalAgrees(s: Setting, u: Setting, steps: seq<Step>)
    requires forall step :: Fatal(step, Meets(s, step)) == Fatal(step, Meets(u, step))
    ensures FirstFatal(s, steps) == FirstFatal(u, steps)
  {
    if steps != [] {
      FirstFatalAgrees(s, u, steps[1..]);
    }
  }

  /**
   * A payload without a target password fails at the first step run as the target user,
   * with the TypeError of the environment, once the database has been recreated.
   */
  lemma MissingTargetPassword(s: Setting)
    requires s.targetPassword.None?
    requires !Meets(s, DropDatabase).NotStarted? && !Fatal(CreateDatabase, Meets(s, CreateDatabase))
    ensures Sync(s) == Run([DropDatabase, CreateDatabase, CreateExtension], SyncResult(Error, NoneEnvError, 0))
  {
    FirstFatalIs(s, Prelude, 2);
    assert Prelude[..3] == [DropDatabase, CreateDatabase, CreateExtension];
  }

  // ---------------------------------------------------------------------------
  // The tools and the sync as it runs them
  // ---------------------------------------------------------------------------

  /** The external tools: what each step meets, and the steps started so far. */
  class Toolchain {
    const outcome: Step -> StepOutcome
    const csvWritten: bool
    var attempted: seq<Step>

    constructor (outcome: Step -> StepOutcome, csvWritten: bool)
      ensures this.outcome == outcome && this.csvWritten == csvWritten && attempted == []
    {
      this.outcome := outcome;
      this.csvWritten := csvWritten;
      attempted := [];
    }

    /** `subprocess.run` of one step with PGPASSWORD set to `env`. */
    method Run(step: Step, env: Option<string>) returns (o: StepOutcome)
      modifies this
      ensures o == Launch(outcome, step, env)
      ensures attempted == old(attempted) + [step]
    {
      attempted := attempted + [step];
      o := Launch(outcome, step, env);
    }

    /** Whether the export left its CSV file behind. */
    method CsvExists() returns (b: bool)
      ensures b == csvWritten
    {
      b := csvWritten;
    }
  }

  /** The restore steps of the outer `try`, up to switching the restoring flag off. */
  method RestoreSchema(tools: Toolchain, s: Setting) returns (failure: Option<SyncResult>)
    requires s.outcome == tools.outcome
    modifies tools
    ensures var p := FirstFatal(s, Prelude);
      tools.attempted == old(tools.attempted) + Started(s, Prelude) &&
      failure == if p < |Prelude| then Some(Failed(s, Prelude[p])) else None
  {
    ghost var start := tools.attempted;
    failure := RunPreludeStep(tools, s, 0, start);
    if failure.Some? {
      FirstFatalIs(s, Prelude, 0);
      return;
    }
    failure := RunPreludeStep(tools, s, 1, start);
    if failure.Some? {
      FirstFatalIs(s, Prelude, 1);
      return;
    }
    failure := RunPreludeStep(tools, s, 2, start);
    if failure.Some? {
      FirstFatalIs(s, Prelude, 2);
      return;
    }
    failure := RunPreludeStep(tools, s, 3, start);
    if failure.Some? {
      FirstFatalIs(s, Prelude, 3);
      return;
    }
    failure := RunPreludeStep(tools, s, 4, start);
    if failure.Some? {
      FirstFatalIs(s, Prelude, 4);
      return;
    }
    failure := RunPreludeStep(tools, s, 5, start);
    if failure.Some? {
      FirstFatalIs(s, Prelude, 5);
      return;
    }
    failure := RunPreludeStep(tools, s, 6, start);
    if failure.Some? {
      FirstFatalIs(s, Prelude, 6);
      return;
    }
    failure := RunPreludeStep(tools, s, 7, start);
    if failure.Some? {
      FirstFatalIs(s, Prelude, 7);
      return;
    }
    failure := RunPreludeStep(tools, s, 8, start);
    if failure.Some? {
      FirstFatalIs(s, Prelude, 8);
      return;
    }
    FirstFatalIs(s, Prelude, |Prelude|);
    assert Prelude[..|Prelude|] == Prelude;
  }

  /** One `subprocess.run` of the outer `try`, with the step's own PGPASSWORD. */
  method RunPreludeStep(tools: Toolchain, s: Setting, k: nat, ghost start: seq<Step>) returns (failure: Option<SyncResult>)
    requires k < |Prelude| && s.outcome == tools.outcome
    requires tools.attempted == start + Prelude[..k]
    modifies tools
    ensures tools.attempted == start + Prelude[..k + 1]
    ensures failure == if Fatal(Prelude[k], Meets(s, Prelude[k])) then Some(Failed(s, Prelude[k])) else None
  {
    var o := tools.Run(Prelude[k], EnvPassword(s, Prelude[k]));
    TakeOneMore(start, Prelude, k);
    failure := if Fatal(Prelude[k], o) then Some(Raised(Prelude[k], o)) else None;
  }

  lemma TakeOneMore(start: seq<Step>, steps: seq<Step>, k: nat)
    requires k < |steps|
    ensures start + steps[..k] + [steps[k]] == start + steps[..k + 1]
  {
    assert steps[..k + 1] == steps[..k] + [steps[k]];
  }

  /** The inner `try`: export the hypertable to CSV, and import the file if it exists. */
  method CopyHypertable(tools: Toolchain, s: Setting) returns (pending: Option<SyncResult>)
    requires s.outcome == tools.outcome && s.csvWritten == tools.csvWritten
    modifies tools
    ensures var c := FirstFatal(s, CopySteps(s));
      tools.attempted == old(tools.attempted) + Started(s, CopySteps(s)) &&
      pending == if c < |CopySteps(s)| then Some(Failed(s, CopySteps(s)[c])) else None
  {
    var o := tools.Run(CopyOut, s.sourcePassword);
    if Fatal(CopyOut, o) {
      FirstFatalIs(s, CopySteps(s), 0);
      return Some(Raised(CopyOut, o));
    }
    var csv := tools.CsvExists();
    if csv {
      o := tools.Run(CopyIn, s.targetPassword);
      if Fatal(CopyIn, o) {
        FirstFatalIs(s, CopySteps(s), 1);
        return Some(Raised(CopyIn, o));
      }
    }
    FirstFatalIs(s, CopySteps(s), |CopySteps(s)|);
    return None;
  }

  /**
   * `sync_postgresql_to_postgresql`: the steps in source order; a step that raises in the
   * outer `try` ends the sync with its message; the inner `finally` switches the restoring
   * flag back on whatever the copy phase did, and its own failure replaces the pending one.
   */
  method SyncPostgresqlToPostgresql(tools: Toolchain, adminPassword: string,
                                    sourcePassword: Option<string>, targetPassword: Option<string>)
    returns (result: SyncResult)
    modifies tools
    ensures var run := Sync(Setting(tools.outcome, tools.csvWritten, adminPassword, sourcePassword, targetPassword));
      result == run.result && tools.attempted == old(tools.attempted) + run.trace
  {
    var s := Setting(tools.outcome, tools.csvWritten, adminPassword, sourcePassword, targetPassword);
    var failure := RestoreSchema(tools, s);
    if failure.Some? {
      return failure.value;
    }
    var pending := CopyHypertable(tools, s);
    // the inner `finally`
    var o := tools.Run(RestoringOn, Some(adminPassword));
    if Fatal(RestoringOn, o) {
      return Raised(RestoringOn, o);
    }
    if pending.Some? {
      return pending.value;
    }
    o := tools.Run(PostRestore, Some(adminPassword));
    if Fatal(PostRestore, o) {
      return Raised(PostRestore, o);
    }
    var rowsSynced := 0;
    return SyncResult(Success, CompletedMessage, rowsSynced);
  }
}
