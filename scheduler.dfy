/**
 * `ParserScheduler`: starts and stops a background scheduler that runs the rate update
 * periodically, and reports its status. The background scheduler library is modelled
 * by what can be observed of it: its registered jobs and whether it has been started;
 * where one of its calls raises is a parameter of `Start`.
 */
module Scheduler {
  import opened Common
  import opened Errors
  import opened Updater

  /** When a job fires: every so many minutes, or once, as soon as possible. */
  datatype Trigger = EveryMinutes(minutes: int) | Once

  /** The two callbacks the scheduler runs. */
  datatype Task = ScheduledUpdateTask | ScheduledCleanupTask

  datatype Job = Job(id: string, task: Task, trigger: Trigger)

  /** The interval of the cleanup job: 24 hours. */
  const CleanupMinutes := 24 * 60

  /** The jobs a successful `start` registers, in order. */
  function StartJobs(intervalMinutes: int): (jobs: seq<Job>)
    ensures |jobs| == 3
    ensures forall i, j | 0 <= i < j < |jobs| :: jobs[i].id != jobs[j].id
    ensures forall i | 0 <= i < |jobs| :: jobs[i].trigger.Once? <==> jobs[i].id == "initial_update"
  {
    [Job("rates_update", ScheduledUpdateTask, EveryMinutes(intervalMinutes)),
     Job("data_cleanup", ScheduledCleanupTask, EveryMinutes(CleanupMinutes)),
     Job("initial_update", ScheduledUpdateTask, Once)]
  }

  /** The library's scheduler object: its jobs and whether its runner was started. */
  class BackgroundScheduler {
    var jobs: seq<Job>
    var running: bool

    constructor ()
      ensures jobs == [] && !running
    {
      jobs := [];
      running := false;
    }

    method AddJob(job: Job)
      modifies this`jobs
      ensures jobs == old(jobs) + [job]
    {
      jobs := jobs + [job];
    }

    method Start()
      modifies this`running
      ensures running
    {
      running := true;
    }

    method Shutdown()
      modifies this`running
      ensures !running
    {
      running := false;
    }
  }

  /** The library call inside `start` that raises, if one does. */
  datatype StartStep = Construct | AddUpdateJob | AddCleanupJob | StartRunner | AddInitialJob

  /** What `get_status` returns when the scheduler is not running. */
  datatype Status = Status(status: string, isRunning: bool)

  /** How `_scheduled_update` logs the outcome of a run. */
  datatype UpdateLog = LogError | LogWarning | LogInfo

  /** An error when no source succeeded, a warning when some failed, otherwise information. */
  function Classify(results: UpdateResults): (log: UpdateLog)
    ensures log == LogError <==> |results.successful| == 0
    ensures log == LogWarning <==> |results.successful| > 0 && |results.failed| > 0
    ensures log == LogInfo <==> |results.successful| > 0 && |results.failed| == 0
  {
    if |results.successful| == 0 then LogError
    else if |results.failed| > 0 then LogWarning
    else LogInfo
  }

  /** With the default sources, every source failing is logged as an error and every one succeeding as information. */
  lemma ClassifyDefaultRun(attempts: seq<Attempt>)
    requires |attempts| == |DefaultSources|
    ensures Classify(Tally(DefaultSources, attempts)) == LogError <==> !Succeeded(attempts[0]) && !Succeeded(attempts[1])
    ensures Classify(Tally(DefaultSources, attempts)) == LogInfo <==> Succeeded(attempts[0]) && Succeeded(attempts[1])
  {
    TallyPartition(DefaultSources, attempts);
    TallyOutcome(DefaultSources, attempts, 0);
    TallyOutcome(DefaultSources, attempts, 1);
    assert DefaultSources[0] == "coingecko" && DefaultSources[1] == "exchangerate";
    var res := Tally(DefaultSources, attempts);
    assert forall n | n in res.successful :: n in DefaultSources;
    assert forall n | n in res.failed :: n in DefaultSources;
    if |res.successful| > 0 {
      assert res.successful[0] in res.successful;
    }
    if |res.failed| > 0 {
      assert res.failed[0] in res.failed;
    }
  }

  class ParserScheduler {
    const updater: RatesUpdater
    var scheduler: Option<BackgroundScheduler>
    var isRunning: bool

    /** Running means a started scheduler exists. */
    ghost predicate Valid()
      reads this, if scheduler.Some? then {scheduler.value} else {}
    {
      isRunning ==> scheduler.Some? && scheduler.value.running
    }

    constructor (updater: RatesUpdater)
      ensures Valid() && this.updater == updater && scheduler == None && !isRunning
    {
      this.updater := updater;
      scheduler := None;
      isRunning := false;
    }

    /**
     * `start`: nothing when already running. Otherwise a new scheduler gets the periodic
     * update, the daily cleanup and, after it is started and marked running, a one-off
     * update. A raising library call propagates as `SchedulerError`; every call before
     * the runner starts leaves the flag false, but the last one happens after the flag
     * is set, so its failure leaves the scheduler running.
     */
    method Start(intervalMinutes: int, failure: Option<StartStep>) returns (r: Outcome<Error>)
      requires Valid()
      modifies this`scheduler, this`isRunning
      ensures Valid()
      ensures old(isRunning) ==> r == Pass && scheduler == old(scheduler) && isRunning
      ensures !old(isRunning) && failure == Some(Construct) ==>
                r == Fail(SchedulerError) && scheduler == old(scheduler) && !isRunning
      ensures !old(isRunning) && failure != Some(Construct) ==> scheduler.Some? && fresh(scheduler.value)
      ensures !old(isRunning) && failure.Some? && failure.value != AddInitialJob ==> r == Fail(SchedulerError) && !isRunning
      ensures !old(isRunning) && failure == Some(AddUpdateJob) ==> scheduler.value.jobs == [] && !scheduler.value.running
      ensures !old(isRunning) && failure == Some(AddCleanupJob) ==>
                scheduler.value.jobs == StartJobs(intervalMinutes)[..1] && !scheduler.value.running
      ensures !old(isRunning) && failure == Some(StartRunner) ==>
                scheduler.value.jobs == StartJobs(intervalMinutes)[..2] && !scheduler.value.running
      ensures !old(isRunning) && failure == Some(AddInitialJob) ==>
                && r == Fail(SchedulerError) && isRunning
                && scheduler.value.jobs == StartJobs(intervalMinutes)[..2] && scheduler.value.running
      ensures !old(isRunning) && failure.None? ==>
                r == Pass && isRunning && scheduler.value.jobs == StartJobs(intervalMinutes) && scheduler.value.running
    {
      if isRunning {
        return Pass;
      }
      if failure == Some(Construct) {
        return Fail(SchedulerError);
      }
      var s := new BackgroundScheduler();
      scheduler := Some(s);
      var jobs := StartJobs(intervalMinutes);
      if failure == Some(AddUpdateJob) {
        return Fail(SchedulerError);
      }
      s.AddJob(jobs[0]);
      if failure == Some(AddCleanupJob) {
        return Fail(SchedulerError);
      }
      s.AddJob(jobs[1]);
      if failure == Some(StartRunner) {
        return Fail(SchedulerError);
      }
      s.Start();
      isRunning := true;
      if failure == Some(AddInitialJob) {
        return Fail(SchedulerError);
      }
      s.AddJob(jobs[2]);
      return Pass;
    }

    /** `stop`: shuts the scheduler down only when one exists and is running; otherwise nothing. */
    method Stop()
      requires Valid()
      modifies this`isRunning, if scheduler.Some? then {scheduler.value} else {}
      ensures Valid() && !isRunning
      ensures scheduler == old(scheduler)
      ensures old(isRunning) ==> !scheduler.value.running && scheduler.value.jobs == old(scheduler.value.jobs)
      ensures !old(isRunning) ==> scheduler.Some? ==> unchanged(scheduler.value)
    {
      if scheduler.Some? && isRunning {
        scheduler.value.Shutdown();
        isRunning := false;
      }
    }

    /**
     * `get_status`: exactly the stopped report unless running; when running it calls the
     * updater's `get_update_status`, which `RatesUpdater` does not define.
     */
    method GetStatus() returns (r: Result<Status, Error>)
      ensures scheduler.None? || !isRunning ==> r == Ok(Status("stopped", false))
      ensures scheduler.Some? && isRunning ==> r == Err(AttributeError("get_update_status"))
    {
      if scheduler.None? || !isRunning {
        return Ok(Status("stopped", false));
      }
      return Err(AttributeError("get_update_status"));
    }

    /**
     * `_scheduled_update`: one run over the default sources, classified for the log; it
     * never raises. The store changes as that run changes it.
     */
    method ScheduledUpdate(attempts: seq<Attempt>) returns (log: UpdateLog, ghost orders: seq<seq<string>>)
      requires |attempts| == |DefaultSources|
      modifies updater.storage
      ensures log == Classify(Tally(DefaultSources, attempts))
      ensures updater.storage.snapshotFile == FinalSnapshot(DefaultSources, attempts, old(updater.storage.snapshotFile))
      ensures old(updater.storage.LoadLedger()) <= updater.storage.LoadLedger()
      ensures |updater.storage.LoadLedger()| == |old(updater.storage.LoadLedger())| + Growth(DefaultSources, attempts)
      ensures !AnyHistorySaved(DefaultSources, attempts) ==> updater.storage.ledgerFile == old(updater.storage.ledgerFile)
      ensures |orders| == |attempts|
      ensures OrdersFit(DefaultSources, attempts, orders)
      ensures updater.storage.LoadLedger() == old(updater.storage.LoadLedger()) + Appended(DefaultSources, attempts, orders)
    {
      var results;
      results, orders := updater.RunUpdate(None, attempts);
      log := Classify(results);
    }

    /**
     * `_scheduled_cleanup`: the updater's `cleanup_old_data` does not exist, so the call
     * raises `AttributeError`, which is caught and logged; nothing changes.
     */
    method ScheduledCleanup() returns (logged: Option<Error>)
      ensures logged == Some(AttributeError("cleanup_old_data"))
    {
      logged := Some(AttributeError("cleanup_old_data"));
    }
  }
}
