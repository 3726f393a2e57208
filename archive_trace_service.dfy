/**
 * Ci::ArchiveTraceService as imperative code over mutable objects: the job
 * (with its trace), the failure counter held by the metrics registry, and
 * the service, which memoises that counter and collects what it logs and
 * reports.  Every method is proved to leave the objects in the state that
 * ArchiveTraceSpec computes from the state before the call.
 */
module Ci {
  import opened ArchiveTraceSpec

  /** A monotonic metric, as Gitlab::Metrics.counter hands it out. */
  class Counter {
    var value: nat

    constructor ()
      ensures value == 0
    {
      value := 0;
    }

    method Increment()
      modifies this
      ensures value == old(value) + 1
    {
      value := value + 1;
    }
  }

  /** The job and its trace, with the collaborator effects execute invokes.
      The three guard facts are inputs: no method here updates them, although
      cleanup and archive! change what has_live_trace? reports. */
  class Job {
    const id: int
    var archivalAttempts: nat
    var attemptsAvailable: bool
    var canAttemptNow: bool
    var hasLiveTrace: bool
    var hasArchivedTrace: bool
    var pendingState: bool
    var cleanupCalls: nat
    var archiveCalls: nat
    var hooksFired: nat

    constructor (id: int, attempts: nat, attemptsAvailable: bool, canAttemptNow: bool,
                 hasLiveTrace: bool, hasArchivedTrace: bool, pendingState: bool)
      ensures Value() == JobState(id, GuardFacts(attemptsAvailable, canAttemptNow, hasLiveTrace),
                                  Progress(attempts, hasArchivedTrace, pendingState), Calls(0, 0, 0))
    {
      this.id := id;
      archivalAttempts := attempts;
      this.attemptsAvailable := attemptsAvailable;
      this.canAttemptNow := canAttemptNow;
      this.hasLiveTrace := hasLiveTrace;
      this.hasArchivedTrace := hasArchivedTrace;
      this.pendingState := pendingState;
      cleanupCalls, archiveCalls, hooksFired := 0, 0, 0;
    }

    function Value(): JobState
      reads this
    {
      JobState(id, GuardFacts(attemptsAvailable, canAttemptNow, hasLiveTrace),
               Progress(archivalAttempts, hasArchivedTrace, pendingState),
               Calls(cleanupCalls, archiveCalls, hooksFired))
    }

    /** job.trace.attempt_archive_cleanup! */
    method AttemptArchiveCleanup()
      modifies this`cleanupCalls
      ensures cleanupCalls == old(cleanupCalls) + 1
    {
      cleanupCalls := cleanupCalls + 1;
    }

    /** job.trace.archive!: recorded as called; on success the trace
        artifact is present or not as the outcome says. */
    method Archive(outcome: ArchiveOutcome)
      modifies this`archiveCalls, this`hasArchivedTrace
      ensures archiveCalls == old(archiveCalls) + 1
      ensures hasArchivedTrace == if outcome.Archives? then outcome.artifactPresent else old(hasArchivedTrace)
    {
      archiveCalls := archiveCalls + 1;
      if outcome.Archives? {
        hasArchivedTrace := outcome.artifactPresent;
      }
    }

    /** job.remove_pending_state! */
    method RemovePendingState()
      modifies this`pendingState
      ensures !pendingState
    {
      pendingState := false;
    }

    /** job.project.execute_integrations(..., :archive_trace_hooks) */
    method ExecuteArchiveTraceHooks()
      modifies this`hooksFired
      ensures hooksFired == old(hooksFired) + 1
    {
      hooksFired := hooksFired + 1;
    }

    /** job.trace.increment_archival_attempts! */
    method IncrementArchivalAttempts()
      modifies this`archivalAttempts
      ensures archivalAttempts == old(archivalAttempts) + 1
    {
      archivalAttempts := archivalAttempts + 1;
    }
  }

  class ArchiveTraceService {
    /** The job_trace_archive_failed_total counter in the metrics registry. */
    const registry: Counter
    /** @failed_archive_counter: null until the first failure. */
    var failedArchiveCounter: Counter?
    /** The lines this service wrote to the Sidekiq logger. */
    var warnings: seq<LogEntry>
    /** The errors this service handed to error tracking. */
    var reports: seq<ErrorReport>

    ghost predicate Valid()
      reads this
    {
      failedArchiveCounter == null || failedArchiveCounter == registry
    }

    constructor (registry: Counter)
      ensures Valid()
      ensures this.registry == registry && failedArchiveCounter == null
      ensures warnings == [] && reports == []
    {
      this.registry := registry;
      failedArchiveCounter := null;
      warnings, reports := [], [];
    }

    /** Everything execute reads and writes, as a value. */
    function Snapshot(job: Job): World
      reads this, registry, job
    {
      World(job.Value(), registry.value, warnings, reports)
    }

    /** execute(job, worker_name:), with the collaborators' behaviour given. */
    method Execute(job: Job, workerName: string, c: Collaborators) returns (path: Path)
      requires Valid()
      modifies this, registry, job
      ensures Valid()
      ensures Outcome(Snapshot(job), path) == ArchiveTraceSpec.Execute(old(Snapshot(job)), workerName, c)
      ensures failedArchiveCounter == if path == Failed then registry else old(failedArchiveCounter)
    {
      var b := Attempt(job, workerName, c);
      match b
      case Returned(p) =>
        path := p;
      case Raised(AlreadyArchivedError) =>
        // already archived: safe to ignore
        path := AlreadyArchived;
      case Raised(StandardError(m)) =>
        job.IncrementArchivalAttempts();
        ArchiveError(m, job, workerName);
        path := Failed;
    }

    /** The body of execute, up to its return or the error it raises. */
    method Attempt(job: Job, workerName: string, c: Collaborators) returns (b: BodyResult)
      modifies this`warnings, job
      ensures Interim(Snapshot(job), b) == ArchiveTraceSpec.Attempt(old(Snapshot(job)), workerName, c)
    {
      if !job.attemptsAvailable {
        Warn(workerName, OutOfAttemptsMessage, job.id);
        job.AttemptArchiveCleanup();
        if c.cleanup.Raises? {
          return Raised(c.cleanup.error);
        }
        return Returned(OutOfAttempts);
      }

      if !job.canAttemptNow {
        Warn(workerName, NotNowMessage, job.id);
        return Returned(NotNow);
      }

      if !job.hasLiveTrace {
        Warn(workerName, NoLiveTraceMessage, job.id);
        return Returned(NoLiveTrace);
      }

      job.Archive(c.archive);
      if c.archive.ArchiveRaises? {
        return Raised(c.archive.error);
      }
      if c.removePending.Raises? {
        return Raised(c.removePending.error);
      }
      job.RemovePendingState();

      if c.datadogLogsEnabled && job.hasArchivedTrace {
        job.ExecuteArchiveTraceHooks();
        if c.integrations.Raises? {
          return Raised(c.integrations.error);
        }
      }

      if !job.hasArchivedTrace {
        Warn(workerName, NoArchivedTraceMessage, job.id);
      }
      return Returned(Archived);
    }

    /** The memoised failed_archive_counter. */
    method FailedArchiveCounter() returns (counter: Counter)
      requires Valid()
      modifies this`failedArchiveCounter
      ensures counter == registry && failedArchiveCounter == registry
    {
      if failedArchiveCounter == null {
        failedArchiveCounter := registry;
      }
      counter := failedArchiveCounter;
    }

    /** archive_error(error, job, worker_name), in production: count, log and
        report, never raise. */
    method ArchiveError(message: string, job: Job, workerName: string)
      requires Valid()
      modifies this`failedArchiveCounter, this`warnings, this`reports, registry
      ensures failedArchiveCounter == registry
      ensures registry.value == old(registry.value) + 1
      ensures warnings == old(warnings) + [LogEntry(workerName, FailureMessage(message), job.id)]
      ensures reports == old(reports) + [ErrorReport(message, FailureIssueUrl, job.id)]
    {
      var counter := FailedArchiveCounter();
      counter.Increment();
      Warn(workerName, FailureMessage(message), job.id);
      reports := reports + [ErrorReport(message, FailureIssueUrl, job.id)];
    }

    /** Sidekiq.logger.warn(class: worker_name, message: ..., job_id: ...) */
    method Warn(workerName: string, message: Message, jobId: int)
      modifies this`warnings
      ensures warnings == old(warnings) + [LogEntry(workerName, message, jobId)]
    {
      warnings := warnings + [LogEntry(workerName, message, jobId)];
    }
  }
}
