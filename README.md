# Ci::ArchiveTraceService, modelled in Dafny

`Ci::ArchiveTraceService#execute` is the step that turns a CI job's live log
(its trace) into an archived trace artifact. It is called by a Sidekiq worker.
In production no `StandardError` raised in its body escapes it. The step does four things:

1. It checks three guards in order: attempts left, allowed right now, live
   trace present.
   - With no attempts left, it asks the trace to clean up.
   - When it is not allowed now, or there is no live trace, it logs a warning
     and returns.
2. If the guards pass, it calls `archive!` and removes the job's pending
   state.
3. When the Datadog log-collection flag is on and the trace artifact exists,
   it fires the project's `archive_trace_hooks`.
4. It warns if the job has no archived trace afterwards.

Errors are handled by two rescue clauses:

- `Gitlab::Ci::Trace::AlreadyArchivedError` raised anywhere in the body is
  swallowed.
- Any other `StandardError` costs one archival attempt. It is then handled by
  `archive_error`.
  - `archive_error` increments the memoised `job_trace_archive_failed_total`
    counter, logs the message and reports to error tracking.

The project has two files.

- `archive_trace_spec.dfy`, module `ArchiveTraceSpec`, is the value model.
  - `Execute` is a function from a `World` (the job state and everything the
    service emits) and the collaborators' behaviour to the new `World` and the
    `Path` taken.
  - The body is `Attempt`; its part after the guards is `ArchiveAndNotify`.
    The rescue clauses, with `archive_error`, are `Rescue`. `Text` gives the
    wording of each logged message.
  - Dafny has no exceptions, so a raising collaborator is the `Raises` /
    `ArchiveRaises` case of its outcome. The body then ends in `Raised(error)`.
  - Lemmas state each source property for one invocation. Inductive lemmas
    state them over any sequence of invocations (`Run`).
- `archive_trace_service.dfy`, module `Ci`, is the imperative model.
  - It has three classes: `Counter` (the metric), `Job` (the job and its
    trace, with one method per collaborator effect) and `ArchiveTraceService`.
  - `ArchiveTraceService` holds the memoised `failedArchiveCounter`. Its
    methods mirror `execute`, `failed_archive_counter` and `archive_error`
    line by line.
  - `ArchiveTraceService.Execute` and `Attempt` are proved to leave the
    objects in the state that `ArchiveTraceSpec.Execute` / `Attempt` compute
    from the state before the call.

Collaborators that the service only calls are parameters
(`Collaborators`). The three guard predicates are inputs: they are fields of
the job that the model's `execute` does not update, although in the program
`attempt_archive_cleanup!` and `archive!` change what `has_live_trace?`
reports. The policy that decides them (a maximum number of attempts, a
cooldown, live trace chunks) lives outside this file. Over several
invocations (`Run`), each invocation brings its own guard facts.

## Model

| member | source | states |
|---|---|---|
| ArchiveTraceSpec.TextDetermines | app/services/ci/archive_trace_service.rb:7-65 | two log lines have the same wording exactly when they report the same message |
| ArchiveTraceSpec.Text | app/services/ci/archive_trace_service.rb:7-65 | the wording logged at lines 7, 14, 22, 38 and 65: a failure line is the fixed prefix, the error's message whole, and a full stop; it starts with 'F', and each fixed line starts with 'T' |
| ArchiveTraceSpec.Guard | app/services/ci/archive_trace_service.rb:6-25 | the three guards are checked in order: out of attempts exactly when none are available; not now exactly when attempts are available but the attempt is not allowed now; no live trace exactly when both earlier guards pass and there is no live trace; the body proceeds exactly when all three pass |
| ArchiveTraceSpec.Attempt | app/services/ci/archive_trace_service.rb:5-40 | the body of execute never touches the attempt count, the failure counter or the error reports |
| ArchiveTraceSpec.ArchiveAndNotify | app/services/ci/archive_trace_service.rb:27-40 | the body after the guards: archive! is called once; the archived-trace flag is what a completed archive! left; the pending state goes exactly when archive! and remove_pending_state! complete; the hooks fire once exactly when both completed, the flag is on and the artifact is present; the body reaches its end (Archived) exactly when nothing on the way raised, and only then may it log the missing-archived-trace warning, which it does exactly when the artifact is absent; attempts, counter, reports, guard facts and cleanup count are untouched |
| ArchiveTraceSpec.Rescue | app/services/ci/archive_trace_service.rb:41-71 | the two rescue clauses with archive_error in production: AlreadyArchivedError changes nothing and gives AlreadyArchived; any other StandardError gives Failed, one more attempt and nothing else changed in the job, counter + 1, one failure line with the error's message and one report with the message, the issue URL and the job id |
| ArchiveTraceSpec.Execute | app/services/ci/archive_trace_service.rb:5-51 | execute always returns a path; the attempt count, the failure counter and the number of error reports each grow by one exactly when the path is Failed, and are unchanged otherwise |
| ArchiveTraceSpec.ExecuteJob | app/services/ci/archive_trace_service.rb:41-51 | the rescue clauses change the job only in its attempt count |
| ArchiveTraceSpec.OutOfAttemptsCleansUp | app/services/ci/archive_trace_service.rb:6-11 | with no attempts available: the warning is logged, the cleanup is called once, archive!, remove_pending_state! and the hooks are not called, the archived trace and pending state are unchanged; the path is OutOfAttempts exactly when the cleanup completes and Failed exactly when it raises a StandardError |
| ArchiveTraceSpec.OutOfAttemptsResult | app/services/ci/archive_trace_service.rb:6-11 | with no attempts available the whole outcome is the warning plus the cleanup call, followed by the rescue of whatever the cleanup raised |
| ArchiveTraceSpec.ExhaustionCheckedFirst | app/services/ci/archive_trace_service.rb:6-16 | once attempts are exhausted, neither the cooldown nor the live trace changes the outcome |
| ArchiveTraceSpec.NotNowChangesNothing | app/services/ci/archive_trace_service.rb:13-25 | attempts available but not now: the only change is the warning, and the path is NotNow, whatever the live trace (the cooldown is checked before it) |
| ArchiveTraceSpec.NoLiveTraceChangesNothing | app/services/ci/archive_trace_service.rb:20-25 | no live trace: the only change is the warning (no archive!, no attempt, no pending-state or counter change), and the path is NoLiveTrace |
| ArchiveTraceSpec.CollaboratorCalls | app/services/ci/archive_trace_service.rb:6-32 | archive! is called once exactly when all three guards pass, and never otherwise; the cleanup is called once exactly when attempts are exhausted; the hooks fire once exactly when archive! and remove_pending_state! completed, the flag is on and the trace artifact is present, and never otherwise |
| ArchiveTraceSpec.PendingRemovedAfterArchive | app/services/ci/archive_trace_service.rb:27-28 | the pending state is removed exactly when the guards pass, archive! completes and remove_pending_state! completes; otherwise it is unchanged |
| ArchiveTraceSpec.ArchivedPath | app/services/ci/archive_trace_service.rb:27-40 | when nothing raises, the path is Archived, the pending state is gone, the archived-trace flag is what archive! left, and the no-archived-trace warning is logged exactly when the artifact is absent |
| ArchiveTraceSpec.ArchivedPathOnlyAfterCompletion | app/services/ci/archive_trace_service.rb:27-40 | conversely, the path is Archived only when the guards passed, archive! and remove_pending_state! completed and fired hooks did not raise; the pending state is then gone |
| ArchiveTraceSpec.AlreadyArchivedSwallowed | app/services/ci/archive_trace_service.rb:41-42 | AlreadyArchivedError raised anywhere in the body is swallowed: the outcome is the body's state, with no attempt, counter, report or log change |
| ArchiveTraceSpec.StandardErrorPenalised | app/services/ci/archive_trace_service.rb:43-51 | any other StandardError raised anywhere in the body gives path Failed, attempts + 1, counter + 1, one failure warning with the error message, and one error report with the message, the issue URL and the job id |
| ArchiveTraceSpec.FailureAfterSuccessfulArchive | app/services/ci/archive_trace_service.rb:27-28 | a StandardError from remove_pending_state! after a successful archive! is penalised like any failure, and leaves the pending state in place |
| ArchiveTraceSpec.RescueClassification | app/services/ci/archive_trace_service.rb:41-51 | the path is Failed exactly when the body raised a StandardError other than AlreadyArchivedError, and AlreadyArchived exactly when it raised AlreadyArchivedError |
| ArchiveTraceSpec.DuplicateInvocationIsFree | app/services/ci/archive_trace_service.rb:6-42 | over two invocations, the first Archived, the second with freshly reported guard facts, attempts available and an archive! that raises AlreadyArchivedError: the second path is the guards' verdict, or AlreadyArchived when they pass; no attempt, counter increment or error report is added, and the pending state stays removed |
| ArchiveTraceSpec.RunCountsFailures | app/services/ci/archive_trace_service.rb:43-51 | over any sequence of invocations, the attempt count, the failure counter and the error reports each grow by exactly the number of Failed invocations |
| ArchiveTraceSpec.RunAttemptsMonotone | app/services/ci/archive_trace_service.rb:43-44 | over any sequence of invocations, the attempt count and the failure counter never decrease |
| ArchiveTraceSpec.RunCountsCollaboratorCalls | app/services/ci/archive_trace_service.rb:6-27 | over any sequence of invocations, archive! is called once per invocation that passes all three guards, and the cleanup once per invocation that finds the attempts exhausted |
| ArchiveTraceSpec.RunNeverSetsPending | app/services/ci/archive_trace_service.rb:28 | execute never creates a pending state, so once removed it stays removed |
| ArchiveTraceSpec.RetriesThenCleanup | app/services/ci/archive_trace_service.rb:6-11 | m invocations whose archive! fails with a StandardError, then one that finds the attempts exhausted, give paths Failed × m then OutOfAttempts, attempts + m, counter + m, m archive! calls and one cleanup |
| Ci.ArchiveTraceService.Execute | app/services/ci/archive_trace_service.rb:5-51 | the job, the counter, the log and the reports end up exactly as ArchiveTraceSpec.Execute computes from their state before the call; the counter is memoised from the first failure on |
| Ci.ArchiveTraceService.Attempt | app/services/ci/archive_trace_service.rb:6-40 | the imperative body, with its early returns, leaves the state ArchiveTraceSpec.Attempt computes and ends the same way |
| Ci.ArchiveTraceService.FailedArchiveCounter | app/services/ci/archive_trace_service.rb:55-59 | memoised in `@failed_archive_counter`: the first call stores the registry's counter, and every call returns that same counter |
| Ci.ArchiveTraceService.ArchiveError | app/services/ci/archive_trace_service.rb:61-72 | in production: the counter is incremented once, one failure warning with the error message is logged, one report with the message and job id is filed, and nothing is raised |
| Ci.ArchiveTraceService.Warn | app/services/ci/archive_trace_service.rb:7 | a Sidekiq warning appends one line with the worker name, the message and the job id |
| Ci.Job.AttemptArchiveCleanup | app/services/ci/archive_trace_service.rb:9 | the cleanup is recorded as called once; no other field of the model's job changes |
| Ci.Job.Archive | app/services/ci/archive_trace_service.rb:27 | archive! is recorded as called once; on success the archived trace is present or not as the outcome says |
| Ci.Job.RemovePendingState | app/services/ci/archive_trace_service.rb:28 | the pending state is gone afterwards |
| Ci.Job.ExecuteArchiveTraceHooks | app/services/ci/archive_trace_service.rb:31 | the archive_trace_hooks are recorded as fired once |
| Ci.Job.IncrementArchivalAttempts | app/services/ci/archive_trace_service.rb:44 | the archival attempt count grows by one |
| Ci.Counter.Increment | app/services/ci/archive_trace_service.rb:62 | the counter's value grows by one |

## Left out

- Logging, metrics and error tracking are I/O. They are modelled as records appended to the service's `warnings` and `reports` and as the `Counter` value. Log lines record a `Message`; `ArchiveTraceSpec.Text` gives its exact wording. Error reports record the issue URL. The counter's description string is not modelled.
- Ci.ArchiveTraceService.ArchiveError: models the production behaviour only. In development and test, `track_and_raise_for_dev_exception` re-raises the error; that re-raise is not modelled.
- Exceptions that are not `StandardError`s propagate out of `execute` in Ruby. The model leaves them out: the errors a collaborator can raise are only `ArchiveError`s.
- The guard predicates, the logger and `increment_archival_attempts!` are treated as never raising. Only `attempt_archive_cleanup!`, `archive!`, `remove_pending_state!` and `execute_integrations` may raise. In Ruby, an error from the logger or from `increment_archival_attempts!` inside the `rescue StandardError` clause escapes `execute`; the model does not capture that.
- Ci.Job.AttemptArchiveCleanup: models only the call being made and whether it raised. Its effect on the job's trace (it discards the live trace data, so `has_live_trace?` changes) and anything else it changes are not modelled.
- Ci.Job.Archive: models only two effects of `archive!`: whether it raised, and whether the trace artifact is present afterwards. Its internals are not modelled: the chunk upload, deleting the live trace, and the conditions under which it raises AlreadyArchivedError.
- `archival_attempts_available?` and `can_attempt_archival_now?` are inputs. The maximum number of attempts and the cooldown that decide them live in `Gitlab::Ci::Trace` and are not part of this model. The multi-invocation lemmas let each invocation supply fresh guard facts instead.
- `job.job_artifacts_trace.present?` (the hook condition) and `job.has_archived_trace?` (the final warning) are modelled as one flag. They read the same artifact association.
- `Feature.enabled?(:datadog_integration_logs_collection, project)` is the input `datadogLogsEnabled`.
- The payload built by `Gitlab::DataBuilder::ArchiveTrace.build` and the integrations the hooks reach are not modelled. Only whether the hooks fired is recorded.
- Concurrent invocations on the same job, and database transactions, are not modelled.
- `spec/frontend/ide/stores/actions/file_spec.js` is an unrelated front-end test and is not part of this model.
