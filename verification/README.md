# QuickPrint agent: verified model

The agent runs beside a CUPS printer. A backend assigns print jobs over a WebSocket; the agent downloads each file,
hands it to `lp`, watches CUPS until the sheets are out, and reports every status. CUPS gives no exactly-once
guarantee and the machine may lose power between any two effects, so what keeps a job from printing twice is the
order of the store's writes around `lp`, the title lookup when a READY job is recovered, and a transition table READY
leaves only for SUBMITTED or FAILED.

The project models that core and the parts its argument rests on:

- `Models`, `Store`: the statuses, the transition table, and the durable job store as a class over a map of rows.
- `Lifecycle`: one job as a step machine. Each step is one store write, file move, command or report, so a crash can
  fall between any two; cancels and CUPS accepting a queued `lp` interleave with the steps.
- `JobManager`: the handlers as they are written, method by method, over the store class. Every method is proved to
  reach exactly the state the step machine reaches, for every sequence of answers from downloader and printer with
  cancels and CUPS' own moves in between, and wherever the events stop. `HandlerRuns` states such runs, shows that one
  call keeps the job's invariant, and walks an ordinary print from assignment to COMPLETED. `Outcomes` says what every
  other answer comes to: each failure of a download, each ending of `lp`, each lookup, and each row that is resumed.
- `LifecycleInvariant`, `LifecycleSteps`, `Agent`, `Guarantees`: the invariant of one job, the whole agent with any
  number of jobs, recovery before serving and restarts, and the guarantees over all its runs.
- `AgentRuns`: that the agent gets on. Every call is a run of the agent, recovery resumes every unfinished row, and a
  print cut off between `lp` and the store is found, adopted and completed.
- `Termination`: a measure under which every handler step but an idle poll makes progress; `LifecycleSteps` and
  `HandlerRuns` say in what rows a call may end.
- `Reporting`, `Disagreement`: what the backend is told. Undisturbed reports walk the transition table; the three
  reports that follow a write which may be refused, those of a cancel, a retry and a failure, differ from the store
  exactly when it is; and over every run a report differs only for such a refusal, or because a cancel has made the row
  CANCELLED.
- `Settling`, `Monitoring`: the physical-completion timer against the history of observations, and the monitor loop.
- `CupsIdentity`, `CupsPrinter`, `CupsLookup`, `CupsJobState`, `CupsStatus`: job titles, the READY lookup and
  `get_status` as folds over listings that may fail or time out. `HonestLookups` joins the lookup to the lifecycle.
- `Outbox`, `TelemetryService`, `TelemetryNormalize`, `Retry`: what is kept for a lost connection, the change-only
  telemetry stream, the probe normaliser, delays.
- `PageRange`, `LpOptions`: page-range texts and the `lp` command line, each with the way back.

Assumptions the guarantees rest on. `TruthfulRun` says that READY recovery hears NOT_FOUND only when no earlier `lp`
of the job was accepted or still can be; `NotFoundDecidesDoublePrint` shows that nothing weaker is enough. `OursRun`
adds that a lookup only finds this job's own CUPS jobs. `HonestRun` derives both from the listings: they show what CUPS
holds, the agent's ids consist of safe characters, no other client of CUPS submits a job with a title of the agent's
form, and a NOT_FOUND comes from queries that all succeeded while no `lp` of the job
runs any more; `AtMostOnePrintFromListings` is the guarantee under these. `NotFoundIsCertain` shows that the success of
every query is exactly what a NOT_FOUND needs to be certain.

Where the repository's own documentation promises more than the code does, the model follows the code:

- The repository's README.md:103 speaks of reconciling before resubmitting; the code submits on NOT_FOUND even when one listing or a
  detail query failed.
- A READY job cannot be cancelled (app/models.py:35), although `handle_cancel` reports CANCELLED.
- A printer that is unavailable at submit reports RETRY_WAITING while the row stays READY until the next assignment
  or restart.
- `delay_for_attempt` does not cap the delay of an uncounted attempt, and the page-range check accepts ranges in any
  order, while section 5.2.7 of RFC 8011 asks for ascending ones.
- A timeout of a detail query in `find_existing_job` is caught nowhere in that function.

## Model

| member | source | states |
|---|---|---|
| Guarantees.AtMostOnePrint | app/job_manager.py:251-529 | over every run with cancels, failures, timeouts, crashes and restarts, CUPS accepts at most one `lp` per backend job, counting those it may still accept |
| Guarantees.JobsPersist | app/job_manager.py:192-529 | between any two moments of a run a terminal job keeps its status and gains no print, a printer id once written stays, attempts never go down |
| Guarantees.LpOnlyWhenReady | app/job_manager.py:493-501 | every new `lp` starts while the stored status is READY without a printer id, with the recorded file in place and no earlier print |
| Guarantees.IdsMatchStatuses | app/job_manager.py:257-266 | SUBMITTED, PRINTING and COMPLETED rows have an id, RECEIVED, DOWNLOADING and RETRY_WAITING rows have none; so no duplicate-refusing branch is reached and every report of a printed job carries the id |
| Guarantees.DownloadsBounded | app/job_manager.py:312-392 | one job starts at most max(1, max_attempts) downloads plus one per restart; RETRY_WAITING implies 1 <= attempts < max_attempts |
| Guarantees.FilesAgree | app/job_manager.py:856-889 | a COMPLETED row's file is not in processing; a file in completed belongs to a row with an id that is past READY; READY lost its file only to a failure under way |
| Guarantees.StoredIdIsThePrint | app/job_manager.py:454-465 | when lookups name only the job's own CUPS jobs, the stored id is the one job CUPS accepted |
| Guarantees.NotFoundDecidesDoublePrint | app/job_manager.py:466-477 | after NOT_FOUND some otherwise truthful continuation prints twice if and only if an earlier `lp` was accepted or still could be |
| Guarantees.AfterKeepsInv | app/job_manager.py:394-529 | any sequence of truthful events of one job keeps its invariant |
| AgentRuns.InterruptedPrintCompletes | app/job_manager.py:439-465 | from the first start: CUPS accepts `lp`, power is lost before the id is stored, and the agent has a run in which recovery finds the job, adopts it and completes it, with one print and every status told in order |
| AgentRuns.CallIsRun | app/job_manager.py:230-238 | whatever a call of the handler may meet, the agent has a run that meets it and leaves the other jobs alone |
| AgentRuns.AssignmentIsRun | app/job_manager.py:230-235 | a free agent that serves takes any assignment and carries out its call |
| AgentRuns.RestartRecovers | app/job_manager.py:163-165 | wherever the agent stands, a power loss and a start bring it to recovery with every unfinished row in the queue, as stored |
| AgentRuns.RecoveryIsRun | app/job_manager.py:166-170 | recovery resumes the row in front of its queue |
| AgentRuns.RecoveryEnds | app/main.py:184-186 | with no row left the agent serves |
| AgentRuns.RaisedHandlerUnwinds | app/job_manager.py:233-238 | an exception that leaves the handler frees a serving agent and takes a recovering one down |
| Agent.RunKeepsInv | app/main.py:184-186 | every state of every run, from first start through recoveries and restarts, meets the invariant of all jobs |
| Agent.NextKeepsStateInv | app/job_manager.py:163-238 | recovery's records are still current when their turn comes, one handler is active, and every label keeps the invariant |
| Agent.LabelIsJobEvent | app/job_manager.py:230-238 | every step of the agent is one event of one job and leaves the other jobs alone, or a crash of all |
| LifecycleInvariant.NextKeepsInv | app/job_manager.py:125-529 | every event of a job, with stale records and interleaved cancels, keeps the invariant of row, file, prints and position |
| LifecycleSteps.EventAdvances | app/database.py:89-159 | one event never loses a row, reopens a terminal status, rewrites an id or lowers attempts, and adds a print only to a READY row without one |
| LifecycleSteps.RefusalUnreachable | app/job_manager.py:369-374 | the handler never stands before a record a duplicate-print guard would refuse |
| LifecycleSteps.MissingFileRecovery | app/job_manager.py:414-437 | recovery of a row at the printer without its file monitors it and never fails it as missing; a READY row that lost its file becomes FAILED |
| LifecycleSteps.EventKeepsIdInv | app/job_manager.py:525-526 | every id stored, adopted or monitored is one CUPS gave this job |
| Termination.AssignmentTerminates | app/job_manager.py:251-392 | pipeline, failure handler and retry end: whatever is answered and interleaved, one assignment takes at most 23 * max(max_attempts, 0) + 24 steps, idle polls aside |
| HandlerRuns.AssignedCallKeepsInv | app/job_manager.py:125-161 | a whole assignment keeps the invariant and at most one print; left to end on its own it leaves a terminal row or a READY one, and an exception never leaves a row short of READY |
| LifecycleSteps.StepEndsWell | app/job_manager.py:335-340 | the step on which a call ends leaves a terminal or READY row |
| Termination.StepWorks | app/job_manager.py:312-340 | every handler step decreases the measure built from max_attempts - attempt_count and the position, except a poll that changes nothing |
| Store.WritesNeverReopen | app/models.py:24-62 | whatever store calls reach a row, its status never goes back, a terminal one never changes, READY becomes CANCELLED only after a SUBMITTED write |
| Store.RankRises | app/models.py:28-48 | a transition goes up in rank, but for downloading and waiting |
| Models.TableBySource | app/models.py:24-62 | the table by what a status is entered from: all but terminal ones may fail, all but these and READY may be cancelled; terminal is what leads nowhere |
| Store.Database.CreateJob | app/database.py:48-73 | a new id gets a RECEIVED row; a known id keeps its row |
| Store.Database.GetByBackendId | app/database.py:82-87 | the row, or none |
| Store.Database.UpdateStatus | app/database.py:89-112 | writes exactly the status when the table allows it; otherwise raises and leaves every row |
| Store.Database.SetFilePath | app/database.py:114-121 | changes that column of that row only |
| Store.Database.SetCupsJobId | app/database.py:123-130 | changes that column of that row only |
| Store.Database.IncrementAttempt | app/database.py:149-159 | adds one to that row's count only |
| Store.Database.ListNonTerminalJobs | app/database.py:161-175 | each non-terminal row exactly once |
| JobManager.JobManager.HandleAssigned | app/job_manager.py:125-161 | new, terminal and known jobs: for all answers, cancels and spool moves the whole handler ends where the step machine ends; in a truthful call it keeps the invariant and at most one print, and it touches no other job |
| HandlerRuns.CallKeepsInv | app/job_manager.py:251-529 | one call of the handler, cut off anywhere, keeps the invariant and at most one print |
| HandlerRuns.NewJobPrints | app/job_manager.py:251-310 | an ordinary print runs from assignment to COMPLETED with one accepted `lp`, its id stored, the file moved and every status told in order |
| HandlerRuns.CompletionRuns | app/job_manager.py:641-652 | a settled job at the printer ends COMPLETED, its file moved and the status told |
| Outcomes.RetryableDownloadIsRetried | app/job_manager.py:298-340 | a retryable download error with attempts left is counted, RETRY_WAITING stored and told, DOWNLOADING stored and told, and the download starts again |
| Outcomes.RetryableDownloadWaits | app/job_manager.py:326-338 | before that, the row waits with one attempt more |
| Outcomes.LastRetryableDownloadFails | app/job_manager.py:329-334 | the last attempt fails the job |
| Outcomes.PermanentDownloadFails | app/job_manager.py:298-307 | a permanent download error, or a file that cannot be moved, fails the job with its attempts unchanged |
| Outcomes.DownloadExceptionFails | app/job_manager.py:308-310 | any other exception fails the job |
| Outcomes.RefusedPipelineFails | app/job_manager.py:257-271 | invalid settings, or a record with an id, fail the job |
| Outcomes.FailedJobIsFailed | app/job_manager.py:876-889 | failing a row that is not terminal stores and tells FAILED and takes its file out of processing |
| Outcomes.FailedMoveIsIgnored | app/job_manager.py:881-884 | a file that cannot be moved does not keep the job from failing |
| Outcomes.WaitingJobRetries | app/job_manager.py:368-392 | a waiting job sleeps, wakes and is downloaded again |
| Outcomes.WaitingJobWithoutAttemptsFails | app/job_manager.py:386-391 | without an attempt left it fails when it wakes |
| Outcomes.OtherFailureFails | app/job_manager.py:319-325 | every failure of a row with an id fails the job |
| Outcomes.AcceptedLpIsWatched | app/job_manager.py:525-529 | an accepted `lp`: id stored, SUBMITTED stored and told, monitored with its file |
| Outcomes.TimedOutLpIsAdopted | app/cups.py:271-281 | a timed-out `lp` whose job is found is adopted in the same way |
| Outcomes.UnprintedLpFails | app/cups.py:282-298 | a refused `lp`, or one timed out with no job or no single job to be found, fails the job |
| Outcomes.MissingFileFails | app/cups.py:237-240 | without its file nothing is submitted and the job fails |
| Outcomes.UnavailablePrinterLeavesReady | app/job_manager.py:502-515 | an unavailable printer is counted, RETRY_WAITING is told, the row stays READY and the call ends |
| Outcomes.UnavailablePrinterFailsLast | app/job_manager.py:329-334 | the last attempt an unavailable printer may take fails the job |
| Outcomes.ExceptionRaises | app/job_manager.py:302-310 | any other exception of submission, monitor or callback fails the job in the try block and leaves the handler elsewhere |
| Outcomes.FoundJobIsAdopted | app/job_manager.py:454-465 | READY recovery adopts the CUPS job it finds: id stored, SUBMITTED stored and told, monitored with the file if it is there |
| Outcomes.StoredIdIsWatched | app/job_manager.py:443-452 | a READY row with its id is monitored without a lookup |
| Outcomes.UndecidedLookupFails | app/job_manager.py:466-475 | an undecided lookup fails the job, an exception of it leaves the handler |
| Outcomes.NotFoundSubmits | app/job_manager.py:477-477 | only NOT_FOUND starts an `lp` |
| Outcomes.TerminalJobIsToldAgain | app/job_manager.py:152-159 | a terminal row is told once more and left alone |
| Outcomes.PrintIsWatchedAgain | app/job_manager.py:425-437 | a SUBMITTED or PRINTING row is monitored again, with its file if it is there, and once settled is COMPLETED |
| Outcomes.PrintWithoutIdFails | app/job_manager.py:426-431 | without an id it fails instead of printing again |
| Outcomes.ReadyJobIsRecovered | app/job_manager.py:414-423 | a READY row is recovered with its file and fails without it |
| Outcomes.UnfinishedDownloadResumes | app/job_manager.py:402-412 | RECEIVED, DOWNLOADING and RETRY_WAITING rows are downloaded, with DOWNLOADING written and told where it was not stored |
| Outcomes.CancelTakesEffect | app/job_manager.py:192-224 | a cancel of any row that is not terminal: CANCELLED stored, unless READY, and told in any case |
| Outcomes.CancelIsIgnored | app/job_manager.py:193-206 | unknown and terminal rows take no cancel; one whose printer call raises changes nothing |
| Outcomes.RunningLpEnds | app/cups.py:269-276 | CUPS takes a running `lp` as one more job, or drops it |
| JobManager.JobManager.Await | app/job_manager.py:192-228 | while the handler waits, cancels and the spool act on the job as the lifecycle says; then the answer arrives |
| JobManager.JobManager.ProcessNewJob | app/job_manager.py:248-249 | the row is created and reported before the pipeline starts |
| JobManager.JobManager.HandleCancel | app/job_manager.py:192-228 | each stretch between two awaits is one cancel event, at any position of the handler: checks, the write if the table allows it, the report in any case, or nothing |
| JobManager.JobManager.MarkCancelled | app/job_manager.py:220-223 | a refused CANCELLED write changes nothing but the position |
| JobManager.JobManager.RunDownloadPipeline | app/job_manager.py:251-281 | guards, settings check and DOWNLOADING write as the step machine |
| JobManager.JobManager.Download | app/job_manager.py:283-289 | one download is counted and awaited |
| JobManager.JobManager.AwaitDownload | app/job_manager.py:283-310 | its end and its failure classes as the step machine |
| JobManager.JobManager.KeepFile | app/job_manager.py:290-307 | the move to processing and its failure |
| JobManager.JobManager.StorePath | app/job_manager.py:291-291 | the path is written before READY |
| JobManager.JobManager.MarkReady | app/job_manager.py:296-297 | READY if the table allows it, then submit; otherwise the job fails |
| JobManager.JobManager.HandlePreSubmitFailure | app/job_manager.py:312-340 | retryable failures are counted, the others fail the job, a row with an id always fails |
| JobManager.JobManager.ScheduleRetry | app/job_manager.py:329-366 | attempts used up, or RETRY_WAITING written if allowed and reported in any case |
| JobManager.JobManager.RetryFromWaiting | app/job_manager.py:368-392 | guards before and after the sleep, on the record read before it |
| JobManager.JobManager.SubmitAndMonitor | app/job_manager.py:493-515 | a missing file is a permanent error, otherwise the printer is asked |
| JobManager.JobManager.StartLp | app/cups.py:242-270 | an unavailable printer may be retried; otherwise `lp` starts |
| JobManager.JobManager.AwaitLp | app/cups.py:269-314 | accepted, refused, timed out, or any other exception |
| JobManager.JobManager.AwaitTimeoutLookup | app/cups.py:276-289 | a timed-out `lp` is adopted when found and never retried otherwise |
| JobManager.JobManager.HandleSubmitError | app/job_manager.py:502-515 | only an unavailable printer leads to a retry |
| JobManager.JobManager.Submitted | app/job_manager.py:525-525 | the id is stored first |
| JobManager.JobManager.MarkSubmitted | app/job_manager.py:526-529 | then SUBMITTED is written if allowed, and the monitor starts |
| JobManager.JobManager.MonitorPrinter | app/job_manager.py:531-551 | the polling loop, with and without a file, ends as the step machine does for every sequence of polls |
| JobManager.JobManager.ProcessPoll | app/job_manager.py:553-654 | one poll either leaves the loop in the step machine's state or goes on from it |
| JobManager.JobManager.CompleteJob | app/job_manager.py:641-652 | callback, then the given file or else the recorded one moved, then COMPLETED |
| JobManager.JobManager.MarkCompleted | app/job_manager.py:856-861 | COMPLETED only if the table allows it; otherwise the exception |
| JobManager.JobManager.FailJob | app/job_manager.py:863-884 | the file moves to failed, or the failed move is ignored |
| JobManager.JobManager.MarkFailed | app/job_manager.py:885-889 | a refused FAILED write is ignored and FAILED reported in any case |
| JobManager.JobManager.Transition | app/job_manager.py:891-895 | write then report; nothing happens when the table refuses |
| JobManager.JobManager.Emit | app/job_manager.py:897-912 | the report carries the status given and the id stored at that moment |
| JobManager.JobManager.ResumeJob | app/job_manager.py:394-437 | the branch for every stored status, by the record read before |
| JobManager.JobManager.ResumeReadyJob | app/job_manager.py:439-452 | an id already stored is monitored, never submitted |
| JobManager.JobManager.LookUpExisting | app/job_manager.py:454-477 | found is adopted, undecided fails, not found submits |
| JobManager.JobManager.MonitorExistingSubmission | app/job_manager.py:479-487 | SUBMITTED first when still READY |
| JobManager.JobManager.ChooseMonitor | app/job_manager.py:488-491 | the monitor with or without a file |
| Reporting.ReportsFollowTheTable | app/models.py:28-48 | without cancel, crash and unavailable printer, every report equals the stored status and a job's reports are a path of the table from RECEIVED, repeating only terminal statuses |
| Reporting.CancelReportMatchesStore | app/job_manager.py:220-224 | a cancel's report equals the store if and only if the table allows CANCELLED; from READY it does not |
| Reporting.RetryReportMatchesStore | app/job_manager.py:358-366 | a retry's report equals the store if and only if the row was DOWNLOADING |
| Reporting.RetryReportCanDiffer | app/job_manager.py:358-366 | a concrete READY job for which RETRY_WAITING is reported while READY stays stored |
| Reporting.FailedReportMatchesStore | app/job_manager.py:885-889 | a failure's report equals the store if and only if the table allows FAILED |
| Reporting.FailedReportCanDiffer | app/job_manager.py:308-310 | from the assignment on: a cancel during the download, and FAILED is told after CANCELLED while CANCELLED stays stored |
| Disagreement.ReportsAreExplained | app/job_manager.py:891-912 | over every run each report equals the store, or is about a row made CANCELLED, or a CANCELLED too late for a row at least READY, or a RETRY_WAITING a READY row refused |
| Settling.CompletionTimer.Evaluate | app/job_manager.py:737-850 | ready exactly when both looks are clean, the checker passes and the job was quiet for the stable time since its first clean evaluation after its last disturbance; in plain answers, ready means COMPLETED and a queue idle and not printing, and anything else ends the quiet time |
| Settling.CleanLook | app/job_manager.py:690-717 | clean is COMPLETED and, if the queue can be asked, probe ok, idle, not printing |
| Settling.UncleanLooks | app/job_manager.py:696-713 | another state, a failed probe, a printing queue or one that is not idle is unclean |
| Settling.QuietTimeMeans | app/job_manager.py:799-816 | a quiet time began with a clean evaluation of the job, and since then nothing of the kinds that reset it happened |
| Settling.CompletionTimer.PolledPrintingResets | app/job_manager.py:584-587 | a PRINTING poll ends the quiet time of its own job and of no other |
| Settling.CompletionTimer.constructor | app/job_manager.py:89-92 | a restart forgets every quiet time |
| Settling.EvaluationKeepsSlot | app/job_manager.py:775-801 | the single slot holds exactly the quiet time the history defines, for all jobs |
| Settling.QuietSinceExists | app/job_manager.py:799-803 | an undisturbed clean evaluation has a first one behind it |
| Settling.QuietContinues | app/job_manager.py:668-688 | what does not disturb a job leaves its quiet time running |
| Settling.QuietStarts | app/job_manager.py:775-785 | the first clean evaluation starts the quiet time at its own moment |
| Settling.DisturbanceEndsQuiet | app/job_manager.py:668-688 | after a disturbance no quiet time runs |
| Monitoring.JobMonitor.MonitorPrinter | app/job_manager.py:531-551 | on a printer that stays quiet, with the clock advancing by d, the handler ends with the row COMPLETED, the file moved and the status told within n + 1 polls for any n with n * d at least the stable time |
| Monitoring.JobMonitor.ProcessPoll | app/job_manager.py:553-654 | with cancels before and anything after it, one poll is the lifecycle's for the outcome the timer's history allows: COMPLETED only when settled |
| Monitoring.JobMonitor.Observe | app/job_manager.py:561-608 | PRINTING resets the timer, a COMPLETED poll is evaluated once, UNKNOWN and PENDING leave timer and history alone |
| Monitoring.JobMonitor.CalmPoll | app/job_manager.py:602-652 | an uninterrupted COMPLETED poll ends the job exactly when it has settled, and otherwise leaves it as it was |
| Monitoring.JobMonitor.QuietPoll | app/job_manager.py:602-652 | one poll of a quiet printer completes the job or keeps it quiet |
| Monitoring.PollMatchesLifecycle | app/job_manager.py:553-654 | an uninterrupted poll, by its state: status, files, reports and where the handler goes, the refused writes of a cancelled job included |
| Monitoring.PollByState | app/job_manager.py:561-654 | state by state: failed and cancelled prints fail the job, pending and unknown ones are watched on, a printing one is PRINTING, a completed one COMPLETED once settled |
| CupsPrinter.FindExistingJob | app/cups.py:171-229 | NOT_FOUND, FOUND and AMBIGUOUS are the 0, 1 and more ids of either listing whose long listing carries exactly the title; LOOKUP_FAILED and the escaping timeout are exactly the other cases |
| CupsPrinter.ScanListings | app/cups.py:184-207 | the matches of both listings as one set, the failures counted, the first timeout ends it |
| CupsPrinter.MatchListing | app/cups.py:202-207 | the ids of one listing some detail query of which succeeds and carries the title; an id listed twice is asked twice |
| CupsPrinter.QueryDetail | app/cups.py:203-206 | one detail query shows the title, does not, or escapes |
| CupsPrinter.JobIds | app/cups.py:59-68 | the ids of a listing in order, repeats kept |
| CupsPrinter.IdsOpenLines | app/cups.py:59-68 | they are exactly the ids that open a line with more text behind |
| CupsPrinter.JobIdReadsBack | app/cups.py:45-68 | a line opening with a queue name, a dash and a number of any length names that job |
| CupsPrinter.JobIdHasForm | app/cups.py:45-68 | every id read is a queue name, a dash and a number |
| CupsPrinter.JobIdOpensLine | app/cups.py:45-68 | and it opens its line before a blank and more text |
| CupsLookup.LookupSeesTheSpool | app/cups.py:171-229 | with every query answered and safe ids, the matched ids are exactly the CUPS jobs of this backend job |
| CupsLookup.MatchedIsOwned | app/cups.py:202-207 | whatever queries fail, with safe ids no job of another backend id is matched |
| HonestLookups.AtMostOnePrintFromListings | app/cups.py:171-229 | over every run whose lookups read listings that show what CUPS holds, CUPS takes at most one `lp` per job and the stored id is that of the one it took |
| HonestLookups.HonestRunIsOurs | app/job_manager.py:454-477 | such runs meet the assumptions of all guarantees |
| HonestLookups.FoundIsAccepted | app/job_manager.py:455-465 | an id found is one CUPS accepted for this job, whatever queries failed |
| HonestLookups.FoundLookupIsAdopted | app/job_manager.py:454-475 | from listings to the end of recovery: FOUND is adopted under an id CUPS gave, undecided fails, an escaping timeout leaves the handler |
| HonestLookups.NotFoundIsTruthful | app/cups.py:214-215 | NOT_FOUND from queries that all succeeded means that CUPS accepted none |
| CupsLookup.NotFoundIsCertain | app/cups.py:198-215 | NOT_FOUND rules out every spool that holds the job if and only if both listings succeeded and every listed id was seen in detail |
| CupsLookup.NotFoundCanBeWrong | app/cups.py:198-215 | a concrete failed listing for which NOT_FOUND is answered about a job CUPS holds |
| CupsIdentity.TitleCollisions | app/cups_job_identity.py:11-21 | two ids of safe characters share a title if and only if they are equal or agree on their first 120 characters; so safe ids up to that length never do |
| CupsIdentity.UnsafeIdsCanCollide | app/cups_job_identity.py:11-21 | a concrete pair of different ids with one title |
| CupsIdentity.TitleReadsBack | app/cups_job_identity.py:24-32 | a title shown in a listing line is read back exactly, whatever blanks surround it and however the label is cased |
| CupsIdentity.ExtractTitles | app/cups_job_identity.py:24-32 | the titles of exactly the lines that carry one |
| CupsIdentity.ContainsExactTitle | app/cups_job_identity.py:35-36 | true if and only if some line carries exactly the marker |
| CupsIdentity.Sanitize | app/cups_job_identity.py:11-17 | the result is never empty, safe and at most 120 characters |
| CupsIdentity.TitleOfSafeId | app/cups_job_identity.py:7-21 | the title of a safe id is the prefix "QuickPrint:" and its first 120 characters |
| CupsIdentity.KeepSafeDropsOthers | app/cups_job_identity.py:8-14 | every other character is dropped wherever it stands |
| CupsIdentity.SafeCharIsOneOf | app/cups_job_identity.py:8-8 | safe are letters, digits, underscore and dash |
| CupsIdentity.NoTitleWithoutSafeCharacter | app/cups_job_identity.py:14-16 | an id has no title exactly when nothing safe is left of it |
| CupsIdentity.TitleComesFromLabel | app/cups_job_identity.py:26-31 | only a line that starts with the label carries a title, and all that follows is the title |
| CupsJobState.ParseLongJob | app/cups_job_state.py:31-46 | the state and the reasons are those of the last line that gives one, and the state is the one `get_status` uses |
| CupsJobState.StateReadsBack | app/cups_job_state.py:16-40 | a state line reads as its keyword says, in any case and with any blanks; an unknown keyword is UNKNOWN |
| CupsJobState.ReasonsReadBack | app/cups_job_state.py:17-45 | a comma-joined list of reasons reads back one by one, unless it only says "none" |
| CupsJobState.KeywordsOfState | app/cups_job_state.py:19-28 | each state has exactly its keywords |
| CupsStatus.FinalStateIsSound | app/cups.py:345-443 | if commands that succeed tell the truth of their moment, a COMPLETED, FAILED or CANCELLED answer is certain to be of a job that has ended if and only if it was not read off an active-queue line for want of a usable long listing |
| CupsStatus.ActiveLineCanBeWrong | app/cups.py:363-383 | a concrete active-queue line and failing long listing: COMPLETED is answered and fits a job still active |
| CupsStatus.CompletedHasTwoSources | app/cups.py:345-443 | on the commands themselves: COMPLETED comes exactly from an active job whose long listing says so, or whose line does while the long listing is silent or unsure, or from a job confirmed gone whose long listing answers and agrees or is silent |
| CupsStatus.TimeoutFinishesNothing | app/cups.py:326-334 | off the active queue, a long listing that times out gives UNKNOWN or PRINTING, never a final state |
| CupsStatus.PrintingStates | app/cups.py:359-430 | exactly when PRINTING is answered, on the commands themselves |
| CupsStatus.PendingStates | app/cups.py:359-420 | exactly when PENDING is answered |
| CupsStatus.UnknownStates | app/cups.py:352-443 | exactly when UNKNOWN is answered |
| CupsStatus.OwnLines | app/cups.py:77-78 | the id alone, or with a blank and more behind it, is a line of the job |
| CupsStatus.GivenUpOnlyWhenSaid | app/cups.py:345-443 | FAILED or CANCELLED is answered exactly when the long listing says so, or the active line does and the long listing gives nothing usable; never because of a failed command |
| CupsStatus.LineOfOneJob | app/cups.py:71-79 | a listing line belongs to at most one id, prefixes included |
| CupsStatus.JobLine | app/cups.py:71-79 | the first line of that id, stripped; none exactly when no line is |
| CupsJobState.CompletedLineSaysSo | app/cups_job_state.py:49-82 | a queue line reads as COMPLETED only if the word "completed" stands alone on it and no phrase of a driver still at work is there: no false match by substring or by last word |
| CupsJobState.LineStateIsMentioned | app/cups_job_state.py:49-82 | a line is only ever read as a state it mentions as a whole word, or as PRINTING by a phrase of a driver at work |
| CupsJobState.LineSpeaksIfItMentions | app/cups_job_state.py:49-82 | it is UNKNOWN exactly if it mentions no state |
| CupsJobState.EarlierMentionsWin | app/cups_job_state.py:60-80 | phrases first, then a keyword at the end, then words in the order at work, waiting, cancelled, failed, completed |
| CupsJobState.PhrasesKeepActive | app/cups_job_state.py:10-62 | rendering, spooling or data completed anywhere on the line is PRINTING whatever else it says |
| CupsJobState.ContainsWholeWord | app/cups_job_state.py:71-79 | a word counts only where neither neighbour is a letter, digit or underscore |
| CupsJobState.WordCharIsOneOf | app/cups_job_state.py:71-79 | which characters belong to a word |
| Outbox.StatusOutbox.SendStatus | app/websocket_client.py:133-163 | each job's last report has been sent or is exactly its pending entry, after every call |
| Outbox.StatusOutbox.FlushPendingStatuses | app/websocket_client.py:165-178 | each pending report is tried once; those that fail stay, the others are sent, and the same invariant holds |
| Outbox.FlushLosesNewestReport | app/websocket_client.py:168-178 | when reports interrupt a flush, a job's newest status is lost if and only if it was queued unsent while an older one waited in the batch and the older one's send fails too |
| Outbox.FlushCanLose | app/websocket_client.py:168-178 | the smallest such flush |
| Outbox.OverlapLosesNewestReport | app/websocket_client.py:149-163 | when sends of one job's reports overlap, the newest status is lost if and only if its send fails and a later ending send of an older one fails too |
| Outbox.OverlapCanLose | app/websocket_client.py:149-163 | the smallest such overlap |
| Outbox.TelemetryQueue.Enqueue | app/websocket_client.py:80-90 | for any entry: what is accepted and what waits then; numbered upwards, the queue is the last 20 accepted entries since it was empty, in order, a heartbeat only in front |
| Outbox.EnqueuedIsLast | app/websocket_client.py:80-90 | one newer entry keeps a queue the last 20 of what was accepted |
| Outbox.QueuedInOrder | app/websocket_client.py:80-90 | entries numbered upwards wait in order, at most 20 of them |
| Outbox.TelemetryQueue.DropOldest | app/websocket_client.py:86-90 | for any queue, only a front part goes, and nothing of a queue that fits; all but the last entry dropped are heartbeats, each dropped while there were too many, until the rest fits or another entry has gone |
| Outbox.TrimmedDropsFront | app/websocket_client.py:86-90 | trimming loses heartbeats and at most one other entry |
| Outbox.TelemetryQueue.Flush | app/websocket_client.py:99-107 | with entries queued at every await: those before the first failing send are delivered, that one goes behind the arrivals, the rest is lost; the queue is again the last 20 in order when nothing failed or nothing arrived |
| Outbox.LateFailureBreaksOrder | app/websocket_client.py:99-107 | a failing flush breaks the order if and only if an entry was queued before the failure, and leaves one entry too many if and only if 20 were |
| Outbox.LateEntryBreaksOrder | app/websocket_client.py:74-85 | when sends overlap, an entry queued late breaks the order if and only if it is no heartbeat and a newer entry waits last |
| Outbox.OverlapCanDisorder | app/websocket_client.py:74-85 | the smallest such overlap |
| TelemetryService.Service.PublishPhysicalState | app/printer_telemetry/service.py:61-88 | sends exactly when forced or changed, and keeps the stream's invariant |
| TelemetryService.Service.Poll | app/printer_telemetry/service.py:93-124 | sends the change or else the heartbeat that is due, and keeps the stream's invariant |
| TelemetryService.ChangesLoseOnlyRepeats | app/printer_telemetry/service.py:73-88 | what a change-only stream shows has the same states and the same last state as all that was observed, and no two equal neighbours |
| TelemetryService.TurnFollows | app/printer_telemetry/service.py:61-151 | numbers run 1, 2, 3, ...; the stream shows the same changes of state as everything observed and ends in the current state |
| TelemetryService.KeyFields | app/printer_telemetry/types.py:94-105 | the fields that make a change |
| TelemetryService.Sent | app/printer_telemetry/service.py:77-117 | a turn sends at most once, exactly if forced, changed or due, and a heartbeat exactly if only due |
| TelemetryNormalize.NormalizeProbe | app/printer_telemetry/normalize.py:145-211 | connection, activity, display and reasons; READY exactly when everything a print needs is in order |
| TelemetryNormalize.ReadyMeansReadyToPrint | app/printer_telemetry/normalize.py:118-142 | display READY if and only if scheduler, queue, enabled, accepting, evidence, not printing, no hint, no offline marker, no mapped reason; then the reason list is empty |
| TelemetryNormalize.DisplayMeans | app/printer_telemetry/normalize.py:118-211 | every display by what was probed: not there, halted, at work, what the reasons say, paused, ready, unknown, in this order |
| TelemetryNormalize.ActivityMeans | app/printer_telemetry/normalize.py:156-189 | the activity and connection reported with it |
| TelemetryNormalize.TableNames | app/printer_telemetry/normalize.py:16-28 | the state each word of a reason stands for |
| TelemetryNormalize.ReasonAlone | app/printer_telemetry/normalize.py:47-61 | a reason alone names its state, or ERROR for trouble of a device that is there, or nothing |
| TelemetryNormalize.FirstNamedDecides | app/printer_telemetry/normalize.py:49-52 | in a list the first reason that names a state decides |
| TelemetryNormalize.MarkersAre | app/printer_telemetry/normalize.py:30-37 | the words of a device that is not there, and of trouble |
| TelemetryNormalize.ListSilentIffEachSilent | app/printer_telemetry/normalize.py:47-61 | a whole list names no state if and only if no reason alone does |
| TelemetryNormalize.NormalizeReasons | app/printer_telemetry/normalize.py:191-196 | no state twice, exactly the states some reason names alone, and those of the first n reasons in front for every n |
| TelemetryNormalize.EachReasonOnce | app/printer_telemetry/normalize.py:191-196 | the normalised reasons are exactly the states some reason names, each once |
| TelemetryNormalize.ReasonsInOrder | app/printer_telemetry/normalize.py:191-196 | what more reasons add comes behind |
| PageRange.ValidExactlyRangeTexts | app/page_range.py:10-29 | a text is accepted if and only if, stripped, it is the comma-joined text of a non-empty list of pages and ranges with 1 <= lo <= hi, of at most 4300 digits each, and then that text is the result |
| PageRange.RangeTextsAreValid | app/page_range.py:18-29 | every such list is accepted as written, in any order |
| PageRange.WrittenPagesAccepted | app/page_range.py:20-28 | in numbers: written pages and ranges are accepted exactly if none is page 0, no range runs backwards and no number has more than 4300 digits |
| PageRange.AllPages | app/page_range.py:11-17 | the result is all pages exactly for no text, a blank one, or "all" in any case |
| PageRange.SegmentsOfText | app/page_range.py:20-28 | parsing the rendered list gives the list back |
| PageRange.TextOfSegments | app/page_range.py:20-28 | rendering the parsed text gives the text back |
| PageRange.AcceptsPieces | app/page_range.py:7-7 | the regular expression matches exactly when it matches every comma-separated piece |
| PageRange.PieceIsSegment | app/page_range.py:7-7 | a piece matches exactly when it is a number or two numbers with one dash |
| PageRange.ValidationIsIdempotent | app/page_range.py:10-29 | validating a result changes nothing |
| LpOptions.BuildLpArgv | app/cups_options.py:65-75 | raises exactly on invalid settings; otherwise queue, copies, options, file in that order |
| LpOptions.BuildLpOptions | app/cups_options.py:25-62 | raises exactly on invalid settings; otherwise the option texts of the settings |
| LpOptions.SettingsFieldByField | app/cups_options.py:9-22 | what is valid in each field: 1 to 99 copies, 1 to 16 pages a sheet, the modes, orders and orientations, any accepted page range |
| LpOptions.InsertTitle | app/cups.py:249-260 | a title after every queue flag, or in front when there is none |
| LpOptions.InsertAfterQueue | app/cups.py:249-258 | the loop, for any command line |
| LpOptions.TitleGoesAfterQueue | app/cups.py:247-260 | for all valid settings, queue and file names, one title goes right after the queue name and the rest stays, file last |
| LpOptions.CommandReadsBack | app/cups_options.py:65-75 | a reader of the command line recovers queue, title, copies, options and file |
| LpOptions.SettingsReadBack | app/cups_options.py:9-75 | a reader of the command line recovers all settings, with the page range in its normal form |
| Retry.DelaysDoubleUpToCap | app/retry.py:28-32 | the first counted attempt waits the base delay, each further one twice the last, up to the cap; delays never shrink |
| Retry.CapHoldsIffBaseWithinIt | app/retry.py:28-32 | the cap holds for every count if and only if the base delay is within it |
| Retry.ReconnectDelays | app/websocket_client.py:202-227 | each wait is 1 after a good session and then the capped power of two counted from it |

## Left out

- asyncio, SQLite, subprocesses, the network and the file system: they appear as outcomes of atomic steps; moves out of processing succeed or, on failure handling, are ignored.
- The lifecycle's interleavings are modelled on values, as a step system beside the class: a crash or a cancel may fall between any two effects, which allows every schedule the awaits allow and more.
- JobManager.JobManager.HandleAssigned: one call for one job, with its cancels and its spool; other jobs, crashes and restarts are in `Agent`, and the work of a start-up is there too.
- JobManager.JobManager.HandleCancel: a cancel may begin, write or report between any two effects of the handler, which allows more schedules than the awaits do; the printer's own effect of a cancel is an answer of later polls.
- `classify_download_error` and `classify_printer_error`, which map exception classes to retryable or permanent: an outcome carries that kind.
- `error_message`, metadata, `next_retry_at` and the length of a retry's sleep.
- Two jobs whose downloads get the same file name in processing.
- `reconcile_backend_status`, which repeats stored statuses after a reconnect, and the order of messages on the wire.
- An OSError from the monitor inside the pipeline's try block goes to the failure step at once; the code passes through the failure handler's refusal first, with the same effects.
- Guarantees.AtMostOnePrint: late effects of a killed `lp`, a purged CUPS history and partly failed lookups are not excluded by the code; they are the assumption `TruthfulRun`, which `HonestRun` restates in terms of the listings.
- Monitoring.JobMonitor.MonitorPrinter: no claim for a printer that answers UNKNOWN for ever, about which the code polls for ever.
- CupsStatus.FinalStateIsSound: an active-queue line that itself names a final state is believed by the code when the long listing gives nothing usable; the condition excludes exactly that case.
- Outbox.StatusOutbox.FlushPendingStatuses: no report arrives during the flush; what happens then is `FlushLosesNewestReport`.
- Outbox.StatusOutbox.SendStatus: one report's send ends before the next of the same job begins; what overlapping sends do is `OverlapLosesNewestReport`.
- TelemetryService.Service.Poll: the payload's time, event id and the callback for health snapshots.
- Text outside ASCII: Unicode blanks, digits, line ends and case folding; and a digit limit of Python's `int` other than its default.
- Floating-point rounding and the wall clock: seconds are real numbers and clocks do not go back.
- Logging, configuration, health, device capabilities, HPLIP and ipptool scraping, the mock printer, the kiosk server and the shell scripts.
