# A verified model of the ICT branch toolkit's operations and session logic

The repository runs a shared radio-planning application. Around it stand a number of programs whose
correctness is not visible in any one function: a controller that supervises imports inside a container,
a reconciler of workflow runs, the creation of recovery sets, the transport of commands to a virtual
machine, and, in the application, shared editing, sessions and texts that other programs read. This
project models these parts in Dafny and proves what they are for.

`dafny verify dfyconfig.toml` checks everything.

| file | what it models |
|---|---|
| `ImportProcess.dfy` | the program run inside the container: which processes are imports, and how one is limited or stopped |
| `Host.dfy` | the machine: steps of the environment, the maintenance lock, waiting for an idle moment, verifying a dataset |
| `Supervisor.dfy` | the controller: watching one import, one dataset, the whole job and every status it saves |
| `LogTail.dfy` | the progress report, read from the last bytes of a log |
| `Reconciler.dfy`, `ReconcilerHistory.dfy`, `ReconcilerExecution.dfy` | fetching and planning; histories of passes and other events; the execution loops |
| `RecoverySet.dfy` | creating a recovery set, with a possible fault at every command |
| `Transport.dfy` | a managed command: its requests, and the service that works on it in between |
| `GuestLoop.dfy` | the loop over import helpers on the guest, with its deadlines |
| `SwapCleanup.dfy` | removing the temporary swap file at an idle moment |
| `CsvErrors.dfy` | the error file of an asset import, against a reader for section 2 of RFC 4180 |
| `MarkdownAnchors.dfy` | heading slugs, anchors, and the verdict of the link checker |
| `CollaborationServer.dfy`, `PlanConflict.dfy` | mutations, conflicts and resolutions on the server; the workspace of one user |
| `Sessions.dfy` | the session token and its four gates |
| `NifogGroups.dfy` | grouping channels by category |
| `AuditChain.dfy` | the chained hashes of the audit log |
| `Basics.dfy`, `Decimal.dfy` | shared values; decimal numerals |

Concurrency is interleaving: before and after every step of a modelled program, a method named
`Interfere`, `Elapse` or `Meanwhile` lets the environment take any number of steps, each chosen freely
from a datatype of events. What the program may rely on across such a run is a predicate on two states,
and a lemma derives it for every run. A `steady` environment is one that keeps the programs' rules: no
import turns into another program, every process can be read, and only holders of the lock start
imports or touch their files. Contracts name it where they need it; all others hold without it. Failures
are free choices too: a command or request can fail before or after it had its effect. What a program
did is kept in ghost logs (requests with the world each one ran in, checks, signals, steps of a cleanup,
runs of helpers, answers to questions), and a contract says which entries a method adds. Failures that
such a log does not explain by itself are counted as faults: a method that raises one of them without a
fault would break its contract. Times are in milliseconds, and how long a program has slept is counted.
The errors of the controller are the constructors of `Code`, each named like its code in the source.

## What turned out differently from the documentation or from first reading

- The automatic retry can be a third attempt: the plan reads the attempt number when it fetches, and a
  manual rerun can come before the request (`RetryCanBeTheThirdAttempt`, `RetryIsSecondUnlessRerun`). A
  retryable run that shifting pages show twice, and only such a run, is planned for retry twice
  (`DistinctCandidatesExactly`). The early stop of the fetch loses a recent run exactly if an old one
  stands on an earlier page (`EarlyStopLosesExactly`).
- The controller does not read the error of a stop answer: a stop returns normally although the kernel
  refused the KILL, and then the import may live on (`StopImport`, `RefusedKillGoesUnread`).
- A helper started by a user named `--work-dir` would not be recognised (`HelperImportIsRecognised`).
- The guest's check has no time left: its deadline and grace period are the whole remote timeout
  (`RemoteTimeoutIsKept`).
- The swap file is removed by its path: another file is removed exactly if the machine is not steady and
  that file was the last one put there after the second check (`AnotherFileExactly`, `AnotherFileIsRemoved`).
- Creating a recovery set leaves services that it asked to stop without asking to resume them exactly if an
  interrupt comes in the closing block before its command (`CreateRecoverySet`).
- The direct endpoints of the plan load, check and save without a lock. A history goes onward in every step
  exactly if each direct save lands on the version and the status it loaded, or changes nothing
  (`HistoryIsOnwardExactly`); a current one does just what it says (`CurrentSaveIsTheEdit`). A stale one can
  lose an update (`StaleSaveLosesAnUpdate`), change an approved plan (`LateSaveChangesTheApproved`), take
  the approval back (`LateSaveTakesBackTheApproval`), and put values under a replacement that were never
  shown (`StaleSaveHidesFromTheReplacement`).
- Anchors can collide although their slugs differ (`AnchorsCollideExactly`), and the formula guard of the
  error file is not injective (`GuardConfusesExactly`).
- A rejected replacement becomes the active conflict, can never be resolved, and so stays
  (`RejectedIsNeverResolved`, `DiscardConflict`). Applying a masked field would send the mask
  (`AppliedValuesAreTheProposal`). The conflict of a deletion can only be discarded
  (`DeletionCannotBeReapplied`).
- A late refusal ends a session that began after the refused request (`LateRefusalEndsAnySession`), and one
  reader of the token looks at no expiry (`UncheckedReaderDiffersExactly`).
- Group keys join a release id and a title with `::`; the ids whose channels can be confused are exactly
  those where one with the separator begins the other with it, and what is left over can begin a title
  (`KeysCanCollideExactly`). Neither needs to contain the separator: one may end with a colon
  (`TrailingColonCollides`).
- The audit log notices every removal except that of its end (`RemovalIsNoticedExactly`), unlike what the
  comment on its hash says.

## Model

| member | source | states |
|---|---|---|
| ImportProcess.Scan | scripts/fcc-server-automation.py:36-51 | the scan collects exactly the imports of the requested dataset among the readable processes, and counts exactly the ones it cannot account for |
| ImportProcess.OnlyTheExpectedImportIsTouched | scripts/fcc-server-automation.py:52-77 | whatever the request, at most one process changes; it is a live import of the dataset, the expected one if one is named, and a probe changes nothing |
| ImportProcess.EveryReadImportIsListed | scripts/fcc-server-automation.py:38-52 | no readable import of the dataset is missing from the answer |
| ImportProcess.AnswersAreLiveImports | scripts/fcc-server-automation.py:38-52 | every listed process is a live import of the dataset |
| ImportProcess.LimitedMeansWithinBudget | scripts/fcc-server-automation.py:61-76 | a limit answer without an error means that this process now has soft <= hard <= the budget, and low priority |
| ImportProcess.LimitFailsExactly | scripts/fcc-server-automation.py:52-76 | a limit call for an expected import fails if and only if that import was not read, or an unaccounted one was, or the MiB are outside 256 to 4096, or its memory has reached the smaller of the MiB and half of the memory, or the kernel refused; otherwise both limits are lowered to that budget, its priority is at least 10, and its entry, no other, carries the new hard limit |
| ImportProcess.LimitsOnlyShrink | scripts/fcc-server-automation.py:70-74 | over any sequence of limit calls both limits only shrink, the hard limit is at most every budget, soft <= hard, and niceness never drops |
| ImportProcess.LimitingTwiceIsLimitingOnce | scripts/fcc-server-automation.py:70-74 | a repeated limit call changes nothing |
| ImportProcess.StopFailsExactly | scripts/fcc-server-automation.py:53-77 | a stop answers an error exactly if it sent no signal, and, when the expected import was read, exactly if the kernel refused the signal |
| ImportProcess.WithoutExpectationOneIsNeeded | scripts/fcc-server-automation.py:54-60 | a request that expects no particular import acts only if exactly one was listed and none is unaccounted for, and on that one |
| ImportProcess.HelperImportIsRecognised | scripts/fcc-server-automation.py:41-46 | the import as the helper starts it is recognised, if and only if the user is not named like the directory flag |
| ImportProcess.RecognisedImportIsPrivate | scripts/fcc-server-automation.py:43-46 | a recognised import reads the archive of its dataset in a private temporary directory |
| ImportProcess.ClassifiedExactly | scripts/fcc-server-automation.py:41-46 | what every command line is taken for: one that does not start an import is passed over, and so is one that ends with a flag; an import without one of the flags, or of anything but its own archive in its private directory, is one nobody accounts for |
| Host.Machine.Perform | scripts/fcc-server-automation.py:34-78 | one run in the container against the machine: it is a run of the program over the readable processes, and nothing but the process table changes, as that run says |
| Host.Machine.Ask | scripts/fcc-server-automation.py:174-195 | the same with interference around it, and a call that may be lost before or after it ran; the one new entry of the log names the request, the world it ran in, its effect and its answer, which are those of a run of the program in that world, done by the end, unless the request was lost and did nothing; so every entry of the log is a run of the program, or a lost request without effect |
| Host.Machine.FileLock | scripts/fcc-server-automation.py:149-171 | returns normally exactly when it holds the lock, which it took at a moment when it was free; gives up only after the wait, at a moment when it was not free; its sleeps are at most 15 seconds each and no longer than the wait together |
| Host.Machine.ProbeUnderLock | scripts/fcc-server-automation.py:198-211 | one turn of that wait: an idle answer comes from the one new request, a probe under the lock that found no import |
| Host.Machine.WaitIdle | scripts/fcc-server-automation.py:198-211 | returns normally only after a moment between start and end at which it held a lock that was free before, and a probe, the last request of the log, found no import; gives up only after the wait and a try that was not idle; it does not keep the lock, and sleeps 15 seconds between tries |
| Host.Machine.VerifyDataset | scripts/fcc-server-automation.py:238-270 | under the lock, success means that the single batch, the marker and the archive agree on one digest, and a mismatch error that they do not |
| Supervisor.StopImport | scripts/fcc-server-automation.py:296-308 | its requests are TERM, looks five seconds apart and KILL in their order, up to the first answer that ends it, all for the pinned process; after a normal return in a steady environment the import is gone, or was sent KILL, or was alive when the kernel refused the KILL |
| Supervisor.RefusedKillGoesUnread | scripts/fcc-server-automation.py:296-308 | the third outcome exists: a stop made of genuine runs of the program that returns normally, with the import alive and no KILL sent |
| Supervisor.Look | scripts/fcc-server-automation.py:342-365 | the controller goes on after a look only if the probe it sent in this turn listed nothing but the pinned process; a turn that pins it has its limit call right behind, with the configured MiB, answered without an error or listing nothing; the import it reports is the one limited, or else probed; an error is the one that the last request shows; in a steady environment every import of the dataset at that moment is the pinned process, and it is limited or gone at the end; it never changes what is pinned |
| Supervisor.Watch | scripts/fcc-server-automation.py:340-370 | the time of a helper rests on the clock: every turn began before `seconds` were over and at least 15 seconds after the one before, and the deadline ends the watch only when the helper was still running at or after that moment; any other error is shown by the helper's answer, by the last request, or is a failed save; everything was done to the one process pinned first; the helper is asked before every turn, each turn has a guarded look of its own, behind those before it, and a status that shows what it observed; a normal return means an answer of the helper that it exited with 0 |
| Supervisor.OnTimeFacts | scripts/fcc-server-automation.py:340-370 | what the loop keeps means for all turns: each began in time, with the helper still running, and its status differs from the first one only in the import it shows, which is the one of its turn |
| Supervisor.EveryTurnIsGuarded | scripts/fcc-server-automation.py:340-370 | each turn of a watch has a place of its own among the requests, was guarded, with the one pinned process, after every earlier turn had ended |
| Supervisor.RunHelper | scripts/fcc-server-automation.py:341-384 | the same, time included, with the handler: after a failure a whole stop of the pinned import was asked for, whose interrupt is not lost, then the helper was asked and its group signalled, TERM before KILL by 45 seconds; after one of its own errors the last answer of the helper is an exit code; the sleeps are 15 seconds a turn and at most 90 for the handler |
| Supervisor.VerifyUnderLock | scripts/fcc-server-automation.py:385-387 | a verified batch comes from one new check, at a moment between start and end at which the controller held the lock and the three places agreed, and from a healthy application if that is asked for; a refusal speaks of the places at a moment under the lock, or the lock was busy for a minute, or the application was not healthy |
| Supervisor.RecordVerified | scripts/fcc-server-automation.py:385-390 | the dataset is added to the record only with such a check and a healthy application, and nothing else in the record changes |
| Supervisor.RunDataset | scripts/fcc-server-automation.py:311-390 | the helper is started only right after an idle moment, and watched until it exited or was ended, with every turn within its time; a dataset that ends at the deadline had a helper still running `seconds` or more after its start, and every other error is explained too; the dataset is recorded only after the helper answered that it exited with 0, the check succeeded, and the application was healthy; nothing else in the record changes; no status was saved without a turn but one before and one after, and only the pinned process was touched |
| Supervisor.DeadlineIsTrue | scripts/fcc-server-automation.py:343-370 | whatever explains the error of a run: the deadline means that its time was over, and a failed helper that it exited with another code than 0 |
| Supervisor.AdoptExternal | scripts/fcc-server-automation.py:461-479 | the external dataset is recorded only with such a check of it, and only if its log says that it completed |
| Supervisor.RunAll | scripts/fcc-server-automation.py:480-491 | the datasets were run in order, each among requests of its own, and all but possibly the last to an exit with 0; the verified ones are always the first so many and the external one, no more than helpers exited with 0, each after the application was healthy; as many statuses as turns and two for each |
| Supervisor.EveryRunIsWatched | scripts/fcc-server-automation.py:480-491 | each run of a job was started after an idle moment and watched, among the requests before the next one, and every one but the last ended with an exit with 0 |
| Supervisor.Execute | scripts/fcc-server-automation.py:445-518 | every saved status is sound: verified datasets are a prefix of the request plus the external one, no more than helpers exited with 0, each with its check under the lock, all of them if it says succeeded; at most one process per dataset was touched; an idle moment came before the first run, and every run was watched; a normal return means that all helpers exited with 0, that the application was healthy after each, and that success was saved last; an error or interrupt was saved, is explained, and is the deadline only after a run that lasted that long |
| Supervisor.JobDeadlineIsTrue | scripts/fcc-server-automation.py:480-511 | a job that ends at the deadline or with a failed helper ran such a helper last |
| Supervisor.SuccessIsComplete | scripts/fcc-server-automation.py:480-493 | a job that saved success has every requested dataset and the external one verified |
| LogTail.DecodeInvertsEncode | scripts/fcc-server-automation.py:284 | decoding gives back every text that was encoded |
| LogTail.DecodeOneExactly | scripts/fcc-server-automation.py:284 | a code point is read if and only if the bytes begin with its encoding; otherwise one is replaced |
| LogTail.ProgressLineReadsBack | scripts/fcc-server-automation.py:28-30 | the pattern matches a progress line exactly, whatever follows |
| LogTail.MatchIsAProgressLine | scripts/fcc-server-automation.py:28-30 | conversely, whatever the pattern matches is a progress line with two numbers and one of the collections |
| LogTail.FindAllCutsAtS | scripts/fcc-server-automation.py:284 | the matches of a text are those before and those from any capital S |
| LogTail.TailMatchesAreTheLastOnes | scripts/fcc-server-automation.py:281-287 | wherever the log is cut, even inside a character, the matches in the tail are the last ones of the whole log |
| LogTail.TailScanRefinesFullScan | scripts/fcc-server-automation.py:281-293 | the tail scan reports the same as a scan of the whole log if and only if the tail has a match or the log has none |
| LogTail.LastLineIsReported | scripts/fcc-server-automation.py:281-293 | a progress line that lies whole within the last 8192 bytes is exactly what is reported if no match follows it, whatever stands before it and wherever the cut falls; else the last match behind it is |
| LogTail.OnlyTheTailMatters | scripts/fcc-server-automation.py:281-284 | nothing before the last 8192 bytes matters |
| Reconciler.RecentRuns | scripts/reconcile-actions.py:73-86 | what is fetched are the recent runs of the pages up to the first one that reaches back before the cutoff; with runs listed newest first, exactly the recent ones among the first 300, in order |
| Reconciler.EarlyStopLosesExactly | scripts/reconcile-actions.py:83-85 | the early stop loses a recent run if and only if an old one stands on an earlier page, among the first 300 |
| Reconciler.NewestIsTheNewest | scripts/reconcile-actions.py:113-117 | the newest run of a key has the key, and no run of the key is later |
| Reconciler.LatestRunsByKey | scripts/reconcile-actions.py:113-117 | the table maps exactly the keys that occur, each to its newest run |
| Reconciler.PlanSupersededCancellations | scripts/reconcile-actions.py:120-142 | the plan is the cancellation of every waiting run that is not the newest of its key, in order |
| Reconciler.PlanRetryCandidates | scripts/reconcile-actions.py:145-179 | the plan is every retryable run, in order |
| Reconciler.CancelsExactly | scripts/reconcile-actions.py:120-142 | on the runs and their texts: a cancellation is planned if and only if the status of the run is one of the four that wait, neither its id nor its path is that of the reconciler, and another run is the newest of its workflow and branch, which the action names |
| Reconciler.OnlyWaitingIsCancelled | scripts/reconcile-actions.py:120-142 | no run that is in progress or completed is ever planned to be cancelled |
| Reconciler.RetriesExactly | scripts/reconcile-actions.py:145-179 | a run is a candidate for retry if and only if it completed as one of the two conclusions, at its first attempt, in one of the two workflows, is the newest of its workflow and branch, and has a branch |
| Reconciler.PlansAreDisjoint | scripts/reconcile-actions.py:120-179 | no run is both cancelled and retried, and the newest run of a key is never cancelled, as long as a run keeps its workflow and branch however often it is listed |
| Reconciler.ReplanningIsStable | scripts/reconcile-actions.py:113-179 | after its cancellations took effect, planning again cancels nothing, and finds the same newest runs and the same candidates |
| Reconciler.DistinctCandidatesExactly | scripts/reconcile-actions.py:145-179 | no retry is planned twice if and only if the list shows no retryable run twice |
| ReconcilerHistory.HistoryKeepsInv | scripts/reconcile-actions.py:191-249 | every history of passes, new runs, completions and reruns keeps the bookkeeping of retried runs |
| ReconcilerHistory.EachRunIsRetriedOnce | scripts/reconcile-actions.py:145-179 | over every such history each run is retried automatically at most once, and only if it was fetched at its first attempt |
| ReconcilerHistory.RetryCanBeTheThirdAttempt | scripts/reconcile-actions.py:159-160 | an automatic retry can be a third attempt |
| ReconcilerHistory.RetryIsSecondUnlessRerun | scripts/reconcile-actions.py:159-249 | over any history between fetch and request, it is the second attempt if and only if nobody else reran the run in that time |
| ReconcilerExecution.ExecuteCancellations | scripts/reconcile-actions.py:211-219 | outside of a dry run one request is sent for each planned cancellation, in order, and its answer is the fate; a program that breaks off sent the one that broke it last; a dry run sends nothing |
| ReconcilerExecution.ExecuteRetries | scripts/reconcile-actions.py:221-249 | the requests are those of one turn for each candidate, which decide its fate: performed exactly if its request was accepted, failed exactly if that or a lookup of its own branch failed; with stable tips every candidate is decided as its own lookup would decide it |
| ReconcilerExecution.CancellationsTell | scripts/reconcile-actions.py:211-219 | the report of the cancellations is what the answers to their requests add up to |
| ReconcilerExecution.TurnsTell | scripts/reconcile-actions.py:221-249 | so is the report of the retries |
| ReconcilerExecution.TurnsAnswerOnce | scripts/reconcile-actions.py:223-233 | a branch is looked up again only after a failed lookup, and a dry run only looks up |
| ReconcilerExecution.TurnsFollow | scripts/reconcile-actions.py:223-241 | with stable tips the cache does not change how a candidate is decided |
| ReconcilerExecution.CancellationsAreAllowed | scripts/reconcile-actions.py:207-219 | on the runs and their texts: every cancellation that is asked for is of a run that waits and has a newer one |
| ReconcilerExecution.TurnsAreAllowed | scripts/reconcile-actions.py:221-249 | so is every rerun of a run that may be retried, and its branch was looked up before at the commit of the run |
| ReconcilerExecution.Reconcile | scripts/reconcile-actions.py:200-249 | the accepted requests are exactly the performed actions, in order, and the failed requests are counted as errors; performed, skipped and failed add up to the planned ones, every performed action was planned, and a dry run only looks up; over the whole pass a cancellation was asked only for a run that waits and is superseded, and a rerun only for a retryable run at the tip that was looked up |
| ReconcilerExecution.ReportCountsEveryAction | scripts/reconcile-actions.py:207-249 | each action is counted exactly once |
| RecoverySet.FeedConcat | scripts/deployment-recovery-set.py:18-25 | feeding two parts is feeding their concatenation |
| RecoverySet.Checksum | scripts/deployment-recovery-set.py:18-25 | the digest of the chunks is the digest of the whole file |
| RecoverySet.DigestsTellApart | scripts/deployment-recovery-set.py:18-25 | two files with one digest are one content, so nothing is left out of a digest |
| RecoverySet.Site.CaptureChecked | scripts/deployment-recovery-set.py:105-153 | a captured file is the data frozen by the pause, and its check succeeded |
| RecoverySet.Site.MakeSet | scripts/deployment-recovery-set.py:101-173 | a manifest that can be read implies that all files are whole, matched, validated and summed |
| RecoverySet.Site.CreateRecoverySet | scripts/deployment-recovery-set.py:53-188 | under any faults the actions are an initial part of the fixed order, closed by a resume once a stop was tried, exactly unless an interrupt comes in the closing block before it; it returns normally if and only if nothing failed, the conditions for starting held, and no interrupt cut the closing block; a readable manifest implies a complete set; a normal return implies that and running services |
| RecoverySet.PauseIsClosed | scripts/deployment-recovery-set.py:100-187 | services are stopped at most once and resumed at most once and last, and every capture lies behind the stop and before the resume |
| Transport.ProvisioningProvesNoSuccess | scripts/azure-deploy.py:163-172 | the provisioning state neither proves a success nor takes one back |
| Transport.ExecutionExactly | scripts/azure-deploy.py:163-172 | every reading: success is the state of that name with exit code 0; failure is another final state, another exit code, or a provisioning that failed or was canceled without a final state; all else is undecided |
| Transport.LegalTracesExactly | scripts/azure-deploy.py:196-246 | the automaton of requests accepts exactly: look up, submit once, poll, and a removal only as the last request right after a poll that proved a success |
| Transport.MatchesRunId | scripts/azure-deploy.py:187-189 | the matcher accepts exactly two numbers joined by a hyphen |
| Transport.NamesDiffer | scripts/azure-deploy.py:200 | two executions share a command name only if operation, run and attempt are the same |
| Transport.Azure.AwaitResult | scripts/azure-deploy.py:219-246 | polling succeeds exactly when a poll proved the success and fails exactly when one disproved it, times out only at the deadline, waits at least 15 seconds between polls, and removes nothing otherwise |
| Transport.Azure.ExecuteScript | scripts/azure-deploy.py:187-246 | the requests of one execution are legal; it succeeds if and only if a poll proved it; only a command that ended in success is ever removed; failure and timeout leave it; bounds on time and number of requests |
| GuestLoop.EarlierRunsAreClean | scripts/azure-fcc-sync.py:83-105 | every helper but the last exited with 0, and no two overlap |
| GuestLoop.Guest.RunHelper | scripts/azure-fcc-sync.py:91-102 | one helper is started and ends, as the log says: by itself before the deadline, or after TERM within the grace period, or by KILL, which it is sent only if it did not exit in that time |
| GuestLoop.Guest.RunHelpers | scripts/azure-fcc-sync.py:75-105 | the jobs and the time are those of the order; at most one helper runs at a time and none is left; the runs it adds to the log are the jobs in order; it succeeds exactly if all exited with 0; it ends within the deadline, 60 seconds and the reaping |
| GuestLoop.RemoteTimeoutIsKept | scripts/azure-fcc-sync.py:28-32 | every possible run ends before the remote timeout if and only if it is a synchronization and reaping takes less than four minutes |
| SwapCleanup.ValidatedExactly | scripts/fcc-temporary-memory-cleanup.py:15-30 | a target is accepted only with its name of eight digits, inside the directory, as a regular file of 32 GiB with one link, of root, that only root reads and writes; each refusal says what is first wrong |
| SwapCleanup.RecordExactly | scripts/fcc-temporary-memory-cleanup.py:56-67 | a record is trusted if and only if it is no link, of root, closed to all others, and the swap is not configured to persist |
| SwapCleanup.Machine.WaitForIdle | scripts/fcc-temporary-memory-cleanup.py:69-81 | its steps are attempts that took the lock, saw an import and gave it back, and at the end, exactly if it returns normally, one that keeps the lock and saw none; it gives up only after the wait, and its sleeps exceed the wait by less than 30 seconds |
| SwapCleanup.Machine.SwitchOff | scripts/fcc-temporary-memory-cleanup.py:83-101 | swap is switched off only with 512 MiB to spare, and success means it was seen inactive |
| SwapCleanup.Machine.RemoveHeld | scripts/fcc-temporary-memory-cleanup.py:82-116 | the steps of one hold of the lock in their order, what each of them found, and which results they allow; the lock is given back last |
| SwapCleanup.Machine.RemoveWhenIdle | scripts/fcc-temporary-memory-cleanup.py:50-117 | the whole cleanup step by step: nothing to do without a target, refusals before the lock, the wait, and the hold; the lock is never kept and the wait is not cut short |
| SwapCleanup.RemovalIsJustified | scripts/fcc-temporary-memory-cleanup.py:69-106 | whenever the target was removed, the lock was held from the idle moment to the removal, swap was seen inactive, and the same valid inode was found before and after; in a steady machine no import ran at that moment and the target stayed in place |
| SwapCleanup.SuccessIsJustified | scripts/fcc-temporary-memory-cleanup.py:50-117 | a cleanup that returns normally with a target has removed it with this justification |
| SwapCleanup.AnotherFileExactly | scripts/fcc-temporary-memory-cleanup.py:102-106 | another file than the checked one stands there after any steps of the machine if and only if the machine is not steady and that file was put there last |
| SwapCleanup.AnotherFileIsRemoved | scripts/fcc-temporary-memory-cleanup.py:82-116 | a whole cleanup in which this happens: it returns normally and has removed a file it never checked |
| CsvErrors.DownloadImportErrors | frontend/src/AssetManagementWorkspace.tsx:260-284 | the downloaded text is the document of the errors, and there is none without errors |
| CsvErrors.CellsExactly | frontend/src/AssetManagementWorkspace.tsx:268 | the cells of a row are a numeral that reads back as the number of the row, the asset as it is, and the errors one after the other |
| CsvErrors.DownloadReadsBack | frontend/src/AssetManagementWorkspace.tsx:262-277 | a reader of CSV files gets back the header and exactly the guarded cells, whatever characters they hold |
| CsvErrors.NoCellIsAFormula | frontend/src/AssetManagementWorkspace.tsx:262-265 | no cell that is read starts a formula |
| CsvErrors.GuardConfusesExactly | frontend/src/AssetManagementWorkspace.tsx:263 | the guard confuses two values if and only if one is a formula and the other that formula after an apostrophe |
| Decimal.DigitsReadBack | scripts/check-markdown-links.py:66 | a printed number is read back |
| MarkdownAnchors.SlugsAreTheFixedPoints | scripts/check-markdown-links.py:42-46 | a slug has only lower-case letters, digits and hyphens, and the texts made of these are exactly those that stay as they are |
| MarkdownAnchors.SlugIsIdempotent | scripts/check-markdown-links.py:42-46 | the slug of a slug is the slug |
| MarkdownAnchors.CharactersExactly | scripts/check-markdown-links.py:18-46 | which characters are kept, which are marks, and that each capital becomes its small letter, letter by letter |
| MarkdownAnchors.WordIsItsSlug | scripts/check-markdown-links.py:42-46 | a word of letters, digits and hyphens is its own slug, but for its capitals, which become their small letters |
| MarkdownAnchors.TagIsDropped | scripts/check-markdown-links.py:43 | a bracketed part does not matter for the slug |
| MarkdownAnchors.PunctuationIsDropped | scripts/check-markdown-links.py:44-45 | nor does a mark or a character that is neither kept nor a space |
| MarkdownAnchors.CaseIsDropped | scripts/check-markdown-links.py:45 | nor does upper or lower case |
| MarkdownAnchors.BlanksAroundAreDropped | scripts/check-markdown-links.py:46 | nor do blanks around the text |
| MarkdownAnchors.BlanksBetweenBecomeAHyphen | scripts/check-markdown-links.py:46 | the slug of two texts with blanks between is their slugs with one hyphen between |
| MarkdownAnchors.HeadingReadsBack | scripts/check-markdown-links.py:17 | the text of a heading is read back from signs, gap, text and closing |
| MarkdownAnchors.HeadingIsALine | scripts/check-markdown-links.py:17 | conversely, a line that is read as a heading starts with one to six signs and a blank, and holds only blanks and signs behind its text |
| MarkdownAnchors.HeadingExactly | scripts/check-markdown-links.py:17 | a line is a heading if and only if it has one to six signs, a blank, and anything behind them |
| MarkdownAnchors.BlankHeadingReadsBack | scripts/check-markdown-links.py:17 | a line of signs and blanks is a heading with a blank for its text, if it has more than one |
| MarkdownAnchors.FenceExactly | scripts/check-markdown-links.py:55-57 | a line is a fence if and only if it has white space and then three of either mark, whatever follows |
| MarkdownAnchors.BlockHasNoAnchors | scripts/check-markdown-links.py:49-68 | a fenced block, put anywhere outside of another, gives no anchor and changes none around it |
| MarkdownAnchors.AnchorsFor | scripts/check-markdown-links.py:49-68 | the anchors are exactly those of the counting specification |
| MarkdownAnchors.SuffixesAreReadable | scripts/check-markdown-links.py:64-66 | slug and number can be read from a numbered anchor |
| MarkdownAnchors.AnchorsCollideExactly | scripts/check-markdown-links.py:63-66 | two headings share an anchor if and only if one is the first of its slug and is spelled like the numbered other; equal slugs never share |
| MarkdownAnchors.CheckLinks | scripts/check-markdown-links.py:87-125 | no error if and only if every link of a line is in order |
| MarkdownAnchors.CheckFile | scripts/check-markdown-links.py:77-125 | no error if and only if every link on a visible line is in order |
| MarkdownAnchors.CheckAll | scripts/check-markdown-links.py:71-139 | the exit code is 0 if and only if every link on a visible line of every file is in order, whatever the cache holds |
| CollaborationServer.MutateKeepsRecords | backend/apps/collaboration/services.py:185-525 | whatever direct saves came before, a mutation keeps the records and moves every record of the plan only onward |
| CollaborationServer.ResolveKeepsRecords | backend/apps/collaboration/views.py:117-172 | so does a resolution |
| CollaborationServer.HistoryKeepsRecords | backend/apps/collaboration/services.py:185-525 | every history of mutations, resolutions, direct edits in steps, and approval keeps the records and never takes back or changes one |
| CollaborationServer.StoreIsOnwardExactly | backend/apps/plans/views.py:293-355 | a direct save goes onward if and only if it lands on the version and status that were loaded, or changes nothing |
| CollaborationServer.CurrentSaveIsTheEdit | backend/apps/plans/views.py:293-355 | a save that does is exactly its edit, so it loses nothing |
| CollaborationServer.HistoryIsOnwardExactly | backend/apps/plans/views.py:293-355 | every step of a history goes onward if and only if all its direct saves are such, and then the versions stay in order |
| CollaborationServer.NoLostUpdate | backend/apps/collaboration/services.py:238-245 | over every such history, two saved changes of one record never start from the same version |
| CollaborationServer.StaleSaveLosesAnUpdate | backend/apps/plans/views.py:307-310 | over a history with a stale save, two saved changes of one row can start from the same version |
| CollaborationServer.ApprovedStaysExactly | backend/apps/plans/models.py:79-87 | an approved plan stays as it is over a history if and only if every direct save is such |
| CollaborationServer.ApprovedStaysUnlessPending | backend/apps/plans/views.py:293-355 | the check of a direct edit is the gate: with none behind it at the approval, the plan stays as it is over every history |
| CollaborationServer.LoadExactly | backend/apps/plans/views.py:293-355 | when a direct edit is begun, what it holds, and that nothing else changes |
| CollaborationServer.CheckExactly | backend/apps/plans/models.py:79-87 | a direct edit passes its check exactly on an open plan, and is refused on an approved one |
| CollaborationServer.LateSaveChangesTheApproved | backend/apps/plans/models.py:225-232 | a row that was loaded before the approval is saved after it |
| CollaborationServer.LateSaveTakesBackTheApproval | backend/apps/plans/models.py:79-87 | a revision that was checked before the approval is saved after it, with its old status |
| CollaborationServer.RepeatingIsHarmless | backend/apps/collaboration/services.py:189-204 | a repeated mutation, however late, changes nothing and gets the first answer |
| CollaborationServer.ResolutionsAreSound | backend/apps/collaboration/views.py:129-155 | only retained conflicts are resolved, and a resolution other than discarding names a saved change of the same user |
| CollaborationServer.SavedChangesOnlyItsFields | backend/apps/collaboration/services.py:226-271 | a saved update changes its record in the named fields only and counts up its version; any other outcome changes nothing |
| CollaborationServer.CreationExactly | backend/apps/collaboration/services.py:273-323 | a creation is saved if and only if the plan is open, the version is the base and the data is valid; then the plan has one new row behind the others, with exactly what was sent, at version 1, and the next version; a stale one is a conflict, and anything but a saved one leaves the plan |
| CollaborationServer.RevisionUpdateExactly | backend/apps/collaboration/services.py:226-271 | the same for an update of the revision: unknown fields are refused before the version is compared; a saved one writes its fields over the old ones |
| CollaborationServer.UpdateExactly | backend/apps/collaboration/services.py:325-470 | the same for an update of a row: a missing row is refused, and a saved one writes its fields over those of the row and leaves the rest of the plan |
| CollaborationServer.DeletionExactly | backend/apps/collaboration/services.py:325-433 | the same for a deletion: it takes the row out of the rows and the order and leaves the others in theirs; one that names fields is refused |
| CollaborationServer.ReorderExactly | backend/apps/collaboration/services.py:472-523 | the same for an order: it is saved only with every row exactly once |
| CollaborationServer.NoOrderExactly | backend/apps/collaboration/services.py:482-490 | an order without a list of rows, or with more than that, is refused if it is not stale |
| CollaborationServer.KnownKeyExactly | backend/apps/collaboration/services.py:189-204 | a key that was used gets its first answer for the same user and payload, and an error for any other; nothing changes |
| CollaborationServer.ResolvedExactly | backend/apps/collaboration/views.py:117-172 | when a conflict is resolved, and that nothing but its resolution is written |
| PlanConflict.AppliedValuesAreTheProposal | frontend/src/PlanWorkspace.tsx:603-612 | what is sent are exactly the chosen fields of the proposal that are not left out for the user, with the proposed values if and only if none of them is masked |
| PlanConflict.DeletionCannotBeReapplied | frontend/src/PlanWorkspace.tsx:613-616 | the conflict of a deletion offers nothing to apply |
| PlanConflict.Reorder | frontend/src/PlanWorkspace.tsx:508-513 | the swap in place computes the move, including the exception for a row that is gone |
| PlanConflict.MoveExactly | frontend/src/PlanWorkspace.tsx:508-513 | on the places of the rows: the row changes places with the one so many further on; without such a place nothing happens; when a row that is gone raises an exception |
| PlanConflict.MoveIsUndone | frontend/src/PlanWorkspace.tsx:508-513 | a move is a permutation, and the opposite move takes it back |
| PlanConflict.MovesPermute | frontend/src/PlanWorkspace.tsx:508-519 | any sequence of moves permutes the original rows |
| PlanConflict.SavedOrderIsThePermutation | backend/apps/collaboration/services.py:472-523 | a saved order is the one that was sent, of exactly the same rows |
| PlanConflict.ReplacesWhatWasShown | frontend/src/PlanWorkspace.tsx:594-635 | a replacement that is saved, however late, goes over exactly the record that was shown, as long as the versions are in order |
| PlanConflict.StaleSaveHidesFromTheReplacement | frontend/src/PlanWorkspace.tsx:594-635 | after a stale direct save a replacement at the shown version is saved over values that were not shown |
| PlanConflict.RejectedIsNeverResolved | frontend/src/PlanWorkspace.tsx:636-642 | a rejected change that has become the active one can never be resolved |
| PlanConflict.Workspace.RunMutation | frontend/src/PlanWorkspace.tsx:331-372 | one mutation is sent; it becomes the active conflict exactly if it is answered as a conflict |
| PlanConflict.Workspace.DiscardConflict | frontend/src/PlanWorkspace.tsx:570-587 | the conflict goes away exactly if the server accepted that it is discarded, which it never does for a rejected change |
| PlanConflict.Workspace.SendReplacement | frontend/src/PlanWorkspace.tsx:625-660 | the conflict is settled only by a change of this user that was saved over the shown version, and over exactly the shown record if every direct save is current; one that was not saved takes its place |
| PlanConflict.Workspace.ApplyConflictValues | frontend/src/PlanWorkspace.tsx:589-661 | the same with the reasons to send nothing, and what exactly is sent at which version |
| PlanConflict.Workspace.MoveRow | frontend/src/PlanWorkspace.tsx:508-519 | a move sends the whole permuted order once, or nothing |
| Sessions.GatesAgreeExactly | frontend/src/api.ts:289-305 | all gates give the same token at all times if and only if no token is stored with an expiry that is no date |
| Sessions.HistoryIsSound | frontend/src/api.ts:467-505 | after every history a stored token comes with the text of a date |
| Sessions.GatesAgreeAfterEveryHistory | frontend/src/incidentEditingApi.ts:19-31 | so after every history the four gates agree, and none yields a token at or past its expiry |
| Sessions.UsableTokenIsTheLatest | frontend/src/api.ts:467-491 | a usable token is that of the last accepted sign-in, and nothing has ended that session since |
| Sessions.LateRefusalEndsAnySession | frontend/src/api.ts:335-339 | a late refusal ends any session, if and only if its request carried a token |
| Sessions.UncheckedReaderDiffersExactly | frontend/src/locationSearchApi.ts:21-23 | the reader without a check agrees with the gates at a time if and only if no token is stored, or one whose expiry text is a date the clock has not reached |
| Sessions.Browser.StoredToken | frontend/src/api.ts:289-305 | the main gate and what it does to the storage, with a notice only for a token that was there |
| Sessions.Browser.TokenForRequest | frontend/src/api.ts:316-323 | a request is refused exactly when a token is stored that is not usable |
| Sessions.Browser.FormsTokenForRequest | frontend/src/ics205bApi.ts:50-60 | the gate of the forms, its clearing and its notice |
| Sessions.Browser.Login | frontend/src/api.ts:467-491 | a sign-in is accepted exactly with a token and the text of a date |
| Sessions.Browser.Logout | frontend/src/api.ts:318-505 | whatever happens meanwhile, the storage ends empty; the revocation counts as confirmed exactly without a usable token, or with an answer of success that has no content or a body that is JSON |
| NifogGroups.TrimExactly | frontend/src/NifogResourceCategories.tsx:21-25 | a text of white space is trimmed to nothing, and any other to what stands between the white space around it |
| NifogGroups.CategoryExactly | frontend/src/NifogResourceCategories.tsx:20-31 | the title of a channel is its section, else its use, else its band with two words, else three words, each trimmed; the key joins it to the release id |
| NifogGroups.GroupNifogChannels | frontend/src/NifogResourceCategories.tsx:33-52 | the one-pass table gives the groups of the specification, sorted |
| NifogGroups.SortIsSorted | frontend/src/NifogResourceCategories.tsx:49-51 | the groups are sorted by title for any total preorder |
| NifogGroups.SortIsStable | frontend/src/NifogResourceCategories.tsx:49-51 | groups with equal titles stay in their order |
| NifogGroups.GroupsPartitionTheChannels | frontend/src/NifogResourceCategories.tsx:33-74 | groups and other channels together are the input, as multisets |
| NifogGroups.OthersInOrder | frontend/src/NifogResourceCategories.tsx:68-74 | the other channels stay in their order, and no NIFOG channel is among them |
| NifogGroups.KeysAreDistinct | frontend/src/NifogResourceCategories.tsx:34-48 | no key has two groups |
| NifogGroups.ShownGroupsAreTheGroups | frontend/src/NifogResourceCategories.tsx:33-52 | what is shown is one group for each key, with its members in input order |
| NifogGroups.KeysCanCollideExactly | frontend/src/NifogResourceCategories.tsx:20-31 | channels of two release ids can share a key if and only if one id with the separator begins the other with it, and what is left over is empty or does not begin with white space |
| NifogGroups.ColonFreeIdsAreToldApart | frontend/src/NifogResourceCategories.tsx:29-31 | channels with one key have one release id and one title, if their ids have no colon |
| NifogGroups.TrailingColonCollides | frontend/src/NifogResourceCategories.tsx:20-31 | for every id and title, a channel of the id with a colon behind it shares its key with one of the id itself |
| NifogGroups.SourcesAreRightExactly | frontend/src/NifogResourceCategories.tsx:54-64 | every channel is shown under its own source if and only if no two channels with one key have different sources |
| NifogGroups.ColonFreeIdsShowTheirSource | frontend/src/NifogResourceCategories.tsx:54-64 | which holds for ids without colons |
| AuditChain.AuditLog.RecordEvent | backend/apps/audit/services.py:43-69 | an appended event keeps an intact chain intact |
| AuditChain.AuditLog.VerifyAuditChain | backend/apps/audit/services.py:72-97 | the verdict is true exactly for an intact chain, and otherwise names the first break |
| AuditChain.OneHashVouchesForAllBefore | backend/apps/audit/services.py:9-40 | intact logs with one hash in common agree on every event up to it |
| AuditChain.AlterationIsNoticedExactly | backend/apps/audit/services.py:19-26 | an altered event goes unnoticed if and only if only its time changed, or it is the last and was hashed anew |
| AuditChain.RemovalIsNoticedExactly | backend/apps/audit/services.py:19-26 | a removal is noticed if and only if events remain after it |

## Left out

- Host.Machine.Perform: one run of the program is a single atomic step; a process that exits and whose pid is reused between the scan and the signal of one run is not modelled.
- Host.Machine.FileLock: the refusal of a lock file that is a symbolic link is not modelled, nor the lock that keeps a second controller out beyond its one error.
- Supervisor.Look: that every import of the dataset is pinned and limited is stated for a steady environment, and otherwise only of what the probe listed. The process reported as observed after a limit answer is the first one listed there, as in the source.
- Supervisor.Execute: the checks of the release and of the external log are questions with an answer; reading the configuration and the notification mail appear only as failures, or not at all; the progress in a status is not part of it.
- Supervisor.RunHelper: processes that the helper left behind outside of its group.
- LogTail.TailScanRefinesFullScan: the conversion of the matched digits to numbers; the digits are kept as text.
- ReconcilerHistory.EachRunIsRetriedOnce: passes do not overlap, as the concurrency group of the workflow arranges.
- RecoverySet.Site.CreateRecoverySet: the closing resume is one command, which fails or not; file modes, names and disk usage beyond the one comparison are not modelled.
- Transport.Azure.ExecuteScript: nobody else uses the same run and attempt; a request takes at most its two minutes, and only requests and naps take time; an interrupt from the keyboard is not modelled, and answers of an unexpected shape count as failed requests.
- GuestLoop.Guest.RunHelpers: waiting takes exactly the time asked for; processes that a helper left behind in its group are not modelled.
- SwapCleanup.Machine.RemoveWhenIdle: reading the process table is one moment; how the record is rewritten after the removal is only a possible failure.
- CsvErrors.DownloadReadsBack: escaped fields may hold any characters, where RFC 4180 lists ASCII only.
- MarkdownAnchors.SlugsAreTheFixedPoints: ASCII texts; a character beyond ASCII is neither a letter nor a space. How link targets are found in a line and resolved to files is given, not modelled.
- CollaborationServer.MutateKeepsRecords: one revision, as a value and not as database rows; digests of payloads are compared as the payloads themselves; permissions and the validation of fields are a free choice, and saved fields are taken as sent; a new row goes to the end.
- CollaborationServer.StoreIsOnwardExactly: the order of the rows stands for their numbered positions; a stale save of a row does not move it, though it writes its old number back where that is free, and a row that is inserted again may stand anywhere. Requests that fail on the way are saves that never come.
- PlanConflict.Workspace.ApplyConflictValues: the periodic refresh, which shows the newest open conflict when none is active, and the forms around it.
- Sessions.GatesAgreeAfterEveryHistory: the storage itself does not fail, and nothing but the application writes to it.
- NifogGroups.GroupNifogChannels: the page numbers of a group, and the rendering; comparing titles is a given function.
- AuditChain.OneHashVouchesForAllBefore: hashes are free terms, so no two contents have one hash; the unique number that rejects two first events at once is not modelled, and details are read back from the database as they were hashed.
- The planning engines for radio propagation, the import of assets, accounts and permissions, the map and the rest of the interface.
- Base64, gzip, shell quoting, regular expressions other than the ones named above, JSON, cryptography, mail, and everything that Azure, Docker and git do with a command.
- Validators with a handful of branches: environment files, capacity reports, the security gate, application settings.
