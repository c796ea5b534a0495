# Verified models of the gateway's job engine

An LLM CLI gateway starts provider processes and HTTP requests on behalf of callers, queues them
behind running limits, keeps their captured output, and records each one in a durable row that
several gateway instances share. This project models the parts of it whose correctness depends on
interleaving, accounting or encoding, and proves what they promise over whole runs.

Verify everything with `dafny verify dfyconfig.toml` (Dafny 4.11).

| file | what it models |
|---|---|
| `LimiterSpec.dfy`, `LimiterProofs.dfy`, `LimiterLaws.dfy`, `JobLimiter.dfy` | the running-limit scheduler: specification, its invariants over every run, what each call does told by permits and waiters, and the class with counters, maps and queue proved equal to the specification |
| `DurableRow.dfy`, `DurableEvents.dfy`, `DurableOutput.dfy` | one durable job row, its owner and other instances, interleaved at every await and at every store call's three moments (sent, applied, answered) |
| `JobLifecycle.dfy`, `JobLaws.dfy` | one in-memory job record from admission to its last callback, and what a caller can count on in each situation |
| `Admission.dfy` | heartbeat ticks, registration, orphan sweeps and disposal of one instance |
| `LeaseTiming.dfy` | leases in time: when a sweep may orphan a job, and when it must |
| `WindowsArgv.dfy`, `CliInputLimits.dfy` | quoting for `cmd.exe` shims with both readers that undo it, and the two-phase size admission |
| `OutputCapture.dfy`, `OutputPaging.dfy` | capture under a byte cap; paged reading with redaction |
| `FlightRecorder.dfy`, `FlightOwnership.dfy` | the completion-rank rule of the transcript rows; the promise chain that orders a request's transcript writes |
| `TerminationFence.dfy`, `ChildStdin.dfy` | process-group termination; delivery of the stdin payload |
| `Installer.dfy` | swapping staged directories into place with rollback |

State that the program updates in place inside one object (limiter, capture buffers, recorder tables,
ownership flags, fence, stdin delivery, the disk) is a class whose methods are proved equal to a
specification function. Protocols that are interleaved at awaits are transition systems over those
moments. Callbacks handed to the limiter are represented by the finite list of limiter calls they make
and by whether they throw, so statements hold for every callback that makes finitely many of them.

## What the code does not do as described

Each of these has a concrete run and the exact condition, proved for all inputs or over every run.

- `saturated` (documented as true iff a further acquire would queue or be rejected,
  src/async-job-manager.ts:414-416) means that the global cap is reached or somebody waits
  (`SaturatedMeans`, `SaturatedIsNotCannotRun`). It agrees with its documentation for a provider exactly
  when the global cap is reached, or somebody waits just when that provider is at its own cap
  (`SaturatedAgreesIff`).
- A flush decided before a close can land after the terminal write and leave the row with older text
  (`StaleFlushTruncates`); all output survives iff the flush that writes last carries all of it
  (`CompleteIff`).
- A flush in flight while the job's own cancellation lands is rejected by the row that this very job
  settled, and is taken for another writer's (`OwnWriteDisablesRescue`). When the late body of a closed job
  starts, and store calls are carried out from then on, all output survives every schedule of the two
  write chains iff the flush that writes last carries all of it; or, when none will write, the row has all of it already, or the rescue is on and no rejected
  or doomed flush is still to be answered (`AlwaysCompleteIff`, `LateOutputSurvivesIff`).
- A job can take the row it settled itself for another writer's (`RejectedForItsOwn`). An instance whose
  terminal write has been answered was rejected iff the write admitted to the row was not its own, or was
  its own and lost its answer (`RejectedIff`); so a rejection is about its own write iff the answer to that
  write was lost (`RejectedForItsOwnIff`).
- A deferred job can keep a running slot for ever (`StrandedPermit`, `HeldPermitLost`): an attached permit is
  never given back iff its job never launched, has no terminal transition to persist, and is terminal or
  dropped from the table (`NeverReturnedIff`).
- A sweep that has started re-checks disposal but not the admission gate, so `recoverStaleJobs` can be
  issued with the gate closed (`SweepAfterQuiescing`): exactly when, since the sweep began, a tick was the
  third in a row to fail or a restore was rejected, and no restore was admitted after it
  (`SweepTrustsOldGate`).
- An instance can register itself after its disposal, exactly when a tick's heartbeat was in flight at
  that moment (`DisposedMidHeartbeat`, `LateRegistrationIff`); only the restore path looks at disposal again
  (src/async-job-manager.ts:1941-1966, 2019-2025).
- The pid grace is once per sweeping instance, not one-shot (`GraceOncePerInstance`,
  `TwoSweepersTwoGraces`): a grace is the row's first iff the row still has its pid (`FirstGraceIff`).
- The output cap compares undecoded bytes, so it holds exactly for chunks that do not grow when decoded
  (`CapHoldsIff`), and three times the cap can be stored under every cap (`TripleIsReached`).
- The preflight size bound agrees with the final one exactly when the escaped path fits
  (`Misfit`, `TwoPhaseSoundIff`).
- A directory removal that fails at the start of the installer's swap is not rolled back; the destinations
  are then as they were iff none before it existed (`FirstStranded`, `ReplaceDirs`).

## Model

| member | source | states |
|---|---|---|
| `JobLimiter.JobLimiter.Acquire` | src/async-job-manager.ts:493-525 | grants, queues or rejects exactly as specified, with every counter, the queue and the issued ticket accounted for |
| `JobLimiter.JobLimiter.RemoveEntry` | src/async-job-manager.ts:527-536 | a waiting ticket, and no other, leaves the queue and its provider's count |
| `JobLimiter.JobLimiter.Cancel` | src/async-job-manager.ts:523 | true iff the ticket was still queued, and only that ticket is removed |
| `JobLimiter.JobLimiter.FireTimer` | src/async-job-manager.ts:511-516 | a timed-out ticket is removed before its callback runs, one already gone is ignored |
| `JobLimiter.JobLimiter.ReleasePermit` | src/async-job-manager.ts:472-480 | a second release of a permit changes nothing; the first gives the slot back and pumps |
| `JobLimiter.JobLimiter.PumpQueue` | src/async-job-manager.ts:538-557 | the restart-from-zero loop terminates, also with re-entrant callbacks, and equals the recursive specification |
| `JobLimiter.JobLimiter.GrantEntry` | src/async-job-manager.ts:545-552 | one grant, with the permit taken back when the callback throws |
| `JobLimiter.JobLimiter.SnapshotSaturated` | src/async-job-manager.ts:559-580 | the `saturated` field by the source's scan of waiting providers, true between calls iff the global cap is reached or somebody waits |
| `LimiterProofs.EveryRun` | src/async-job-manager.ts:459-557 | in every run, throwing and re-entrant callbacks included: counters equal unreleased permits per provider and in total, within both caps; queued counts are exact and bounded; each ticket is waiting, granted, timed out or cancelled exactly once; same-provider grants are in arrival order; no immediate grant passes a waiter of its provider; no waiter left is runnable |
| `LimiterProofs.ReleasePreserves` | src/async-job-manager.ts:472-480 | every state property kept by the atomic updates survives a release, however deep its callbacks nest |
| `LimiterProofs.ReleaseIsOneHandover` | src/async-job-manager.ts:538-557 | a release hands over to at most one waiter: the second scan of `pump` never grants |
| `LimiterProofs.PumpIsGreedy` | src/async-job-manager.ts:538-557 | with callbacks that keep their permits, restarting from zero grants exactly what one left-to-right pass grants, in order, from any state |
| `LimiterProofs.RunningIsTheSum` | src/async-job-manager.ts:467-482 | the global running count is the sum of the per-provider counts and the number of unreleased permits |
| `LimiterLaws.AcquireDoes` | src/async-job-manager.ts:493-525 | from every reachable state: a fresh permit when one fits beside those held, else a place at the end of the queue with both callbacks, else a counted rejection, and nothing else |
| `LimiterLaws.CallbackIsItsCalls` | src/async-job-manager.ts:547-551 | what a callback calls has the effect of the same calls made from outside, in the same order |
| `LimiterLaws.CancelDoes` | src/async-job-manager.ts:523 | the waiter with that ticket leaves and no other; a ticket that does not wait changes nothing |
| `LimiterLaws.TimerDoes` | src/async-job-manager.ts:511-516 | the waiter leaves without a permit, is counted, and then its timeout callback runs |
| `LimiterLaws.ReleaseGivesBack` | src/async-job-manager.ts:472-480 | when no waiter fits, both running counts drop by one, the permit is gone, and nothing else changes |
| `LimiterLaws.ReleaseHandsOver` | src/async-job-manager.ts:538-557 | otherwise the first waiter that fits gets a fresh permit and then its grant callback runs, whose throw gives the permit back |
| `LimiterLaws.ReleaseFrees` | src/async-job-manager.ts:472-480 | a released permit is never held again, whatever the callbacks do |
| `LimiterProofs.SaturatedMeans` | src/async-job-manager.ts:559-580 | saturated iff the global cap is reached or the queue is not empty |
| `LimiterProofs.SaturatedIsNotCannotRun` | src/async-job-manager.ts:414-416 | runs in which the documented equivalence fails in each direction |
| `LimiterProofs.SaturatedAgreesIff` | src/async-job-manager.ts:414-416 | in every run the flag means for a provider what its documentation says iff the global cap is reached, or somebody waits just when that provider is at its cap |
| `DurableEvents.JobIsWhatItWasTold` | src/async-job-manager.ts:5100-5167 | in every run of any instances a job's status is that of the first event that ended it, and its output is the text that arrived |
| `DurableEvents.UnsettledRowIs` | src/postgres-job-store-ops.ts:842-853 | in every run an unsettled row is orphaned iff a sweep came by, and else running iff somebody marked it |
| `DurableRow.SettledForever` | src/async-job-manager.ts:3600-3659 | in every interleaving of any number of instances, with calls failing or losing their answers, a completed, failed or canceled row never changes status again and row ownership is never given up |
| `DurableRow.OneAdmission` | src/async-job-manager.ts:4018-4083 | at most one terminal write is admitted, exactly when the row is settled, and an owner's status equals the row's |
| `DurableRow.RejectedNeverWrites` | src/async-job-manager.ts:3600-3659 | an instance whose terminal write was rejected changes nothing in the row by any step, queued and in-flight flushes included |
| `DurableRow.RejectedForever` | src/async-job-manager.ts:3600-3659 | and so for the rest of every run |
| `DurableRow.OrphanHeals` | src/async-job-manager.ts:2481-2486 | a row orphaned by mistake takes its owner's terminal status and output when the owner finishes; the status stays for good, and no other instance changes anything in the row again |
| `DurableRow.StrangersNeverMove` | src/async-job-manager.ts:3600-3659 | in the rest of every run an instance that neither owns a settled row nor has the answer that makes it the owner changes nothing in it |
| `DurableRow.StepKeeps` | src/async-job-manager.ts:3661-3701 | every step of every instance keeps the agreement between chains, flags and row |
| `DurableOutput.DurableIsPrefix` | src/async-job-manager.ts:3665-3701 | in every run of one owner and any sweeps the durable stdout is a prefix of the captured stdout |
| `DurableOutput.DurableIsPrefixFromStart` | src/async-job-manager.ts:3665-3701 | the same from the empty row on, with no assumption about the state |
| `DurableOutput.NothingIsLost` | src/async-job-manager.ts:3995-4107 | when store calls succeed and the two chains do not overlap, a closed job whose terminal chain has drained owns the row, and the row holds the status of the event that ended the job and all text that arrived |
| `DurableOutput.WrittenStatus` | src/async-job-manager.ts:4028-4083 | in every run of any instances the row ends with the status that ended the job at the instance whose write was admitted |
| `DurableOutput.RescueOffIsSilent` | src/async-job-manager.ts:3674-3682 | once the rescue is off and nothing is on its way, no schedule of the chains writes to the row again |
| `DurableOutput.StaleFlushTruncates` | src/async-job-manager.ts:3619-3623 | a run without that restriction in which the row ends with less than the output |
| `DurableOutput.OwnWriteDisablesRescue` | src/async-job-manager.ts:3634-3659 | a run in which the job's own cancellation rejects its flush and late output is never written |
| `DurableOutput.RescueSwitchedOffIff` | src/async-job-manager.ts:3634-3659 | once the terminal write has returned, draining the output chain switches the rescue off iff the flush in flight was sent under the open statuses or already rejected |
| `DurableOutput.AlwaysCompleteIff` | src/async-job-manager.ts:4018-4022 | when the late body of a closed job starts, every schedule that drains both write chains with store calls carried out leaves all output in the row iff the last flush to write carries all of it, or, with none to write, the row has it already or the rescue is on and cannot be switched off |
| `DurableOutput.LateOutputSurvivesIff` | src/async-job-manager.ts:4103-4107 | the same at every such point of every run of one owner, with those schedules as continuations of that run |
| `DurableOutput.LateOutputIff` | src/async-job-manager.ts:4018-4022 | one schedule: after the drain, a later chunk without a flush and the close, the row holds all output iff no rejected or doomed flush was in flight when the terminal write returned |
| `DurableOutput.RejectedIff` | src/async-job-manager.ts:4070-4080 | in every run of any instances, one whose terminal write has been answered was rejected iff the admitted write was not its own or lost its answer, and one that lost that answer never owns its row |
| `DurableOutput.RejectedForItsOwnIff` | src/async-job-manager.ts:4070-4080 | a rejected instance made the admitted write iff the answer to that write was lost |
| `DurableOutput.RejectedForItsOwn` | src/async-job-manager.ts:4070-4080 | a run in which a lost answer makes a job's own admitted write reject its retry |
| `DurableOutput.DrainedOutput` | src/async-job-manager.ts:3690-3701 | what a settled row holds once the remaining output chain has drained |
| `DurableOutput.CompleteIff` | src/async-job-manager.ts:3619-3623 | all output survives the drain iff the flush that writes last carries all of it |
| `JobLifecycle.TerminalForever` | src/async-job-manager.ts:5443-5529 | over all orders of 19 events a terminal status never changes and the permit is released at most once |
| `JobLifecycle.ReleasedExactlyOnce` | src/async-job-manager.ts:3252-3334 | after the terminal lifecycle has run through, a permit that was given has been released exactly once, or belongs to a deferred job and is lost |
| `JobLifecycle.NeverReturnedIff` | src/async-job-manager.ts:3329-3334 | over every run of every new job: an attached permit is never given back, whatever follows, iff the job never launched, no terminal transition is being persisted, and it is terminal or out of the table |
| `JobLifecycle.CanReturn` | src/async-job-manager.ts:3252-3334 | every attached permit that is not lost has a continuation that returns it |
| `JobLifecycle.CompletedMeansSuccess` | src/async-job-manager.ts:5080-5167 | a process job becomes completed only by a close with exit code 0 (or neither code nor signal), no cancellation or termination request, and its stdin accepted when there was one |
| `JobLifecycle.CompletedIff` | src/async-job-manager.ts:3166-3241 | over every run of every new job: a step completes it iff it is a clean close of a running process, or a successful settlement of a running request that nobody asked to stop |
| `JobLifecycle.EndedAs` | src/async-job-manager.ts:5216-5234 | over every run: an ending leaves the job completed, canceled or failed as the event says, and an ending by the gateway leaves its own exit code |
| `JobLaws.StartsFromQueue` | src/async-job-manager.ts:4809-4912 | a queued job starts when its slot comes, before or after its row is recorded; a deferred one when it is also released |
| `JobLaws.LaunchFails` | src/async-job-manager.ts:4944-4998 | a launch that cannot go on fails with the code of whoever asked the job to stop, or 1, or else 126 |
| `JobLaws.MarkedAsLive` | src/async-job-manager.ts:5169-5210 | stdin is under way iff the row was marked and there is a payload and a pipe; a failed marking or a missing pipe asks the job to stop with code 1 |
| `JobLaws.StdinOutcome` | src/async-job-manager.ts:5170-5190 | a closed pipe marks the request incomplete, any other failure asks the job to stop with code 1, and only the first failure counts |
| `JobLaws.StopsRecord` | src/async-job-manager.ts:5001-5022 | each stop of a live job records its code; outside Kit execution idle timeout and overflow end it at once |
| `JobLaws.CancelDoes` | src/async-job-manager.ts:5443-5529 | what a cancellation does to a waiting job, a request, a process being started, a running process and a Kit child |
| `JobLaws.UnaskedClose` | src/async-job-manager.ts:5080-5160 | a job nobody asked to stop ends with its child's exit code, 1 for a signal, 127 for a missing program, and 126 when its stdin was not accepted |
| `JobLaws.AskedClose` | src/async-job-manager.ts:5126-5145 | a job that was asked to stop fails with the recorded code whatever its child says, unless its stdin failed and its child too |
| `JobLaws.HttpSettles` | src/async-job-manager.ts:3166-3241 | a request settles as it came out, fails with the recorded code when it was asked to stop, and stays canceled when it was |
| `JobLaws.PersistedDoes` | src/async-job-manager.ts:3252-3334 | when an ending has been persisted the slot goes back; a Kit job keeps it until its child closed and the row is acknowledged |
| `JobLaws.CleanLife` | src/async-job-manager.ts:4931-5167 | a started process that is given its input and exits cleanly completes, and its slot goes back once |
| `JobLifecycle.CompletedStaysClean` | src/async-job-manager.ts:5001-5167 | a completed job keeps exit code 0 and no stop request whatever comes later |
| `JobLifecycle.StepKeeps` | src/async-job-manager.ts:4739-4793 | every event keeps the invariant relating status, launch phase, permit and pending terminal transitions |
| `JobLifecycle.StrandedPermit` | src/async-job-manager.ts:4739-4793 | shutdown during recordStart leads a deferred job to a lost permit |
| `JobLifecycle.HeldPermitLost` | src/async-job-manager.ts:2432-2466 | so does a recordStart that fails after the queue granted the slot |
| `Admission.EveryInterleaving` | src/async-job-manager.ts:1844-1912 | disposed implies not admitting and no sweep, recovery or GC issued afterwards; admitting implies fewer than three failed ticks in a row since the last success or admission; each admission follows a registration and then a heartbeat of the same restore; each recovery follows three successful ticks in a row since the last failed tick, rejected restore or admission; at most one sweep body |
| `Admission.ApplyKeeps` | src/async-job-manager.ts:2003-2135 | each event at each await point keeps the gate, restore, sweep and log invariants |
| `Admission.GateIff` | src/async-job-manager.ts:1889-1910 | the gate is open iff some restore was admitted and since then no tick was the third in a row to fail, no restore was rejected, and nobody disposed |
| `Admission.SweepTrustsOldGate` | src/async-job-manager.ts:2083-2109 | a sweep about to recover stale jobs still has an open gate iff, since it began or a later admission, no tick was the third in a row to fail and no registration, heartbeat, sweep or reconciliation of a restore was rejected |
| `Admission.LateRegistrationIff` | src/async-job-manager.ts:1941-1966 | after disposal a registration can still be issued iff a tick's heartbeat was in flight then |
| `Admission.DisposedMidHeartbeat` | src/async-job-manager.ts:1844-1853 | a run that is disposed with a tick's heartbeat in flight |
| `Admission.SweepAfterQuiescing` | src/async-job-manager.ts:2093-2109 | a reachable state in which it goes on with the gate closed |
| `Admission.RestoresAreDistinct` | src/async-job-manager.ts:2003-2047 | no two restores of a run share a number, so the same restore is one restore |
| `Admission.RestoreEnds` | src/async-job-manager.ts:2036-2047 | after its admission a restore reconciles iff the gate is still open, and ends; a failure on the way closes the gate and recovery counts anew |
| `Admission.RepairedTick` | src/async-job-manager.ts:1941-1966 | a tick that finds its row gone counts as what its re-registration comes to |
| `Admission.SkipsAtMostOnce` | src/async-job-manager.ts:2085-2088 | from an open, idle state a sweep request is skipped at most once |
| `Admission.SweepRunsThrough` | src/async-job-manager.ts:2083-2135 | a sweep that is not skipped recovers iff its candidates could be read, ends, and lets the reaper collect |
| `Admission.OutageEnds` | src/async-job-manager.ts:1881-1888 | from any reachable closed state between ticks, three healthy ticks and a restore that goes through open the gate |
| `LeaseTiming.TwoBeatsExactly` | src/config.ts:392-402 | a configuration protects every instance never silent for more than two intervals, in every run with any sweepers, iff the lease TTL is at least two heartbeat intervals |
| `LeaseTiming.AcceptedProtects` | src/config.ts:392-422 | so every configuration that passes validation does |
| `LeaseTiming.AcceptedIff` | src/config.ts:392-422 | validation accepts exactly the settings with a positive heartbeat interval that protect live instances, where the http grace covers a lease and instance rows outlive one |
| `LeaseTiming.Renewals` | src/job-store.ts:1435-1456 | the owner's heartbeat, the marking of a queued job and the pid grace each renew the lease for one TTL from now |
| `LeaseTiming.SelectFindsAlive` | src/job-store.ts:1460-1468 | a sweep will give grace exactly to the stale process jobs of its host whose pid it found alive |
| `LeaseTiming.FinishEnds` | src/job-store.ts:1505-1513 | a finished job stays ended and holds no lease, whatever sweeps follow |
| `LeaseTiming.OrphanedExactlyWhen` | src/job-store.ts:1505-1525 | a sweep orphans an open row iff more than one TTL has passed since the lease was last written, the http grace is over, and its process was not found alive |
| `LeaseTiming.StoppedOwnerIsRecovered` | src/async-job-manager.ts:2083-2113 | once the owner stops writing, a sweep after more than one TTL since the last lease write leaves its process job orphaned, absent the pid grace |
| `LeaseTiming.GraceOncePerInstance` | src/async-job-manager.ts:2405-2423 | no instance ever gives the pid grace to the same row twice |
| `LeaseTiming.FirstGraceIff` | src/async-job-manager.ts:2100-2105 | in every run, a grace that a sweep is about to give is the row's first iff the row still has its pid |
| `LeaseTiming.TwoSweepersTwoGraces` | src/job-store.ts:1527-1531 | but two instances can each give it |
| `LeaseTiming.RowKeeps` | src/postgres-job-store-ops.ts:867-888 | a lease is always the last stamp plus one TTL and never older than the owner's last heartbeat |
| `WindowsArgv.QuoteArg` | src/executor.ts:348-370 | the quoting loop writes exactly the specified encoding |
| `WindowsArgv.EscapeMetaChars` | src/executor.ts:372-381 | the escaping loop writes exactly the specified escaping |
| `WindowsArgv.BuildComposite` | src/executor.ts:288-333 | the composite `cmd.exe` argument for a path and an argument vector |
| `WindowsArgv.RoundTrip` | src/executor.ts:309-381 | for every argument vector cmd.exe's caret rules give back the path and the quoted arguments, and the CommandLineToArgvW rules give back the original arguments |
| `WindowsArgv.NothingActive` | src/executor.ts:372-381 | no metacharacter of the path or an argument keeps its meaning for cmd.exe |
| `WindowsArgv.ShellSeesOnlyTokens` | src/executor.ts:314-333 | every character that cmd.exe could act on reaches it as a literal, and the only spaces that separate are the ones in front of each argument |
| `WindowsArgv.PlainStaysPlain` | src/executor.ts:372-381 | text without such characters is passed on as it is |
| `WindowsArgv.CompositeInjective` | src/executor.ts:309-333 | different argument vectors never share a command line |
| `CliInputLimits.MeasurePreflight` | src/cli-input-limits.ts:201-244 | the preflight loop computes the specified bound |
| `CliInputLimits.MeasureArgv` | src/cli-input-limits.ts:160-164 | the exact measure of a vector |
| `CliInputLimits.MeasureUpperBound` | src/cli-input-limits.ts:181-188 | the measure for a Windows vector that is not a shim |
| `CliInputLimits.AssertArgvSize` | src/cli-input-limits.ts:263-309 | accepts, or names the first failing check, in the source's order |
| `CliInputLimits.AcceptedIff` | src/cli-input-limits.ts:263-309 | accepted iff no NUL, at most 2,048 arguments, and the platform's measure within its budget |
| `CliInputLimits.ArgvBytesExact` | src/cli-input-limits.ts:160-164 | the exact measure is the size of the terminated strings handed to exec |
| `CliInputLimits.UpperBoundCovers` | src/cli-input-limits.ts:176-188 | the Windows bound covers every vector quoted by the backslash rules |
| `CliInputLimits.UpperBoundIsTightThroughout` | src/cli-input-limits.ts:176-188 | and is reached in every element |
| `CliInputLimits.Utf8IsShortest` | src/cli-input-limits.ts:226-229 | a code point is counted as the fewest bytes that can hold it |
| `CliInputLimits.OtherSurfaces` | src/executor.ts:273-286 | a command that was not found, and a PowerShell script, are checked as ordinary Windows vectors |
| `CliInputLimits.ArgBoundExact` | src/cli-input-limits.ts:208-242 | the bound of one argument equals its exact escaped length plus one per harmless punctuation character |
| `CliInputLimits.ShimAcceptedIff` | src/cli-input-limits.ts:263-309 | after a passed preflight the final check passes iff the escaped path exceeds the headroom by no more than slack and overcount |
| `CliInputLimits.TwoPhaseSound` | src/cli-input-limits.ts:201-309 | what the preflight admits fits the exact vector, for all arguments, whenever the escaped path is at most 1004 plus twice the command |
| `CliInputLimits.TwoPhaseSoundIff` | src/cli-input-limits.ts:193-201 | the two phases agree on every vector iff the path fits |
| `CliInputLimits.NativeFits` | src/cli-input-limits.ts:181-188 | after a passed preflight a native executable with a path of at most 8,522 bytes passes the final check |
| `OutputCapture.JobCapture.AppendOutput` | src/async-job-manager.ts:5752-5815 | one chunk is appended whole or dropped whole, and an overflow of a running job sets its termination fields |
| `OutputCapture.CaptureIsKept` | src/async-job-manager.ts:5752-5815 | in every run each stream is its kept chunks in arrival order, kept by the greedy rule; dropped bytes and the truncation flag account for all others |
| `OutputCapture.Conserved` | src/async-job-manager.ts:5757-5760 | with length-preserving decoding received equals stored plus dropped, stored is within the cap, and truncated holds iff more than the cap arrived |
| `OutputCapture.StoredBound` | src/async-job-manager.ts:5757-5758 | without it stored bytes are within three times the cap |
| `OutputCapture.CapHoldsIff` | src/async-job-manager.ts:5757-5758 | for any set of chunks, every run over them under every cap stays within the cap iff none of them grows when decoded |
| `OutputCapture.TripleIsReached` | src/async-job-manager.ts:5809-5814 | under every cap, one chunk of that many undecodable bytes stores three times the cap, untruncated |
| `OutputCapture.DropLeavesAHole` | src/async-job-manager.ts:4011-4013 | as the terminal path's comment says, only the overflowing chunk is rejected: one that fits after it is appended right behind what was stored before |
| `OutputCapture.KilledIff` | src/async-job-manager.ts:5761-5790 | in every run the job is killed iff a chunk was dropped before anything else ended it, and then has failed with exit code 126 |
| `OutputCapture.OverflowKills` | src/async-job-manager.ts:5761-5790 | a running job is killed with exit code 126 exactly when a chunk is dropped, once outside Kit execution |
| `OutputPaging.PageText` | src/async-job-manager.ts:1192-1212 | the page starts at the clamped offset, is shorter than asked for only at the end, and says whether text follows, where, and how long the text is |
| `OutputPaging.RedactKnownTextPage` | src/async-job-manager.ts:1220-1245 | the redaction loop equals the specified page |
| `OutputPaging.RedactAligned` | src/async-job-manager.ts:1220-1245 | a redacted page shows every position outside the leftmost non-overlapping occurrences, in order, and covers the others by markers |
| `OutputPaging.OccurrencesAreHit` | src/async-job-manager.ts:1220-1245 | every occurrence of the secret, overlapping ones included, has a redacted position |
| `OutputPaging.RedactionIgnoresPaging` | src/async-job-manager.ts:5381-5403 | for any page sizes that cover the text, the redacted pages with markers dropped are the text with those occurrences deleted, and no run between markers, across pages too, contains the secret |
| `OutputPaging.PartialReadIsClean` | src/async-job-manager.ts:5381-5403 | a reader that stops early has seen the surviving characters of what it read and no secret |
| `OutputPaging.LeftmostIsStable` | src/async-job-manager.ts:1221-1245 | the leftmost occurrences that fit into a text stay the same ones however the text goes on |
| `OutputPaging.GrowingReadsAreClean` | src/async-job-manager.ts:5381-5403 | pages read one after another while the output grows show exactly the characters not hidden when they were read, and no secret between markers, for all growths and page sizes |
| `OutputPaging.WalkCovers` | src/async-job-manager.ts:1204-1213 | following the offsets skips nothing and reads exactly as far as the sizes add up to |
| `FlightRecorder.Recorder.LogStart` | src/flight-recorder-pg.ts:415-445 | both rows are inserted, or neither |
| `FlightRecorder.Recorder.LogComplete` | src/flight-recorder-pg.ts:447-489 | the two guarded updates write both rows from one completion or change nothing |
| `FlightRecorder.Recorder.RecordCompressionTelemetry` | src/flight-recorder-pg.ts:98-104 | written once and never on a migrated row; requests, other rows, rank and outcome stay |
| `FlightRecorder.Recorder.RecordRouting` | src/flight-recorder-pg.ts:107-112 | never written on a migrated row; requests, other rows, rank and outcome stay |
| `FlightRecorder.LastOfHighestRank` | src/flight-recorder-pg.ts:78-96 | in every run response and metadata columns come from one completion, the last of those with the highest rank |
| `FlightRecorder.RequestCarries` | src/flight-recorder-pg.ts:73-96 | in every run from the empty store, from the first start of a request on, its rows carry the prompt and the last of the highest-ranking completions since, or none yet |
| `FlightRecorder.RequestTelemetry` | src/flight-recorder-pg.ts:98-112 | and its first compression record and its last routing record since |
| `FlightRecorder.PresumedNeverWins` | src/flight-recorder-pg.ts:456-487 | an observed completion is never overwritten by presumed ones before or after it |
| `FlightRecorder.RowsOnlyAdvance` | src/flight-recorder-pg.ts:88-104 | ranks never decrease, compression telemetry is written once, prompts are never rewritten |
| `FlightRecorder.MigratedRowIsFrozen` | src/flight-recorder-runtime.ts:25 | no live write changes a row of the reserved rank |
| `FlightRecorder.NoStartNoRow` | src/flight-recorder-pg.ts:78-86 | a completion without a start fabricates no row |
| `FlightOwnership.Ownership.Start` | src/flight-ownership.ts:49-53 | only the first call enqueues the start write; every call returns the tail |
| `FlightOwnership.Ownership.CompleteInline` | src/flight-ownership.ts:72-75 | enqueues a completion unless the manager owns it; returns the tail |
| `FlightOwnership.OneAtATimeInOrder` | src/flight-ownership.ts:26-91 | in every run and every order of promise reactions, sinks run one at a time in the order of the entitled calls, each after the one before it settled, even if that failed, and no other call reaches a sink |
| `FlightOwnership.OneStart` | src/flight-ownership.ts:49-53 | the start sink is entitled to at most one write |
| `FlightOwnership.NothingAfterTransfer` | src/flight-ownership.ts:56-75 | no completion requested after the transfer reaches its sink |
| `FlightOwnership.ReturnedPromises` | src/flight-ownership.ts:87-91 | the promise any call handed out never rejects at any later moment, and once settled says that all writes entitled up to that call have ended |
| `FlightOwnership.NeverStuck` | src/flight-ownership.ts:87-91 | a failed write poisons nothing: some reaction is always due until every entitled write has ended |
| `TerminationFence.Fence.Request` | src/executor.ts:525-537 | signals at once, arms the timer at most once, or kills and unregisters |
| `TerminationFence.RequestDoes` | src/executor.ts:525-537 | the signal asked for is sent at once; then a kill and the end of the registration, or the armed deadline kept, or one armed a grace away |
| `TerminationFence.KilledWithinGrace` | src/executor.ts:534-537 | a group first asked to end with a grace is killed no later than the grace allows, in every run |
| `TerminationFence.NotKilledEarly` | src/executor.ts:516-537 | and no earlier, unless a later request says so |
| `TerminationFence.NeverGivenUpEarly` | src/executor.ts:510-545 | the group is unregistered only when no request is without a SIGKILL after it; pending holds iff a timer is armed and iff a kill is owed |
| `TerminationFence.KilledInTime` | src/executor.ts:534-537 | further requests never postpone the SIGKILL beyond the armed deadline |
| `ChildStdin.StdinDelivery.HandleError` | src/child-stdin.ts:103-108 | marks the delivery failed and reports the first failure only, normalized |
| `ChildStdin.DeliveryMeans` | src/child-stdin.ts:88-131 | exactly the first failure that reaches a handler is reported; succeeded iff the write callback came without an error and no failure was seen before or after it |
| `ChildStdin.NormalizeMeans` | src/child-stdin.ts:34-54 | only the codes of a pipe that closed count as an incomplete request |
| `ChildStdin.FailedForever` | src/child-stdin.ts:103-118 | a failed delivery stays failed and nothing more is reported |
| `ChildStdin.CompleteAtClose` | src/child-stdin.ts:69-74 | at child close delivery is complete iff the whole payload was taken by then and no failure had been seen |
| `Installer.ReplaceDirs` | installer/main.go:1055-1086 | on nil every destination holds its source tree and nothing is parked; when a rename fails and rollback meets no fault every destination is as it was; when only an early removal fails this holds iff no earlier destination existed |
| `Installer.FirstStranded` | installer/main.go:1058-1062 | a state after such a failure in which the first destination is gone from its place |
| `Installer.RollbackDirs` | installer/main.go:1088-1098 | unless one of its own operations fails, every prepared destination is restored and nothing else is touched |
| `Installer.RollbackKeeps` | installer/main.go:1088-1098 | a rollback of the prepared swaps restores all of them and leaves foreign directories alone |
| `Installer.ParkingKeeps` | installer/main.go:1058-1070 | parking one destination keeps all other swaps as they were |

## Left out

- Kit jobs in the durable-row model: their stored output is withheld and their terminal write is retried by its own rules; the lifecycle model includes them, the row model does not.
- OutputPaging.GrowingReadsAreClean: the identifier is taken as known at every read; a page read before the output that reveals it is not redacted by the program.
- Redaction of errors and of the provider's native transcript, and the parsing that finds the session identifier: only paged stdout and stderr text is modelled.
- The protocols of `DurableRow`, `JobLifecycle`, `Admission` and `LeaseTiming` are transition systems on values, because their unit of execution is the stretch between two awaits; aliasing of the job record is not modelled.
- DurableOutput.DurableIsPrefix: speaks of stdout only, since a cancellation or failure may replace stderr; it assumes that no second instance writes output of its own to the row.
- LeaseTiming.StoppedOwnerIsRecovered: counts from the last lease write rather than from the last heartbeat, because a job admitted after that heartbeat carries a later lease.
- LeaseTiming.TwoBeatsExactly: time is the database clock; the http grace, which the store compares with a start time written by the manager's clock, is taken as given.
- Rows without a lease, written before leases existed: runs start from an empty store.
- TerminationFence.KilledInTime: assumes that a timer fires no later than its deadline.
- JobLimiter.JobLimiter.FireTimer: real time is left out; a timer is an event that may come at any moment.
- LimiterProofs.EveryRun: a callback that makes limiter calls without end, say by queueing itself again and releasing its permit each time, is not represented.
- Percent expansion, newlines and the program name in `cmd.exe` command lines: the round trip covers the argument tail, and the path is taken as already normalised.
- CliInputLimits.NativeFits: nothing is claimed for PowerShell scripts, whose final vector repeats the path beside fixed options, nor for the environment-size check.
- Per-call overrides of the argument size limit: the platform limits are used.
- OutputCapture.JobCapture.AppendOutput: ends at the method's first await; the decoded text of a chunk is a parameter.
- Installer.ReplaceDirs: directories are opaque trees, none inside another, and distinct swaps name distinct paths.
- Retention, which may delete any transcript row, and failed transactions, which leave no trace, in the flight recorder.
- Process spawning, sockets, SQL engines, node streams, logging and metrics: only the events and guards the code reacts to.
- Retry and circuit breaking, progress tracking, request deduplication, MCP artifacts, approvals, configuration loading beyond the lease inequalities, API adapters and health projections: branch tables or plumbing with no property over runs.
